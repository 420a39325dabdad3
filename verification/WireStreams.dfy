/** Round trips of framed streams. */
module WireStreams {
  import opened Bags
  import opened Wire

  /** Write accepts every frame. */
  ghost predicate Sent(c: Codec, fs: seq<Frame>) {
    forall i :: 0 <= i < |fs| ==> Encode(c, fs[i]).Bytes?
  }

  /** Write accepts every frame, readers know its version, and the codec is faithful on it. */
  ghost predicate AllReadable(c: Codec, fs: seq<Frame>) {
    Sent(c, fs)
    && forall i :: 0 <= i < |fs| ==> Faithful(c, Versioned(fs[i])) && (fs[i].v == 0 || fs[i].v == VERSION)
  }

  /** The length is read with its most significant byte first: lengths are ordered as their bytes
      are, compared from the left. */
  lemma BigEndian(a: Bytes, b: Bytes)
    requires |a| == 4 && |b| == 4
    ensures Uint32(a) < Uint32(b) <==> exists i :: 0 <= i < 4 && a[i] < b[i] && a[..i] == b[..i]
    ensures Uint32([0, 0, 0, 1]) == 1 && PutUint32(1) == [0, 0, 0, 1] && PutUint32(256) == [0, 0, 1, 0]
  {
    if a[0] != b[0] {
      FirstDifference(a, b, 0);
    } else if a[1] != b[1] {
      FirstDifference(a, b, 1);
    } else if a[2] != b[2] {
      FirstDifference(a, b, 2);
    } else if a[3] != b[3] {
      FirstDifference(a, b, 3);
    } else {
      assert a == b;
    }
  }

  lemma FirstDifference(a: Bytes, b: Bytes, i: nat)
    requires |a| == 4 && |b| == 4 && i < 4 && a[i] != b[i] && forall k :: 0 <= k < i ==> a[k] == b[k]
    ensures Uint32(a) < Uint32(b) <==> a[i] < b[i]
    ensures a[i] < b[i] <==> exists j :: 0 <= j < 4 && a[j] < b[j] && a[..j] == b[..j]
  {
    assert a[..i] == b[..i];
    forall j | 0 <= j < 4 && a[j] < b[j] && a[..j] == b[..j]
      ensures j == i
    {
    }
  }

  /** A frame on the wire: the letters ZMQC, the length of the payload, the payload, which is the encoded
      frame with version 1 unless it names another; frames that cannot be encoded, or whose payload
      is over two mebibytes, are not sent. */
  lemma FrameSays(c: Codec, f: Frame)
    ensures var raw, e := c.marshal(if f.v == 0 then f.(v := 1) else f), Encode(c, f);
      if raw.None? then e == Unsent(BadEncoding)
      else if |raw.value| > 2097152 then e == Unsent(TooBig)
      else
        && e.Bytes? && |e.bytes| == 8 + |raw.value| && (forall i :: 0 <= i < 4 ==> e.bytes[i] as int == "ZMQC"[i] as int)
        && Uint32(e.bytes[4..8]) == |raw.value| && e.bytes[8..] == raw.value
  {
    var raw := c.marshal(Versioned(f));
    if raw.Some? && |raw.value| <= MAX_BODY {
      var e := Encode(c, f).bytes;
      assert e[4..8] == PutUint32(|raw.value|);
    }
  }

  /** The four length bytes are those of the length they are read as. */
  lemma PutUint32Inverts(b: Bytes)
    requires |b| == 4
    ensures PutUint32(Uint32(b)) == b
  {
    var (w, x, y, z) := (b[0] as nat, b[1] as nat, b[2] as nat, b[3] as nat);
    var n := Uint32(b);
    assert n == 256 * (256 * (256 * w + x) + y) + z;
    assert n / 0x100 == 256 * (256 * w + x) + y && n % 0x100 == z;
    assert n / 0x1_0000 == 256 * w + x;
    assert n / 0x100_0000 == w;
  }

  /** Some payload that decodes to `f` is what follows its header. */
  ghost predicate Framed(c: Codec, s: Bytes, raw: Bytes, f: Frame) {
    0 < |raw| <= MAX_BODY && MAGIC + PutUint32(|raw|) + raw <= s && c.unmarshal(raw) == Some(f)
  }

  lemma GotIsFramed(c: Codec, s: Bytes)
    requires Parse(c, s).Got?
    ensures var r := Parse(c, s);
      && (r.frame.v == 0 || r.frame.v == VERSION) && 8 < r.count <= |s|
      && Framed(c, s, s[8..r.count], r.frame)
  {
    var n := Uint32(s[4..8]);
    var raw := s[8..8 + n];
    PutUint32Inverts(s[4..8]);
    hide PutUint32, Uint32;
    assert MAGIC + PutUint32(|raw|) + raw == s[..8 + n];
  }

  lemma FramedIsGot(c: Codec, s: Bytes, raw: Bytes, f: Frame)
    requires Framed(c, s, raw, f) && (f.v == 0 || f.v == VERSION)
    ensures Parse(c, s) == Got(f, 8 + |raw|)
  {
    var len := PutUint32(|raw|);
    hide PutUint32, Uint32;
    var e := MAGIC + len + raw;
    assert s[..4] == e[..4] == MAGIC;
    assert s[4..8] == e[4..8] == len;
    assert s[8..8 + |raw|] == e[8..] == raw;
  }

  /** A read yields a frame and a count if and only if the stream starts with the magic, the
      length of a payload within the bound, and that payload, which decodes to that frame in
      a version the reader knows; the count is the header and the payload. */
  lemma ReadIffFramed(c: Codec, s: Bytes, f: Frame, count: nat)
    ensures Parse(c, s) == Got(f, count)
      <==> (f.v == 0 || f.v == VERSION) && exists raw: Bytes :: Framed(c, s, raw, f) && count == 8 + |raw|
  {
    hide Parse, Framed;
    if Parse(c, s) == Got(f, count) {
      GotIsFramed(c, s);
      assert Framed(c, s, s[8..count], f);
    }
    if raw: Bytes :| (f.v == 0 || f.v == VERSION) && Framed(c, s, raw, f) && count == 8 + |raw| {
      FramedIsGot(c, s, raw, f);
    }
  }

  lemma ParseHeader(c: Codec, f: Frame, s: Bytes)
    requires Encode(c, f).Bytes? && Faithful(c, Versioned(f)) && |s| >= 8 && s[..8] == Encode(c, f).bytes[..8]
    ensures s[..4] == MAGIC && Uint32(s[4..8]) == |Encode(c, f).bytes| - 8
    ensures 0 < |Encode(c, f).bytes| - 8 <= MAX_BODY
  {
    var raw := c.marshal(Versioned(f)).value;
    var e := Encode(c, f).bytes;
    assert s[..4] == s[..8][..4] && e[..8][..4] == MAGIC;
    assert s[4..8] == s[..8][4..] && e[..8][4..] == PutUint32(|raw|);
  }

  /** A written frame is read back with its exact size if and only if its version is absent
      or current; any other version costs the whole frame and an error. */
  lemma FrameRoundTrip(c: Codec, f: Frame, rest: Bytes)
    requires Encode(c, f).Bytes? && Faithful(c, Versioned(f))
    ensures var e := Encode(c, f).bytes;
      Parse(c, e + rest) ==
        if f.v == 0 || f.v == VERSION then Got(Versioned(f), |e|) else Failed(BadVersion, |e|)
  {
    var e := Encode(c, f).bytes;
    var raw := c.marshal(Versioned(f)).value;
    assert (e + rest)[..8] == e[..8];
    ParseHeader(c, f, e + rest);
    assert (e + rest)[8..|e|] == raw;
  }

  /** A frame cut short is an interruption that consumed exactly what was there. */
  lemma CutFrame(c: Codec, f: Frame, k: nat)
    requires Encode(c, f).Bytes? && Faithful(c, Versioned(f)) && k < |Encode(c, f).bytes|
    ensures Parse(c, Encode(c, f).bytes[..k]) == Failed(Interrupted, k)
  {
    var e := Encode(c, f).bytes;
    if k >= 8 {
      assert e[..k][..8] == e[..8];
      ParseHeader(c, f, e[..k]);
    }
  }

  /** The frames one after the other, as Write puts them on a stream. */
  ghost function Concat(c: Codec, fs: seq<Frame>): Bytes
    requires Sent(c, fs)
    decreases |fs|
  {
    if fs == [] then [] else Encode(c, fs[0]).bytes + Concat(c, fs[1..])
  }

  /** Where frame `k` starts. */
  ghost function Offset(c: Codec, fs: seq<Frame>, k: nat): nat
    requires k <= |fs| && Sent(c, fs)
    decreases |fs|
  {
    if k == 0 then 0 else |Encode(c, fs[0]).bytes| + Offset(c, fs[1..], k - 1)
  }

  /** Reading until the first failure: the frames with their byte counts, then the failure. */
  ghost function ParseAll(c: Codec, s: Bytes): (seq<(Frame, nat)>, ReadOutcome)
    decreases |s|
  {
    var r := Parse(c, s);
    if r.Failed? then ([], r)
    else
      var (got, last) := ParseAll(c, s[r.count..]);
      ([(r.frame, r.count)] + got, last)
  }

  ghost function Expected(c: Codec, fs: seq<Frame>): (r: seq<(Frame, nat)>)
    requires Sent(c, fs)
    ensures |r| == |fs|
    decreases |fs|
  {
    if fs == [] then []
    else [(Versioned(fs[0]), |Encode(c, fs[0]).bytes|)] + Expected(c, fs[1..])
  }

  /** A stream of written frames cut at any byte is read back as its complete frames, with
      their sizes, followed by one failure that counts exactly the leftover bytes. */
  lemma {:induction false} StreamCut(c: Codec, fs: seq<Frame>, cut: nat, k: nat)
    requires AllReadable(c, fs)
    requires k <= |fs| && Offset(c, fs, k) <= cut <= |Concat(c, fs)|
    requires k < |fs| ==> cut < Offset(c, fs, k + 1)
    ensures ParseAll(c, Concat(c, fs)[..cut])
         == (Expected(c, fs[..k]), Failed(Interrupted, cut - Offset(c, fs, k)))
    decreases |fs|
  {
    hide Parse, Encode, Concat, ParseAll, Offset, AllReadable, Expected;
    if fs == [] {
      NothingSent(c, fs, cut, k);
    } else if k == 0 {
      NoFrame(c, fs, cut);
    } else {
      CutBehindFirst(c, fs, cut, k);
      StreamCut(c, fs[1..], cut - |Encode(c, fs[0]).bytes|, k - 1);
      LaterCut(c, fs, cut, k);
    }
  }

  lemma NothingSent(c: Codec, fs: seq<Frame>, cut: nat, k: nat)
    requires AllReadable(c, fs) && fs == [] && k == 0 && cut <= |Concat(c, fs)|
    ensures ParseAll(c, Concat(c, fs)[..cut]) == (Expected(c, fs[..k]), Failed(Interrupted, cut - Offset(c, fs, k)))
  {
  }

  lemma NoFrame(c: Codec, fs: seq<Frame>, cut: nat)
    requires AllReadable(c, fs) && fs != [] && cut < Offset(c, fs, 1) && cut <= |Concat(c, fs)|
    ensures ParseAll(c, Concat(c, fs)[..cut]) == (Expected(c, fs[..0]), Failed(Interrupted, cut - Offset(c, fs, 0)))
  {
    FirstCut(c, fs, cut);
    hide Parse, Encode, Concat, ParseAll;
  }

  /** The same cut in the stream behind the first frame. */
  lemma CutBehindFirst(c: Codec, fs: seq<Frame>, cut: nat, k: nat)
    requires AllReadable(c, fs) && 0 < k <= |fs| && Offset(c, fs, k) <= cut <= |Concat(c, fs)|
    requires k < |fs| ==> cut < Offset(c, fs, k + 1)
    ensures Encode(c, fs[0]).Bytes?
    ensures var (rest, tail) := (cut - |Encode(c, fs[0]).bytes|, fs[1..]);
      && rest >= 0 && AllReadable(c, tail) && Offset(c, tail, k - 1) <= rest <= |Concat(c, tail)|
      && (k - 1 < |tail| ==> rest < Offset(c, tail, k))
  {
    hide Encode;
  }

  lemma FirstCut(c: Codec, fs: seq<Frame>, cut: nat)
    requires AllReadable(c, fs) && fs != [] && cut < Offset(c, fs, 1) && cut <= |Concat(c, fs)|
    ensures ParseAll(c, Concat(c, fs)[..cut]) == ([], Failed(Interrupted, cut))
  {
    var e := Encode(c, fs[0]).bytes;
    assert Offset(c, fs, 1) == |e| + Offset(c, fs[1..], 0);
    assert Concat(c, fs)[..cut] == e[..cut];
    CutFrame(c, fs[0], cut);
    hide Parse, Encode, Concat;
  }

  /** One more frame in front of a stream. */
  lemma LaterCut(c: Codec, fs: seq<Frame>, cut: nat, k: nat)
    requires AllReadable(c, fs) && 0 < k <= |fs| && Offset(c, fs, k) <= cut <= |Concat(c, fs)|
    requires var rest := cut - |Encode(c, fs[0]).bytes|;
      ParseAll(c, Concat(c, fs[1..])[..rest]) == (Expected(c, fs[1..][..k - 1]), Failed(Interrupted, rest - Offset(c, fs[1..], k - 1)))
    ensures ParseAll(c, Concat(c, fs)[..cut]) == (Expected(c, fs[..k]), Failed(Interrupted, cut - Offset(c, fs, k)))
  {
    var e, rest := Encode(c, fs[0]).bytes, Concat(c, fs[1..])[..cut - |Encode(c, fs[0]).bytes|];
    assert Concat(c, fs)[..cut] == e + rest;
    FrameRoundTrip(c, fs[0], rest);
    hide Parse, Encode, Concat;
    assert (e + rest)[|e|..] == rest;
    assert fs[..k][0] == fs[0] && fs[..k][1..] == fs[1..][..k - 1];
  }

  /** Every cut has its number of complete frames. */
  lemma {:induction false} CutIndex(c: Codec, fs: seq<Frame>, cut: nat) returns (k: nat)
    requires Sent(c, fs)
    requires cut <= |Concat(c, fs)|
    ensures k <= |fs| && Offset(c, fs, k) <= cut && (k < |fs| ==> cut < Offset(c, fs, k + 1))
    decreases |fs|
  {
    if fs == [] {
      k := 0;
    } else {
      var n := |Encode(c, fs[0]).bytes|;
      if cut < n {
        k := 0;
        assert Offset(c, fs, 1) == n + Offset(c, fs[1..], 0);
      } else {
        k := CutIndex(c, fs[1..], cut - n);
        k := k + 1;
      }
    }
  }

  ghost predicate OnBoundary(c: Codec, fs: seq<Frame>, p: nat)
    requires Sent(c, fs)
  {
    exists k :: 0 <= k <= |fs| && Offset(c, fs, k) == p
  }

  lemma {:induction false} OffsetsGrow(c: Codec, fs: seq<Frame>, i: nat, j: nat)
    requires Sent(c, fs)
    requires i < j <= |fs|
    ensures Offset(c, fs, i) < Offset(c, fs, j)
    decreases |fs|
  {
    if i > 0 { OffsetsGrow(c, fs[1..], i - 1, j - 1); }
  }

  /** The final count is zero if and only if the cut is on a frame boundary. */
  lemma ZeroIffBoundary(c: Codec, fs: seq<Frame>, cut: nat)
    requires AllReadable(c, fs)
    requires cut <= |Concat(c, fs)|
    ensures ParseAll(c, Concat(c, fs)[..cut]).1.count == 0 <==> OnBoundary(c, fs, cut)
  {
    var k := CutIndex(c, fs, cut);
    StreamCut(c, fs, cut, k);
    if OnBoundary(c, fs, cut) {
      var j :| 0 <= j <= |fs| && Offset(c, fs, j) == cut;
      if j < k { OffsetsGrow(c, fs, j, k); }
      if k + 1 < j { OffsetsGrow(c, fs, k + 1, j); }
    }
  }
}
