/** What a client reads: pings are answered and skipped, and a read that stops inside a frame
    leaves the session desynchronized. */
module ClientSpec {
  import opened Wire
  import opened WireStreams

  datatype Reply = Reply(frame: Frame) | ReadError | WriteError | Desynchronized

  /** One call of readSkipPing: its reply, the bytes it consumed, the pongs it wrote, and
      whether it set the desynchronization flag. */
  datatype Reading = Reading(reply: Reply, consumed: nat, pongs: seq<Frame>, desync: bool)

  function Message(op: string, id: string): Frame {
    Frame(0, op, id, "", "", [], [], "", 0, "")
  }

  function Pong(id: string): Frame { Message("pong", id) }

  function SkipPings(c: Codec, s: Bytes): (r: Reading)
    ensures r.consumed <= |s|
    decreases |s|
  {
    match Parse(c, s)
    case Failed(_, n) => Reading(if n > 0 then Desynchronized else ReadError, n, [], n > 0)
    case Got(f, n) =>
      if f.op != "ping" then Reading(Reply(f), n, [], false)
      else
        var r := SkipPings(c, s[n..]);
        Reading(r.reply, n + r.consumed, [Pong(f.id)] + r.pongs, r.desync)
  }

  /** One pong for each ping, under its id. */
  function PongsFor(pings: seq<Frame>): (r: seq<Frame>)
    ensures |r| == |pings| && forall i :: 0 <= i < |pings| ==> r[i] == Pong(pings[i].id)
  {
    if pings == [] then [] else [Pong(pings[0].id)] + PongsFor(pings[1..])
  }

  ghost predicate Readable(c: Codec, f: Frame) {
    Encode(c, f).Bytes? && Faithful(c, Versioned(f)) && (f.v == 0 || f.v == VERSION)
  }

  lemma ConcatSnoc(c: Codec, fs: seq<Frame>, f: Frame)
    requires AllReadable(c, fs + [f])
    ensures Readable(c, f) && (fs == [] ==> Concat(c, fs + [f]) == Encode(c, f).bytes)
    ensures fs != [] ==> Readable(c, fs[0]) && AllReadable(c, fs[1..] + [f])
    ensures fs != [] ==> Concat(c, fs + [f]) == Encode(c, fs[0]).bytes + Concat(c, fs[1..] + [f])
  {
    var all := fs + [f];
    assert all[|fs|] == f && forall i :: 0 <= i < |fs| ==> fs[i] == all[i];
    if fs != [] {
      assert all[1..] == fs[1..] + [f];
    } else {
      assert Concat(c, all[1..]) == [];
    }
  }

  /** Reading past one whole frame. */
  lemma SkipOne(c: Codec, f: Frame, t: Bytes)
    requires Readable(c, f)
    ensures var e := Encode(c, f).bytes; var r := SkipPings(c, t);
      SkipPings(c, e + t) ==
        if f.op != "ping" then Reading(Reply(Versioned(f)), |e|, [], false)
        else Reading(r.reply, |e| + r.consumed, [Pong(f.id)] + r.pongs, r.desync)
  {
    FrameRoundTrip(c, f, t);
    hide Parse, Encode;
    var e := Encode(c, f).bytes;
    assert (e + t)[|e|..] == t;
  }

  /** k pings and then another frame: that frame is returned, the pings are answered with
      their own ids in order, nothing more is consumed, and the session stays in step. */
  lemma {:induction false} PingsThenFrame(c: Codec, pings: seq<Frame>, f: Frame, rest: Bytes)
    requires AllReadable(c, pings + [f]) && f.op != "ping"
    requires forall i :: 0 <= i < |pings| ==> pings[i].op == "ping"
    ensures SkipPings(c, Concat(c, pings + [f]) + rest)
         == Reading(Reply(Versioned(f)), |Concat(c, pings + [f])|, PongsFor(pings), false)
    decreases |pings|
  {
    ConcatSnoc(c, pings, f);
    hide SkipPings, Encode, Concat, Faithful;
    if pings == [] {
      SkipOne(c, f, rest);
    } else {
      var tail := pings[1..] + [f];
      SkipOne(c, pings[0], Concat(c, tail) + rest);
      PingsThenFrame(c, pings[1..], f, rest);
      Assoc(Encode(c, pings[0]).bytes, Concat(c, tail), rest);
    }
  }

  lemma Assoc<T>(a: seq<T>, b: seq<T>, d: seq<T>)
    ensures (a + b) + d == a + (b + d) && |a + b| == |a| + |b|
  {
  }

  /** Some pings, and then a frame that is none. */
  ghost predicate PingsFirst(c: Codec, pings: seq<Frame>, f: Frame) {
    AllReadable(c, pings + [f]) && f.op != "ping" && forall i :: 0 <= i < |pings| ==> pings[i].op == "ping"
  }

  /** That very frame is returned, those bytes are consumed, and each ping has its pong. */
  ghost predicate FrameRead(c: Codec, pings: seq<Frame>, f: Frame, r: Reading)
    requires PingsFirst(c, pings, f)
  {
    && r.reply == Reply(f.(v := VERSION)) && r.consumed == |Concat(c, pings + [f])| && !r.desync
    && |r.pongs| == |pings|
    && forall i :: 0 <= i < |pings| ==> r.pongs[i] == Frame(0, "pong", pings[i].id, "", "", [], [], "", 0, "")
  }

  /** `r` is what is read from `s` whenever `s` starts with some pings and then another frame. */
  ghost predicate ReadsFrame(c: Codec, s: Bytes, r: Reading) {
    forall pings: seq<Frame>, f: Frame | PingsFirst(c, pings, f) && Concat(c, pings + [f]) <= s :: FrameRead(c, pings, f, r)
  }

  lemma SkipPingsReads(c: Codec, s: Bytes)
    ensures ReadsFrame(c, s, SkipPings(c, s))
  {
    hide SkipPings, Concat, FrameRead;
    forall pings: seq<Frame>, f: Frame | PingsFirst(c, pings, f) && Concat(c, pings + [f]) <= s
      ensures FrameRead(c, pings, f, SkipPings(c, s))
    {
      SkipsToFrame(c, s, pings, f);
    }
  }

  lemma SkipsToFrame(c: Codec, s: Bytes, pings: seq<Frame>, f: Frame)
    requires PingsFirst(c, pings, f) && Concat(c, pings + [f]) <= s
    ensures FrameRead(c, pings, f, SkipPings(c, s))
  {
    hide SkipPings, Concat, Encode, Faithful, Sent;
    var whole := Concat(c, pings + [f]);
    LastVersion(c, pings, f);
    PingsThenFrame(c, pings, f, s[|whole|..]);
    assert whole + s[|whole|..] == s;
    hide AllReadable, Versioned;
  }

  lemma LastVersion(c: Codec, pings: seq<Frame>, f: Frame)
    requires AllReadable(c, pings + [f])
    ensures Versioned(f) == f.(v := VERSION)
  {
    assert (pings + [f])[|pings|] == f;
  }

  // ---------------------------------------------------------------------------
  // Frame boundaries
  // ---------------------------------------------------------------------------

  /** Reading what has arrived of a stream of frames ends on a frame boundary exactly when the
      read does not set the flag. */
  lemma {:induction false} DesyncIffOffBoundary(c: Codec, fs: seq<Frame>, arrived: nat)
    requires AllReadable(c, fs) && arrived <= |Concat(c, fs)|
    ensures var r := SkipPings(c, Concat(c, fs)[..arrived]);
      r.desync <==> !OnBoundary(c, fs, r.consumed)
    decreases |fs|
  {
    var s := Concat(c, fs)[..arrived];
    assert Offset(c, fs, 0) == 0;
    if fs == [] {
      assert s == [];
    } else {
      var e := Encode(c, fs[0]).bytes;
      var rest := Concat(c, fs[1..]);
      assert Offset(c, fs, 1) == |e| + Offset(c, fs[1..], 0);
      if arrived < |e| {
        assert s == e[..arrived];
        CutFrame(c, fs[0], arrived);
        if arrived > 0 { NoBoundaryInside(c, fs, arrived); }
      } else {
        hide SkipPings, Encode;
        assert s == e + rest[..arrived - |e|];
        SkipOne(c, fs[0], rest[..arrived - |e|]);
        if fs[0].op == "ping" {
          DesyncIffOffBoundary(c, fs[1..], arrived - |e|);
          BoundaryShift(c, fs, SkipPings(c, rest[..arrived - |e|]).consumed);
        }
      }
    }
  }

  /** What is read from the first `arrived` bytes of a stream whose frame `k` is the first that is no
      ping, or has not arrived whole. */
  ghost predicate RightReading(c: Codec, fs: seq<Frame>, arrived: nat, k: nat, r: Reading)
    requires AllReadable(c, fs)
  {
    && k <= |fs| && Offset(c, fs, k) <= arrived && (forall i :: 0 <= i < k ==> fs[i].op == "ping")
    && if r.reply.Reply? then
         && k < |fs| && fs[k].op != "ping" && r.reply.frame == fs[k].(v := VERSION) && r.consumed == Offset(c, fs, k + 1)
       else
         && (k < |fs| ==> arrived < Offset(c, fs, k + 1)) && r.consumed == arrived
         && r.reply == if arrived == Offset(c, fs, k) then ReadError else Desynchronized
  }

  /** A frame that is returned is the first one sent that is no ping, and exactly what precedes it is
      consumed with it; otherwise only pings have arrived whole. */
  lemma {:induction false} ReadsWhatWasSent(c: Codec, fs: seq<Frame>, arrived: nat) returns (k: nat)
    requires AllReadable(c, fs) && arrived <= |Concat(c, fs)|
    ensures RightReading(c, fs, arrived, k, SkipPings(c, Concat(c, fs)[..arrived]))
    decreases |fs|
  {
    k := 0;
    if fs == [] || arrived < |Encode(c, fs[0]).bytes| {
      ReadsPart(c, fs, arrived);
    } else {
      var e, rest := Encode(c, fs[0]).bytes, Concat(c, fs[1..]);
      assert Concat(c, fs)[..arrived] == e + rest[..arrived - |e|];
      SkipOne(c, fs[0], rest[..arrived - |e|]);
      assert Offset(c, fs, 0) == 0 && Offset(c, fs, 1) == |e| + Offset(c, fs[1..], 0);
      if fs[0].op == "ping" {
        hide SkipPings, Encode, Concat, RightReading;
        var j := ReadsWhatWasSent(c, fs[1..], arrived - |e|);
        k := j + 1;
        OnePingMore(c, fs, arrived, j, SkipPings(c, rest[..arrived - |e|]), SkipPings(c, Concat(c, fs)[..arrived]));
      } else {
        hide SkipPings, Encode, Concat;
      }
    }
  }

  lemma ReadsPart(c: Codec, fs: seq<Frame>, arrived: nat)
    requires AllReadable(c, fs) && arrived <= |Concat(c, fs)| && (fs != [] ==> arrived < |Encode(c, fs[0]).bytes|)
    ensures RightReading(c, fs, arrived, 0, SkipPings(c, Concat(c, fs)[..arrived]))
  {
    var s := Concat(c, fs)[..arrived];
    if fs == [] {
      assert s == [];
    } else {
      var e := Encode(c, fs[0]).bytes;
      assert Offset(c, fs, 1) == |e| + Offset(c, fs[1..], 0);
      assert s == e[..arrived];
      CutFrame(c, fs[0], arrived);
      hide Encode, Parse, Concat;
    }
  }

  lemma OnePingMore(c: Codec, fs: seq<Frame>, arrived: nat, j: nat, r: Reading, r': Reading)
    requires AllReadable(c, fs) && fs != [] && fs[0].op == "ping" && arrived >= |Encode(c, fs[0]).bytes|
    requires RightReading(c, fs[1..], arrived - |Encode(c, fs[0]).bytes|, j, r)
    requires r'.reply == r.reply && r'.consumed == |Encode(c, fs[0]).bytes| + r.consumed
    ensures RightReading(c, fs, arrived, j + 1, r')
  {
    var n := |Encode(c, fs[0]).bytes|;
    assert Offset(c, fs, j + 1) == n + Offset(c, fs[1..], j);
    if j < |fs[1..]| { assert Offset(c, fs, j + 2) == n + Offset(c, fs[1..], j + 1); }
    hide Encode;
  }

  lemma NoBoundaryInside(c: Codec, fs: seq<Frame>, p: nat)
    requires AllReadable(c, fs) && fs != [] && 0 < p < |Encode(c, fs[0]).bytes|
    ensures !OnBoundary(c, fs, p)
  {
    forall k | 0 <= k <= |fs|
      ensures Offset(c, fs, k) != p
    {
      if k > 0 { assert Offset(c, fs, k) == |Encode(c, fs[0]).bytes| + Offset(c, fs[1..], k - 1); }
    }
  }

  /** Boundaries after the first frame are the boundaries of the rest. */
  lemma BoundaryShift(c: Codec, fs: seq<Frame>, p: nat)
    requires AllReadable(c, fs) && fs != []
    ensures OnBoundary(c, fs, |Encode(c, fs[0]).bytes| + p) <==> OnBoundary(c, fs[1..], p)
  {
    var n := |Encode(c, fs[0]).bytes|;
    if OnBoundary(c, fs, n + p) {
      var k :| 0 <= k <= |fs| && Offset(c, fs, k) == n + p;
      assert Offset(c, fs[1..], k - 1) == p;
    }
    if OnBoundary(c, fs[1..], p) {
      var k :| 0 <= k <= |fs[1..]| && Offset(c, fs[1..], k) == p;
      assert Offset(c, fs, k + 1) == n + p;
    }
  }

  /** From frame `k` on, the stream is the stream of the remaining frames. */
  lemma {:induction false} ConcatFrom(c: Codec, fs: seq<Frame>, k: nat)
    requires AllReadable(c, fs) && k <= |fs|
    ensures Offset(c, fs, k) <= |Concat(c, fs)|
    ensures Concat(c, fs)[Offset(c, fs, k)..] == Concat(c, fs[k..])
    decreases k
  {
    if k == 0 {
      assert fs[0..] == fs;
    } else {
      ConcatFrom(c, fs[1..], k - 1);
      assert fs[1..][k - 1..] == fs[k..];
      var e := Encode(c, fs[0]).bytes;
      var o := Offset(c, fs[1..], k - 1);
      assert Concat(c, fs)[|e| + o..] == Concat(c, fs[1..])[o..];
    }
  }

  lemma {:induction false} BoundaryFrom(c: Codec, fs: seq<Frame>, k: nat, p: nat)
    requires AllReadable(c, fs) && k <= |fs|
    ensures OnBoundary(c, fs[k..], p) ==> OnBoundary(c, fs, Offset(c, fs, k) + p)
    decreases k
  {
    if k == 0 {
      assert fs[0..] == fs;
    } else {
      BoundaryFrom(c, fs[1..], k - 1, p);
      assert fs[1..][k - 1..] == fs[k..];
      BoundaryShift(c, fs, Offset(c, fs[1..], k - 1) + p);
    }
  }

  /** The read cursor and the flag of a session. */
  datatype Cursor = Cursor(pos: nat, desync: bool)

  /** One read when the bytes up to `arrived` are there. */
  ghost function ReadOnce(c: Codec, data: Bytes, s: Cursor, arrived: nat): Cursor
    requires s.pos <= arrived <= |data|
  {
    var r := SkipPings(c, data[s.pos..arrived]);
    Cursor(s.pos + r.consumed, s.desync || r.desync)
  }

  /** Each read sees at least what the previous one saw. */
  ghost predicate Arrivals(data: Bytes, from: nat, arrivals: seq<nat>)
    decreases |arrivals|
  {
    arrivals == [] || (from <= arrivals[0] <= |data| && Arrivals(data, arrivals[0], arrivals[1..]))
  }

  ghost function ReadRun(c: Codec, data: Bytes, s: Cursor, from: nat, arrivals: seq<nat>): Cursor
    requires s.pos <= from && Arrivals(data, from, arrivals)
    decreases |arrivals|
  {
    if arrivals == [] then s
    else ReadRun(c, data, ReadOnce(c, data, s, arrivals[0]), arrivals[0], arrivals[1..])
  }

  lemma ReadOnceInStep(c: Codec, fs: seq<Frame>, s: Cursor, arrived: nat)
    requires AllReadable(c, fs) && s.pos <= arrived <= |Concat(c, fs)|
    requires !s.desync ==> OnBoundary(c, fs, s.pos)
    ensures var s' := ReadOnce(c, Concat(c, fs), s, arrived); !s'.desync ==> OnBoundary(c, fs, s'.pos)
  {
    if !s.desync {
      var k :| 0 <= k <= |fs| && Offset(c, fs, k) == s.pos;
      ConcatFrom(c, fs, k);
      var data := Concat(c, fs);
      assert data[s.pos..arrived] == data[s.pos..][..arrived - s.pos];
      DesyncIffOffBoundary(c, fs[k..], arrived - s.pos);
      BoundaryFrom(c, fs, k, SkipPings(c, data[s.pos..arrived]).consumed);
    }
  }

  /** In every run of reads on a stream of frames, however the bytes trickle in: while the
      session is not desynchronized its cursor is on a frame boundary. */
  lemma {:induction false} InStepWhileNotDesync(c: Codec, fs: seq<Frame>, s: Cursor, from: nat, arrivals: seq<nat>)
    requires AllReadable(c, fs) && s.pos <= from && Arrivals(Concat(c, fs), from, arrivals)
    requires !s.desync ==> OnBoundary(c, fs, s.pos)
    ensures var s' := ReadRun(c, Concat(c, fs), s, from, arrivals); !s'.desync ==> OnBoundary(c, fs, s'.pos)
    decreases |arrivals|
  {
    if arrivals != [] {
      ReadOnceInStep(c, fs, s, arrivals[0]);
      InStepWhileNotDesync(c, fs, ReadOnce(c, Concat(c, fs), s, arrivals[0]), arrivals[0], arrivals[1..]);
    }
  }

  // ---------------------------------------------------------------------------
  // Rounds
  // ---------------------------------------------------------------------------

  /** One request and its reading: from where, what had arrived before and after the wait. */
  datatype Round = Round(written: bool, from: nat, before: nat, arrived: nat, reading: Reading)

  /** A request that was written is answered by what arrived since; one that was not reads nothing. */
  ghost predicate RoundOk(c: Codec, data: Bytes, r: Round) {
    && r.from <= r.before <= r.arrived <= |data|
    && if r.written then
         r.reading == SkipPings(c, data[r.from..r.arrived]) && ReadsFrame(c, data[r.from..r.arrived], r.reading)
       else r.reading == Reading(WriteError, 0, [], false) && r.arrived == r.before
  }

  /** Each round goes on where the one before it stopped. */
  ghost predicate Linked(c: Codec, data: Bytes, pos: nat, arrived: nat, rounds: seq<Round>) {
    && (forall i :: 0 <= i < |rounds| ==> RoundOk(c, data, rounds[i]))
    && (rounds != [] ==> rounds[0].from == pos && rounds[0].before == arrived)
    && (forall i :: 0 < i < |rounds| ==>
          rounds[i].from == rounds[i - 1].from + rounds[i - 1].reading.consumed && rounds[i].before == rounds[i - 1].arrived)
  }

  /** What the rounds write: the request each time, and the pongs of each reading. */
  function Traffic(req: Frame, rounds: seq<Round>): seq<Frame> {
    if rounds == [] then []
    else Traffic(req, rounds[..|rounds| - 1]) + [req] + rounds[|rounds| - 1].reading.pongs
  }

  predicate IsAnswer(reply: Reply) { reply.Reply? && reply.frame.op != "err" }

  lemma LinkedSnoc(c: Codec, data: Bytes, pos: nat, arrived: nat, rounds: seq<Round>, r: Round)
    requires Linked(c, data, pos, arrived, rounds) && RoundOk(c, data, r)
    requires r.from == (if rounds == [] then pos else rounds[|rounds| - 1].from + rounds[|rounds| - 1].reading.consumed)
    requires r.before == if rounds == [] then arrived else rounds[|rounds| - 1].arrived
    ensures Linked(c, data, pos, arrived, rounds + [r])
  {
    hide RoundOk;
  }

  lemma TrafficSnoc(req: Frame, rounds: seq<Round>, r: Round)
    ensures Traffic(req, rounds + [r]) == Traffic(req, rounds) + [req] + r.reading.pongs
  {
    assert (rounds + [r])[..|rounds|] == rounds;
  }

  // ---------------------------------------------------------------------------
  // Requests
  // ---------------------------------------------------------------------------

  /** The req frames among those a client wrote. */
  function Reqs(sent: seq<Frame>): (r: seq<Frame>)
    ensures forall f :: f in r <==> f in sent && f.op == "req"
    decreases |sent|
  {
    if sent == [] then []
    else (if sent[0].op == "req" then [sent[0]] else []) + Reqs(sent[1..])
  }

  lemma {:induction false} ReqsAdd(a: seq<Frame>, b: seq<Frame>)
    ensures Reqs(a + b) == Reqs(a) + Reqs(b)
    decreases |a|
  {
    if a == [] {
      assert a + b == b;
    } else {
      assert (a + b)[1..] == a[1..] + b;
      ReqsAdd(a[1..], b);
    }
  }

  lemma {:induction false} PongsAreNoReqs(c: Codec, s: Bytes)
    ensures Reqs(SkipPings(c, s).pongs) == []
    ensures forall f :: f in SkipPings(c, s).pongs ==> f.op == "pong"
    ensures SkipPings(c, s).reply.Reply? ==> SkipPings(c, s).reply.frame.op != "ping"
    ensures SkipPings(c, s).reply == Desynchronized <==> SkipPings(c, s).desync
    decreases |s|
  {
    var r := Parse(c, s);
    if r.Got? && r.frame.op == "ping" { PongsAreNoReqs(c, s[r.count..]); }
  }

  /** Since `start`, the request was written `n` times, and otherwise only pongs. */
  ghost predicate Wrote(start: seq<Frame>, sent: seq<Frame>, req: Frame, n: nat) {
    && start <= sent
    && |Reqs(sent[|start|..])| == n
    && forall f :: f in sent[|start|..] ==> f == req || f.op == "pong"
  }

  lemma WroteNothing(start: seq<Frame>, req: Frame)
    ensures Wrote(start, start, req, 0)
  {
    assert start[|start|..] == [];
  }

  lemma WroteMore(start: seq<Frame>, sent: seq<Frame>, req: Frame, rest: seq<Frame>, n: nat)
    requires Wrote(start, sent, req, n) && req.op == "req"
    requires Reqs(rest) == [] && forall f :: f in rest ==> f.op == "pong"
    ensures Wrote(start, sent + [req] + rest, req, n + 1)
  {
    var old_ := sent[|start|..];
    assert (sent + [req] + rest)[|start|..] == old_ + ([req] + rest);
    ReqsAdd(old_, [req] + rest);
    ReqsAdd([req], rest);
    assert Reqs([req]) == [req];
  }
}
