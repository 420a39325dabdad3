/** The session protocol's framing: magic, a four-byte big-endian length, and an encoded
    frame. Encoding itself is a parameter. */
module Wire {
  import opened Bags

  newtype Byte = x: int | 0 <= x < 256

  type Bytes = seq<Byte>

  const MAGIC: Bytes := [90, 77, 81, 67] // "ZMQC"
  const VERSION: int := 1
  const MAX_BODY: nat := 2097152

  datatype Frame = Frame(
    v: int, op: string, id: string, name: string, from: string, text: Bytes, body: Bytes,
    error: string, lease: int, delivery: string)

  datatype WireError = BadMagic | TooBig | BadVersion | BadEncoding | Interrupted

  /** JSON encoding and decoding of a frame. */
  datatype Codec = Codec(marshal: Frame -> Option<Bytes>, unmarshal: Bytes -> Option<Frame>)

  /** The codec encodes `f`, to something, and decodes it to `f` again. */
  ghost predicate Faithful(c: Codec, f: Frame) {
    c.marshal(f).Some? ==> c.marshal(f).value != [] && c.unmarshal(c.marshal(f).value) == Some(f)
  }

  function Payload(f: Frame): Bytes {
    if |f.body| > 0 then f.body else f.text
  }

  function PutUint32(n: nat): (r: Bytes)
    requires n < 0x1_0000_0000
    ensures |r| == 4 && Uint32(r) == n
  {
    Digits256(n);
    [(n / 0x100_0000) as Byte, (n / 0x1_0000 % 0x100) as Byte, (n / 0x100 % 0x100) as Byte, (n % 0x100) as Byte]
  }

  /** The digits of a number in base 256 make it up again. */
  lemma Digits256(n: nat)
    ensures n / 0x100_0000 * 0x100_0000 + n / 0x1_0000 % 0x100 * 0x1_0000 + n / 0x100 % 0x100 * 0x100 + n % 0x100 == n
    ensures n < 0x1_0000_0000 ==> n / 0x100_0000 < 0x100
  {
    assert n / 0x100 / 0x100 == n / 0x1_0000 && n / 0x1_0000 / 0x100 == n / 0x100_0000;
  }

  function Uint32(b: Bytes): (n: nat)
    requires |b| == 4
    ensures n < 0x1_0000_0000
  {
    b[0] as nat * 0x100_0000 + b[1] as nat * 0x1_0000 + b[2] as nat * 0x100 + b[3] as nat
  }

  /** A frame leaves with the current version unless it names one. */
  function Versioned(f: Frame): Frame {
    if f.v == 0 then f.(v := VERSION) else f
  }

  datatype Encoded = Bytes(bytes: Bytes) | Unsent(error: WireError)

  /** The bytes Write puts on the wire for a frame. */
  function Encode(c: Codec, f: Frame): Encoded {
    var raw := c.marshal(Versioned(f));
    if raw.None? then Unsent(BadEncoding)
    else if |raw.value| > MAX_BODY then Unsent(TooBig)
    else Bytes(MAGIC + PutUint32(|raw.value|) + raw.value)
  }

  /** What one read yields: a frame or an error, and in either case the bytes it consumed. */
  datatype ReadOutcome = Got(frame: Frame, count: nat) | Failed(error: WireError, count: nat)

  /** ReadCounted on the bytes that arrive before the stream ends or the read is interrupted. */
  function Parse(c: Codec, s: Bytes): (r: ReadOutcome)
    ensures r.count <= |s| && (r.Got? ==> r.count > 8)
  {
    if |s| < 8 then Failed(Interrupted, |s|)
    else if s[..4] != MAGIC then Failed(BadMagic, 8)
    else
      var n := Uint32(s[4..8]);
      if n == 0 || n > MAX_BODY then Failed(TooBig, 8)
      else if |s| < 8 + n then Failed(Interrupted, |s|)
      else
        var f := c.unmarshal(s[8..8 + n]);
        if f.None? then Failed(BadEncoding, 8 + n)
        else if f.value.v != 0 && f.value.v != VERSION then Failed(BadVersion, 8 + n)
        else Got(f.value, 8 + n)
  }

  /** A stream being read: `data[pos..arrived]` is there to be read now. */
  class Stream {
    const data: Bytes
    var pos: nat
    var arrived: nat

    ghost predicate Valid()
      reads this
    {
      pos <= arrived <= |data|
    }

    function Available(): Bytes
      requires Valid()
      reads this
    {
      data[pos..arrived]
    }

    constructor (data: Bytes)
      ensures Valid() && this.data == data && pos == 0 && arrived == 0
    {
      this.data := data;
      pos, arrived := 0, 0;
    }

    /** More bytes may arrive while the reader waits. */
    method Await()
      requires Valid()
      modifies this`arrived
      ensures Valid() && old(arrived) <= arrived
    {
      var k :| arrived <= k <= |data|;
      arrived := k;
    }

    /** io.ReadFull: `n` bytes, or all there are and a failure. */
    method ReadFull(n: nat) returns (got: Bytes, ok: bool)
      requires Valid()
      modifies this`pos
      ensures Valid() && ok == (n <= |old(Available())|)
      ensures got == if ok then old(Available())[..n] else old(Available())
      ensures pos == old(pos) + |got|
    {
      ghost var s := Available();
      ok := n <= arrived - pos;
      var take := if ok then n else arrived - pos;
      got := data[pos..pos + take];
      assert got == s[..take];
      pos := pos + take;
    }

    /** Reads a header, then the payload it announces, and counts what it consumed. */
    method ReadCounted(c: Codec) returns (r: ReadOutcome)
      requires Valid()
      modifies this`pos
      ensures Valid()
      ensures r == Parse(c, old(Available())) && pos == old(pos) + r.count
      ensures Available() == old(Available())[r.count..]
    {
      ghost var s := Available();
      var hdr, ok := ReadFull(8);
      var read := |hdr|;
      if !ok {
        return Failed(Interrupted, read);
      }
      assert hdr == s[..8];
      assert hdr[..4] == s[..4] && hdr[4..] == s[4..8];
      if hdr[..4] != MAGIC {
        return Failed(BadMagic, read);
      }
      var n := Uint32(hdr[4..]);
      if n == 0 || n > MAX_BODY {
        return Failed(TooBig, read);
      }
      var raw, full := ReadFull(n);
      read := read + |raw|;
      if !full {
        return Failed(Interrupted, read);
      }
      assert raw == s[8..8 + n];
      var f := c.unmarshal(raw);
      if f.None? {
        return Failed(BadEncoding, read);
      }
      if f.value.v != 0 && f.value.v != VERSION {
        return Failed(BadVersion, read);
      }
      return Got(f.value, read);
    }
  }

  /** A stream being written; the peer accepts only `room` more bytes. */
  class Sink {
    var out: Bytes
    var room: nat

    constructor (room: nat)
      ensures out == [] && this.room == room
    {
      out := [];
      this.room := room;
    }

    method WriteBytes(b: Bytes) returns (ok: bool)
      modifies this
      ensures ok == (|b| <= old(room))
      ensures out == old(out) + if ok then b else b[..old(room)]
      ensures room == if ok then old(room) - |b| else 0
    {
      ok := |b| <= room;
      var take := if ok then |b| else room;
      out := out + b[..take];
      room := room - take;
    }

    /** Header and payload are two writes: a failure can cut the frame anywhere. */
    method Write(c: Codec, f: Frame) returns (ok: bool)
      modifies this
      ensures ok <==> Encode(c, f).Bytes? && |Encode(c, f).bytes| <= old(room)
      ensures Encode(c, f).Unsent? ==> out == old(out)
      ensures Encode(c, f).Bytes? ==>
        out == old(out) + Encode(c, f).bytes[..if ok then |Encode(c, f).bytes| else old(room)]
    {
      var raw := c.marshal(Versioned(f));
      if raw.None? {
        return false;
      }
      if |raw.value| > MAX_BODY {
        return false;
      }
      ghost var start, space := out, room;
      var hdr := MAGIC + PutUint32(|raw.value|);
      ghost var whole := hdr + raw.value;
      ok := WriteBytes(hdr);
      if !ok {
        assert whole[..space] == hdr[..space];
        return false;
      }
      ok := WriteBytes(raw.value);
      assert start + hdr + (if ok then raw.value else raw.value[..space - 8])
          == start + whole[..if ok then |whole| else space];
    }
  }
}
