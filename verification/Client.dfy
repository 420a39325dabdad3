/** The client: one session whose reads can desynchronize, and requests that are retried
    under one id. */
module Client {
  import opened Wire
  import opened ClientSpec
  import Decimal

  const DEFAULT_ATTEMPTS: nat := 3

  datatype Result = Answered(frame: Frame) | Abandoned(attempts: nat, last: Reply)

  /** Correlation ids: the client's prefix and a counter. */
  function IdOf(prefix: string, n: nat): string {
    prefix + "-" + Decimal.Render(n)
  }

  lemma IdsDistinct(prefix: string, m: nat, n: nat)
    requires IdOf(prefix, m) == IdOf(prefix, n)
    ensures m == n
  {
    assert Decimal.Render(m) == IdOf(prefix, m)[|prefix| + 1..];
    assert Decimal.Render(n) == IdOf(prefix, n)[|prefix| + 1..];
    Decimal.RenderInjective(m, n);
  }

  /** Reading on from `s` completes the reading `whole`, of which `done` bytes are consumed and
      the pongs from `start` to `sent` are written. */
  ghost predicate StepsLeft(c: Codec, s: Wire.Bytes, whole: Reading, start: seq<Frame>, sent: seq<Frame>, done: int) {
    var r := SkipPings(c, s);
    r.reply == whole.reply && r.desync == whole.desync && done + r.consumed == whole.consumed
    && sent + r.pongs == start + whole.pongs
  }

  /** After `rounds` the session reads from `pos`, has seen `arrived`, and has written `sent`. */
  ghost predicate SoFar(c: Codec, data: Wire.Bytes, pos0: nat, arrived0: nat, start: seq<Frame>, req: Frame,
                        writes: nat -> bool, rounds: seq<Round>, pos: nat, arrived: nat, sent: seq<Frame>)
  {
    && (forall i :: 0 <= i < |rounds| ==> rounds[i].written == writes(i))
    && sent == start + Traffic(req, rounds) && Wrote(start, sent, req, |rounds|) && Linked(c, data, pos0, arrived0, rounds)
    && pos == (if rounds == [] then pos0 else rounds[|rounds| - 1].from + rounds[|rounds| - 1].reading.consumed)
    && arrived == if rounds == [] then arrived0 else rounds[|rounds| - 1].arrived
  }

  lemma NothingYet(c: Codec, data: Wire.Bytes, pos: nat, arrived: nat, start: seq<Frame>, req: Frame, writes: nat -> bool)
    ensures SoFar(c, data, pos, arrived, start, req, writes, [], pos, arrived, start) && Retried([], 0)
  {
    WroteNothing(start, req);
    assert start + Traffic(req, []) == start;
  }

  lemma OneRoundMore(c: Codec, data: Wire.Bytes, pos0: nat, arrived0: nat, start: seq<Frame>, req: Frame,
                     writes: nat -> bool, rounds: seq<Round>, pos: nat, arrived: nat, sent: seq<Frame>, r: Round)
    requires SoFar(c, data, pos0, arrived0, start, req, writes, rounds, pos, arrived, sent) && req.op == "req"
    requires RoundOk(c, data, r) && r.from == pos && r.before == arrived && r.written == writes(|rounds|)
    requires Reqs(r.reading.pongs) == [] && forall f :: f in r.reading.pongs ==> f.op == "pong"
    ensures SoFar(c, data, pos0, arrived0, start, req, writes, rounds + [r], r.from + r.reading.consumed, r.arrived,
                  sent + [req] + r.reading.pongs)
  {
    hide Wrote, Linked, Traffic, RoundOk;
    WroteMore(start, sent, req, r.reading.pongs, |rounds|);
    LinkedSnoc(c, data, pos0, arrived0, rounds, r);
    TrafficSnoc(req, rounds, r);
    Regroup(start, Traffic(req, rounds), [req], r.reading.pongs);
  }

  lemma Regroup<T>(a: seq<T>, b: seq<T>, c: seq<T>, d: seq<T>)
    ensures (a + b) + c + d == a + (b + c + d)
  {
  }

  /** The first `n` replies were no answers, and did not end the session. */
  ghost predicate Retried(rounds: seq<Round>, n: int) {
    forall i :: 0 <= i < n && i < |rounds| ==> !IsAnswer(rounds[i].reading.reply) && rounds[i].reading.reply != Desynchronized
  }

  /** The last reply decides: an answer is returned as it was read, anything else is what was
      given up with, after the last attempt or on a desynchronized session. */
  ghost predicate Concluded(rounds: seq<Round>, limit: int, result: Result) {
    && 1 <= |rounds| <= limit && Retried(rounds, |rounds| - 1)
    && var last := rounds[|rounds| - 1].reading.reply;
    && (if IsAnswer(last) then result == Answered(last.frame) && last.frame.op != "ping" else result == Abandoned(|rounds|, last))
    && (|rounds| == limit || IsAnswer(last) || last == Desynchronized)
  }

  lemma RetriedSnoc(rounds: seq<Round>, r: Round, limit: int)
    requires Retried(rounds, |rounds|) && |rounds| < limit
    requires r.reading.reply.Reply? ==> r.reading.reply.frame.op != "ping"
    ensures var all, reply := rounds + [r], r.reading.reply;
      && (IsAnswer(reply) ==> Concluded(all, limit, Answered(reply.frame)))
      && (reply == Desynchronized || (!IsAnswer(reply) && |all| == limit) ==> Concluded(all, limit, Abandoned(|all|, reply)))
      && (!IsAnswer(reply) && reply != Desynchronized ==> Retried(all, |all|))
  {
  }

  /** `sent` are the frames handed to the connection, whole, in order. */
  class Session {
    const codec: Codec
    const conn: Stream
    const prefix: string
    var name: string
    var sent: seq<Frame>
    var desync: bool
    var counter: nat

    ghost predicate Valid()
      reads this, conn
    {
      conn.Valid()
    }

    constructor (codec: Codec, conn: Stream, prefix: string)
      requires conn.Valid()
      ensures Valid() && this.codec == codec && this.conn == conn && this.prefix == prefix
      ensures sent == [] && !desync && counter == 0
    {
      this.codec, this.conn, this.prefix := codec, conn, prefix;
      name, sent, desync, counter := "", [], false, 0;
    }

    /** Hands one frame to the connection. */
    method Send(f: Frame)
      modifies this`sent
      ensures sent == old(sent) + [f]
    {
      sent := sent + [f];
    }

    method NextId() returns (id: string)
      modifies this`counter
      ensures counter == old(counter) + 1 && id == IdOf(prefix, counter)
    {
      counter := counter + 1;
      id := IdOf(prefix, counter);
    }

    /** Reads until a frame that is no ping, answering the pings; a failure after the first
        byte of a frame desynchronizes the session. Every turn consumes at least nine bytes. */
    method ReadSkipPing() returns (reply: Reply)
      requires Valid()
      modifies this`sent, this`desync, conn`pos
      ensures Valid()
      ensures var r := SkipPings(codec, old(conn.Available()));
        && reply == r.reply
        && conn.pos == old(conn.pos) + r.consumed
        && sent == old(sent) + r.pongs
        && desync == (old(desync) || r.desync)
    {
      hide Parse;
      ghost var whole := SkipPings(codec, conn.Available());
      assert old(sent) + whole.pongs == sent + whole.pongs;
      while true
        invariant Valid()
        invariant desync == old(desync)
        invariant StepsLeft(codec, conn.Available(), whole, old(sent), sent, conn.pos - old(conn.pos))
        decreases |conn.Available()|
      {
        ghost var s, before := conn.Available(), sent;
        var r := conn.ReadCounted(codec);
        if r.Failed? {
          if r.count > 0 {
            desync := true;
            return Desynchronized;
          }
          return ReadError;
        }
        if r.frame.op == "ping" {
          Send(Pong(r.frame.id));
          assert before + ([Pong(r.frame.id)] + SkipPings(codec, s[r.count..]).pongs)
              == sent + SkipPings(codec, s[r.count..]).pongs;
        } else {
          return Reply(r.frame);
        }
      }
    }

    /** One request and its reply, under a fresh id unless the caller gave one; a
        desynchronized session writes nothing and uses up no id. The reply is read from what has
        arrived by then; `written` is whether the request could be written. */
    method RoundTrip(req: Frame, written: bool) returns (reply: Reply, ghost round: Round)
      requires Valid()
      modifies this`sent, this`desync, this`counter, conn`pos, conn`arrived
      ensures Valid() && old(conn.arrived) <= conn.arrived && (reply == Desynchronized <==> desync)
      ensures counter == old(counter) + if old(desync) || req.id != "" then 0 else 1
      ensures old(desync) ==>
        reply == Desynchronized && sent == old(sent) && conn.pos == old(conn.pos) && conn.arrived == old(conn.arrived)
      ensures !old(desync) ==>
        var out := if req.id != "" then req else req.(id := IdOf(prefix, counter));
        && RoundOk(codec, conn.data, round) && round.written == written && round.reading.reply == reply
        && round.from == old(conn.pos) && conn.pos == round.from + round.reading.consumed
        && round.before == old(conn.arrived) && conn.arrived == round.arrived
        && sent == old(sent) + [out] + round.reading.pongs && desync == round.reading.desync
        && Reqs(round.reading.pongs) == [] && forall f :: f in round.reading.pongs ==> f.op == "pong"
      ensures reply.Reply? ==> reply.frame.op != "ping"
    {
      round := Round(written, conn.pos, conn.arrived, conn.arrived, Reading(WriteError, 0, [], false));
      if desync {
        return Desynchronized, round;
      }
      var out := req;
      if out.id == "" {
        var id := NextId();
        out := out.(id := id);
      }
      Send(out);
      if !written {
        reply := WriteError;
        assert sent == old(sent) + [out] + [];
        return;
      }
      conn.Await();
      ghost var r := SkipPings(codec, conn.Available());
      PongsAreNoReqs(codec, conn.Available());
      SkipPingsReads(codec, conn.Available());
      reply := ReadSkipPing();
      round := Round(true, old(conn.pos), old(conn.arrived), conn.arrived, r);
      hide SkipPings, ReadsFrame;
    }

    /** One more round of a request. */
    method OneRound(req: Frame, writes: nat -> bool, i: nat, ghost rounds: seq<Round>, ghost limit: int,
                    ghost pos0: nat, ghost arrived0: nat, ghost start: seq<Frame>)
      returns (reply: Reply, ghost all: seq<Round>)
      requires Valid() && req.op == "req" && req.id != "" && i == |rounds| && i < limit
      requires SoFar(codec, conn.data, pos0, arrived0, start, req, writes, rounds, conn.pos, conn.arrived, sent)
      requires Retried(rounds, i)
      modifies this`sent, this`desync, this`counter, conn`pos, conn`arrived
      ensures Valid() && counter == old(counter)
      ensures old(desync) ==> desync && reply == Desynchronized && all == rounds
      ensures IsAnswer(reply) ==> reply.Reply?
      ensures reply == Desynchronized ==> !IsAnswer(reply)
      ensures !old(desync) ==> (desync <==> reply == Desynchronized) && |all| == i + 1
      ensures SoFar(codec, conn.data, pos0, arrived0, start, req, writes, all, conn.pos, conn.arrived, sent)
      ensures !old(desync) ==>
        && (IsAnswer(reply) ==> Concluded(all, limit, Answered(reply.frame)))
        && (reply == Desynchronized || (!IsAnswer(reply) && i + 1 == limit) ==> Concluded(all, limit, Abandoned(i + 1, reply)))
        && (!IsAnswer(reply) && reply != Desynchronized ==> Retried(all, i + 1))
    {
      hide SoFar, RoundOk, Retried, Concluded;
      ghost var before, pos, arrived := sent, conn.pos, conn.arrived;
      all := rounds;
      ghost var round;
      reply, round := RoundTrip(req, writes(i));
      if !old(desync) {
        OneRoundMore(codec, conn.data, pos0, arrived0, start, req, writes, rounds, pos, arrived, before, round);
        RetriedSnoc(rounds, round, limit);
        all := rounds + [round];
      }
    }

    /** Sends the request up to `attempts` times, always under the same fresh id, and stops at
        the first answer that is no error; it gives up early only when the session is
        desynchronized. `writes` tells which of the requests can be written. */
    method Request(name: string, text: Wire.Bytes, body: Wire.Bytes, attempts: int, writes: nat -> bool)
      returns (result: Result, ghost rounds: seq<Round>)
      requires Valid()
      modifies this`sent, this`desync, this`counter, conn`pos, conn`arrived
      ensures Valid() && counter == old(counter) + 1
      ensures var req := Frame(0, "req", IdOf(prefix, counter), name, this.name, text, body, "", 0, "");
        SoFar(codec, conn.data, old(conn.pos), old(conn.arrived), old(sent), req, writes, rounds, conn.pos, conn.arrived, sent)
      ensures if old(desync) then rounds == [] && result == Abandoned(1, Desynchronized)
              else Concluded(rounds, if attempts <= 0 then 3 else attempts, result)
    {
      var limit := if attempts <= 0 then DEFAULT_ATTEMPTS else attempts;
      var id := NextId();
      var req := Frame(0, "req", id, name, this.name, text, body, "", 0, "");
      assert id != "";
      result, rounds := Attempts(req, limit, writes);
    }

    /** The rounds of a request. */
    method Attempts(req: Frame, limit: int, writes: nat -> bool) returns (result: Result, ghost rounds: seq<Round>)
      requires Valid() && req.op == "req" && req.id != "" && limit >= 1
      modifies this`sent, this`desync, this`counter, conn`pos, conn`arrived
      ensures Valid() && counter == old(counter)
      ensures SoFar(codec, conn.data, old(conn.pos), old(conn.arrived), old(sent), req, writes, rounds, conn.pos, conn.arrived, sent)
      ensures if old(desync) then rounds == [] && result == Abandoned(1, Desynchronized) else Concluded(rounds, limit, result)
    {
      var last := ReadError;
      var i := 0;
      rounds := [];
      hide SoFar, Retried, Concluded, IsAnswer;
      NothingYet(codec, conn.data, conn.pos, conn.arrived, sent, req, writes);
      while i < limit
        invariant 0 <= i <= limit && Valid() && i == |rounds|
        invariant counter == old(counter) && desync == old(desync) && (desync ==> i == 0)
        invariant SoFar(codec, conn.data, old(conn.pos), old(conn.arrived), old(sent), req, writes, rounds, conn.pos, conn.arrived, sent)
        invariant Retried(rounds, i)
        invariant i == limit ==> !desync && Concluded(rounds, limit, Abandoned(i, last))
      {
        var reply;
        reply, rounds := OneRound(req, writes, i, rounds, limit, old(conn.pos), old(conn.arrived), old(sent));
        if IsAnswer(reply) {
          return Answered(reply.frame), rounds;
        }
        last := reply;
        if last == Desynchronized {
          return Abandoned(i + 1, last), rounds;
        }
        i := i + 1;
      }
      result := Abandoned(limit, last);
    }
  }
}
