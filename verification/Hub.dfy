/** The hub and its sessions as objects: the critical sections of internal/hub/hub.go update
    their fields in place, and each is proved to compute the function of the same name in
    HubSpec. The methods that span several sections describe what one goroutine does when no
    other runs in between; HubSpec describes every interleaving. */
module Hub {
  import opened Bags
  import opened MailboxSpec
  import opened HubSpec
  import opened HubSessions
  import Mailbox
  import TopicRuns
  import MailboxInvariant
  import Wire

  lemma {:induction false} NackAllSnoc(b: MailboxSpec.Bus, ids: seq<string>, disk: seq<bool>, id: string, d: bool)
    requires |disk| == |ids|
    ensures NackAll(b, ids + [id], disk + [d]) == Nack(NackAll(b, ids, disk), id, d).bus
    decreases |ids|
  {
    hide Nack;
    if ids == [] {
      assert [id][1..] == [] && [d][1..] == [];
    } else {
      assert (ids + [id])[1..] == ids[1..] + [id] && (disk + [d])[1..] == disk[1..] + [d];
      NackAllSnoc(Nack(b, ids[0], disk[0]).bus, ids[1..], disk[1..], id, d);
    }
  }

  lemma NackNone(b: MailboxSpec.Bus)
    ensures NackAll(b, [], []) == b
  {
  }

  /** The job a frame asks for: its payload, from the sender it names or else the session. */
  function JobMsg(id: string, f: Wire.Frame, sender: string): Msg {
    Msg(id, "", if f.from != "" then f.from else sender, Wire.Payload(f), 0)
  }

  /** The frame that brings a message to a client. */
  function MsgFrame(id: string, m: Msg): Wire.Frame {
    Wire.Frame(0, "msg", if id != "" then id else m.id, m.name, m.from, m.body, m.body, "", 0, "")
  }

  /** What a worker is sent is what the client asked for: the body, or the text if there is no body,
      as body and as text; under the same name, from the sender it named or else the session,
      and under the id the job was put with. */
  lemma JobArrives(id: string, f: Wire.Frame, sender: string, gen: string, now: int)
    ensures var m := Stamped(JobMsg(id, f, sender), f.name, gen, now); var out := MsgFrame(m.id, m);
      && out.op == "msg" && out.name == f.name && m.name == f.name
      && (if f.body != [] then out.body == f.body && out.text == f.body else out.body == f.text && out.text == f.text)
      && out.from == (if f.from != "" then f.from else sender)
      && out.id == (if id != "" then id else gen) && m.at == now
  {
  }

  /** Every id but `id` stays listed, as often and in the same order. */
  ghost predicate OnlyDrops(before: seq<string>, after: seq<string>, id: string) {
    && (forall x :: x in after <==> x in before && x != id)
    && (forall x: string | x != id :: multiset(after)[x] == multiset(before)[x])
    && TopicRuns.Subsequence(after, before)
  }

  lemma {:induction false} WithoutDrops(s: seq<string>, id: string)
    ensures OnlyDrops(s, Without(s, id), id)
    decreases |s|
  {
    if s != [] {
      var rest, last := s[..|s| - 1], s[|s| - 1];
      WithoutDrops(rest, id);
      WithoutLast(rest, id, last);
      assert s == rest + [last];
      if last == id {
        TopicRuns.SubsequenceSkip(Without(rest, id), rest, last);
      } else {
        TopicRuns.SubsequenceTake(Without(rest, id), rest, last);
      }
    }
  }

  /** The slots that survive a req at `now` under `key`: every other one whose time has not passed. */
  ghost predicate OthersLive(before: map<string, Pending>, after: map<string, Pending>, now: int, key: string) {
    && (forall k | k != key :: k in after <==> k in before && (before[k].expires == 0 || now <= before[k].expires))
    && (forall k | k != key && k in after :: after[k] == before[k])
  }

  lemma ExpiryLeavesLive(p: map<string, Pending>, now: int, key: string, slot: Pending)
    ensures OthersLive(p, ExpirePending(p, now)[key := slot], now, key)
    ensures OthersLive(p, ExpirePending(p, now) - {key}, now, key)
  {
  }

  class Session {
    const sid: nat
    const name: string
    var closed: bool
    var inflight: seq<string>
    var repAck: map<string, string>

    constructor (sid: nat, name: string)
      ensures this.sid == sid && this.name == name && View() == HubSpec.Session(false, [], map[], [])
    {
      this.sid, this.name := sid, name;
      closed, inflight, repAck := false, [], map[];
    }

    ghost function View(): HubSpec.Session
      reads this
    {
      HubSpec.Session(closed, inflight, repAck, [])
    }

    /** The locked part of close: the ids still to be given back. */
    method BeginClose() returns (toNack: seq<string>)
      modifies this
      ensures View().(toNack := toNack) == CloseSession(old(View()))
      ensures closed && repAck == old(repAck)
      ensures if old(closed) then toNack == [] && inflight == old(inflight) else toNack == old(inflight) && inflight == []
    {
      if closed { return []; }
      closed := true;
      toNack := inflight;
      inflight := [];
    }

    method ClaimInflight(id: string) returns (claimed: bool)
      modifies this`inflight
      ensures (View(), claimed) == HubSpec.ClaimInflight(old(View()), id)
      ensures claimed == !closed && if closed then inflight == old(inflight) else OnlyDrops(old(inflight), inflight, id)
    {
      if closed { return false; }
      Forget(id);
      return true;
    }

    method TrackInflight(id: string)
      modifies this`inflight
      ensures View() == HubSpec.TrackInflight(old(View()), id)
      ensures inflight == old(inflight) + [id]
    {
      inflight := inflight + [id];
    }

    method DropInflight(id: string)
      modifies this`inflight
      ensures View() == HubSpec.DropInflight(old(View()), id)
      ensures OnlyDrops(old(inflight), inflight, id)
    {
      Forget(id);
    }

    method Forget(id: string)
      modifies this`inflight
      ensures inflight == Without(old(inflight), id) && OnlyDrops(old(inflight), inflight, id)
    {
      WithoutDrops(inflight, id);
      hide OnlyDrops;
      var out: seq<string> := [];
      for i := 0 to |inflight|
        invariant out == Without(inflight[..i], id)
        modifies {}
      {
        assert inflight[..i + 1] == inflight[..i] + [inflight[i]];
        WithoutLast(inflight[..i], id, inflight[i]);
        if inflight[i] != id { out := out + [inflight[i]]; }
      }
      assert inflight[..|inflight|] == inflight;
      inflight := out;
    }

    method TrackRepAck(msgId: string, delivery: string)
      modifies this`repAck
      ensures View() == HubSpec.TrackRepAck(old(View()), msgId, delivery)
      ensures repAck == if msgId != "" then old(repAck)[msgId := delivery] else old(repAck)
    {
      if msgId == "" { return; }
      repAck := repAck[msgId := delivery];
    }

    method TakeRepAck(msgId: string) returns (delivery: string)
      modifies this`repAck
      ensures (View(), delivery) == HubSpec.TakeRepAck(old(View()), msgId)
      ensures repAck == old(repAck) - {msgId} && delivery == if msgId in old(repAck) then old(repAck)[msgId] else ""
    {
      delivery := if msgId in repAck then repAck[msgId] else "";
      repAck := repAck - {msgId};
    }
  }

  datatype Answer = Done | Failed(error: Error) | MissingId

  class Hub {
    const bus: Mailbox.Bus
    const ttl: int
    var sids: nat
    var pending: map<string, Pending>

    constructor (bus: Mailbox.Bus, ttl: int)
      ensures this.bus == bus && this.ttl == ttl && sids == 0 && pending == map[]
    {
      this.bus, this.ttl, sids, pending := bus, ttl, 0, map[];
    }

    /** Sessions are numbered from one, and no number is given twice. */
    method Connect(name: string) returns (s: Session)
      modifies this`sids
      ensures fresh(s) && sids == old(sids) + 1 && s.sid == sids
      ensures s.View() == HubSpec.Session(false, [], map[], [])
    {
      sids := sids + 1;
      s := new Session(sids, name);
    }

    // -------------------------------------------------------------------------
    // The pending table
    // -------------------------------------------------------------------------

    method ClearPending(sid: nat)
      modifies this`pending
      ensures pending == HubSpec.ClearPending(old(pending), sid)
      ensures forall k :: k in pending <==> k in old(pending) && old(pending)[k].sid != sid
      ensures forall k | k in pending :: pending[k] == old(pending)[k]
    {
      var ids := pending.Keys;
      while ids != {}
        invariant ids <= old(pending).Keys
        invariant pending == map k | k in old(pending) && (k in ids || old(pending)[k].sid != sid) :: old(pending)[k]
        decreases |ids|
      {
        var id :| id in ids;
        ids := ids - {id};
        if pending[id].sid == sid { pending := pending - {id}; }
      }
    }

    method ExpirePendingLocked(now: int)
      modifies this`pending
      ensures pending == ExpirePending(old(pending), now)
      ensures forall k :: k in pending <==> k in old(pending) && (old(pending)[k].expires == 0 || now <= old(pending)[k].expires)
      ensures forall k | k in pending :: pending[k] == old(pending)[k]
    {
      var ids := pending.Keys;
      while ids != {}
        invariant ids <= old(pending).Keys
        invariant pending == map k | k in old(pending) &&
          (k in ids || old(pending)[k].expires == 0 || now <= old(pending)[k].expires) :: old(pending)[k]
        decreases |ids|
      {
        var id :| id in ids;
        ids := ids - {id};
        var p := pending[id];
        if p.expires != 0 && now > p.expires { pending := pending - {id}; }
      }
    }

    // -------------------------------------------------------------------------
    // Closing a session
    // -------------------------------------------------------------------------

    /** The whole of close. A second close does nothing. */
    method CloseSession(s: Session) returns (ghost disk: seq<bool>)
      requires bus.ValidJobs()
      modifies this`pending, s, bus`boxes, bus`dedup, bus`inflight, bus`file, bus`chans, bus`next, Mailbox.Boxes(bus.boxes)
      ensures s.View() == HubSpec.CloseSession(old(s.View())).(toNack := [])
      ensures |disk| == if old(s.closed) then 0 else |old(s.inflight)|
      ensures bus.View() == if old(s.closed) then old(bus.View()) else NackAll(old(bus.View()), old(s.inflight), disk)
      ensures pending == if old(s.closed) then old(pending) else HubSpec.ClearPending(old(pending), s.sid)
      ensures bus.ValidJobs()
      ensures forall x | x in Mailbox.Boxes(bus.boxes) :: x in Mailbox.Boxes(old(bus.boxes)) || fresh(x)
    {
      hide MailboxInvariant.Inv, NackAll, HubSpec.ClearPending;
      if s.closed { return []; }
      ghost var b := bus.View();
      var ids := s.BeginClose();
      assert bus.View() == b;
      disk := NackEach(ids);
      ghost var v := bus.View();
      ClearPending(s.sid);
      assert bus.View() == v;
    }

    method NackEach(ids: seq<string>) returns (ghost disk: seq<bool>)
      requires bus.ValidJobs()
      modifies bus`boxes, bus`dedup, bus`inflight, bus`file, bus`chans, bus`next, Mailbox.Boxes(bus.boxes)
      ensures |disk| == |ids| && bus.View() == NackAll(old(bus.View()), ids, disk)
      ensures bus.ValidJobs()
      ensures forall x | x in Mailbox.Boxes(bus.boxes) :: x in Mailbox.Boxes(old(bus.boxes)) || fresh(x)
    {
      hide MailboxInvariant.Inv, NackAll, Nack;
      disk := [];
      ghost var b := bus.View();
      assert NackAll(b, [], []) == b by { NackNone(b); }
      for i := 0 to |ids|
        invariant bus.ValidJobs() && (forall x | x in Mailbox.Boxes(bus.boxes) :: x in Mailbox.Boxes(old(bus.boxes)) || fresh(x))
        invariant |disk| == i && bus.View() == NackAll(b, ids[..i], disk)
      {
        var written: bool := *;
        NackAllSnoc(b, ids[..i], disk, ids[i], written);
        assert ids[..i + 1] == ids[..i] + [ids[i]];
        var _ := bus.Nack(ids[i], written);
        disk := disk + [written];
      }
      assert ids[..|ids|] == ids;
    }

    // -------------------------------------------------------------------------
    // Frames
    // -------------------------------------------------------------------------

    /** A reply: refused once the session is closed; a failed write closes it. */
    method Reply(s: Session, written: bool) returns (ok: bool, ghost disk: seq<bool>)
      requires bus.ValidJobs()
      modifies this`pending, s, bus`boxes, bus`dedup, bus`inflight, bus`file, bus`chans, bus`next, Mailbox.Boxes(bus.boxes)
      ensures ok <==> written && !old(s.closed)
      ensures ok || old(s.closed) ==> disk == [] && s.View() == old(s.View()) && bus.View() == old(bus.View()) && pending == old(pending)
      ensures !ok && !old(s.closed) ==>
        && |disk| == |old(s.inflight)| && bus.View() == NackAll(old(bus.View()), old(s.inflight), disk)
        && s.View() == HubSpec.CloseSession(old(s.View())).(toNack := [])
        && pending == HubSpec.ClearPending(old(pending), s.sid)
      ensures bus.ValidJobs()
      ensures forall x | x in Mailbox.Boxes(bus.boxes) :: x in Mailbox.Boxes(old(bus.boxes)) || fresh(x)
    {
      disk := [];
      if s.closed { return false, disk; }
      if !written {
        disk := CloseSession(s);
        return false, disk;
      }
      return true, disk;
    }

    /** A req: its slot, then its job; a job the bus does not take leaves no slot. */
    method HandleReq(s: Session, f: Wire.Frame, gen: string, now: int, disk: bool) returns (a: Answer)
      requires bus.ValidJobs()
      modifies this`pending, bus`boxes, bus`dedup, bus`inflight, bus`file, bus`chans, bus`next, Mailbox.Boxes(bus.boxes)
      ensures a == MissingId <==> f.id == ""
      ensures f.id == "" ==> pending == old(pending) && bus.View() == old(bus.View())
      ensures f.id != "" ==>
        var key := ScopedId(s.sid, f.id);
        var o := Put(old(bus.View()), f.name, JobMsg(key, f, s.name), gen, now, disk);
        && bus.View() == o.bus && a == (if o.result.Ok? then Done else Failed(o.result.error))
        && pending == if o.result.Ok? then ExpirePending(old(pending), now)[key := Pending(s.sid, f.id, now + ttl)]
                      else ExpirePending(old(pending), now) - {key}
      ensures f.id != "" ==> var key := ScopedId(s.sid, f.id);
        && OthersLive(old(pending), pending, now, key)
        && (key in pending <==> a == Done) && (a == Done ==> pending[key] == Pending(s.sid, f.id, now + ttl))
      ensures bus.ValidJobs()
      ensures forall x | x in Mailbox.Boxes(bus.boxes) :: x in Mailbox.Boxes(old(bus.boxes)) || fresh(x)
    {
      hide MailboxInvariant.Inv, Put, ScopedId, ExpirePending, OthersLive, JobMsg;
      if f.id == "" { return MissingId; }
      var key := ScopedId(s.sid, f.id);
      OpenSlot(key, Pending(s.sid, f.id, now + ttl), now);
      var r := bus.Put(f.name, JobMsg(key, f, s.name), gen, now, disk);
      if r.Err? {
        if key in pending && pending[key].sid == s.sid { pending := pending - {key}; }
        return Failed(r.error);
      }
      return Done;
    }

    /** The elapsed slots go, and a new one is opened. */
    method OpenSlot(key: string, slot: Pending, now: int)
      requires bus.ValidJobs()
      modifies this`pending
      ensures bus.ValidJobs() && bus.View() == old(bus.View())
      ensures pending == ExpirePending(old(pending), now)[key := slot] && OthersLive(old(pending), pending, now, key)
      ensures OthersLive(old(pending), pending - {key}, now, key)
      ensures pending - {key} == ExpirePending(old(pending), now) - {key}
    {
      hide MailboxInvariant.Inv, ExpirePending, OthersLive;
      ghost var b := bus.View();
      ExpiryLeavesLive(pending, now, key, slot);
      ExpirePendingLocked(now);
      pending := pending[key := slot];
      assert bus.View() == b;
      assert pending - {key} == ExpirePending(old(pending), now) - {key};
    }

    /** A rep: acknowledges the delivery it answers, if this open session was given it, and
        takes the slot it is to be forwarded through. */
    method HandleRep(s: Session, msgId: string, disk: bool) returns (dest: Option<Pending>)
      requires bus.ValidJobs()
      modifies this`pending, s`repAck, s`inflight, bus`dedup, bus`inflight, bus`file
      ensures bus.ValidJobs()
      ensures var (s1, d) := HubSpec.TakeRepAck(old(s.View()), msgId);
        if d == "" || s.closed then s.View() == s1 && bus.View() == old(bus.View())
        else s.View() == HubSpec.DropInflight(s1, d) && bus.View() == Ack(old(bus.View()), d, disk).bus
      ensures dest == if msgId in old(pending) then Some(old(pending)[msgId]) else None
      ensures pending == old(pending) - {msgId}
    {
      hide MailboxInvariant.Inv, Ack, HubSpec.TakeRepAck;
      AckAnswered(s, msgId, disk);
      ghost var v := bus.View();
      dest := if msgId in pending then Some(pending[msgId]) else None;
      pending := pending - {msgId};
      assert bus.View() == v;
    }

    method AckAnswered(s: Session, msgId: string, disk: bool)
      requires bus.ValidJobs()
      modifies s`repAck, s`inflight, bus`dedup, bus`inflight, bus`file
      ensures bus.ValidJobs()
      ensures var (s1, d) := HubSpec.TakeRepAck(old(s.View()), msgId);
        if d == "" || s.closed then s.View() == s1 && bus.View() == old(bus.View())
        else s.View() == HubSpec.DropInflight(s1, d) && bus.View() == Ack(old(bus.View()), d, disk).bus
    {
      hide MailboxInvariant.Inv, Ack;
      ghost var v := bus.View();
      var d := s.TakeRepAck(msgId);
      if d != "" {
        var claimed := s.ClaimInflight(d);
        assert bus.View() == v;
        if claimed {
          var _ := bus.Ack(d, disk);
        }
      }
      assert d == "" || s.closed ==> bus.View() == v;
    }

    method HandleAck(s: Session, delivery: string, disk: bool) returns (r: Result<()>)
      requires bus.ValidJobs()
      modifies s`inflight, bus`dedup, bus`inflight, bus`file
      ensures bus.ValidJobs()
      ensures Outcome(bus.View(), r) == Ack(old(bus.View()), delivery, disk)
      ensures s.View() == if r.Ok? then HubSpec.DropInflight(old(s.View()), delivery) else old(s.View())
    {
      hide MailboxInvariant.Inv, Ack;
      r := bus.Ack(delivery, disk);
      if r.Err? { return r; }
      ghost var v := bus.View();
      s.DropInflight(delivery);
      assert bus.View() == v;
    }

    method HandleNack(s: Session, delivery: string, disk: bool) returns (r: Result<()>)
      requires bus.ValidJobs()
      modifies s`inflight, bus`boxes, bus`dedup, bus`inflight, bus`file, bus`chans, bus`next, Mailbox.Boxes(bus.boxes)
      ensures Outcome(bus.View(), r) == Nack(old(bus.View()), delivery, disk)
      ensures s.View() == if r.Ok? then HubSpec.DropInflight(old(s.View()), delivery) else old(s.View())
      ensures bus.ValidJobs()
      ensures forall x | x in Mailbox.Boxes(bus.boxes) :: x in Mailbox.Boxes(old(bus.boxes)) || fresh(x)
    {
      hide MailboxInvariant.Inv, Nack;
      r := bus.Nack(delivery, disk);
      if r.Err? { return r; }
      ghost var v := bus.View();
      s.DropInflight(delivery);
      assert bus.View() == v;
    }

    // -------------------------------------------------------------------------
    // Jobs
    // -------------------------------------------------------------------------

    /** takeJob from the moment Take has returned `msg`: for a take, `hold` is false and the job is
        acknowledged once written; for a ready, it stays leased until answered. */
    method TakeJob(s: Session, frameId: string, msg: Msg, hold: bool, lease: int, id: string, now: int,
                   disk: bool, diskAfter: bool, written: bool)
      returns (held: bool, ghost nacks: seq<bool>)
      requires bus.ValidJobs() && id !in bus.inflight
      modifies this`pending, s, bus`boxes, bus`dedup, bus`inflight, bus`file, bus`chans, bus`next, Mailbox.Boxes(bus.boxes)
      ensures var o := Hold(old(bus.View()), msg, lease, id, now, disk);
        var outId := if msg.id == "" then frameId else msg.id;
        && held == o.result.Ok?
        && (!held ==> bus.View() == Requeue(o.bus, msg, diskAfter).bus && s.View() == old(s.View()))
        && (held ==>
              if old(s.closed) then
                bus.View() == o.bus && s.inflight == old(s.inflight) + [id] && s.repAck == old(s.repAck) - {outId}
              else if !written then
                && s.closed && s.inflight == [] && s.repAck == old(s.repAck) - {outId}
                && |nacks| == |old(s.inflight)| + 1 && bus.View() == NackAll(o.bus, old(s.inflight) + [id], nacks)
              else if hold then
                && bus.View() == o.bus
                && s.View() == HubSpec.TrackRepAck(HubSpec.TrackInflight(old(s.View()), id), outId, id)
              else
                bus.View() == Ack(o.bus, id, diskAfter).bus && s.View() == HubSpec.DropInflight(old(s.View()), id))
      ensures pending == if held && !old(s.closed) && !written then HubSpec.ClearPending(old(pending), s.sid) else old(pending)
      ensures bus.ValidJobs()
      ensures forall x | x in Mailbox.Boxes(bus.boxes) :: x in Mailbox.Boxes(old(bus.boxes)) || fresh(x)
    {
      hide MailboxInvariant.Inv, Hold, Requeue, Ack, Nack, NackAll, HubSpec.ClearPending;
      nacks := [];
      held := HoldOrRequeue(msg, lease, id, now, disk, diskAfter);
      if !held { return; }
      var out := MsgFrame(msg.id, msg);
      var outId := if out.id == "" then frameId else out.id;
      TrackJob(s, outId, hold, id);
      WithoutLast(old(s.inflight), id, id);
      nacks := FinishJob(s, outId, hold, id, diskAfter, written);
    }

    /** reserveJob from the moment Take has returned `msg`: the job stays leased until settled. */
    method ReserveJob(s: Session, msg: Msg, lease: int, id: string, now: int, disk: bool, diskAfter: bool, written: bool)
      returns (held: bool, ghost nacks: seq<bool>)
      requires bus.ValidJobs() && id !in bus.inflight
      modifies this`pending, s, bus`boxes, bus`dedup, bus`inflight, bus`file, bus`chans, bus`next, Mailbox.Boxes(bus.boxes)
      ensures var o := Hold(old(bus.View()), msg, lease, id, now, disk);
        && held == o.result.Ok?
        && (!held ==> bus.View() == Requeue(o.bus, msg, diskAfter).bus && s.View() == old(s.View()))
        && (held ==>
              if old(s.closed) || written then
                bus.View() == o.bus && s.View() == HubSpec.TrackInflight(old(s.View()), id)
              else
                && s.closed && s.inflight == [] && s.repAck == old(s.repAck)
                && |nacks| == |old(s.inflight)| + 1 && bus.View() == NackAll(o.bus, old(s.inflight) + [id], nacks))
      ensures pending == if held && !old(s.closed) && !written then HubSpec.ClearPending(old(pending), s.sid) else old(pending)
      ensures bus.ValidJobs()
      ensures forall x | x in Mailbox.Boxes(bus.boxes) :: x in Mailbox.Boxes(old(bus.boxes)) || fresh(x)
    {
      hide MailboxInvariant.Inv, Hold, Requeue, Nack, NackAll, HubSpec.ClearPending;
      nacks := [];
      held := HoldOrRequeue(msg, lease, id, now, disk, diskAfter);
      if !held { return; }
      TrackJob(s, "", false, id);
      var ok;
      ok, nacks := Reply(s, written);
      if !ok { AbandonJob(s, id); }
    }

    method HoldOrRequeue(msg: Msg, lease: int, id: string, now: int, disk: bool, diskAfter: bool) returns (held: bool)
      requires bus.ValidJobs() && id !in bus.inflight
      modifies bus`boxes, bus`dedup, bus`inflight, bus`file, bus`chans, bus`next, Mailbox.Boxes(bus.boxes)
      ensures var o := Hold(old(bus.View()), msg, lease, id, now, disk);
        held == o.result.Ok? && bus.View() == if held then o.bus else Requeue(o.bus, msg, diskAfter).bus
      ensures bus.ValidJobs()
      ensures forall x | x in Mailbox.Boxes(bus.boxes) :: x in Mailbox.Boxes(old(bus.boxes)) || fresh(x)
    {
      hide MailboxInvariant.Inv, Hold, Requeue;
      var o := bus.Hold(msg, lease, id, now, disk);
      if o.Ok? { return true; }
      var _ := bus.Requeue(msg, diskAfter);
      return false;
    }

    method TrackJob(s: Session, outId: string, hold: bool, id: string)
      requires bus.ValidJobs()
      modifies s`inflight, s`repAck
      ensures bus.ValidJobs() && bus.View() == old(bus.View())
      ensures s.View() == (var t := HubSpec.TrackInflight(old(s.View()), id); if hold then HubSpec.TrackRepAck(t, outId, id) else t)
    {
      hide MailboxInvariant.Inv;
      s.TrackInflight(id);
      if hold { s.TrackRepAck(outId, id); }
      assert bus.View() == old(bus.View());
    }

    /** From the reply on. */
    method FinishJob(s: Session, outId: string, hold: bool, id: string, disk: bool, written: bool) returns (ghost nacks: seq<bool>)
      requires bus.ValidJobs()
      modifies this`pending, s, bus`boxes, bus`dedup, bus`inflight, bus`file, bus`chans, bus`next, Mailbox.Boxes(bus.boxes)
      ensures old(s.closed) ==>
        bus.View() == old(bus.View()) && s.inflight == old(s.inflight) && s.repAck == old(s.repAck) - {outId}
      ensures !old(s.closed) && !written ==>
        && s.closed && s.inflight == [] && s.repAck == old(s.repAck) - {outId}
        && |nacks| == |old(s.inflight)| && bus.View() == NackAll(old(bus.View()), old(s.inflight), nacks)
      ensures !old(s.closed) && written && hold ==> bus.View() == old(bus.View()) && s.View() == old(s.View())
      ensures !old(s.closed) && written && !hold ==>
        bus.View() == Ack(old(bus.View()), id, disk).bus && s.View() == HubSpec.DropInflight(old(s.View()), id)
      ensures pending == if !old(s.closed) && !written then HubSpec.ClearPending(old(pending), s.sid) else old(pending)
      ensures bus.ValidJobs()
      ensures forall x | x in Mailbox.Boxes(bus.boxes) :: x in Mailbox.Boxes(old(bus.boxes)) || fresh(x)
    {
      hide MailboxInvariant.Inv, Ack, Nack, NackAll, HubSpec.ClearPending;
      var ok;
      ok, nacks := Reply(s, written);
      if !ok {
        ForgetRep(s, outId);
        AbandonJob(s, id);
        return;
      }
      if hold { return; }
      AckJob(s, id, disk);
    }

    method ForgetRep(s: Session, outId: string)
      requires bus.ValidJobs()
      modifies s`repAck
      ensures bus.ValidJobs() && bus.View() == old(bus.View()) && s.repAck == old(s.repAck) - {outId}
    {
      hide MailboxInvariant.Inv;
      var _ := s.TakeRepAck(outId);
      assert bus.View() == old(bus.View());
    }

    /** After a failed reply the session is closed, so the claim fails, and it is the close, not
        the job, that gives the lease back. */
    method AbandonJob(s: Session, id: string)
      requires bus.ValidJobs() && s.closed
      modifies s`inflight
      ensures bus.ValidJobs() && bus.View() == old(bus.View()) && s.View() == old(s.View())
    {
      hide MailboxInvariant.Inv;
      var claimed := s.ClaimInflight(id);
      assert !claimed;
      assert bus.View() == old(bus.View());
    }

    method AckJob(s: Session, id: string, disk: bool)
      requires bus.ValidJobs() && !s.closed
      modifies s`inflight, bus`dedup, bus`inflight, bus`file
      ensures bus.ValidJobs() && bus.View() == Ack(old(bus.View()), id, disk).bus
      ensures s.View() == HubSpec.DropInflight(old(s.View()), id)
    {
      hide MailboxInvariant.Inv, Ack;
      var claimed := s.ClaimInflight(id);
      assert bus.View() == old(bus.View());
      if claimed {
        var _ := bus.Ack(id, disk);
      }
    }
  }
}
