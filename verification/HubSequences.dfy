/** What one goroutine of the hub does when no other runs in between: the steps of the state machine,
    one after the other, come to what the methods of the hub are proved to compute. */
module HubSequences {
  import opened Bags
  import opened MailboxSpec
  import opened MailboxRuns
  import opened HubSpec
  import opened HubScenarios
  import HubSessions

  /** What the steps of jobs leave alone. */
  ghost predicate TablesKept(h: Hub, h': Hub) {
    h'.pending == h.pending && h'.asked == h.asked && h'.answered == h.answered && h'.sids == h.sids
  }

  // ---------------------------------------------------------------------------
  // Single steps
  // ---------------------------------------------------------------------------

  lemma Holds(h: Hub, j: nat, lease: int, id: string, now: int, disk: bool) returns (h': Hub)
    requires j in h.jobs && At(h, j).Taken? && At(h, j).msg in h.world.hand && id !in h.world.issued
    ensures Steps(h, HoldJob(j, lease, id, now, disk), h') && TablesKept(h, h') && h'.sessions == h.sessions
    ensures var m := At(h, j).msg; var o := Hold(h.world.bus, m, lease, id, now, disk);
      && h'.world.bus == o.bus && (o.result.Err? ==> m in h'.world.hand)
      && h'.jobs == h.jobs[j := h.jobs[j].(stage := if o.result.Ok? then HubSpec.Stage.Leased(id, m.id) else Refused(m))]
  {
    hide Hold;
    h' := HubStep(h, HoldJob(j, lease, id, now, disk));
  }

  lemma Requeues(h: Hub, j: nat, disk: bool) returns (h': Hub)
    requires j in h.jobs && At(h, j).Refused? && At(h, j).msg in h.world.hand
    ensures Steps(h, RequeueJob(j, disk), h') && TablesKept(h, h') && h'.sessions == h.sessions
    ensures h'.world.bus == Requeue(h.world.bus, At(h, j).msg, disk).bus && h'.jobs == h.jobs - {j}
  {
    hide Requeue;
    h' := HubStep(h, RequeueJob(j, disk));
  }

  lemma Lists(h: Hub, j: nat) returns (h': Hub)
    requires j in h.jobs && At(h, j).Leased? && h.jobs[j].sid in h.sessions
    ensures Steps(h, ListJob(j), h') && TablesKept(h, h') && h'.world == h.world
    ensures var (sid, id, m) := (h.jobs[j].sid, At(h, j).id, At(h, j).msgId); var s := TrackInflight(h.sessions[sid], id);
      && h'.jobs == h.jobs[j := h.jobs[j].(stage := HubSpec.Stage.Listed(id, m))]
      && h'.sessions == h.sessions[sid := if h.jobs[j].kind.Ready? then TrackRepAck(s, m, id) else s]
  {
    hide TrackInflight, TrackRepAck;
    h' := HubStep(h, ListJob(j));
  }

  lemma IsWritten(h: Hub, j: nat) returns (h': Hub)
    requires j in h.jobs && At(h, j).Listed? && h.jobs[j].sid in h.sessions
    ensures Steps(h, WriteJob(j, true), h') && TablesKept(h, h') && h'.world == h.world && h'.sessions == h.sessions
    ensures h'.jobs ==
      if h.jobs[j].kind.Take? then h.jobs[j := h.jobs[j].(stage := Claiming(At(h, j).id, true))] else h.jobs - {j}
  {
    h' := HubStep(h, WriteJob(j, true));
  }

  lemma IsUnwritten(h: Hub, j: nat) returns (h': Hub)
    requires j in h.jobs && At(h, j).Listed? && h.jobs[j].sid in h.sessions && h.sessions[h.jobs[j].sid].closed
    ensures Steps(h, WriteJob(j, false), h') && TablesKept(h, h') && h'.world == h.world
    ensures var (sid, s, m) := (h.jobs[j].sid, h.sessions[h.jobs[j].sid], At(h, j).msgId);
      && h'.jobs == h.jobs[j := h.jobs[j].(stage := Claiming(At(h, j).id, false))]
      && h'.sessions == h.sessions[sid := if h.jobs[j].kind.Reserve? then s else s.(repAck := s.repAck - {m})]
  {
    h' := HubStep(h, WriteJob(j, false));
  }

  lemma Claims(h: Hub, j: nat) returns (h': Hub)
    requires j in h.jobs && At(h, j).Claiming? && h.jobs[j].sid in h.sessions
    ensures Steps(h, ClaimJob(j), h') && TablesKept(h, h') && h'.world == h.world
    ensures var (sid, s, id) := (h.jobs[j].sid, h.sessions[h.jobs[j].sid], At(h, j).id);
      if s.closed then h'.sessions == h.sessions && h'.jobs == h.jobs - {j}
      else
        && h'.sessions == h.sessions[sid := DropInflight(s, id)]
        && h'.jobs == h.jobs[j := h.jobs[j].(stage := Claimed(id, At(h, j).ack))]
  {
    h' := HubStep(h, ClaimJob(j));
    assert h.sessions[h.jobs[j].sid := h.sessions[h.jobs[j].sid]] == h.sessions;
  }

  lemma Acks(h: Hub, j: nat, disk: bool) returns (h': Hub)
    requires j in h.jobs && At(h, j).Claimed? && At(h, j).ack
    ensures Steps(h, SettleJob(j, disk), h') && TablesKept(h, h') && h'.sessions == h.sessions
    ensures h'.world.bus == Ack(h.world.bus, At(h, j).id, disk).bus && h'.jobs == h.jobs - {j}
  {
    hide Ack;
    h' := HubStep(h, SettleJob(j, disk));
  }

  // ---------------------------------------------------------------------------
  // A job from the moment it has its message
  // ---------------------------------------------------------------------------

  lemma Twice<V>(m: map<nat, V>, j: nat, v: V, v': V)
    ensures m[j := v][j := v'] == m[j := v'] && m[j := v] - {j} == m - {j}
  {
  }

  /** A lease that cannot be made puts the message back. */
  lemma RefusedJob(h: Hub, j: nat, lease: int, id: string, now: int, disk: bool, diskAfter: bool) returns (h': Hub)
    requires j in h.jobs && At(h, j).Taken? && At(h, j).msg in h.world.hand && id !in h.world.issued
    requires Hold(h.world.bus, At(h, j).msg, lease, id, now, disk).result.Err?
    ensures Leads(h, [HoldJob(j, lease, id, now, disk), RequeueJob(j, diskAfter)], h') && TablesKept(h, h')
    ensures var m := At(h, j).msg;
      && h'.world.bus == Requeue(Hold(h.world.bus, m, lease, id, now, disk).bus, m, diskAfter).bus
      && h'.sessions == h.sessions && h'.jobs == h.jobs - {j}
  {
    hide Steps, Leads, Hold, Requeue;
    var e, e' := HoldJob(j, lease, id, now, disk), RequeueJob(j, diskAfter);
    var h1 := Holds(h, j, lease, id, now, disk);
    h' := Requeues(h1, j, diskAfter);
    Twice(h.jobs, j, h1.jobs[j], h1.jobs[j]);
    OneStep(h, e, h1);
    OneMore(h, [e], h1, e', h');
    assert [e] + [e'] == [e, e'];
  }

  /** Leased and listed, and filed for its rep if it is a ready. */
  lemma ListedJob(h: Hub, j: nat, lease: int, id: string, now: int, disk: bool) returns (h': Hub)
    requires j in h.jobs && At(h, j).Taken? && At(h, j).msg in h.world.hand && id !in h.world.issued && h.jobs[j].sid in h.sessions
    requires Hold(h.world.bus, At(h, j).msg, lease, id, now, disk).result.Ok?
    ensures Leads(h, [HoldJob(j, lease, id, now, disk), ListJob(j)], h') && TablesKept(h, h')
    ensures var (sid, m) := (h.jobs[j].sid, At(h, j).msg); var s := h.sessions[sid];
      && h'.world.bus == Hold(h.world.bus, m, lease, id, now, disk).bus
      && h'.jobs == h.jobs[j := h.jobs[j].(stage := HubSpec.Stage.Listed(id, m.id))]
      && h'.sessions == h.sessions[sid :=
           s.(inflight := s.inflight + [id], repAck := if h.jobs[j].kind.Ready? && m.id != "" then s.repAck[m.id := id] else s.repAck)]
  {
    hide Steps, Leads, Hold;
    var e, e' := HoldJob(j, lease, id, now, disk), ListJob(j);
    var h1 := Holds(h, j, lease, id, now, disk);
    h' := Lists(h1, j);
    Twice(h.jobs, j, h1.jobs[j], h'.jobs[j]);
    OneStep(h, e, h1);
    OneMore(h, [e], h1, e', h');
    assert [e] + [e'] == [e, e'];
  }

  /** A take whose job is written is acknowledged, and its session lists what it listed before. */
  lemma TakenJobEnds(h: Hub, j: nat, disk: bool) returns (h': Hub)
    requires j in h.jobs && At(h, j).Listed? && h.jobs[j].kind.Take? && h.jobs[j].sid in h.sessions
    requires !h.sessions[h.jobs[j].sid].closed
    ensures Leads(h, [WriteJob(j, true), ClaimJob(j), SettleJob(j, disk)], h') && TablesKept(h, h')
    ensures var (sid, id) := (h.jobs[j].sid, At(h, j).id); var s := h.sessions[sid];
      && h'.world.bus == Ack(h.world.bus, id, disk).bus && h'.jobs == h.jobs - {j}
      && h'.sessions == h.sessions[sid := s.(inflight := Without(s.inflight, id))]
  {
    hide Steps, Leads, Ack;
    var e, e', e'' := WriteJob(j, true), ClaimJob(j), SettleJob(j, disk);
    var h1 := IsWritten(h, j);
    var h2 := Claims(h1, j);
    h' := Acks(h2, j, disk);
    Twice(h.jobs, j, h1.jobs[j], h2.jobs[j]);
    Twice(h.jobs, j, h2.jobs[j], h2.jobs[j]);
    OneStep(h, e, h1);
    OneMore(h, [e], h1, e', h2);
    OneMore(h, [e] + [e'], h2, e'', h');
    assert [e] + [e'] + [e''] == [e, e', e''];
  }

  /** A ready or a reserve whose job is written keeps its lease. */
  lemma KeptJobEnds(h: Hub, j: nat) returns (h': Hub)
    requires j in h.jobs && At(h, j).Listed? && !h.jobs[j].kind.Take? && h.jobs[j].sid in h.sessions
    ensures Leads(h, [WriteJob(j, true)], h') && TablesKept(h, h')
    ensures h'.world == h.world && h'.sessions == h.sessions && h'.jobs == h.jobs - {j}
  {
    hide Steps, Leads;
    h' := IsWritten(h, j);
    OneStep(h, WriteJob(j, true), h');
  }

  /** A job of a closed session is not written, and changes no more than what is filed for its rep. */
  lemma OrphanedJobEnds(h: Hub, j: nat) returns (h': Hub)
    requires j in h.jobs && At(h, j).Listed? && h.jobs[j].sid in h.sessions && h.sessions[h.jobs[j].sid].closed
    ensures Leads(h, [WriteJob(j, false), ClaimJob(j)], h') && TablesKept(h, h')
    ensures var (sid, m) := (h.jobs[j].sid, At(h, j).msgId); var s := h.sessions[sid];
      && h'.world == h.world && h'.jobs == h.jobs - {j}
      && h'.sessions == h.sessions[sid := if h.jobs[j].kind.Reserve? then s else s.(repAck := s.repAck - {m})]
  {
    hide Steps, Leads;
    var e, e' := WriteJob(j, false), ClaimJob(j);
    var h1 := IsUnwritten(h, j);
    h' := Claims(h1, j);
    Twice(h.jobs, j, h1.jobs[j], h1.jobs[j]);
    OneStep(h, e, h1);
    OneMore(h, [e], h1, e', h');
    assert [e] + [e'] == [e, e'];
  }

  // ---------------------------------------------------------------------------
  // A close
  // ---------------------------------------------------------------------------

  lemma GivesBack(h: Hub, sid: nat, d: bool) returns (h': Hub)
    requires sid in h.sessions && h.sessions[sid].toNack != []
    ensures Steps(h, NackNext(sid, d), h') && TablesKept(h, h') && h'.jobs == h.jobs
    ensures var s := h.sessions[sid];
      h'.sessions == h.sessions[sid := s.(toNack := s.toNack[1..])] && h'.world.bus == Nack(h.world.bus, s.toNack[0], d).bus
  {
    hide Nack;
    h' := HubStep(h, NackNext(sid, d));
  }

  lemma {:induction false} GivesAllBack(h: Hub, sid: nat, disk: seq<bool>) returns (h': Hub)
    requires sid in h.sessions && |disk| == |h.sessions[sid].toNack|
    ensures Leads(h, HubSessions.Nacks(sid, disk), h') && TablesKept(h, h') && h'.jobs == h.jobs
    ensures var s := h.sessions[sid];
      h'.sessions == h.sessions[sid := s.(toNack := [])] && h'.world.bus == HubSessions.NackAll(h.world.bus, s.toNack, disk)
    decreases |disk|
  {
    hide Steps, Nack;
    if disk == [] {
      h' := h;
      assert h.sessions[sid := h.sessions[sid]] == h.sessions;
    } else {
      var h1 := GivesBack(h, sid, disk[0]);
      h' := GivesAllBack(h1, sid, disk[1..]);
      hide Leads;
      Twice(h.sessions, sid, h1.sessions[sid], h'.sessions[sid]);
      OneStep(h, NackNext(sid, disk[0]), h1);
      Joined(h, [NackNext(sid, disk[0])], h1, HubSessions.Nacks(sid, disk[1..]), h');
    }
  }

  lemma Marks(h: Hub, sid: nat) returns (h': Hub)
    requires sid in h.sessions && !h.sessions[sid].closed
    ensures Steps(h, BeginClose(sid), h') && TablesKept(h, h') && h'.jobs == h.jobs && h'.world == h.world
    ensures var s := h.sessions[sid]; h'.sessions == h.sessions[sid := Session(true, [], s.repAck, s.inflight)]
  {
    h' := HubStep(h, BeginClose(sid));
  }

  lemma Forgets(h: Hub, sid: nat) returns (h': Hub)
    requires sid in h.sessions && h.sessions[sid].closed && h.sessions[sid].toNack == []
    ensures Steps(h, ForgetRequests(sid), h') && h'.jobs == h.jobs && h'.world == h.world && h'.sessions == h.sessions
    ensures h'.pending == ClearPending(h.pending, sid) && h'.asked == h.asked && h'.answered == h.answered && h'.sids == h.sids
  {
    hide ClearPending;
    h' := HubStep(h, ForgetRequests(sid));
  }

  function CloseEvents(sid: nat, disk: seq<bool>): seq<HubEvent> {
    [BeginClose(sid)] + HubSessions.Nacks(sid, disk) + [ForgetRequests(sid)]
  }

  /** A whole close: every listed delivery nacked in order, and the session's slots dropped. */
  lemma WholeClose(h: Hub, sid: nat, disk: seq<bool>) returns (h': Hub)
    requires sid in h.sessions && !h.sessions[sid].closed && |disk| == |h.sessions[sid].inflight|
    ensures Leads(h, CloseEvents(sid, disk), h') && h'.jobs == h.jobs && h'.pending == ClearPending(h.pending, sid)
    ensures var s := h.sessions[sid];
      && h'.world.bus == HubSessions.NackAll(h.world.bus, s.inflight, disk)
      && h'.sessions == h.sessions[sid := Session(true, [], s.repAck, [])]
  {
    hide Steps, Leads, HubSessions.NackAll, ClearPending, HubSessions.Nacks;
    var h1 := Marks(h, sid);
    var h2 := GivesAllBack(h1, sid, disk);
    h' := Forgets(h2, sid);
    Twice(h.sessions, sid, h1.sessions[sid], h2.sessions[sid]);
    OneStep(h, BeginClose(sid), h1);
    Joined(h, [BeginClose(sid)], h1, HubSessions.Nacks(sid, disk), h2);
    OneMore(h, [BeginClose(sid)] + HubSessions.Nacks(sid, disk), h2, ForgetRequests(sid), h');
  }

  // ---------------------------------------------------------------------------
  // Whole jobs
  // ---------------------------------------------------------------------------

  /** What the method TakeJob leaves of a job that it could lease: `hold` for a ready. */
  ghost predicate TakeJobEnds(h: Hub, sid: nat, m: Msg, hold: bool, leased: MailboxSpec.Bus, id: string,
                              diskAfter: bool, written: bool, nacks: seq<bool>, h': Hub)
    requires sid in h.sessions && |nacks| == |h.sessions[sid].inflight| + 1
  {
    var s := h.sessions[sid];
    sid in h'.sessions &&
    var s' := h'.sessions[sid];
    if s.closed then
      h'.world.bus == leased && s'.inflight == s.inflight + [id] && s'.repAck == s.repAck - {m.id} && h'.pending == h.pending
    else if !written then
      && s'.closed && s'.inflight == [] && s'.repAck == s.repAck - {m.id} && h'.pending == ClearPending(h.pending, sid)
      && h'.world.bus == HubSessions.NackAll(leased, s.inflight + [id], nacks)
    else if hold then
      && h'.world.bus == leased && h'.pending == h.pending
      && s' == s.(inflight := s.inflight + [id], repAck := s.repAck[m.id := id])
    else
      && h'.world.bus == Ack(leased, id, diskAfter).bus && h'.pending == h.pending
      && s' == s.(inflight := Without(s.inflight, id))
  }

  /** Run alone, the steps of a take or ready come to what the method TakeJob computes, in every
      outcome of its writes: the job is done, and no other session or job has changed. */
  lemma TakeJobRuns(h: Hub, j: nat, lease: int, id: string, now: int, disk: bool, diskAfter: bool, written: bool, nacks: seq<bool>)
    returns (es: seq<HubEvent>, h': Hub)
    requires j in h.jobs && At(h, j).Taken? && At(h, j).msg in h.world.hand && At(h, j).msg.id != "" && id !in h.world.issued
    requires var sid := h.jobs[j].sid; sid in h.sessions && |nacks| == |h.sessions[sid].inflight| + 1
    requires !h.jobs[j].kind.Reserve? && Hold(h.world.bus, At(h, j).msg, lease, id, now, disk).result.Ok?
    ensures Leads(h, es, h') && h'.jobs == h.jobs - {j} && h'.sessions - {h.jobs[j].sid} == h.sessions - {h.jobs[j].sid}
    ensures TakeJobEnds(h, h.jobs[j].sid, At(h, j).msg, h.jobs[j].kind.Ready?,
                        Hold(h.world.bus, At(h, j).msg, lease, id, now, disk).bus, id, diskAfter, written, nacks, h')
  {
    hide Leads, Hold, Ack, HubSessions.NackAll, ClearPending, Without;
    var sid := h.jobs[j].sid;
    var s := h.sessions[sid];
    es := [HoldJob(j, lease, id, now, disk), ListJob(j)];
    var h1 := ListedJob(h, j, lease, id, now, disk);
    var last: seq<HubEvent>;
    if s.closed {
      last := [WriteJob(j, false), ClaimJob(j)];
      h' := OrphanedJobEnds(h1, j);
      Refiled(s.repAck, At(h, j).msg.id, id);
    } else if !written {
      var h2 := WholeClose(h1, sid, nacks);
      Joined(h, es, h1, CloseEvents(sid, nacks), h2);
      es := es + CloseEvents(sid, nacks);
      h1 := h2;
      last := [WriteJob(j, false), ClaimJob(j)];
      h' := OrphanedJobEnds(h2, j);
      Refiled(s.repAck, At(h, j).msg.id, id);
    } else if h.jobs[j].kind.Take? {
      last := [WriteJob(j, true), ClaimJob(j), SettleJob(j, diskAfter)];
      h' := TakenJobEnds(h1, j, diskAfter);
      WithoutLast(s.inflight, id, id);
    } else {
      last := [WriteJob(j, true)];
      h' := KeptJobEnds(h1, j);
    }
    Joined(h, es, h1, last, h');
    es := es + last;
  }

  lemma Refiled(r: map<string, string>, m: string, id: string)
    ensures r[m := id] - {m} == r - {m}
  {
  }

  /** What the method ReserveJob leaves of a job that it could lease. */
  ghost predicate ReserveJobEnds(h: Hub, sid: nat, leased: MailboxSpec.Bus, id: string, written: bool, nacks: seq<bool>, h': Hub)
    requires sid in h.sessions && |nacks| == |h.sessions[sid].inflight| + 1
  {
    var s := h.sessions[sid];
    sid in h'.sessions &&
    var s' := h'.sessions[sid];
    if s.closed || written then
      h'.world.bus == leased && s' == s.(inflight := s.inflight + [id]) && h'.pending == h.pending
    else
      && s'.closed && s'.inflight == [] && s'.repAck == s.repAck && h'.pending == ClearPending(h.pending, sid)
      && h'.world.bus == HubSessions.NackAll(leased, s.inflight + [id], nacks)
  }

  lemma ReserveJobRuns(h: Hub, j: nat, lease: int, id: string, now: int, disk: bool, written: bool, nacks: seq<bool>)
    returns (es: seq<HubEvent>, h': Hub)
    requires j in h.jobs && At(h, j).Taken? && At(h, j).msg in h.world.hand && id !in h.world.issued
    requires var sid := h.jobs[j].sid; sid in h.sessions && |nacks| == |h.sessions[sid].inflight| + 1
    requires h.jobs[j].kind.Reserve? && Hold(h.world.bus, At(h, j).msg, lease, id, now, disk).result.Ok?
    ensures Leads(h, es, h') && h'.jobs == h.jobs - {j} && h'.sessions - {h.jobs[j].sid} == h.sessions - {h.jobs[j].sid}
    ensures ReserveJobEnds(h, h.jobs[j].sid, Hold(h.world.bus, At(h, j).msg, lease, id, now, disk).bus, id, written, nacks, h')
  {
    hide Leads, Hold, HubSessions.NackAll, ClearPending;
    var sid := h.jobs[j].sid;
    var s := h.sessions[sid];
    es := [HoldJob(j, lease, id, now, disk), ListJob(j)];
    var h1 := ListedJob(h, j, lease, id, now, disk);
    var last: seq<HubEvent> := [WriteJob(j, false), ClaimJob(j)];
    if s.closed {
      h' := OrphanedJobEnds(h1, j);
    } else if !written {
      var h2 := WholeClose(h1, sid, nacks);
      Joined(h, es, h1, CloseEvents(sid, nacks), h2);
      es := es + CloseEvents(sid, nacks);
      h1 := h2;
      h' := OrphanedJobEnds(h2, j);
    } else {
      last := [WriteJob(j, true)];
      h' := KeptJobEnds(h1, j);
    }
    Joined(h, es, h1, last, h');
    es := es + last;
  }

  // ---------------------------------------------------------------------------
  // Frames
  // ---------------------------------------------------------------------------

  lemma TakesRep(h: Hub, j: nat, sid: nat, msgId: string) returns (h': Hub)
    requires j !in h.jobs && sid in h.sessions
    ensures Steps(h, RepFrame(j, sid, msgId), h') && TablesKept(h, h') && h'.world == h.world
    ensures var s := h.sessions[sid]; var d := if msgId in s.repAck then s.repAck[msgId] else "";
      && h'.sessions == h.sessions[sid := s.(repAck := s.repAck - {msgId})]
      && h'.jobs == if d != "" then h.jobs[j := Job(sid, Take, Claiming(d, true))] else h.jobs
  {
    h' := HubStep(h, RepFrame(j, sid, msgId));
  }

  lemma TakesSlot(h: Hub, sid: nat, msgId: string) returns (h': Hub)
    requires sid in h.sessions
    ensures Steps(h, ForwardRep(sid, msgId, true), h') && h'.world == h.world && h'.sessions == h.sessions && h'.jobs == h.jobs
    ensures h'.pending == h.pending - {msgId} && h'.asked == h.asked
    ensures h'.answered
         == h.answered + if msgId in h.pending then multiset{(h.pending[msgId].sid, h.pending[msgId].clientId)} else multiset{}
  {
    h' := HubStep(h, ForwardRep(sid, msgId, true));
    if msgId !in h.pending { assert h.pending - {msgId} == h.pending; }
  }

  lemma NoJobLeft(jobs: map<nat, Job>, j: nat, v: Job, v': Job)
    requires j !in jobs
    ensures jobs[j := v][j := v'] == jobs[j := v'] && jobs[j := v] - {j} == jobs
  {
  }

  /** Run alone, a rep acknowledges what was filed under its id, if its session is open, and goes to
      the session whose slot it takes: what the method HandleRep computes. */
  lemma RepRuns(h: Hub, j: nat, sid: nat, msgId: string, disk: bool) returns (es: seq<HubEvent>, h': Hub)
    requires j !in h.jobs && sid in h.sessions
    ensures Leads(h, es, h') && h'.jobs == h.jobs && h'.pending == h.pending - {msgId}
    ensures h'.answered
         == h.answered + if msgId in h.pending then multiset{(h.pending[msgId].sid, h.pending[msgId].clientId)} else multiset{}
    ensures var s := h.sessions[sid]; var d := if msgId in s.repAck then s.repAck[msgId] else "";
      if d == "" || s.closed then
        h'.world == h.world && h'.sessions == h.sessions[sid := s.(repAck := s.repAck - {msgId})]
      else
        && h'.world.bus == Ack(h.world.bus, d, disk).bus
        && h'.sessions == h.sessions[sid := s.(repAck := s.repAck - {msgId}, inflight := Without(s.inflight, d))]
  {
    hide Leads, Steps, Ack, Without;
    var s := h.sessions[sid];
    var h1 := TakesRep(h, j, sid, msgId);
    es := [RepFrame(j, sid, msgId)];
    OneStep(h, es[0], h1);
    if msgId in s.repAck && s.repAck[msgId] != "" {
      var h2 := Claims(h1, j);
      OneMore(h, es, h1, ClaimJob(j), h2);
      es := es + [ClaimJob(j)];
      NoJobLeft(h.jobs, j, h1.jobs[j], if j in h2.jobs then h2.jobs[j] else h1.jobs[j]);
      if !s.closed {
        var h3 := Acks(h2, j, disk);
        NoJobLeft(h.jobs, j, h2.jobs[j], h2.jobs[j]);
        OneMore(h, es, h2, SettleJob(j, disk), h3);
        es := es + [SettleJob(j, disk)];
        h2 := h3;
      }
      h1 := h2;
    }
    h' := TakesSlot(h1, sid, msgId);
    OneMore(h, es, h1, ForwardRep(sid, msgId, true), h');
    es := es + [ForwardRep(sid, msgId, true)];
  }

  lemma Drops(h: Hub, j: nat) returns (h': Hub)
    requires j in h.jobs && At(h, j).Settled? && h.jobs[j].sid in h.sessions
    ensures Steps(h, DropJob(j), h') && TablesKept(h, h') && h'.world == h.world && h'.jobs == h.jobs - {j}
    ensures var (sid, id) := (h.jobs[j].sid, At(h, j).id); var s := h.sessions[sid];
      h'.sessions == h.sessions[sid := s.(inflight := Without(s.inflight, id))]
  {
    h' := HubStep(h, DropJob(j));
  }

  lemma Settling(h: Hub, e: HubEvent) returns (h': Hub)
    requires (e.AckFrame? || e.NackFrame?) && e.job !in h.jobs && e.sid in h.sessions
    ensures Steps(h, e, h') && TablesKept(h, h') && h'.sessions == h.sessions
    ensures var o := if e.AckFrame? then Ack(h.world.bus, e.id, e.disk) else Nack(h.world.bus, e.id, e.disk);
      h'.world.bus == o.bus && h'.jobs == if o.result.Ok? then h.jobs[e.job := Job(e.sid, Take, Settled(e.id))] else h.jobs
  {
    hide Ack, Nack;
    h' := HubStep(h, e);
  }

  /** Run alone, an ack or nack frame settles the lease, and its session lists it no more when that was
      written: what the methods HandleAck and HandleNack compute. */
  lemma SettleRuns(h: Hub, e: HubEvent) returns (es: seq<HubEvent>, h': Hub)
    requires (e.AckFrame? || e.NackFrame?) && e.job !in h.jobs && e.sid in h.sessions
    ensures Leads(h, es, h') && TablesKept(h, h') && h'.jobs == h.jobs
    ensures var o := if e.AckFrame? then Ack(h.world.bus, e.id, e.disk) else Nack(h.world.bus, e.id, e.disk);
      var s := h.sessions[e.sid];
      && h'.world.bus == o.bus
      && h'.sessions == if o.result.Ok? then h.sessions[e.sid := s.(inflight := Without(s.inflight, e.id))] else h.sessions
  {
    hide Leads, Steps, Ack, Nack, Without;
    h' := Settling(h, e);
    es := [e];
    OneStep(h, e, h');
    if e.job in h'.jobs {
      NoJobLeft(h.jobs, e.job, h'.jobs[e.job], h'.jobs[e.job]);
      var h2 := Drops(h', e.job);
      OneMore(h, es, h', DropJob(e.job), h2);
      es := es + [DropJob(e.job)];
      h' := h2;
    }
  }

  lemma OpensSlot(h: Hub, sid: nat, id: string, now: int, ttl: int) returns (h': Hub)
    requires sid in h.sessions && id != ""
    ensures Steps(h, ReqFrame(sid, id, now, ttl), h') && h'.world == h.world && h'.sessions == h.sessions && h'.jobs == h.jobs
    ensures h'.pending == ExpirePending(h.pending, now)[ScopedId(sid, id) := Pending(sid, id, now + ttl)]
    ensures h'.asked == h.asked + multiset{(sid, id)} && h'.answered == h.answered
  {
    hide ScopedId, ExpirePending;
    h' := HubStep(h, ReqFrame(sid, id, now, ttl));
  }

  lemma PutsIt(h: Hub, name: string, m: Msg, gen: string, now: int, disk: bool) returns (h': Hub)
    ensures Steps(h, OnBus(PutMsg(name, m, gen, now, disk)), h') && TablesKept(h, h') && h'.sessions == h.sessions && h'.jobs == h.jobs
    ensures h'.world.bus == Put(h.world.bus, name, m, gen, now, disk).bus
  {
    hide Put, Accepts;
    h' := HubStep(h, OnBus(PutMsg(name, m, gen, now, disk)));
  }

  lemma ClosesSlot(h: Hub, sid: nat, id: string) returns (h': Hub)
    requires sid in h.sessions && ScopedId(sid, id) in h.pending && h.pending[ScopedId(sid, id)].sid == sid
    ensures Steps(h, ReqFailed(sid, id), h') && h'.world == h.world && h'.sessions == h.sessions && h'.jobs == h.jobs
    ensures h'.pending == h.pending - {ScopedId(sid, id)} && h'.asked == h.asked && h'.answered == h.answered
  {
    hide ScopedId;
    h' := HubStep(h, ReqFailed(sid, id));
  }

  /** Run alone, a req drops the elapsed slots, puts its job and keeps its own slot exactly if the job
      was taken: what the method HandleReq computes. */
  lemma ReqRuns(h: Hub, sid: nat, id: string, ttl: int, name: string, m: Msg, gen: string, now: int, disk: bool)
    returns (es: seq<HubEvent>, h': Hub)
    requires sid in h.sessions && id != ""
    ensures Leads(h, es, h') && h'.jobs == h.jobs && h'.sessions == h.sessions
    ensures var o := Put(h.world.bus, name, m, gen, now, disk); var key := ScopedId(sid, id);
      && h'.world.bus == o.bus
      && h'.pending == if o.result.Ok? then ExpirePending(h.pending, now)[key := Pending(sid, id, now + ttl)]
                       else ExpirePending(h.pending, now) - {key}
  {
    hide Leads, Steps, Put, ScopedId, ExpirePending;
    var e, e' := ReqFrame(sid, id, now, ttl), OnBus(PutMsg(name, m, gen, now, disk));
    var h1 := OpensSlot(h, sid, id, now, ttl);
    h' := PutsIt(h1, name, m, gen, now, disk);
    OneStep(h, e, h1);
    OneMore(h, [e], h1, e', h');
    es := [e] + [e'];
    if Put(h.world.bus, name, m, gen, now, disk).result.Err? {
      var h2 := ClosesSlot(h', sid, id);
      OneMore(h, es, h', ReqFailed(sid, id), h2);
      es := es + [ReqFailed(sid, id)];
      h' := h2;
    }
  }
}
