/** The session layer against the bus, over every interleaving: which session or job answers
    for each lease, what a session's close gives back, and where replies go. */
module HubRuns {
  import opened Bags
  import opened MailboxSpec
  import opened MailboxInvariant
  import opened MailboxRuns
  import opened MailboxDeliveries
  import opened HubSpec

  /** Every id the session layer remembers was issued by the bus. */
  ghost predicate SessionKnown(s: Session, issued: set<string>) {
    && (forall i :: 0 <= i < |s.inflight| ==> s.inflight[i] in issued)
    && (forall i :: 0 <= i < |s.toNack| ==> s.toNack[i] in issued)
    && (forall m | m in s.repAck :: s.repAck[m] in issued)
    && (!s.closed ==> s.toNack == [])
  }

  ghost predicate StageKnown(s: Stage, issued: set<string>, leased: set<string>) {
    match s
    case Leased(id, _) => id in issued
    case Listed(id, _) => id in issued
    case Claiming(id, _) => id in issued
    case Claimed(id, _) => id in issued
    case Settled(id) => id in issued && id !in leased
    case _ => true
  }

  ghost predicate Known(h: Hub) {
    && (forall sid | sid in h.sessions :: SessionKnown(h.sessions[sid], h.world.issued))
    && (forall j | j in h.jobs :: StageKnown(h.jobs[j].stage, h.world.issued, h.world.bus.inflight.Keys))
  }

  /** Who answers for a lease: a session that lists it, or is about to give it back; or a job
      that has yet to list it, or has claimed it and is about to settle it. */
  datatype Owner = BySession(sid: nat) | ByJob(job: nat)

  ghost predicate Owns(h: Hub, o: Owner, id: string) {
    match o
    case BySession(sid) => sid in h.sessions && (id in h.sessions[sid].inflight || id in h.sessions[sid].toNack)
    case ByJob(j) => j in h.jobs && (At(h, j).Leased? || At(h, j).Claimed?) && At(h, j).id == id
  }

  ghost predicate Owned(h: Hub, id: string) {
    exists o :: Owns(h, o, id)
  }

  ghost predicate HubInv(h: Hub) {
    && Inv(h.world.bus) && h.world.bus.inflight.Keys <= h.world.issued
    && (forall sid | sid in h.sessions :: sid <= h.sids)
    && Known(h)
  }

  /** Every lease that was not already there when the hub started has an owner. */
  ghost predicate AllOwned(h: Hub, inherited: set<string>) {
    forall id | id in h.world.bus.inflight :: id in inherited || Owned(h, id)
  }

  lemma SessionKnownMono(s: Session, i: set<string>, i': set<string>)
    requires SessionKnown(s, i) && i <= i'
    ensures SessionKnown(s, i')
  {
  }

  lemma WithoutKnown(s: Session, id: string, issued: set<string>)
    requires SessionKnown(s, issued)
    ensures SessionKnown(s.(inflight := Without(s.inflight, id)), issued)
  {
    var r := Without(s.inflight, id);
    forall i | 0 <= i < |r|
      ensures r[i] in issued
    {
      assert r[i] in r;
    }
  }

  /** What a hub event does to issued ids and leases. */
  lemma AfterLeases(h: Hub, e: HubEvent, id: string)
    requires HubInv(h) && HubEnabled(h, e)
    ensures var w, w' := h.world, After(h, e);
      && Inv(w'.bus) && w'.bus.inflight.Keys <= w'.issued && w.issued <= w'.issued
      && (id in w'.bus.inflight && id !in w.bus.inflight ==> e.HoldJob? && e.id == id && id !in w.issued)
      && (BusEvent(h, e) == Some(AckLease(id, true)) || BusEvent(h, e) == Some(AckLease(id, false))
          || BusEvent(h, e) == Some(NackLease(id, true)) || BusEvent(h, e) == Some(NackLease(id, false))
          ==> id !in w'.bus.inflight)
  {
    hide Inv, Enabled, Step, Known;
    if BusEvent(h, e).Some? {
      StepBus(h.world, BusEvent(h, e).value);
      StepLeases(h.world, BusEvent(h, e).value, id);
      Settles(h.world, BusEvent(h, e).value, id);
    }
  }

  lemma Settles(w: World, e: Event, id: string)
    requires Enabled(w, e)
    ensures (e.AckLease? || e.NackLease?) && e.id == id ==> id !in Step(w, e).bus.inflight
  {
    hide Put, Accepts, TakeChan, CancelWaiter, TryTake, Hold, Requeue, ExpireLeases, Close;
    if e.NackLease? && e.id == id && id in w.bus.inflight {
      assert Release(w.bus, id).inflight == w.bus.inflight - {id};
    }
  }

  lemma AfterKnown(h: Hub, e: HubEvent)
    requires HubInv(h) && HubEnabled(h, e)
    ensures HubInv(h.(world := After(h, e))) && h.world.issued <= After(h, e).issued
  {
    hide Inv, Enabled, HubEnabled, After;
    var w' := After(h, e);
    AfterLeases(h, e, "");
    forall id | id in h.world.issued && id !in h.world.bus.inflight
      ensures id !in w'.bus.inflight
    {
      AfterLeases(h, e, id);
    }
    forall sid | sid in h.sessions
      ensures SessionKnown(h.sessions[sid], w'.issued)
    {
      SessionKnownMono(h.sessions[sid], h.world.issued, w'.issued);
    }
  }

  lemma PutSession(h: Hub, sid: nat, s: Session)
    requires HubInv(h) && SessionKnown(s, h.world.issued) && sid <= h.sids
    ensures HubInv(h.(sessions := h.sessions[sid := s]))
  {
    hide Inv, SessionKnown, StageKnown;
  }

  lemma PutJob(h: Hub, j: nat, job: Job)
    requires HubInv(h) && StageKnown(job.stage, h.world.issued, h.world.bus.inflight.Keys)
    ensures HubInv(h.(jobs := h.jobs[j := job]))
  {
    hide Inv, SessionKnown, StageKnown;
  }

  lemma DoneJob(h: Hub, j: nat)
    requires HubInv(h)
    ensures HubInv(Done(h, j))
  {
    hide Inv, SessionKnown, StageKnown;
  }

  lemma TrackKnown(s: Session, msgId: string, id: string, issued: set<string>)
    requires SessionKnown(s, issued) && id in issued
    ensures SessionKnown(TrackInflight(s, id), issued)
    ensures SessionKnown(TrackRepAck(TrackInflight(s, id), msgId, id), issued)
  {
  }

  lemma ConnectStep(h: Hub, e: HubEvent)
    requires HubInv(h) && HubEnabled(h, e) && e.Connect?
    ensures HubInv(HubStep(h, e))
  {
    AfterKnown(h, e);
    var h1 := h.(world := After(h, e));
    hide Inv, Enabled, After, StageKnown;
    PutSession(h1.(sids := h.sids + 1), h.sids + 1, Session(false, [], map[], []));
  }

  lemma BeginCloseStep(h: Hub, e: HubEvent)
    requires HubInv(h) && HubEnabled(h, e) && e.BeginClose?
    ensures HubInv(HubStep(h, e))
  {
    AfterKnown(h, e);
    var h1 := h.(world := After(h, e));
    ClosedKnown(h1.sessions[e.sid], h1.world.issued);
    hide Inv, Enabled, After, StageKnown, CloseSession;
    PutSession(h1, e.sid, CloseSession(h.sessions[e.sid]));
  }

  lemma ClosedKnown(s: Session, issued: set<string>)
    requires SessionKnown(s, issued)
    ensures SessionKnown(CloseSession(s), issued)
    ensures s.toNack != [] ==> SessionKnown(s.(toNack := s.toNack[1..]), issued)
  {
  }

  lemma NackNextKeeps(h: Hub, e: HubEvent)
    requires HubInv(h) && HubEnabled(h, e) && e.NackNext?
    ensures HubInv(HubStep(h, e))
  {
    AfterKnown(h, e);
    var h1 := h.(world := After(h, e));
    var s := h1.sessions[e.sid];
    ClosedKnown(s, h1.world.issued);
    assert s.toNack != [] && e.sid <= h1.sids;
    hide HubInv, Enabled, After;
    PutSession(h1, e.sid, s.(toNack := s.toNack[1..]));
  }

  lemma StartJobStep(h: Hub, e: HubEvent)
    requires HubInv(h) && HubEnabled(h, e) && e.StartJob?
    ensures HubInv(HubStep(h, e))
  {
    AfterKnown(h, e);
    hide HubInv, Enabled, After, TakeChan;
    var h1 := h.(world := After(h, e));
    var o := TakeChan(h.world.bus, e.name, e.now, e.order, e.disk);
    if o.result.Ok? { PutJob(h1, e.job, Job(e.sid, e.kind, Waiting(o.result.value))); }
  }

  lemma ReceiveStep(h: Hub, e: HubEvent)
    requires HubInv(h) && HubEnabled(h, e) && e.ReceiveJob?
    ensures HubInv(HubStep(h, e))
  {
    AfterKnown(h, e);
    hide HubInv, Enabled, After, Receive;
    var h1 := h.(world := After(h, e));
    var o := Receive(h.world.bus, At(h, e.job).chan);
    if o.result.Ok? { PutJob(h1, e.job, h.jobs[e.job].(stage := Taken(o.result.value))); } else { DoneJob(h1, e.job); }
  }

  lemma HoldStep(h: Hub, e: HubEvent)
    requires HubInv(h) && HubEnabled(h, e) && e.HoldJob?
    ensures HubInv(HubStep(h, e))
  {
    AfterKnown(h, e);
    var m := At(h, e.job).msg;
    HoldIssues(h.world, m, e.lease, e.id, e.now, e.disk);
    assert e.id in After(h, e).issued;
    hide HubInv, Enabled, After, Hold;
    var h1 := h.(world := After(h, e));
    var stage := if Hold(h.world.bus, m, e.lease, e.id, e.now, e.disk).result.Ok? then Leased(e.id, m.id) else Refused(m);
    PutJob(h1, e.job, h.jobs[e.job].(stage := stage));
  }

  /** The events after which the job is gone. */
  lemma DoneStep(h: Hub, e: HubEvent)
    requires HubInv(h) && HubEnabled(h, e) && (e.CancelJob? || e.RequeueJob? || e.SettleJob?)
    ensures HubInv(HubStep(h, e))
  {
    AfterKnown(h, e);
    hide HubInv, Enabled, After;
    DoneJob(h.(world := After(h, e)), e.job);
  }

  lemma ListStep(h: Hub, e: HubEvent)
    requires HubInv(h) && HubEnabled(h, e) && e.ListJob?
    ensures HubInv(HubStep(h, e))
  {
    AfterKnown(h, e);
    var h1 := h.(world := After(h, e));
    var j, sid, id, msgId := e.job, h.jobs[e.job].sid, At(h, e.job).id, At(h, e.job).msgId;
    assert id in h1.world.issued && sid <= h1.sids;
    TrackKnown(h1.sessions[sid], msgId, id, h1.world.issued);
    hide HubInv, Enabled, After, TrackInflight, TrackRepAck, SessionKnown;
    var s := TrackInflight(h.sessions[sid], id);
    var s' := if h.jobs[j].kind.Ready? then TrackRepAck(s, msgId, id) else s;
    PutSession(h1, sid, s');
    PutJob(h1.(sessions := h.sessions[sid := s']), j, h.jobs[j].(stage := HubSpec.Stage.Listed(id, msgId)));
  }

  lemma TakenKnown(s: Session, msgId: string, issued: set<string>)
    requires SessionKnown(s, issued)
    ensures var (t, id) := TakeRepAck(s, msgId); SessionKnown(t, issued) && (id != "" ==> id in issued)
  {
  }

  lemma WriteStep(h: Hub, e: HubEvent)
    requires HubInv(h) && HubEnabled(h, e) && e.WriteJob?
    ensures HubInv(HubStep(h, e))
  {
    AfterKnown(h, e);
    var h1 := h.(world := After(h, e));
    var j, sid, id, msgId := e.job, h.jobs[e.job].sid, At(h, e.job).id, At(h, e.job).msgId;
    assert id in h1.world.issued && sid <= h1.sids && SessionKnown(h1.sessions[sid], h1.world.issued);
    TakenKnown(h1.sessions[sid], msgId, h1.world.issued);
    hide HubInv, Enabled, After, TakeRepAck, SessionKnown;
    if !e.written {
      var s := if h.jobs[j].kind.Reserve? then h.sessions[sid] else TakeRepAck(h.sessions[sid], msgId).0;
      PutSession(h1, sid, s);
      PutJob(h1.(sessions := h.sessions[sid := s]), j, h.jobs[j].(stage := Claiming(id, false)));
    } else if h.jobs[j].kind.Take? {
      PutJob(h1, j, h.jobs[j].(stage := Claiming(id, true)));
    } else {
      DoneJob(h1, j);
    }
  }

  lemma ClaimStep(h: Hub, e: HubEvent)
    requires HubInv(h) && HubEnabled(h, e) && e.ClaimJob?
    ensures HubInv(HubStep(h, e))
  {
    AfterKnown(h, e);
    var h1 := h.(world := After(h, e));
    var j, sid, id, ack := e.job, h.jobs[e.job].sid, At(h, e.job).id, At(h, e.job).ack;
    assert id in h1.world.issued && sid <= h1.sids && SessionKnown(h1.sessions[sid], h1.world.issued);
    WithoutKnown(h.sessions[sid], id, h1.world.issued);
    hide HubInv, Enabled, After, SessionKnown;
    var (s, claimed) := ClaimInflight(h.sessions[sid], id);
    PutSession(h1, sid, s);
    var h2 := h1.(sessions := h.sessions[sid := s]);
    if claimed { PutJob(h2, j, h.jobs[j].(stage := Claimed(id, ack))); } else { DoneJob(h2, j); }
  }

  lemma DropStep(h: Hub, e: HubEvent)
    requires HubInv(h) && HubEnabled(h, e) && e.DropJob?
    ensures HubInv(HubStep(h, e))
  {
    AfterKnown(h, e);
    var h1 := h.(world := After(h, e));
    var j, sid, id := e.job, h.jobs[e.job].sid, At(h, e.job).id;
    assert sid <= h1.sids && SessionKnown(h1.sessions[sid], h1.world.issued);
    WithoutKnown(h.sessions[sid], id, h1.world.issued);
    hide HubInv, Enabled, After, SessionKnown;
    var s := DropInflight(h.sessions[sid], id);
    PutSession(h1, sid, s);
    DoneJob(h1.(sessions := h.sessions[sid := s]), j);
  }

  lemma SettleFrameStep(h: Hub, e: HubEvent)
    requires HubInv(h) && HubEnabled(h, e) && (e.AckFrame? || e.NackFrame?)
    ensures HubInv(HubStep(h, e))
  {
    AfterKnown(h, e);
    AfterLeases(h, e, e.id);
    SettledWasIssued(h, e);
    hide HubInv, Enabled, After, Ack, Nack;
    var h1 := h.(world := After(h, e));
    var ok := if e.AckFrame? then Ack(h.world.bus, e.id, e.disk).result.Ok? else Nack(h.world.bus, e.id, e.disk).result.Ok?;
    if ok { PutJob(h1, e.job, Job(e.sid, Take, Settled(e.id))); }
  }

  lemma SettledWasIssued(h: Hub, e: HubEvent)
    requires HubInv(h) && (e.AckFrame? || e.NackFrame?)
    ensures Ack(h.world.bus, e.id, e.disk).result.Ok? || Nack(h.world.bus, e.id, e.disk).result.Ok? ==> e.id in h.world.issued
  {
  }

  lemma RepStep(h: Hub, e: HubEvent)
    requires HubInv(h) && HubEnabled(h, e) && e.RepFrame?
    ensures HubInv(HubStep(h, e))
  {
    AfterKnown(h, e);
    var h1 := h.(world := After(h, e));
    assert e.sid <= h1.sids && SessionKnown(h1.sessions[e.sid], h1.world.issued);
    TakenKnown(h1.sessions[e.sid], e.msgId, h1.world.issued);
    hide HubInv, Enabled, After, TakeRepAck, SessionKnown;
    var (s, id) := TakeRepAck(h.sessions[e.sid], e.msgId);
    PutSession(h1, e.sid, s);
    if id != "" { PutJob(h1.(sessions := h.sessions[e.sid := s]), e.job, Job(e.sid, Take, Claiming(id, true))); }
  }

  /** Every step keeps what the session layer knows about leases true. */
  lemma HubStepKeeps(h: Hub, e: HubEvent)
    requires HubInv(h) && HubEnabled(h, e)
    ensures HubInv(HubStep(h, e))
  {
    hide HubInv, After, HubStep, HubEnabled;
    match e
    case Connect => ConnectStep(h, e);
    case BeginClose(_) => BeginCloseStep(h, e);
    case NackNext(_, _) => NackNextKeeps(h, e);
    case StartJob(_, _, _, _, _, _, _) => StartJobStep(h, e);
    case ReceiveJob(_) => ReceiveStep(h, e);
    case CancelJob(_, _) => DoneStep(h, e);
    case HoldJob(_, _, _, _, _) => HoldStep(h, e);
    case RequeueJob(_, _) => DoneStep(h, e);
    case ListJob(_) => ListStep(h, e);
    case WriteJob(_, _) => WriteStep(h, e);
    case ClaimJob(_) => ClaimStep(h, e);
    case SettleJob(_, _) => DoneStep(h, e);
    case DropJob(_) => DropStep(h, e);
    case AckFrame(_, _, _, _) => SettleFrameStep(h, e);
    case NackFrame(_, _, _, _) => SettleFrameStep(h, e);
    case RepFrame(_, _, _) => RepStep(h, e);
    case _ => RestStepKeeps(h, e);
  }

  /** The rest changes no more than the tables of requests. */
  lemma RestShape(h: Hub, e: HubEvent)
    requires HubEnabled(h, e) && (e.ForgetRequests? || e.ForwardRep? || e.ReqFrame? || e.ReqFailed? || e.OnBus?)
    ensures var h' := HubStep(h, e);
      h' == h.(world := After(h, e)).(pending := h'.pending, asked := h'.asked, answered := h'.answered)
  {
    hide Enabled, After, ScopedId, ExpirePending, ClearPending, BusEvent;
  }

  lemma RestStepKeeps(h: Hub, e: HubEvent)
    requires HubInv(h) && HubEnabled(h, e)
    requires e.ForgetRequests? || e.ForwardRep? || e.ReqFrame? || e.ReqFailed? || e.OnBus?
    ensures HubInv(HubStep(h, e))
  {
    AfterKnown(h, e);
    RestShape(h, e);
    hide HubInv, HubEnabled, HubStep, After;
    var h' := HubStep(h, e);
    TablesFree(h.(world := After(h, e)), h'.pending, h'.asked, h'.answered);
  }

  lemma TablesFree(h: Hub, pending: map<string, Pending>, asked: multiset<(nat, string)>, answered: multiset<(nat, string)>)
    requires HubInv(h)
    ensures HubInv(h.(pending := pending, asked := asked, answered := answered))
  {
  }

  lemma HoldIssues(w: World, m: Msg, lease: int, id: string, now: int, disk: bool)
    requires Enabled(w, HoldMsg(m, lease, id, now, disk))
    ensures id in Step(w, HoldMsg(m, lease, id, now, disk)).issued
  {
  }

  // ---------------------------------------------------------------------------
  // One job at a time
  // ---------------------------------------------------------------------------

  /** The job an event advances. */
  function Actor(e: HubEvent): Option<nat> {
    match e
    case StartJob(j, _, _, _, _, _, _) => Some(j)
    case ReceiveJob(j) => Some(j)
    case CancelJob(j, _) => Some(j)
    case HoldJob(j, _, _, _, _) => Some(j)
    case RequeueJob(j, _) => Some(j)
    case ListJob(j) => Some(j)
    case WriteJob(j, _) => Some(j)
    case ClaimJob(j) => Some(j)
    case SettleJob(j, _) => Some(j)
    case AckFrame(j, _, _, _) => Some(j)
    case NackFrame(j, _, _, _) => Some(j)
    case DropJob(j) => Some(j)
    case RepFrame(j, _, _) => Some(j)
    case _ => None
  }

  lemma OnlyActor(h: Hub, e: HubEvent, k: nat)
    requires HubEnabled(h, e) && Actor(e) != Some(k)
    ensures var h' := HubStep(h, e); (k in h'.jobs <==> k in h.jobs) && (k in h.jobs ==> h'.jobs[k] == h.jobs[k])
  {
    hide Enabled, After, TakeChan, Receive, Hold, Ack, Nack, ScopedId, ExpirePending, ClearPending, BusEvent;
    hide TrackInflight, TrackRepAck, TakeRepAck, ClaimInflight, DropInflight, CloseSession;
  }

  // ---------------------------------------------------------------------------
  // Who answers for a lease
  // ---------------------------------------------------------------------------

  /** Who answers for `id` after the event, if `o` did before. */
  ghost function NewOwner(h: Hub, e: HubEvent, o: Owner, id: string): Owner
    requires HubEnabled(h, e)
  {
    match e
    case ListJob(j) => if o == ByJob(j) then BySession(h.jobs[j].sid) else o
    case ClaimJob(j) =>
      var sid := h.jobs[j].sid;
      if o == BySession(sid) && id == At(h, j).id && !h.sessions[sid].closed then ByJob(j) else o
    case _ => o
  }

  /** An owner keeps answering for a lease, or hands it on, as long as it is leased. */
  lemma OwnerPersists(h: Hub, e: HubEvent, o: Owner, id: string)
    requires HubInv(h) && HubEnabled(h, e) && Owns(h, o, id)
    requires id in h.world.bus.inflight && id in After(h, e).bus.inflight
    ensures Owns(HubStep(h, e), NewOwner(h, e, o, id), id)
  {
    AfterLeases(h, e, id);
    if o.BySession? { SessionPersists(h, e, o.sid, id); } else { JobPersists(h, e, o.job, id); }
  }

  /** The events that change a session. */
  predicate TouchesSession(e: HubEvent) {
    e.Connect? || e.BeginClose? || e.NackNext? || e.ListJob? || e.WriteJob? || e.ClaimJob? || e.DropJob? || e.RepFrame?
  }

  lemma SessionsSame(h: Hub, e: HubEvent)
    requires HubEnabled(h, e) && !TouchesSession(e)
    ensures HubStep(h, e).sessions == h.sessions
  {
    if Actor(e).None? {
      hide HubEnabled, Enabled, After, ScopedId, ExpirePending, ClearPending, BusEvent;
    } else {
      hide HubEnabled, Enabled, After, TakeChan, Receive, Hold, Ack, Nack, BusEvent;
    }
  }

  lemma SessionPersists(h: Hub, e: HubEvent, sid: nat, id: string)
    requires HubInv(h) && HubEnabled(h, e) && Owns(h, BySession(sid), id)
    requires id in h.world.bus.inflight && id in After(h, e).bus.inflight
    ensures Owns(HubStep(h, e), NewOwner(h, e, BySession(sid), id), id)
  {
    hide Inv, Enabled, After, HubStep, Known, StageKnown;
    if !TouchesSession(e) {
      SessionsSame(h, e);
    } else if e.NackNext? {
      NackKeepsOthers(h, e, sid, id);
    } else if e.DropJob? {
      DropKeepsOthers(h, e, sid, id);
    } else if e.Connect? {
      ConnectKeeps(h, sid);
    } else if e.ListJob? || e.WriteJob? {
      WriteKeepsLists(h, e, sid);
    } else {
      OpenHasNoNacks(h, sid);
      FrameKeepsLists(h, e, sid, id);
    }
  }

  lemma OpenHasNoNacks(h: Hub, sid: nat)
    requires HubInv(h) && sid in h.sessions
    ensures !h.sessions[sid].closed ==> h.sessions[sid].toNack == []
  {
  }

  lemma ConnectKeeps(h: Hub, sid: nat)
    requires HubInv(h) && HubEnabled(h, Connect) && sid in h.sessions
    ensures var h' := HubStep(h, Connect); sid in h'.sessions && h'.sessions[sid] == h.sessions[sid]
  {
    assert sid != h.sids + 1;
  }

  lemma NackKeepsOthers(h: Hub, e: HubEvent, sid: nat, id: string)
    requires HubInv(h) && HubEnabled(h, e) && e.NackNext? && Owns(h, BySession(sid), id)
    requires id in After(h, e).bus.inflight
    ensures Owns(HubStep(h, e), BySession(sid), id)
  {
    AfterLeases(h, e, id);
    hide HubInv, After;
    var s := h.sessions[sid];
    if e.sid == sid { assert s.toNack == [s.toNack[0]] + s.toNack[1..]; }
  }

  lemma DropKeepsOthers(h: Hub, e: HubEvent, sid: nat, id: string)
    requires HubInv(h) && HubEnabled(h, e) && e.DropJob? && Owns(h, BySession(sid), id)
    requires id in h.world.bus.inflight
    ensures Owns(HubStep(h, e), BySession(sid), id)
  {
    assert StageKnown(h.jobs[e.job].stage, h.world.issued, h.world.bus.inflight.Keys);
    hide HubInv, After;
  }

  lemma WriteKeepsLists(h: Hub, e: HubEvent, sid: nat)
    requires HubEnabled(h, e) && sid in h.sessions && (e.ListJob? || e.WriteJob?)
    ensures var h' := HubStep(h, e);
      sid in h'.sessions && h.sessions[sid].inflight <= h'.sessions[sid].inflight
      && h'.sessions[sid].toNack == h.sessions[sid].toNack
  {
  }

  lemma FrameKeepsLists(h: Hub, e: HubEvent, sid: nat, id: string)
    requires HubEnabled(h, e) && Owns(h, BySession(sid), id) && (e.RepFrame? || e.BeginClose? || e.ClaimJob?)
    requires !h.sessions[sid].closed ==> h.sessions[sid].toNack == []
    ensures Owns(HubStep(h, e), NewOwner(h, e, BySession(sid), id), id)
  {
  }

  lemma JobPersists(h: Hub, e: HubEvent, j: nat, id: string)
    requires HubInv(h) && HubEnabled(h, e) && Owns(h, ByJob(j), id)
    requires id in h.world.bus.inflight && id in After(h, e).bus.inflight
    ensures Owns(HubStep(h, e), NewOwner(h, e, ByJob(j), id), id)
  {
    hide HubInv, Inv, Enabled, After, HubStep;
    if e.SettleJob? && e.job == j {
      SettleEnds(h, e);
    } else if e.ListJob? && e.job == j {
      ListTakesOver(h, e);
    } else {
      JobSame(h, e, j);
    }
  }

  lemma SettleEnds(h: Hub, e: HubEvent)
    requires HubInv(h) && HubEnabled(h, e) && e.SettleJob?
    ensures At(h, e.job).id !in After(h, e).bus.inflight
  {
    AfterLeases(h, e, At(h, e.job).id);
  }

  lemma ListTakesOver(h: Hub, e: HubEvent)
    requires HubEnabled(h, e) && e.ListJob?
    ensures Owns(HubStep(h, e), BySession(h.jobs[e.job].sid), At(h, e.job).id)
  {
    hide After;
  }

  /** Only its own ListJob and SettleJob move a job that answers for a lease. */
  lemma JobSame(h: Hub, e: HubEvent, j: nat)
    requires HubEnabled(h, e) && j in h.jobs && (At(h, j).Leased? || At(h, j).Claimed?)
    requires (e.SettleJob? || e.ListJob?) ==> e.job != j
    ensures var h' := HubStep(h, e); j in h'.jobs && h'.jobs[j] == h.jobs[j]
  {
    ActsOnAnother(h, e, j);
    hide HubEnabled, HubStep;
    OnlyActor(h, e, j);
  }

  lemma ActsOnAnother(h: Hub, e: HubEvent, j: nat)
    requires HubEnabled(h, e) && j in h.jobs && (At(h, j).Leased? || At(h, j).Claimed?)
    requires (e.SettleJob? || e.ListJob?) ==> e.job != j
    ensures Actor(e) != Some(j)
  {
    hide Enabled, BusEvent;
  }

  lemma StepOwned(h: Hub, e: HubEvent, inherited: set<string>)
    requires HubInv(h) && HubEnabled(h, e) && AllOwned(h, inherited)
    ensures AllOwned(HubStep(h, e), inherited)
  {
    hide Inv, Enabled, Known, After, BusEvent, HubStep, Owns, NewOwner;
    var h' := HubStep(h, e);
    assert h'.world == After(h, e) by { StepWorld(h, e); }
    forall id | id in h'.world.bus.inflight && id !in inherited
      ensures Owned(h', id)
    {
      if id in h.world.bus.inflight {
        var o :| Owns(h, o, id);
        OwnerPersists(h, e, o, id);
      } else {
        AfterLeases(h, e, id);
        NewLeaseOwned(h, e);
      }
    }
  }

  lemma StepWorld(h: Hub, e: HubEvent)
    requires HubEnabled(h, e)
    ensures HubStep(h, e).world == After(h, e)
  {
    hide After, TakeChan, Receive, Hold, Ack, Nack;
  }

  lemma NewLeaseOwned(h: Hub, e: HubEvent)
    requires HubInv(h) && HubEnabled(h, e) && e.HoldJob?
    requires e.id in After(h, e).bus.inflight && e.id !in h.world.bus.inflight
    ensures Owned(HubStep(h, e), e.id)
  {
    assert Hold(h.world.bus, At(h, e.job).msg, e.lease, e.id, e.now, e.disk).result.Ok?;
    assert Owns(HubStep(h, e), ByJob(e.job), e.id);
  }

  lemma {:induction false} HubRunKeeps(h: Hub, es: seq<HubEvent>, inherited: set<string>)
    requires HubInv(h) && HubValid(h, es) && AllOwned(h, inherited)
    ensures HubInv(HubRun(h, es)) && AllOwned(HubRun(h, es), inherited)
    decreases |es|
  {
    hide HubInv, HubEnabled, HubStep, AllOwned;
    if es != [] {
      HubStepKeeps(h, es[0]);
      StepOwned(h, es[0], inherited);
      HubRunKeeps(HubStep(h, es[0]), es[1..], inherited);
    }
  }

  lemma HubStartKeeps(b: Bus)
    requires Fresh(b)
    ensures HubInv(HubStart(b)) && AllOwned(HubStart(b), b.inflight.Keys)
  {
  }

  /** In every reachable state every lease made since the hub started is answered for: an open
      session lists it, a closing session is about to give it back, a job is about to list or
      settle it, or a closed session lists it. */
  lemma EveryLeaseHasAnOwner(b: Bus, es: seq<HubEvent>, id: string)
    requires Fresh(b) && HubValid(HubStart(b), es)
    ensures var h := HubRun(HubStart(b), es);
      id in h.world.bus.inflight && id !in b.inflight ==>
        || (exists sid :: sid in h.sessions && (id in h.sessions[sid].inflight || id in h.sessions[sid].toNack))
        || (exists j :: j in h.jobs && (At(h, j).Leased? || At(h, j).Claimed?) && At(h, j).id == id)
  {
    hide HubInv, HubRun, HubValid;
    HubStartKeeps(b);
    HubRunKeeps(HubStart(b), es, b.inflight.Keys);
    var h := HubRun(HubStart(b), es);
    if id in h.world.bus.inflight && id !in b.inflight {
      assert Owned(h, id);
      var o :| Owns(h, o, id);
    }
  }
}
