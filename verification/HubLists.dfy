/** What sessions list and jobs work on, over every interleaving: each delivery is listed at most
    once by a session, a delivery that no session lists yet is known to its own job only, and a
    job never gives a lease back itself. */
module HubLists {
  import opened Bags
  import opened MailboxSpec
  import opened MailboxRuns
  import opened HubSpec
  import opened HubRuns

  /** The session lists the delivery, is about to give it back, or would acknowledge it for a
      rep. */
  ghost predicate Remembers(s: Session, id: string) {
    id in s.inflight || id in s.toNack || exists m | m in s.repAck :: s.repAck[m] == id
  }

  /** The job may still list, claim or settle the delivery. */
  predicate WorksOn(s: Stage, id: string) {
    (s.Leased? || s.Listed? || s.Claiming? || s.Claimed?) && s.id == id
  }

  // ---------------------------------------------------------------------------
  // What a step adds
  // ---------------------------------------------------------------------------

  lemma SessionOps(s: Session, id: string, x: string, m: string)
    ensures Remembers(CloseSession(s), id) ==> Remembers(s, id)
    ensures s.toNack != [] && Remembers(s.(toNack := s.toNack[1..]), id) ==> Remembers(s, id)
    ensures Remembers(ClaimInflight(s, x).0, id) ==> Remembers(s, id)
    ensures Remembers(DropInflight(s, x), id) ==> Remembers(s, id)
    ensures Remembers(TakeRepAck(s, m).0, id) ==> Remembers(s, id)
    ensures TakeRepAck(s, m).1 == id && id != "" ==> Remembers(s, id)
    ensures Remembers(TrackInflight(s, x), id) ==> Remembers(s, id) || x == id
    ensures Remembers(TrackRepAck(TrackInflight(s, x), m, x), id) ==> Remembers(s, id) || x == id
  {
    var t := TakeRepAck(s, m).0;
    if Remembers(t, id) && id !in s.inflight && id !in s.toNack {
      var k :| k in t.repAck && t.repAck[k] == id;
      assert k in s.repAck && s.repAck[k] == id;
    }
    var u := TrackRepAck(TrackInflight(s, x), m, x);
    if Remembers(u, id) && x != id && id !in s.inflight && id !in s.toNack {
      var k :| k in u.repAck && u.repAck[k] == id;
      assert k in s.repAck && s.repAck[k] == id;
    }
  }

  /** The session an event changes. */
  function Touched(h: Hub, e: HubEvent): Option<nat> {
    match e
    case Connect => Some(h.sids + 1)
    case BeginClose(sid) => Some(sid)
    case NackNext(sid, _) => Some(sid)
    case RepFrame(_, sid, _) => Some(sid)
    case ListJob(j) => if j in h.jobs then Some(h.jobs[j].sid) else None
    case WriteJob(j, _) => if j in h.jobs then Some(h.jobs[j].sid) else None
    case ClaimJob(j) => if j in h.jobs then Some(h.jobs[j].sid) else None
    case DropJob(j) => if j in h.jobs then Some(h.jobs[j].sid) else None
    case _ => None
  }

  lemma OnlyTouched(h: Hub, e: HubEvent, sid: nat)
    requires HubEnabled(h, e) && Touched(h, e) != Some(sid)
    ensures var h' := HubStep(h, e);
      (sid in h'.sessions <==> sid in h.sessions) && (sid in h.sessions ==> h'.sessions[sid] == h.sessions[sid])
  {
    hide Enabled, After, BusEvent, TakeChan, Receive, Hold, Ack, Nack, ScopedId, ExpirePending, ClearPending;
    hide CloseSession, ClaimInflight, DropInflight, TakeRepAck, TrackInflight, TrackRepAck;
  }

  /** The changed session is what one critical section makes of it. */
  ghost predicate IsOp(s: Session, t: Session, x: string) {
    || t == s
    || t == CloseSession(s)
    || (s.toNack != [] && t == s.(toNack := s.toNack[1..]))
    || t == ClaimInflight(s, x).0
    || t == DropInflight(s, x)
    || (exists m: string :: t == TakeRepAck(s, m).0)
  }

  lemma OpForgets(s: Session, t: Session, x: string, id: string)
    requires IsOp(s, t, x) && Remembers(t, id)
    ensures Remembers(s, id)
  {
    hide Remembers, CloseSession, ClaimInflight, DropInflight, TakeRepAck;
    if m: string :| t == TakeRepAck(s, m).0 {
      SessionOps(s, id, x, m);
    } else {
      SessionOps(s, id, x, "");
    }
  }

  lemma TouchedOp(h: Hub, e: HubEvent, sid: nat)
    requires HubEnabled(h, e) && Touched(h, e) == Some(sid) && sid in h.sessions && !e.ListJob? && !e.Connect?
    ensures sid in HubStep(h, e).sessions && exists x: string :: IsOp(h.sessions[sid], HubStep(h, e).sessions[sid], x)
  {
    hide Enabled, After, BusEvent, CloseSession, ClaimInflight, DropInflight, TakeRepAck;
    var s, t := h.sessions[sid], HubStep(h, e).sessions[sid];
    match e
    case WriteJob(j, _) =>
      assert t == s || t == TakeRepAck(s, At(h, j).msgId).0;
      assert IsOp(s, t, "");
    case RepFrame(_, _, m) =>
      assert t == TakeRepAck(s, m).0;
      assert IsOp(s, t, "");
    case ClaimJob(j) => assert IsOp(s, t, At(h, j).id);
    case DropJob(j) => assert IsOp(s, t, At(h, j).id);
    case BeginClose(_) => assert IsOp(s, t, "");
    case NackNext(_, _) => assert IsOp(s, t, "");
    case _ =>
  }

  lemma ListedOp(h: Hub, e: HubEvent)
    requires HubEnabled(h, e) && e.ListJob?
    ensures var sid := h.jobs[e.job].sid; var (s, x, m) := (h.sessions[sid], At(h, e.job).id, At(h, e.job).msgId);
      && sid in HubStep(h, e).sessions
      && (HubStep(h, e).sessions[sid] == TrackInflight(s, x) || HubStep(h, e).sessions[sid] == TrackRepAck(TrackInflight(s, x), m, x))
  {
    hide Enabled, After, BusEvent, TrackInflight, TrackRepAck;
  }

  /** A session comes to remember a delivery only when a job lists it there. */
  lemma RemembersStep(h: Hub, e: HubEvent, sid: nat, id: string)
    requires HubEnabled(h, e) && sid in HubStep(h, e).sessions && Remembers(HubStep(h, e).sessions[sid], id)
    ensures (sid in h.sessions && Remembers(h.sessions[sid], id))
      || (e.ListJob? && h.jobs[e.job].sid == sid && At(h, e.job).id == id)
  {
    if Touched(h, e) != Some(sid) {
      hide HubEnabled, HubStep, Remembers;
      OnlyTouched(h, e, sid);
    } else if e.Connect? {
      NothingRemembered(id);
      hide Enabled, Remembers, After;
    } else if e.ListJob? {
      ListedOp(h, e);
      SessionOps(h.sessions[sid], id, At(h, e.job).id, At(h, e.job).msgId);
      hide Enabled, HubStep, Remembers, TrackInflight, TrackRepAck;
    } else {
      assert sid in h.sessions;
      TouchedOp(h, e, sid);
      hide HubEnabled, HubStep, Remembers, IsOp;
      var x: string :| IsOp(h.sessions[sid], HubStep(h, e).sessions[sid], x);
      OpForgets(h.sessions[sid], HubStep(h, e).sessions[sid], x, id);
    }
  }

  lemma NothingRemembered(id: string)
    ensures !Remembers(Session(false, [], map[], []), id)
  {
  }

  /** Where a job that works on a delivery comes from: it did before; or it has just leased it;
      or its session remembered it for a rep. */
  lemma WorksStep(h: Hub, e: HubEvent, k: nat, id: string)
    requires HubEnabled(h, e) && k in HubStep(h, e).jobs && WorksOn(HubStep(h, e).jobs[k].stage, id)
    ensures var job := HubStep(h, e).jobs[k];
      || (k in h.jobs && WorksOn(h.jobs[k].stage, id) && h.jobs[k].sid == job.sid)
      || (e.HoldJob? && e.job == k && e.id == id && job.stage.Leased?)
      || (e.RepFrame? && e.job == k && e.sid == job.sid && job.stage == Claiming(id, true)
          && e.sid in h.sessions && Remembers(h.sessions[e.sid], id))
  {
    if Actor(e) != Some(k) {
      hide HubEnabled, HubStep, Remembers, WorksOn;
      OnlyActor(h, e, k);
    } else if e.RepFrame? {
      SessionOps(h.sessions[e.sid], id, "", e.msgId);
      hide Enabled, After, Remembers, TakeRepAck;
    } else {
      WorksActor(h, e, k, id);
    }
  }

  lemma WorksActor(h: Hub, e: HubEvent, k: nat, id: string)
    requires HubEnabled(h, e) && Actor(e) == Some(k) && !e.RepFrame?
    requires k in HubStep(h, e).jobs && WorksOn(HubStep(h, e).jobs[k].stage, id)
    ensures var job := HubStep(h, e).jobs[k];
      || (k in h.jobs && WorksOn(h.jobs[k].stage, id) && h.jobs[k].sid == job.sid)
      || (e.HoldJob? && e.job == k && e.id == id && job.stage.Leased?)
  {
    hide Enabled, After, BusEvent, TakeChan, Receive, Hold, Ack, Nack;
    hide CloseSession, ClaimInflight, DropInflight, TakeRepAck, TrackInflight, TrackRepAck;
  }

  predicate OpenFor(h: Hub, k: nat) {
    k in h.jobs && h.jobs[k].sid in h.sessions && !h.sessions[h.jobs[k].sid].closed
  }

  /** How a job comes to each of its last stages. */
  ghost predicate Comes(h: Hub, e: HubEvent, k: nat, s: Stage) {
    && (s.Leased? ==> At(h, k) == s || (e.HoldJob? && e.job == k && e.id == s.id))
    && (s.Claiming? ==> At(h, k) == s || s.ack || (e.WriteJob? && e.job == k && !e.written))
    && (s.Claimed? ==> At(h, k) == s || (e.ClaimJob? && e.job == k && At(h, k) == Claiming(s.id, s.ack) && OpenFor(h, k)))
  }

  lemma StageStep(h: Hub, e: HubEvent, k: nat)
    requires HubEnabled(h, e) && k in HubStep(h, e).jobs
    ensures Comes(h, e, k, HubStep(h, e).jobs[k].stage)
  {
    if Actor(e) != Some(k) {
      hide HubEnabled, HubStep;
      OnlyActor(h, e, k);
    } else if e.StartJob? || e.ReceiveJob? || e.CancelJob? || e.HoldJob? || e.RequeueJob? {
      StageEarly(h, e, k);
    } else {
      StageLate(h, e, k);
    }
  }

  lemma StageEarly(h: Hub, e: HubEvent, k: nat)
    requires HubEnabled(h, e) && Actor(e) == Some(k) && k in HubStep(h, e).jobs
    requires e.StartJob? || e.ReceiveJob? || e.CancelJob? || e.HoldJob? || e.RequeueJob?
    ensures Comes(h, e, k, HubStep(h, e).jobs[k].stage)
  {
    hide Enabled, After, BusEvent, TakeChan, Receive, Hold;
  }

  lemma StageLate(h: Hub, e: HubEvent, k: nat)
    requires HubEnabled(h, e) && Actor(e) == Some(k) && k in HubStep(h, e).jobs
    requires !(e.StartJob? || e.ReceiveJob? || e.CancelJob? || e.HoldJob? || e.RequeueJob?)
    ensures Comes(h, e, k, HubStep(h, e).jobs[k].stage)
  {
    hide Enabled, After, BusEvent, Ack, Nack, DropInflight, TakeRepAck, TrackInflight, TrackRepAck;
  }

  /** A closed session stays closed, and is given nothing more to give back. */
  lemma ClosedStays(h: Hub, e: HubEvent, sid: nat)
    requires HubEnabled(h, e) && sid in h.sessions && h.sessions[sid].closed && sid <= h.sids
    ensures var h' := HubStep(h, e);
      && sid in h'.sessions && h'.sessions[sid].closed
      && (if e.NackNext? && e.sid == sid then h'.sessions[sid].toNack == h.sessions[sid].toNack[1..]
          else h'.sessions[sid].toNack == h.sessions[sid].toNack)
  {
    if Touched(h, e) != Some(sid) {
      hide HubEnabled, HubStep;
      OnlyTouched(h, e, sid);
    } else if e.ListJob? {
      ListedOp(h, e);
      hide HubEnabled, HubStep;
    } else if e.NackNext? {
      hide Enabled, After;
    } else {
      ClosedTouched(h, e, sid);
    }
  }

  lemma ClosedTouched(h: Hub, e: HubEvent, sid: nat)
    requires HubEnabled(h, e) && sid in h.sessions && h.sessions[sid].closed && Touched(h, e) == Some(sid)
    requires !e.Connect? && !e.ListJob? && !e.NackNext?
    ensures var h' := HubStep(h, e);
      sid in h'.sessions && h'.sessions[sid].closed && h'.sessions[sid].toNack == h.sessions[sid].toNack
  {
    hide Enabled, After, BusEvent;
  }

  lemma JobSid(h: Hub, e: HubEvent, k: nat)
    requires HubEnabled(h, e) && k in HubStep(h, e).jobs
    ensures if k in h.jobs then HubStep(h, e).jobs[k].sid == h.jobs[k].sid else HubStep(h, e).jobs[k].sid in h.sessions
  {
    if Actor(e) != Some(k) {
      hide HubEnabled, HubStep;
      OnlyActor(h, e, k);
    } else {
      hide Enabled, After, BusEvent, TakeChan, Receive, Hold, Ack, Nack;
      hide CloseSession, ClaimInflight, DropInflight, TakeRepAck, TrackInflight, TrackRepAck;
    }
  }

  lemma SessionsGrow(h: Hub, e: HubEvent, sid: nat)
    requires HubEnabled(h, e) && sid in h.sessions
    ensures sid in HubStep(h, e).sessions
  {
    if Touched(h, e) != Some(sid) {
      hide HubEnabled, HubStep;
      OnlyTouched(h, e, sid);
    } else if e.ListJob? {
      ListedOp(h, e);
    } else if !e.Connect? {
      TouchedOp(h, e, sid);
    } else {
      hide Enabled, After;
    }
  }

  // ---------------------------------------------------------------------------
  // Jobs against their sessions
  // ---------------------------------------------------------------------------

  ghost predicate JobOk(h: Hub, k: nat)
    requires k in h.jobs
  {
    var (sid, s) := (h.jobs[k].sid, h.jobs[k].stage);
    sid in h.sessions && (s.Claiming? && !s.ack ==> h.sessions[sid].closed) && (s.Claimed? ==> s.ack)
  }

  /** A job that has yet to list its delivery is the only one to know of it. */
  ghost predicate AloneKnows(h: Hub, k: nat, id: string) {
    && (forall sid | sid in h.sessions :: !Remembers(h.sessions[sid], id))
    && (forall i | i in h.jobs && WorksOn(h.jobs[i].stage, id) :: i == k)
  }

  ghost predicate ListsOnce(s: Session) {
    NoDup(s.inflight) && NoDup(s.toNack)
  }

  ghost predicate ListsInv(h: Hub) {
    && HubInv(h)
    && (forall k | k in h.jobs :: JobOk(h, k))
    && (forall k | k in h.jobs && At(h, k).Leased? :: AloneKnows(h, k, At(h, k).id))
    && (forall sid | sid in h.sessions :: ListsOnce(h.sessions[sid]))
  }

  lemma UnwrittenIsClosed(h: Hub, e: HubEvent)
    requires HubEnabled(h, e) && e.WriteJob?
    ensures e.job in h.jobs && h.jobs[e.job].sid in h.sessions && (e.written || h.sessions[h.jobs[e.job].sid].closed)
  {
  }

  lemma JobOkStep(h: Hub, e: HubEvent, k: nat)
    requires HubInv(h) && HubEnabled(h, e) && k in HubStep(h, e).jobs
    requires forall i | i in h.jobs :: JobOk(h, i)
    ensures JobOk(HubStep(h, e), k)
  {
    assert forall sid | sid in h.sessions :: sid <= h.sids;
    hide HubInv, HubStep, HubEnabled;
    StageStep(h, e, k);
    JobSid(h, e, k);
    var h' := HubStep(h, e);
    var sid := h'.jobs[k].sid;
    assert k in h.jobs ==> JobOk(h, k);
    if e.WriteJob? { UnwrittenIsClosed(h, e); }
    SessionsGrow(h, e, sid);
    if h.sessions[sid].closed { ClosedStays(h, e, sid); }
  }

  lemma JobListed(h: Hub, e: HubEvent)
    requires HubEnabled(h, e) && e.ListJob?
    ensures e.job in h.jobs && At(h, e.job).Leased? && e.job in HubStep(h, e).jobs && HubStep(h, e).jobs[e.job].stage.Listed?
  {
    hide After, TrackInflight, TrackRepAck;
  }

  lemma NobodyKnows(h: Hub, id: string)
    requires Known(h) && id !in h.world.issued
    ensures forall sid | sid in h.sessions :: !Remembers(h.sessions[sid], id)
    ensures forall i | i in h.jobs :: !WorksOn(h.jobs[i].stage, id)
  {
    forall sid | sid in h.sessions
      ensures !Remembers(h.sessions[sid], id)
    {
      assert SessionKnown(h.sessions[sid], h.world.issued);
    }
    forall i | i in h.jobs
      ensures !WorksOn(h.jobs[i].stage, id)
    {
      assert StageKnown(h.jobs[i].stage, h.world.issued, h.world.bus.inflight.Keys);
    }
  }

  lemma HeldIsNew(h: Hub, e: HubEvent)
    requires HubEnabled(h, e) && e.HoldJob?
    ensures e.id !in h.world.issued
  {
  }

  lemma LeasedIsKnown(h: Hub, k: nat)
    requires Known(h) && k in h.jobs && At(h, k).Leased?
    ensures At(h, k).id in h.world.issued
  {
    assert StageKnown(h.jobs[k].stage, h.world.issued, h.world.bus.inflight.Keys);
  }

  /** No session comes to know of it. */
  lemma AloneSessions(h: Hub, e: HubEvent, k: nat, id: string, sid: nat)
    requires HubEnabled(h, e) && AloneKnows(h, k, id) && !(e.ListJob? && e.job == k) && sid in HubStep(h, e).sessions
    ensures !Remembers(HubStep(h, e).sessions[sid], id)
  {
    if e.ListJob? { JobListed(h, e); }
    hide HubEnabled, HubStep, Remembers;
    if Remembers(HubStep(h, e).sessions[sid], id) { RemembersStep(h, e, sid, id); }
  }

  /** No other job comes to work on it. */
  lemma AloneJobs(h: Hub, e: HubEvent, k: nat, id: string, i: nat)
    requires HubEnabled(h, e) && AloneKnows(h, k, id) && id in h.world.issued
    requires i in HubStep(h, e).jobs && WorksOn(HubStep(h, e).jobs[i].stage, id)
    ensures i == k
  {
    if e.HoldJob? { HeldIsNew(h, e); }
    WorksStep(h, e, i, id);
    hide HubEnabled, HubStep, Remembers;
  }

  lemma AloneStep(h: Hub, e: HubEvent, k: nat, id: string)
    requires HubInv(h) && HubEnabled(h, e) && k in h.jobs && At(h, k).Leased? && At(h, k).id == id
    requires AloneKnows(h, k, id) && k in HubStep(h, e).jobs && HubStep(h, e).jobs[k].stage == At(h, k)
    ensures AloneKnows(HubStep(h, e), k, id)
  {
    LeasedIsKnown(h, k);
    if e.ListJob? { JobListed(h, e); }
    hide HubInv, HubEnabled, HubStep, Remembers, WorksOn;
    var h' := HubStep(h, e);
    forall sid | sid in h'.sessions
      ensures !Remembers(h'.sessions[sid], id)
    {
      AloneSessions(h, e, k, id, sid);
    }
    forall i | i in h'.jobs && WorksOn(h'.jobs[i].stage, id)
      ensures i == k
    {
      AloneJobs(h, e, k, id, i);
    }
  }

  /** Nobody knows an id that was not issued. */
  lemma NewAlone(h: Hub, e: HubEvent, k: nat)
    requires HubInv(h) && HubEnabled(h, e) && e.HoldJob? && e.job == k
    ensures AloneKnows(HubStep(h, e), k, e.id)
  {
    HeldIsNew(h, e);
    NobodyKnows(h, e.id);
    hide HubInv, HubStep, HubEnabled, Remembers, WorksOn;
    var h', id := HubStep(h, e), e.id;
    forall sid | sid in h'.sessions
      ensures !Remembers(h'.sessions[sid], id)
    {
      if Remembers(h'.sessions[sid], id) { RemembersStep(h, e, sid, id); }
    }
    forall i | i in h'.jobs && WorksOn(h'.jobs[i].stage, id)
      ensures i == k
    {
      WorksStep(h, e, i, id);
    }
  }

  lemma OpListsOnce(s: Session, t: Session, x: string)
    requires IsOp(s, t, x) && ListsOnce(s)
    ensures ListsOnce(t)
  {
    WithoutNoDup(s.inflight, x);
  }

  lemma ListsOnceStep(h: Hub, e: HubEvent, sid: nat)
    requires HubEnabled(h, e) && sid in HubStep(h, e).sessions && (sid in h.sessions ==> ListsOnce(h.sessions[sid]))
    requires forall k | k in h.jobs && At(h, k).Leased? :: AloneKnows(h, k, At(h, k).id)
    ensures ListsOnce(HubStep(h, e).sessions[sid])
  {
    if Touched(h, e) != Some(sid) {
      hide HubEnabled, HubStep, ListsOnce;
      OnlyTouched(h, e, sid);
    } else if e.Connect? {
      hide Enabled, After;
    } else if e.ListJob? {
      ListedOp(h, e);
      assert e.job in h.jobs && At(h, e.job).Leased?;
      assert !Remembers(h.sessions[sid], At(h, e.job).id);
      NoDupSnoc(h.sessions[sid].inflight, At(h, e.job).id);
      hide HubEnabled, HubStep;
    } else {
      assert sid in h.sessions;
      TouchedOp(h, e, sid);
      hide HubEnabled, HubStep, IsOp, ListsOnce;
      var x: string :| IsOp(h.sessions[sid], HubStep(h, e).sessions[sid], x);
      OpListsOnce(h.sessions[sid], HubStep(h, e).sessions[sid], x);
    }
  }

  lemma ListsStep(h: Hub, e: HubEvent)
    requires ListsInv(h) && HubEnabled(h, e)
    ensures ListsInv(HubStep(h, e))
  {
    hide HubInv, HubEnabled, HubStep, JobOk, AloneKnows, ListsOnce;
    HubStepKeeps(h, e);
    var h' := HubStep(h, e);
    forall k | k in h'.jobs
      ensures JobOk(h', k)
    {
      JobOkStep(h, e, k);
    }
    forall k | k in h'.jobs && At(h', k).Leased?
      ensures AloneKnows(h', k, At(h', k).id)
    {
      StageStep(h, e, k);
      if e.HoldJob? && e.job == k && e.id == At(h', k).id {
        NewAlone(h, e, k);
      } else {
        AloneStep(h, e, k, At(h', k).id);
      }
    }
    forall sid | sid in h'.sessions
      ensures ListsOnce(h'.sessions[sid])
    {
      ListsOnceStep(h, e, sid);
    }
  }

  lemma {:induction false} ListsKeep(h: Hub, es: seq<HubEvent>)
    requires ListsInv(h) && HubValid(h, es)
    ensures ListsInv(HubRun(h, es))
    decreases |es|
  {
    hide ListsInv, HubEnabled, HubStep;
    if es != [] {
      ListsStep(h, es[0]);
      ListsKeep(HubStep(h, es[0]), es[1..]);
    }
  }

  lemma ListsStart(b: Bus)
    requires Fresh(b)
    ensures ListsInv(HubStart(b))
  {
    HubStartKeeps(b);
  }

  /** In every reachable state a job that has claimed a lease is about to acknowledge it: after
      a failed write it is the close of its session, never the job, that gives the lease back. */
  lemma JobsNeverGiveBack(b: Bus, es: seq<HubEvent>, j: nat)
    requires Fresh(b) && HubValid(HubStart(b), es)
    ensures var h := HubRun(HubStart(b), es); At(h, j).Claimed? ==> At(h, j).ack
  {
    hide HubRun, HubValid, HubStart, HubInv, AloneKnows, ListsOnce;
    ListsStart(b);
    ListsKeep(HubStart(b), es);
    var h := HubRun(HubStart(b), es);
    if j in h.jobs { assert JobOk(h, j); }
  }
}
