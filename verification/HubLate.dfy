/** A delivery that is listed after its session has closed: nobody gives it back, and it stays
    leased until a client settles it by name or a sweep finds it expired. */
module HubLate {
  import opened MailboxSpec
  import opened MailboxInvariant
  import opened MailboxRuns
  import opened MailboxDeliveries
  import opened HubSpec
  import opened HubRuns
  import opened HubLists

  /** `id` is leased; its session `sid` is closed and will not give it back; no other session
      knows it; and no job has claimed it. */
  ghost predicate Late(h: Hub, sid: nat, id: string) {
    && sid in h.sessions && h.sessions[sid].closed && id !in h.sessions[sid].toNack
    && id in h.world.bus.inflight
    && (forall s | s in h.sessions && s != sid :: !Remembers(h.sessions[s], id))
    && (forall k | k in h.jobs && WorksOn(h.jobs[k].stage, id) :: h.jobs[k].sid == sid && !h.jobs[k].stage.Claimed?)
  }

  /** A client acknowledges or returns the delivery by name, or an open bus is swept, by its
      sweeper or by a take, and finds it expired. */
  predicate Settles(h: Hub, e: HubEvent, id: string) {
    var b := h.world.bus;
    match e
    case AckFrame(_, _, i, _) => i == id
    case NackFrame(_, _, i, _) => i == id
    case StartJob(_, _, _, name, now, _, _) => name != "" && !b.closed && Expired(b, id, now)
    case OnBus(Sweep(now, _, _)) => !b.closed && Expired(b, id, now)
    case _ => false
  }

  /** Nothing in the run settles the delivery. */
  ghost predicate Unsettled(h: Hub, es: seq<HubEvent>, id: string)
    requires HubValid(h, es)
    decreases |es|
  {
    es == [] || (!Settles(h, es[0], id) && Unsettled(HubStep(h, es[0]), es[1..], id))
  }

  // ---------------------------------------------------------------------------
  // One step
  // ---------------------------------------------------------------------------

  /** A session knows what it is about to give back. */
  lemma NextIsRemembered(h: Hub, e: HubEvent)
    requires HubEnabled(h, e) && e.NackNext?
    ensures e.sid in h.sessions && h.sessions[e.sid].toNack != [] && Remembers(h.sessions[e.sid], h.sessions[e.sid].toNack[0])
    ensures h.sessions[e.sid].toNack[0] in h.sessions[e.sid].toNack
  {
  }

  lemma SettlerWorks(h: Hub, e: HubEvent)
    requires HubEnabled(h, e) && e.SettleJob?
    ensures e.job in h.jobs && At(h, e.job).Claimed? && WorksOn(h.jobs[e.job].stage, At(h, e.job).id)
  {
  }

  /** The event at the bus ends a late lease exactly when it settles it. */
  lemma EndsIffSettles(h: Hub, e: HubEvent, sid: nat, id: string)
    requires HubEnabled(h, e) && Late(h, sid, id)
    ensures BusEvent(h, e).Some? && Ends(h.world.bus, BusEvent(h, e).value, id) <==> Settles(h, e, id)
  {
    if e.NackNext? { NextIsRemembered(h, e); }
    if e.SettleJob? { SettlerWorks(h, e); }
    hide Enabled, Remembers, Expired;
  }

  lemma LateLease(h: Hub, e: HubEvent, sid: nat, id: string)
    requires HubInv(h) && HubEnabled(h, e) && Late(h, sid, id)
    ensures var w' := HubStep(h, e).world; id in w'.issued && (id in w'.bus.inflight <==> !Settles(h, e, id))
  {
    StepWorld(h, e);
    EndsIffSettles(h, e, sid, id);
    AfterLeases(h, e, id);
    hide Inv, Enabled, Step, Settles, Ends, Late, Known, HubStep, Remembers, WorksOn;
    if BusEvent(h, e).Some? { StepLeases(h.world, BusEvent(h, e).value, id); }
  }

  /** No other session comes to know a late delivery. */
  lemma LateSessions(h: Hub, e: HubEvent, sid: nat, id: string, s: nat)
    requires HubEnabled(h, e) && Late(h, sid, id) && s in HubStep(h, e).sessions && s != sid
    ensures !Remembers(HubStep(h, e).sessions[s], id)
  {
    if e.ListJob? { JobListed(h, e); }
    hide HubEnabled, HubStep, Remembers;
    if Remembers(HubStep(h, e).sessions[s], id) { RemembersStep(h, e, s, id); }
  }

  /** No job comes to claim a late delivery. */
  lemma LateJobs(h: Hub, e: HubEvent, sid: nat, id: string, k: nat)
    requires HubEnabled(h, e) && Late(h, sid, id) && id in h.world.issued
    requires k in HubStep(h, e).jobs && WorksOn(HubStep(h, e).jobs[k].stage, id)
    ensures HubStep(h, e).jobs[k].sid == sid && !HubStep(h, e).jobs[k].stage.Claimed?
  {
    if e.HoldJob? { HeldIsNew(h, e); }
    WorksStep(h, e, k, id);
    StageStep(h, e, k);
    hide HubEnabled, HubStep, Remembers;
  }

  lemma LateStep(h: Hub, e: HubEvent, sid: nat, id: string)
    requires HubInv(h) && HubEnabled(h, e) && Late(h, sid, id) && !Settles(h, e, id)
    ensures Late(HubStep(h, e), sid, id)
  {
    LateLease(h, e, sid, id);
    ClosedStays(h, e, sid);
    assert id in h.world.issued && sid <= h.sids;
    NacksShrink(h.sessions[sid].toNack, id);
    hide HubInv, HubEnabled, HubStep, Settles, Remembers, WorksOn;
    var h' := HubStep(h, e);
    forall s | s in h'.sessions && s != sid
      ensures !Remembers(h'.sessions[s], id)
    {
      LateSessions(h, e, sid, id, s);
    }
    forall k | k in h'.jobs && WorksOn(h'.jobs[k].stage, id)
      ensures h'.jobs[k].sid == sid && !h'.jobs[k].stage.Claimed?
    {
      LateJobs(h, e, sid, id, k);
    }
  }

  lemma NacksShrink(ids: seq<string>, id: string)
    ensures ids != [] && id !in ids ==> id !in ids[1..]
  {
  }

  /** A job that is about to list its delivery when its session has closed makes it late. */
  lemma LateStarts(h: Hub, j: nat)
    requires ListsInv(h) && j in h.jobs && At(h, j).Leased? && At(h, j).id in h.world.bus.inflight
    requires h.sessions[h.jobs[j].sid].closed
    ensures Late(h, h.jobs[j].sid, At(h, j).id)
  {
    var id := At(h, j).id;
    assert AloneKnows(h, j, id) && JobOk(h, j);
    assert !Remembers(h.sessions[h.jobs[j].sid], id);
    hide HubInv;
  }

  // ---------------------------------------------------------------------------
  // Runs
  // ---------------------------------------------------------------------------

  lemma {:induction false} LateRun(h: Hub, es: seq<HubEvent>, sid: nat, id: string)
    requires HubInv(h) && Late(h, sid, id) && HubValid(h, es)
    ensures id in HubRun(h, es).world.bus.inflight <==> Unsettled(h, es, id)
    decreases |es|
  {
    assert id in h.world.bus.inflight;
    hide HubInv, HubEnabled, HubStep, Settles, Late;
    if es != [] {
      HubStepKeeps(h, es[0]);
      LateLease(h, es[0], sid, id);
      if Settles(h, es[0], id) {
        SettledRun(HubStep(h, es[0]), es[1..], id);
      } else {
        LateStep(h, es[0], sid, id);
        LateRun(HubStep(h, es[0]), es[1..], sid, id);
      }
    }
  }

  lemma {:induction false} SettledRun(h: Hub, es: seq<HubEvent>, id: string)
    requires HubInv(h) && HubValid(h, es) && id in h.world.issued && id !in h.world.bus.inflight
    ensures id !in HubRun(h, es).world.bus.inflight
    decreases |es|
  {
    hide Inv, Known, HubEnabled, HubStep, After;
    if es != [] {
      HubStepKeeps(h, es[0]);
      StepWorld(h, es[0]);
      AfterLeases(h, es[0], id);
      SettledRun(HubStep(h, es[0]), es[1..], id);
    }
  }

  /** In every reachable state: when a session closes between the lease of a job and its
      listing, the lease lasts, through every later run, exactly until a client settles it by
      name or a sweep finds it expired. Neither the session nor any job gives it back. */
  lemma LateLeaseStays(b: Bus, es: seq<HubEvent>, j: nat, later: seq<HubEvent>)
    requires Fresh(b) && HubValid(HubStart(b), es)
    requires var h := HubRun(HubStart(b), es);
      && j in h.jobs && At(h, j).Leased? && At(h, j).id in h.world.bus.inflight
      && h.jobs[j].sid in h.sessions && h.sessions[h.jobs[j].sid].closed
      && HubValid(h, later)
    ensures var h := HubRun(HubStart(b), es); var id := At(h, j).id;
      id in HubRun(h, later).world.bus.inflight <==> Unsettled(h, later, id)
  {
    hide HubRun, HubValid, HubStart, Unsettled, Late;
    ListsStart(b);
    ListsKeep(HubStart(b), es);
    var h := HubRun(HubStart(b), es);
    LateStarts(h, j);
    LateRun(h, later, h.jobs[j].sid, At(h, j).id);
  }
}
