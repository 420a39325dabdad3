/** A run of the hub is a run of the bus: what every run of the bus keeps, every interleaving of
    sessions and jobs keeps. */
module HubTrace {
  import opened Bags
  import opened MailboxSpec
  import opened MailboxInvariant
  import opened MailboxRuns
  import opened MailboxRecovery
  import opened MailboxDeliveries
  import opened MailboxIndex
  import opened MailboxWaiters
  import opened MailboxFifo
  import opened HubSpec
  import opened HubRuns
  import opened HubJobs

  /** The bus operations of a run, in order. */
  ghost function Trace(h: Hub, es: seq<HubEvent>): (t: seq<Event>)
    requires HubValid(h, es)
    ensures Valid(h.world, t)
    decreases |es|
  {
    if es == [] then []
    else
      StepWorld(h, es[0]);
      var rest := Trace(HubStep(h, es[0]), es[1..]);
      if BusEvent(h, es[0]).Some? then [BusEvent(h, es[0]).value] + rest else rest
  }

  lemma FirstOfTrace(h: Hub, es: seq<HubEvent>)
    requires HubValid(h, es) && es != []
    ensures var t, rest := Trace(h, es), Trace(HubStep(h, es[0]), es[1..]);
      if BusEvent(h, es[0]).Some? then
        t != [] && t[0] == BusEvent(h, es[0]).value && t[1..] == rest && Enabled(h.world, t[0])
        && HubStep(h, es[0]).world == Step(h.world, t[0])
      else t == rest && HubStep(h, es[0]).world == h.world
  {
    StepWorld(h, es[0]);
    hide HubStep, Enabled, Step;
  }

  lemma {:induction false} RunsTheBus(h: Hub, es: seq<HubEvent>)
    requires HubValid(h, es)
    ensures Run(h.world, Trace(h, es)) == HubRun(h, es).world
    decreases |es|
  {
    hide HubEnabled, HubStep, Enabled, Step;
    if es != [] {
      FirstOfTrace(h, es);
      RunsTheBus(HubStep(h, es[0]), es[1..]);
    }
  }

  // ---------------------------------------------------------------------------
  // Deliveries
  // ---------------------------------------------------------------------------

  /** How many times `id` leaves the leased set in a run of the hub. */
  ghost function HubDepartures(h: Hub, es: seq<HubEvent>, id: string): nat
    requires HubValid(h, es)
    decreases |es|
  {
    if es == [] then 0
    else
      var h' := HubStep(h, es[0]);
      (if id in h.world.bus.inflight && id !in h'.world.bus.inflight then 1 else 0) + HubDepartures(h', es[1..], id)
  }

  lemma {:induction false} DeparturesAgree(h: Hub, es: seq<HubEvent>, id: string)
    requires HubValid(h, es)
    ensures HubDepartures(h, es, id) == Departures(h.world, Trace(h, es), id)
    decreases |es|
  {
    hide HubEnabled, HubStep, Enabled, Step;
    if es != [] {
      FirstOfTrace(h, es);
      DeparturesAgree(HubStep(h, es[0]), es[1..], id);
    }
  }

  /** Under any interleaving of acks, nacks, reps, closes and sweeps of any sessions, a delivery id
      leaves the leased set at most once; and once it is gone, acknowledging or returning it
      changes nothing at all, at any later time. */
  lemma DeliveryEndsOnce(b: Bus, es: seq<HubEvent>, later: seq<HubEvent>, id: string, job: nat, sid: nat, disk: bool)
    requires Fresh(b) && HubValid(HubStart(b), es) && HubValid(HubRun(HubStart(b), es), later)
    ensures HubDepartures(HubStart(b), es, id) <= 1
    ensures var h := HubRun(HubStart(b), es); var h' := HubRun(h, later);
      id in h.world.issued && id !in h.world.bus.inflight ==>
        && (HubEnabled(h', AckFrame(job, sid, id, disk)) ==> HubStep(h', AckFrame(job, sid, id, disk)) == h')
        && (HubEnabled(h', NackFrame(job, sid, id, disk)) ==> HubStep(h', NackFrame(job, sid, id, disk)) == h')
  {
    hide HubRun, HubValid, Run, Valid, Departures, HubDepartures, Trace, Inv, Conserved, HubEnabled, HubStep;
    var h0 := HubStart(b);
    RunsTheBus(h0, es);
    DeparturesAgree(h0, es, id);
    StartKeeps(b);
    LeavesOnce(Start(b), Trace(h0, es), id);
    RunKeeps(Start(b), Trace(h0, es));
    var h := HubRun(h0, es);
    RunsTheBus(h, later);
    if id in h.world.issued && id !in h.world.bus.inflight {
      GoneForGood(h.world, Trace(h, later), id, disk);
      SettlesNothing(HubRun(h, later), job, sid, id, disk);
    }
  }

  lemma SettlesNothing(h: Hub, job: nat, sid: nat, id: string, disk: bool)
    requires Ack(h.world.bus, id, disk) == Outcome(h.world.bus, Err(NotFound)) && id !in h.world.bus.inflight
    requires Nack(h.world.bus, id, disk) == Outcome(h.world.bus, Err(NotFound))
    ensures HubEnabled(h, AckFrame(job, sid, id, disk)) ==> HubStep(h, AckFrame(job, sid, id, disk)) == h
    ensures HubEnabled(h, NackFrame(job, sid, id, disk)) ==> HubStep(h, NackFrame(job, sid, id, disk)) == h
  {
    hide Ack, Nack;
    AckNothing(h.world, id, disk);
    hide Step;
  }

  lemma AckNothing(w: World, id: string, disk: bool)
    requires Ack(w.bus, id, disk).bus == w.bus && Nack(w.bus, id, disk).bus == w.bus && id !in w.bus.inflight
    ensures Step(w, AckLease(id, disk)) == w && Step(w, NackLease(id, disk)) == w
  {
    hide Ack, Nack;
    assert w.acked + multiset{} == w.acked;
  }

  // ---------------------------------------------------------------------------
  // Waiting jobs
  // ---------------------------------------------------------------------------

  /** In every reachable state: no send ever blocked or panicked and no channel was closed twice,
      and a listed channel is open, empty, listed once, and waited on by exactly one job. */
  lemma WaitersAreJobs(b: Bus, es: seq<HubEvent>, n: string, c: nat)
    requires Fresh(b) && HubValid(HubStart(b), es)
    ensures var h := HubRun(HubStart(b), es); var r := h.world.bus;
      && !r.fault && AllClosable(r) && NoDup(BoxOf(r, n).waiters)
      && (c in BoxOf(r, n).waiters ==>
            && c in r.chans && r.chans[c] == Chan(n, None, true)
            && (exists j :: j in h.jobs && At(h, j) == HubSpec.Stage.Waiting(c))
            && (forall i, j | i in h.jobs && j in h.jobs && At(h, i) == At(h, j) == HubSpec.Stage.Waiting(c) :: i == j))
  {
    hide HubRun, HubValid, Run, Valid, Trace, Fresh, WorldInv, HandsAgree, HubStart;
    var h0 := HubStart(b);
    RunsTheBus(h0, es);
    StartsThere(b);
    ChannelSafety(b, Trace(h0, es));
    StartJobs(b);
    JobsKeep(h0, es);
  }

  lemma StartsThere(b: Bus)
    ensures HubStart(b).world == Start(b)
  {
  }

  /** Waiting jobs and queued messages stay apart through every run of the hub in which no
      cancelled job puts a message back beside other waiting jobs. */
  lemma JobsNeverBesideWork(b: Bus, es: seq<HubEvent>)
    requires Fresh(b) && HubValid(HubStart(b), es) && CancelsAlone(HubStart(b).world, Trace(HubStart(b), es))
    ensures Unstranded(HubRun(HubStart(b), es).world.bus)
  {
    hide HubRun, HubValid, Run, Valid, CancelsAlone, Trace, HubStart;
    StartsThere(b);
    RunsTheBus(HubStart(b), es);
    StartKeeps(b);
    StartsUnstranded(b);
    NoStrandedWork(Start(b), Trace(HubStart(b), es));
  }

  lemma StartsUnstranded(b: Bus)
    requires Fresh(b)
    ensures Unstranded(b)
  {
    forall n | n in b.boxes
      ensures b.boxes[n].waiters == []
    {
      if b.boxes[n].waiters != [] { MailboxLeases.HeadWaiter(b, n); }
    }
  }

  // ---------------------------------------------------------------------------
  // Order
  // ---------------------------------------------------------------------------

  /** Jobs are served in order: in every run of the hub that gives nothing back to mailbox `n`, the job
      whose take on it was the k-th, if its channel is still there, can receive and gets the k-th
      message; and while there is no k-th message it is the k-th take that waits. */
  lemma JobsServedInOrder(b: Bus, es: seq<HubEvent>, n: string, k: nat)
    requires Fresh(b) && HubValid(HubStart(b), es) && AllUndisturbed(HubStart(b).world, Trace(HubStart(b), es), n)
    ensures var h := HubRun(HubStart(b), es);
      var d := RecordAll(HubStart(b).world, History(BoxOf(b, n).q, [], map[]), Trace(HubStart(b), es), n);
      && BoxOf(h.world.bus, n).waiters == (if |d.puts| <= |d.takes| then d.takes[|d.puts|..] else [])
      && (k < |d.takes| && k < |d.puts| && 0 <= d.takes[k] && d.takes[k] in h.world.bus.chans ==>
            exists j :: j in h.jobs && At(h, j) == HubSpec.Stage.Waiting(d.takes[k])
                        && HubEnabled(h, ReceiveJob(j)) && At(HubStep(h, ReceiveJob(j)), j) == Taken(d.puts[k]))
  {
    hide HubRun, HubValid, Run, Valid, Trace, Fresh, WorldInv, HandsAgree, HubStart, RecordAll, AllUndisturbed;
    hide HubEnabled, HubStep;
    var h0 := HubStart(b);
    StartsThere(b);
    RunsTheBus(h0, es);
    FifoRendezvous(b, Trace(h0, es), n);
    StartJobs(b);
    JobsKeep(h0, es);
    var h := HubRun(h0, es);
    var d := RecordAll(Start(b), History(BoxOf(b, n).q, [], map[]), Trace(h0, es), n);
    if k < |d.takes| && k < |d.puts| && 0 <= d.takes[k] && d.takes[k] in h.world.bus.chans {
      assert Paired(h.world.bus, d, n, k);
      var j :| j in h.jobs && At(h, j) == HubSpec.Stage.Waiting(d.takes[k]);
      GetsItsMessage(h, j, d.puts[k]);
    }
  }

  lemma GetsItsMessage(h: Hub, j: nat, m: Msg)
    requires j in h.jobs && At(h, j).Waiting? && At(h, j).chan in h.world.bus.chans
    requires var c := h.world.bus.chans[At(h, j).chan]; c.buf == Some(m) && !c.open
    ensures HubEnabled(h, ReceiveJob(j)) && At(HubStep(h, ReceiveJob(j)), j) == Taken(m)
  {
  }

  // ---------------------------------------------------------------------------
  // Copies
  // ---------------------------------------------------------------------------

  /** A retried request never doubles its job: where no req finds a copy of its message with a job
      that has yet to lease it, at most one copy is queued or leased, through closes, nacks,
      expiries and requeues of any sessions. */
  lemma OneJobPerRequest(b: Bus, es: seq<HubEvent>, name: string, id: string)
    requires Fresh(b) && HubValid(HubStart(b), es) && !HubRun(HubStart(b), es).world.bus.closed
    requires name != "" && id != "" && LiveCopies(HubStart(b).world, name, id) <= 1
    requires PutsSettled(HubStart(b).world, Trace(HubStart(b), es), name, id)
    ensures Copies(Held(HubRun(HubStart(b), es).world.bus), name, id) <= 1
  {
    hide HubRun, HubValid, Run, Valid, Trace, Inv, Conserved, HubStart, PutsSettled, LiveCopies, Copies, Held;
    StartsThere(b);
    RunsTheBus(HubStart(b), es);
    StartKeeps(b);
    AtMostOneCopy(Start(b), Trace(HubStart(b), es), name, id);
  }

  // ---------------------------------------------------------------------------
  // Crashes
  // ---------------------------------------------------------------------------

  /** At every crash point of a hub that writes what its jobs put back: reopening restores every
      accepted message that is not acknowledged, not in the hand of a job and not in the channel
      of a waiting one. */
  lemma HubCrashLosesNothing(b: Bus, es: seq<HubEvent>)
    requires Fresh(b) && b.durable && HubValid(HubStart(b), es) && !HubRun(HubStart(b), es).world.bus.closed
    requires ReturnsWritten(HubStart(b).world, Trace(HubStart(b), es))
    ensures var h := HubRun(HubStart(b), es); var w := h.world;
      w.accepted - w.acked - InChans(w.bus) - Sum(h.jobs, JobMsgs) <= Recoverable(w.bus.file)
  {
    hide HubRun, HubValid, Run, Valid, Trace, HubStart, ReturnsWritten, WorldInv, ChansAgree, Recoverable, InChans, Sum;
    StartsThere(b);
    RunsTheBus(HubStart(b), es);
    CrashLosesNothing(b, Trace(HubStart(b), es));
    hide Fresh;
    StartJobs(b);
    JobsKeep(HubStart(b), es);
  }

  /** At every crash point of a hub whose acknowledgements are written, reopening restores no more
      than was accepted and not acknowledged. */
  lemma HubCrashInventsNothing(b: Bus, es: seq<HubEvent>)
    requires Fresh(b) && b.durable && HubValid(HubStart(b), es) && !HubRun(HubStart(b), es).world.bus.closed
    requires AcksWritten(HubStart(b).world, Trace(HubStart(b), es))
    ensures var w := HubRun(HubStart(b), es).world;
      Recoverable(w.bus.file) <= w.accepted - w.acked
  {
    hide HubRun, HubValid, Run, Valid, Trace, HubStart, AcksWritten, Recoverable;
    StartsThere(b);
    RunsTheBus(HubStart(b), es);
    CrashInventsNothing(b, Trace(HubStart(b), es));
  }
}
