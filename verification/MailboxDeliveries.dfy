/** The life of a delivery id over whole runs: it is leased once, and leaves once, by an
    acknowledgement, a negative acknowledgement or an expiry. */
module MailboxDeliveries {
  import opened MailboxSpec
  import opened MailboxInvariant
  import opened MailboxSteps
  import opened MailboxRuns
  import opened MailboxLeases

  /** The event takes the lease `id` away from the bus `b`. A closed bus is not swept, and a
      take on the empty name fails before it sweeps. */
  ghost predicate Ends(b: Bus, e: Event, id: string) {
    match e
    case AckLease(i, _) => i == id
    case NackLease(i, _) => i == id
    case StartTake(name, now, _, _) => name != "" && !b.closed && Expired(b, id, now)
    case PopNow(name, now, _, _) => name != "" && !b.closed && Expired(b, id, now)
    case Sweep(now, _, _) => !b.closed && Expired(b, id, now)
    case _ => false
  }

  lemma SweepLeases(b: Bus, now: int, order: seq<string>, id: string)
    requires Inv(b) && IsOrder(order, b.inflight)
    ensures var r := RequeueExpired(b, now, order);
      && (id in r.inflight <==> id in b.inflight && !Expired(b, id, now))
      && (id in r.inflight ==> r.inflight[id] == b.inflight[id])
  {
    hide Inv, RequeueExpired;
    ExpiryIsRight(b, now, order, "");
  }

  lemma HeadLeases(b: Bus, n: string, disk: bool)
    requires BoxOf(b, n).q != []
    ensures TakeHead(b, n, disk).bus.inflight == b.inflight
  {
    hide IndexAdd, IndexDel, SnapshotOf;
  }

  /** The operations that sweep leave the leases the sweep left. */
  lemma TakeChanLeases(b: Bus, name: string, now: int, order: seq<string>, disk: bool)
    ensures TakeChan(b, name, now, order, disk).bus.inflight
         == if name == "" || b.closed then b.inflight else RequeueExpired(b, now, order).inflight
  {
    hide RequeueExpired, TakeHead;
    var b1 := EnsureBox(RequeueExpired(b, now, order), name);
    if BoxOf(b1, name).q != [] { HeadLeases(b1, name, disk); }
  }

  lemma TryTakeLeases(b: Bus, name: string, now: int, order: seq<string>, disk: bool)
    ensures TryTake(b, name, now, order, disk).bus.inflight
         == if name == "" || b.closed then b.inflight else RequeueExpired(b, now, order).inflight
  {
    hide RequeueExpired, TakeHead;
    var b1 := RequeueExpired(b, now, order);
    if BoxOf(b1, name).q != [] { HeadLeases(b1, name, disk); }
  }

  lemma ExpireLeasesLeases(b: Bus, now: int, order: seq<string>, disk: bool)
    ensures ExpireLeases(b, now, order, disk).inflight == if b.closed then b.inflight else RequeueExpired(b, now, order).inflight
  {
    hide RequeueExpired, AnyExpired, SnapshotOf;
  }

  lemma HoldLeases(b: Bus, m: Msg, lease: int, id: string, now: int, disk: bool)
    requires id !in b.inflight
    ensures var o := Hold(b, m, lease, id, now, disk);
      o.bus.inflight == if o.result.Ok? then b.inflight[id := o.result.value] else b.inflight
  {
    hide IndexAdd, IndexDel, SnapshotOf;
    assert b.inflight[id := NewDelivery(m, lease, id, now)] - {id} == b.inflight;
  }

  /** A lease appears only by a Hold under a fresh id, keeps its contents while it lasts, and
      disappears exactly by an event that ends it. */
  lemma StepLeases(w: World, e: Event, id: string)
    requires Inv(w.bus) && Enabled(w, e) && w.bus.inflight.Keys <= w.issued
    ensures var w' := Step(w, e);
      && (id in w'.bus.inflight && id !in w.bus.inflight ==> e.HoldMsg? && e.id == id && id !in w.issued)
      && (id in w'.bus.inflight && id in w.bus.inflight ==> w'.bus.inflight[id] == w.bus.inflight[id])
      && (id in w.bus.inflight ==> (id !in w'.bus.inflight <==> Ends(w.bus, e, id)))
  {
    hide Inv, RequeueExpired, Put, TakeChan, TryTake, CancelWaiter, Hold, Requeue, Ack, Nack, ExpireLeases, Held, InChans, Moves, FileKeepsUp;
    match e
    case PutMsg(name, m, gen, now, disk) => PutKeeps(w.bus, name, m, gen, now, disk);
    case StartTake(name, now, order, disk) =>
      SweepLeases(w.bus, now, order, id);
      TakeChanLeases(w.bus, name, now, order, disk);
    case ReceiveFrom(c) =>
    case CancelTake(c, disk) => CancelWaiterKeeps(w.bus, c, disk);
    case PopNow(name, now, order, disk) =>
      SweepLeases(w.bus, now, order, id);
      TryTakeLeases(w.bus, name, now, order, disk);
    case HoldMsg(m, lease, i, now, disk) => HoldLeases(w.bus, m, lease, i, now, disk);
    case RequeueMsg(m, disk) => RequeueKeeps(w.bus, m, disk);
    case AckLease(i, disk) => AckKeeps(w.bus, i, disk);
    case NackLease(i, disk) => NackKeeps(w.bus, i, disk);
    case Sweep(now, order, disk) =>
      SweepLeases(w.bus, now, order, id);
      ExpireLeasesLeases(w.bus, now, order, disk);
    case CloseBus =>
  }

  /** An id that was issued and is not leased is never leased again; acknowledging it, either
      way, finds nothing and leaves the bus unchanged. */
  lemma {:induction false} GoneForGood(w: World, es: seq<Event>, id: string, disk: bool)
    requires WorldInv(w) && Valid(w, es) && id in w.issued && id !in w.bus.inflight
    ensures var b := Run(w, es).bus;
      && id !in b.inflight
      && Ack(b, id, disk) == Outcome(b, Err(NotFound))
      && Nack(b, id, disk) == Outcome(b, Err(NotFound))
    decreases |es|
  {
    hide Inv, Enabled, Step, Conserved;
    if es != [] {
      StepLeases(w, es[0], id);
      StepBus(w, es[0]);
      StepKeeps(w, es[0]);
      GoneForGood(Step(w, es[0]), es[1..], id, disk);
    }
  }

  /** How many times `id` leaves the leased set in a run. */
  ghost function Departures(w: World, es: seq<Event>, id: string): nat
    requires Valid(w, es)
    decreases |es|
  {
    if es == [] then 0
    else
      var w' := Step(w, es[0]);
      (if id in w.bus.inflight && id !in w'.bus.inflight then 1 else 0) + Departures(w', es[1..], id)
  }

  /** An id that is leased, or was never issued, leaves at most once from here on; so from
      the start every id leaves at most once. */
  lemma {:induction false} LeavesOnce(w: World, es: seq<Event>, id: string)
    requires WorldInv(w) && Valid(w, es) && (id in w.issued ==> id in w.bus.inflight)
    ensures Departures(w, es, id) <= 1
    ensures id in Run(w, es).bus.inflight ==> Departures(w, es, id) == 0
    ensures id in w.bus.inflight && id !in Run(w, es).bus.inflight ==> Departures(w, es, id) == 1
    decreases |es|
  {
    hide Inv, Enabled, Step, Conserved;
    if es != [] {
      var w' := Step(w, es[0]);
      StepLeases(w, es[0], id);
      StepBus(w, es[0]);
      StepKeeps(w, es[0]);
      if id in w'.issued && id !in w'.bus.inflight {
        NoMoreDepartures(w', es[1..], id);
      } else {
        LeavesOnce(w', es[1..], id);
      }
    }
  }

  lemma {:induction false} NoMoreDepartures(w: World, es: seq<Event>, id: string)
    requires WorldInv(w) && Valid(w, es) && id in w.issued && id !in w.bus.inflight
    ensures Departures(w, es, id) == 0 && id !in Run(w, es).bus.inflight
    decreases |es|
  {
    hide Inv, Enabled, Step, Conserved;
    if es != [] {
      StepLeases(w, es[0], id);
      StepBus(w, es[0]);
      StepKeeps(w, es[0]);
      NoMoreDepartures(Step(w, es[0]), es[1..], id);
    }
  }
}
