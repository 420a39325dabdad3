/** Waiters: their channels never misbehave, a closed channel keeps its one message, and
    work is stranded beside a waiter exactly when a cancellation puts a message back. */
module MailboxWaiters {
  import opened Bags
  import opened MailboxSpec
  import opened MailboxInvariant
  import opened MailboxSteps
  import opened MailboxRuns
  import opened MailboxLeases

  /** In every reachable state, closed bus included: no send ever blocked or panicked and no
      channel was closed twice; every listed channel is open and empty, belongs to that
      mailbox and is listed once; every open channel is listed. */
  lemma ChannelSafety(b: Bus, es: seq<Event>)
    requires Fresh(b) && Valid(Start(b), es)
    ensures var r := Run(Start(b), es).bus;
      && !r.fault
      && (forall n, c | n in r.boxes && c in r.boxes[n].waiters ::
            c in r.chans && r.chans[c] == Chan(n, None, true))
      && (forall n | n in r.boxes :: NoDup(r.boxes[n].waiters))
      && (forall n, k, c | n in r.boxes && k in r.boxes && c in r.boxes[n].waiters && c in r.boxes[k].waiters :: n == k)
      && (forall c | c in r.chans && r.chans[c].open :: Listed(r, c))
      && AllClosable(r)
  {
    hide Run, Valid, Fresh;
    StartKeeps(b);
    RunKeeps(Start(b), es);
    var r := Run(Start(b), es).bus;
    CloseKeeps(r);
    forall c | c in r.chans && r.chans[c].open
      ensures Listed(r, c)
    {
      assert r.chans[c].name in r.boxes && c in r.boxes[r.chans[c].name].waiters;
    }
  }

  // ---------------------------------------------------------------------------
  // Stranded work
  // ---------------------------------------------------------------------------

  ghost predicate BoxUnstranded(x: Box) { x.waiters == [] || x.q == [] }

  /** No mailbox has both a parked waiter and a queued message. */
  ghost predicate Unstranded(b: Bus) {
    forall n | n in b.boxes :: BoxUnstranded(b.boxes[n])
  }

  /** A cancelled taker's channel carries a message while other takers wait. */
  ghost predicate PutsBackBesideWaiters(b: Bus, c: nat)
    requires c in b.chans
  {
    b.chans[c].buf.Some? && BoxOf(b, b.chans[c].name).waiters != []
  }

  lemma {:induction false} ReleaseAllUnstranded(b: Bus, ids: seq<string>)
    requires Inv(b) && Unstranded(b)
    ensures Unstranded(ReleaseAll(b, ids))
    decreases |ids|
  {
    hide Inv, Unstranded, Deliver;
    if ids != [] {
      if ids[0] in b.inflight {
        ReleaseKeeps(b, ids[0]);
        SameBoxesUnstranded(b, DropLease(b, ids[0]));
        DeliverUnstranded(DropLease(b, ids[0]), b.inflight[ids[0]].msg);
        ReleaseAllUnstranded(Release(b, ids[0]), ids[1..]);
      } else {
        ReleaseAllUnstranded(b, ids[1..]);
      }
    }
  }

  lemma SweepUnstranded(b: Bus, now: int, order: seq<string>)
    requires Inv(b) && Unstranded(b) && NoDup(order)
    ensures Unstranded(RequeueExpired(b, now, order)) && Inv(RequeueExpired(b, now, order))
  {
    hide Inv, Unstranded, ReleaseAll, RequeueExpired;
    RequeueExpiredKeeps(b, now, order);
    RequeueExpiredIsReleaseAll(b, now, order);
    ReleaseAllUnstranded(b, ExpiredIds(b, now, order));
  }

  lemma SetBoxUnstranded(b: Bus, r: Bus, n: string, x: Box)
    requires Unstranded(b) && r.boxes == b.boxes[n := x] && BoxUnstranded(x)
    ensures Unstranded(r)
  {
  }

  lemma BoxIsUnstranded(b: Bus, n: string)
    requires Unstranded(b)
    ensures BoxUnstranded(BoxOf(b, n))
  {
  }

  lemma AdmitUnstranded(b: Bus, m: Msg, disk: bool)
    requires Unstranded(b)
    ensures Unstranded(Admit(b, m, disk).bus)
  {
    hide Unstranded, IndexAdd, IndexDel, Indexed, SnapshotOf;
    var n, x, r := m.name, BoxOf(b, m.name), Admit(b, m, disk).bus;
    BoxIsUnstranded(b, n);
    if Indexed(b, n, m.id) {
    } else if x.waiters != [] {
      SetBoxUnstranded(b, r, n, Box(x.q, x.waiters[1..]));
    } else if |x.q| < b.maxQueue {
      var b1 := PushBack(b, n, m);
      SetBoxUnstranded(b, b1, n, Box(x.q + [m], x.waiters));
      if PersistOk(b1, disk) {
        SameBoxesUnstranded(b1, r);
      } else {
        SetBoxUnstranded(b1, r, n, BoxOf(r, n));
      }
    }
  }

  lemma PutUnstranded(b: Bus, name: string, m: Msg, gen: string, now: int, disk: bool)
    requires Unstranded(b)
    ensures Unstranded(Put(b, name, m, gen, now, disk).bus)
  {
    hide Unstranded, Admit;
    EnsureBoxUnstranded(b, name);
    AdmitUnstranded(EnsureBox(b, name), Stamped(m, name, gen, now), disk);
  }

  lemma EnsureBoxUnstranded(b: Bus, n: string)
    requires Unstranded(b)
    ensures Unstranded(EnsureBox(b, n))
  {
  }

  lemma TakeHeadUnstranded(b: Bus, n: string, disk: bool)
    requires Unstranded(b) && BoxOf(b, n).q != []
    ensures Unstranded(TakeHead(b, n, disk).bus)
  {
    hide Unstranded, IndexAdd, IndexDel, SnapshotOf;
    var x, r := BoxOf(b, n), TakeHead(b, n, disk).bus;
    BoxIsUnstranded(b, n);
    var b1 := PopFront(b, n);
    SetBoxUnstranded(b, b1, n, Box(x.q[1..], x.waiters));
    if PersistOk(b1, disk) {
      SameBoxesUnstranded(b1, r);
    } else {
      SetBoxUnstranded(b1, r, n, BoxOf(r, n));
    }
  }

  /** Cancelling strands work exactly when it puts a message back beside other waiters. */
  lemma CancelStrandsIff(b: Bus, c: nat, disk: bool)
    requires Inv(b) && Unstranded(b) && c in b.chans
    ensures Unstranded(CancelWaiter(b, b.chans[c].name, c, disk)) <==> !PutsBackBesideWaiters(b, c)
  {
    var n := b.chans[c].name;
    var r := CancelWaiter(b, n, c, disk);
    CancelLeaves(b, c, disk);
    hide Inv, CancelWaiter;
    assert n in r.boxes && BoxUnstranded(b.boxes[n]);
    assert b.boxes[n].waiters == [] ==> Without(b.boxes[n].waiters, c) == [];
    forall k | k in r.boxes && k != n
      ensures BoxUnstranded(r.boxes[k])
    {
      assert r.boxes[k] == b.boxes[k];
    }
  }

  lemma CancelLeaves(b: Bus, c: nat, disk: bool)
    requires Inv(b) && c in b.chans
    ensures var n := b.chans[c].name; var r := CancelWaiter(b, n, c, disk);
      && n in b.boxes
      && r.boxes == b.boxes[n := if b.chans[c].buf.Some? then Box([b.chans[c].buf.value] + b.boxes[n].q, b.boxes[n].waiters)
                                 else Box(b.boxes[n].q, Without(b.boxes[n].waiters, c))]
  {
    var n := b.chans[c].name;
    NotListed(b, c);
    hide Inv, IndexAdd, SnapshotOf, Without;
  }

  /** A channel that carries a message is no longer listed. */
  lemma NotListed(b: Bus, c: nat)
    requires Inv(b) && c in b.chans
    ensures b.chans[c].name in b.boxes
    ensures b.chans[c].buf.Some? ==> Without(b.boxes[b.chans[c].name].waiters, c) == b.boxes[b.chans[c].name].waiters
  {
    var n := b.chans[c].name;
    BoxWaiters(b, n);
    WithoutNoDup(b.boxes[n].waiters, c);
  }

  lemma DeliverUnstranded(b: Bus, m: Msg)
    requires Unstranded(b)
    ensures Unstranded(Deliver(b, m))
  {
    hide Unstranded, IndexAdd;
    var b1, n := EnsureBox(b, m.name), m.name;
    EnsureBoxUnstranded(b, n);
    BoxIsUnstranded(b1, n);
    SetBoxUnstranded(b1, Deliver(b, m), n, BoxOf(Deliver(b, m), n));
  }

  lemma TakeChanUnstranded(b: Bus, name: string, now: int, order: seq<string>, disk: bool)
    requires Inv(b) && Unstranded(b) && NoDup(order)
    ensures Unstranded(TakeChan(b, name, now, order, disk).bus)
  {
    hide Inv, RequeueExpired, TakeHead;
    SweepUnstranded(b, now, order);
    var b1 := EnsureBox(RequeueExpired(b, now, order), name);
    assert Unstranded(b1);
    if BoxOf(b1, name).q != [] { TakeHeadUnstranded(b1, name, disk); }
  }

  lemma SameBoxesUnstranded(b: Bus, r: Bus)
    requires Unstranded(b) && (r.boxes == b.boxes || forall n | n in r.boxes :: r.boxes[n] == Box([], []))
    ensures Unstranded(r)
  {
  }

  lemma TryTakeUnstranded(b: Bus, name: string, now: int, order: seq<string>, disk: bool)
    requires Inv(b) && Unstranded(b) && NoDup(order)
    ensures Unstranded(TryTake(b, name, now, order, disk).bus)
  {
    hide Inv, Unstranded, RequeueExpired, TakeHead;
    SweepUnstranded(b, now, order);
    var b1 := RequeueExpired(b, now, order);
    if BoxOf(b1, name).q != [] { TakeHeadUnstranded(b1, name, disk); }
  }

  lemma NackUnstranded(b: Bus, id: string, disk: bool)
    requires Unstranded(b)
    ensures Unstranded(Nack(b, id, disk).bus)
  {
    hide Unstranded, Deliver, SnapshotOf;
    if id in b.inflight {
      SameBoxesUnstranded(b, DropLease(b, id));
      DeliverUnstranded(DropLease(b, id), b.inflight[id].msg);
      SameBoxesUnstranded(Release(b, id), Persist(Release(b, id), disk));
    }
  }

  lemma RequeueUnstranded(b: Bus, m: Msg, disk: bool)
    requires Unstranded(b)
    ensures Unstranded(Requeue(b, m, disk).bus)
  {
    hide Unstranded, Deliver, SnapshotOf;
    DeliverUnstranded(b, m);
    SameBoxesUnstranded(Deliver(b, m), Persist(Deliver(b, m), disk));
  }

  lemma ExpireUnstranded(b: Bus, now: int, order: seq<string>, disk: bool)
    requires Inv(b) && Unstranded(b) && NoDup(order)
    ensures Unstranded(ExpireLeases(b, now, order, disk))
  {
    hide Inv, Unstranded, RequeueExpired, AnyExpired, SnapshotOf;
    SweepUnstranded(b, now, order);
    var b1 := RequeueExpired(b, now, order);
    SameBoxesUnstranded(b1, Persist(b1, disk));
  }

  lemma OthersUnstranded(b: Bus, m: Msg, lease: int, id: string, now: int, disk: bool)
    requires Unstranded(b)
    ensures Unstranded(Hold(b, m, lease, id, now, disk).bus)
    ensures Unstranded(Ack(b, id, disk).bus)
    ensures Unstranded(Close(b))
  {
    hide Unstranded, IndexAdd, IndexDel, SnapshotOf, AllClosable;
    SameBoxesUnstranded(b, Hold(b, m, lease, id, now, disk).bus);
    SameBoxesUnstranded(b, Ack(b, id, disk).bus);
    SameBoxesUnstranded(b, Close(b));
  }

  /** Every other step keeps waiters and queued messages apart. */
  lemma StepUnstranded(w: World, e: Event)
    requires Inv(w.bus) && Unstranded(w.bus) && Enabled(w, e)
    requires e.CancelTake? ==> !PutsBackBesideWaiters(w.bus, e.chan)
    ensures Unstranded(Step(w, e).bus)
  {
    hide Inv, Unstranded, Put, Accepts, TakeChan, CancelWaiter, TryTake, Hold, Requeue, Ack, Nack, ExpireLeases, Close;
    match e
    case PutMsg(name, m, gen, now, disk) => PutUnstranded(w.bus, name, m, gen, now, disk);
    case StartTake(name, now, order, disk) => TakeChanUnstranded(w.bus, name, now, order, disk);
    case ReceiveFrom(c) => SameBoxesUnstranded(w.bus, Receive(w.bus, c).bus);
    case CancelTake(c, disk) => CancelStrandsIff(w.bus, c, disk);
    case PopNow(name, now, order, disk) => TryTakeUnstranded(w.bus, name, now, order, disk);
    case HoldMsg(m, lease, id, now, disk) => OthersUnstranded(w.bus, m, lease, id, now, disk);
    case RequeueMsg(m, disk) => RequeueUnstranded(w.bus, m, disk);
    case AckLease(id, disk) => OthersUnstranded(w.bus, Msg("", "", "", [], 0), 0, id, 0, disk);
    case NackLease(id, disk) => NackUnstranded(w.bus, id, disk);
    case Sweep(now, order, disk) => ExpireUnstranded(w.bus, now, order, disk);
    case CloseBus => OthersUnstranded(w.bus, Msg("", "", "", [], 0), 0, "", 0, false);
  }

  /** No cancellation in the run puts a message back beside other waiters. */
  ghost predicate CancelsAlone(w: World, es: seq<Event>)
    requires Valid(w, es)
    decreases |es|
  {
    es != [] ==>
      && (es[0].CancelTake? ==> !PutsBackBesideWaiters(w.bus, es[0].chan))
      && CancelsAlone(Step(w, es[0]), es[1..])
  }

  lemma {:induction false} NoStrandedWork(w: World, es: seq<Event>)
    requires WorldInv(w) && Unstranded(w.bus) && Valid(w, es) && CancelsAlone(w, es)
    ensures Unstranded(Run(w, es).bus)
    decreases |es|
  {
    hide Inv, Enabled, Step, Unstranded, Conserved;
    if es != [] {
      StepUnstranded(w, es[0]);
      StepKeeps(w, es[0]);
      NoStrandedWork(Step(w, es[0]), es[1..]);
    }
  }

  /** It does happen: with two takers waiting, a Put that reaches the first just as it cancels
      ends up queued while the second keeps waiting. */
  lemma CancelCanStrand(b: Bus, name: string, m: Msg, gen: string, now: int, disk: bool)
    requires Inv(b) && Accepts(b, name, m, gen, now, disk) && |BoxOf(b, name).waiters| >= 2
    ensures var x := BoxOf(b, name);
      var b1 := Put(b, name, m, gen, now, disk).bus;
      && x.waiters[0] in b1.chans
      && BoxOf(CancelWaiter(b1, name, x.waiters[0], disk), name)
         == Box([Stamped(m, name, gen, now)] + x.q, x.waiters[1..])
  {
    var x := BoxOf(b, name);
    HeadWaiter(b, name);
    BoxWaiters(b, name);
    var b1 := Put(b, name, m, gen, now, disk).bus;
    assert EnsureBox(b, name) == b;
    assert BoxOf(b1, name) == Box(x.q, x.waiters[1..]);
    WithoutNoDup(x.waiters[1..], x.waiters[0]);
  }

  // ---------------------------------------------------------------------------
  // One message per waiter
  // ---------------------------------------------------------------------------

  /** A closed channel is never written again, and a channel that is gone never comes back:
      each taker gets at most one message. */
  ghost predicate ChansSettle(b: Bus, r: Bus) {
    && b.next <= r.next
    && (forall c | c in b.chans && c in r.chans && !b.chans[c].open :: r.chans[c] == b.chans[c])
    && (forall c | c in r.chans && c !in b.chans :: b.next <= c)
  }

  lemma DeliverSettles(b: Bus, m: Msg)
    requires Inv(b)
    ensures ChansSettle(b, Deliver(b, m))
  {
    if BoxOf(b, m.name).waiters != [] { HeadWaiter(b, m.name); }
  }

  lemma DeliverKeys(b: Bus, m: Msg)
    requires Inv(b)
    ensures Deliver(b, m).chans.Keys == b.chans.Keys && Deliver(b, m).next == b.next
  {
    if BoxOf(b, m.name).waiters != [] { HeadWaiter(b, m.name); }
  }

  lemma {:induction false} SweepSettles(b: Bus, now: int, order: seq<string>)
    requires Inv(b)
    ensures ChansSettle(b, RequeueExpired(b, now, order))
    decreases |order|
  {
    hide Inv, Deliver;
    if order != [] {
      if Expired(b, order[0], now) {
        ReleaseKeeps(b, order[0]);
        DropLeaseKeeps(b, order[0]);
        DeliverSettles(DropLease(b, order[0]), b.inflight[order[0]].msg);
        SweepSettles(Release(b, order[0]), now, order[1..]);
        ReleaseChans(b, order[0]);
        SweepChans(Release(b, order[0]), now, order[1..]);
      } else {
        SweepSettles(b, now, order[1..]);
      }
    }
  }

  lemma ReleaseChans(b: Bus, id: string)
    requires Inv(b) && id in b.inflight
    ensures Release(b, id).chans.Keys == b.chans.Keys
  {
    var m := b.inflight[id].msg;
    if BoxOf(b, m.name).waiters != [] { HeadWaiter(b, m.name); }
  }

  lemma {:induction false} SweepChans(b: Bus, now: int, order: seq<string>)
    requires Inv(b)
    ensures RequeueExpired(b, now, order).chans.Keys == b.chans.Keys
    decreases |order|
  {
    hide Inv, Release;
    if order != [] {
      if Expired(b, order[0], now) {
        ReleaseKeeps(b, order[0]);
        ReleaseChans(b, order[0]);
        SweepChans(Release(b, order[0]), now, order[1..]);
      } else {
        SweepChans(b, now, order[1..]);
      }
    }
  }

  lemma AdmitSettles(b: Bus, m: Msg, disk: bool)
    requires Inv(b)
    ensures ChansSettle(b, Admit(b, m, disk).bus)
  {
    if BoxOf(b, m.name).waiters != [] { HeadWaiter(b, m.name); }
  }

  /** Nothing about channels changes from `b1` to `r`, or only the next channel is new. */
  lemma SettlesOn(b: Bus, b1: Bus, r: Bus, c: Chan)
    requires Inv(b) && ChansSettle(b, b1)
    requires (r.chans == b1.chans && r.next == b1.next) || (r.chans == b1.chans[b1.next := c] && r.next == b1.next + 1)
    requires b1.next == b.next && b1.chans.Keys == b.chans.Keys
    ensures ChansSettle(b, r)
  {
  }

  lemma TakeChanSettles(b: Bus, name: string, now: int, order: seq<string>, disk: bool)
    requires Inv(b)
    ensures ChansSettle(b, TakeChan(b, name, now, order, disk).bus)
  {
    hide Inv, RequeueExpired, TakeHead, ChansSettle, Moves, FileKeepsUp, Held, InChans, SameConfig;
    SweepSettles(b, now, order);
    RequeueExpiredKeeps(b, now, order);
    SweepChans(b, now, order);
    var b0 := RequeueExpired(b, now, order);
    var r := TakeChan(b, name, now, order, disk).bus;
    if name != "" && !b.closed {
      EnsureBoxKeeps(b0, name);
      var b1 := EnsureBox(b0, name);
      if BoxOf(b1, name).q != [] {
        TakeHeadKeeps(b1, name, disk);
        SettlesOn(b, b0, r, Chan(name, Some(BoxOf(b1, name).q[0]), false));
      } else {
        SettlesOn(b, b0, r, Chan(name, None, true));
      }
    } else {
      SameChansSettle(b, r);
    }
  }

  lemma SameChansSettle(b: Bus, r: Bus)
    requires r.next == b.next && r.chans == b.chans
    ensures ChansSettle(b, r)
  {
  }

  lemma DropChanSettles(b: Bus, r: Bus, c: nat)
    requires r.next == b.next && r.chans == b.chans - {c}
    ensures ChansSettle(b, r)
  {
  }

  lemma SettlesThen(b: Bus, b1: Bus, r: Bus)
    requires ChansSettle(b, b1) && r.next == b1.next && r.chans == b1.chans
    ensures ChansSettle(b, r)
  {
  }

  lemma CloseSettles(b: Bus)
    requires Inv(b)
    ensures ChansSettle(b, Close(b))
  {
  }

  lemma StepSettles(w: World, e: Event)
    requires Inv(w.bus) && Enabled(w, e)
    ensures ChansSettle(w.bus, Step(w, e).bus)
  {
    hide Inv, Put, Accepts, TakeChan, CancelWaiter, TryTake, Hold, Requeue, Ack, Nack, ExpireLeases, Close, ChansSettle;
    var b := w.bus;
    match e
    case PutMsg(name, m, gen, now, disk) => PutSettles(b, name, m, gen, now, disk);
    case StartTake(name, now, order, disk) => TakeChanSettles(b, name, now, order, disk);
    case ReceiveFrom(c) => DropChanSettles(b, Receive(b, c).bus, c);
    case CancelTake(c, disk) => CancelSettles(b, c, disk);
    case PopNow(name, now, order, disk) => TryTakeSettles(b, name, now, order, disk);
    case HoldMsg(m, lease, id, now, disk) => HoldAckSettle(b, m, lease, id, now, disk);
    case RequeueMsg(m, disk) => RequeueSettles(b, m, disk);
    case AckLease(id, disk) => HoldAckSettle(b, Msg("", "", "", [], 0), 0, id, 0, disk);
    case NackLease(id, disk) => NackSettles(b, id, disk);
    case Sweep(now, order, disk) => ExpireSettles(b, now, order, disk);
    case CloseBus => CloseSettles(b);
  }

  lemma CancelSettles(b: Bus, c: nat, disk: bool)
    requires c in b.chans
    ensures ChansSettle(b, CancelWaiter(b, b.chans[c].name, c, disk))
  {
    hide ChansSettle, IndexAdd, SnapshotOf;
    DropChanSettles(b, CancelWaiter(b, b.chans[c].name, c, disk), c);
  }

  lemma HoldAckSettle(b: Bus, m: Msg, lease: int, id: string, now: int, disk: bool)
    ensures ChansSettle(b, Hold(b, m, lease, id, now, disk).bus)
    ensures ChansSettle(b, Ack(b, id, disk).bus)
  {
    hide ChansSettle, IndexAdd, IndexDel, SnapshotOf;
    SameChansSettle(b, Hold(b, m, lease, id, now, disk).bus);
    SameChansSettle(b, Ack(b, id, disk).bus);
  }

  lemma RequeueSettles(b: Bus, m: Msg, disk: bool)
    requires Inv(b)
    ensures ChansSettle(b, Requeue(b, m, disk).bus)
  {
    hide Inv, Deliver, ChansSettle, SnapshotOf;
    DeliverSettles(b, m);
    SameChansSettle(b, b);
    SettlesThen(b, Deliver(b, m), Persist(Deliver(b, m), disk));
  }

  lemma ExpireSettles(b: Bus, now: int, order: seq<string>, disk: bool)
    requires Inv(b)
    ensures ChansSettle(b, ExpireLeases(b, now, order, disk))
  {
    hide Inv, RequeueExpired, AnyExpired, ChansSettle, SnapshotOf;
    SweepSettles(b, now, order);
    SameChansSettle(b, b);
    SettlesThen(b, RequeueExpired(b, now, order), Persist(RequeueExpired(b, now, order), disk));
  }

  lemma TryTakeSettles(b: Bus, name: string, now: int, order: seq<string>, disk: bool)
    requires Inv(b)
    ensures ChansSettle(b, TryTake(b, name, now, order, disk).bus)
  {
    hide Inv, RequeueExpired, TakeHead, ChansSettle;
    var r := TryTake(b, name, now, order, disk).bus;
    SweepSettles(b, now, order);
    RequeueExpiredKeeps(b, now, order);
    var b1 := RequeueExpired(b, now, order);
    if name == "" || b.closed {
      SameChansSettle(b, r);
    } else {
      if BoxOf(b1, name).q != [] { TakeHeadKeeps(b1, name, disk); }
      SettlesThen(b, b1, r);
    }
  }

  lemma NackSettles(b: Bus, id: string, disk: bool)
    requires Inv(b)
    ensures ChansSettle(b, Nack(b, id, disk).bus)
  {
    hide Inv, Deliver, ChansSettle, IndexDel, SnapshotOf;
    if id in b.inflight {
      DropLeaseKeeps(b, id);
      DeliverSettles(DropLease(b, id), b.inflight[id].msg);
      DropLeaseSettles(b, id, Release(b, id));
      SettlesThen(b, Release(b, id), Nack(b, id, disk).bus);
    } else {
      SameChansSettle(b, b);
    }
  }

  lemma DropLeaseSettles(b: Bus, id: string, r: Bus)
    requires id in b.inflight && ChansSettle(DropLease(b, id), r)
    ensures ChansSettle(b, r)
  {
  }

  lemma PutSettles(b: Bus, name: string, m: Msg, gen: string, now: int, disk: bool)
    requires Inv(b)
    ensures ChansSettle(b, Put(b, name, m, gen, now, disk).bus)
  {
    hide Inv, Admit;
    if name != "" {
      EnsureBoxKeeps(b, name);
      AdmitSettles(EnsureBox(b, name), Stamped(m, name, gen, now), disk);
    }
  }

  /** A taker that is done is done: its channel never comes back, and no event of a later run
      receives from it or cancels it. */
  lemma {:induction false} ReceivesOnce(w: World, es: seq<Event>, c: nat)
    requires WorldInv(w) && Valid(w, es) && c !in w.bus.chans && c < w.bus.next
    ensures c !in Run(w, es).bus.chans
    ensures forall i :: 0 <= i < |es| ==> es[i] != ReceiveFrom(c) && !(es[i].CancelTake? && es[i].chan == c)
    decreases |es|
  {
    hide Inv, Step, Conserved;
    if es != [] {
      StepSettles(w, es[0]);
      StepKeeps(w, es[0]);
      ReceivesOnce(Step(w, es[0]), es[1..], c);
      assert forall i :: 0 < i < |es| ==> es[i] == es[1..][i - 1];
    }
  }

  /** A channel that was sent its message keeps it until its taker is done. */
  lemma {:induction false} SentStays(w: World, es: seq<Event>, c: nat)
    requires WorldInv(w) && Valid(w, es) && c in w.bus.chans && !w.bus.chans[c].open
    ensures var r := Run(w, es).bus; c in r.chans ==> r.chans[c] == w.bus.chans[c]
    decreases |es|
  {
    hide Inv, Step, Enabled, Conserved;
    if es != [] {
      StepSettles(w, es[0]);
      StepKeeps(w, es[0]);
      var w' := Step(w, es[0]);
      if c in w'.bus.chans {
        SentStays(w', es[1..], c);
      } else {
        ChanBelowNext(w.bus, c);
        ReceivesOnce(w', es[1..], c);
      }
    }
  }

  lemma ChanBelowNext(b: Bus, c: nat)
    requires Inv(b) && c in b.chans
    ensures c < b.next
  {
  }
}
