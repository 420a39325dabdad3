/** Crash recovery: what a durable, open bus would restore from its file at every point of
    every run, and what exactly a failed write can cost. */
module MailboxRecovery {
  import opened Bags
  import opened MailboxSpec
  import opened MailboxInvariant
  import opened MailboxSteps
  import opened MailboxRuns

  /** A message that a requeue or a cancellation brings back to the queue is written. The
      writes of Put, of takes, of Hold, Nack, Ack and the sweeper may fail, and so may those
      of a requeue that finds a waiter and of a cancellation that finds no message. */
  ghost predicate ReturnWritten(w: World, e: Event)
    requires Enabled(w, e)
  {
    && (e.RequeueMsg? ==> e.disk || !Returns(w.bus, e.msg))
    && (e.CancelTake? ==> e.disk || w.bus.chans[e.chan].buf.None?)
  }

  ghost predicate ReturnsWritten(w: World, es: seq<Event>)
    requires Valid(w, es)
    decreases |es|
  {
    es != [] ==> ReturnWritten(w, es[0]) && ReturnsWritten(Step(w, es[0]), es[1..])
  }

  /** An acknowledgement that ends a lease is written; any other write may fail. */
  ghost predicate AckWritten(w: World, e: Event) {
    e.AckLease? ==> e.disk || e.id !in w.bus.inflight
  }

  ghost predicate AcksWritten(w: World, es: seq<Event>)
    requires Valid(w, es)
    decreases |es|
  {
    es != [] ==> AckWritten(w, es[0]) && AcksWritten(Step(w, es[0]), es[1..])
  }

  ghost predicate Restores(w: World) {
    w.bus.durable && !w.bus.closed ==> Held(w.bus) <= Recoverable(w.bus.file)
  }

  ghost predicate RestoresNoMore(w: World) {
    w.bus.durable && !w.bus.closed ==> Recoverable(w.bus.file) <= Live(w.bus) + w.hand
  }

  /** The file of an open durable bus is left alone or current; it keeps up with written
      returns, and is current after a written acknowledgement. */
  ghost predicate FileFollows(w: World, e: Event)
    requires Enabled(w, e)
  {
    var w' := Step(w, e);
    && w'.bus.durable
    && (!w'.bus.closed ==>
          && (w'.bus.file == w.bus.file || FileCurrent(w'.bus))
          && (ReturnWritten(w, e) ==> FileKeepsUp(w.bus, w'.bus))
          && (e.AckLease? && e.disk && e.id in w.bus.inflight ==> FileCurrent(w'.bus)))
  }

  lemma StepFile(w: World, e: Event)
    requires Inv(w.bus) && w.bus.inflight.Keys <= w.issued && Enabled(w, e) && w.bus.durable
    ensures var w' := Step(w, e);
      && w'.bus.durable
      && (!w'.bus.closed ==>
            && (w'.bus.file == w.bus.file || FileCurrent(w'.bus))
            && (ReturnWritten(w, e) ==> FileKeepsUp(w.bus, w'.bus))
            && (e.AckLease? && e.disk && e.id in w.bus.inflight ==> FileCurrent(w'.bus)))
  {
    hide Inv, Step, ReturnWritten, FileCurrent, FileKeepsUp, Enabled;
    if Passes(e) { PassingFile(w, e); } else { LeasingFile(w, e); }
  }

  lemma PassingFile(w: World, e: Event)
    requires Inv(w.bus) && Enabled(w, e) && w.bus.durable && Passes(e)
    ensures FileFollows(w, e)
  {
    hide Inv, Moves, Held, InChans, Put, Accepts, TakeChan, Receive, CancelWaiter, TryTake, Recoverable;
    match e
    case PutMsg(name, m, gen, now, disk) => PutKeeps(w.bus, name, m, gen, now, disk);
    case StartTake(name, now, order, disk) => TakeChanKeeps(w.bus, name, now, order, disk);
    case ReceiveFrom(c) => ReceiveKeeps(w.bus, c);
    case CancelTake(c, disk) => CancelWaiterKeeps(w.bus, c, disk);
    case PopNow(name, now, order, disk) => TryTakeKeeps(w.bus, name, now, order, disk);
    case _ =>
  }

  lemma LeasingFile(w: World, e: Event)
    requires Inv(w.bus) && w.bus.inflight.Keys <= w.issued && Enabled(w, e) && w.bus.durable && !Passes(e)
    ensures FileFollows(w, e)
  {
    hide Inv, Moves, Held, InChans, Hold, Requeue, Ack, Nack, ExpireLeases, Returns, Recoverable;
    match e
    case HoldMsg(m, lease, id, now, disk) => HoldKeeps(w.bus, m, lease, id, now, disk);
    case RequeueMsg(m, disk) => RequeueKeeps(w.bus, m, disk);
    case AckLease(id, disk) => AckKeeps(w.bus, id, disk);
    case NackLease(id, disk) => NackKeeps(w.bus, id, disk);
    case Sweep(now, order, disk) => ExpireLeasesKeeps(w.bus, now, order, disk);
    case _ =>
  }

  lemma {:induction false} RunRestores(w: World, es: seq<Event>)
    requires WorldInv(w) && w.bus.durable && Restores(w) && Valid(w, es)
    requires ReturnsWritten(w, es)
    ensures Restores(Run(w, es))
    decreases |es|
  {
    hide Inv, Enabled, Step, Recoverable, Held, Conserved, ReturnWritten;
    if es != [] {
      StepFile(w, es[0]);
      StepKeeps(w, es[0]);
      var w' := Step(w, es[0]);
      assert w'.bus.closed || !w.bus.closed by { StepBus(w, es[0]); }
      RunRestores(w', es[1..]);
    }
  }

  /** What is neither current nor acknowledged stays accounted for outside the file. */
  lemma StepRestoresNoMore(w: World, e: Event)
    requires WorldInv(w) && w.bus.durable && RestoresNoMore(w) && Enabled(w, e) && AckWritten(w, e)
    ensures RestoresNoMore(Step(w, e))
  {
    hide Inv, Enabled, Step, Recoverable, Held, InChans, Gains, Losses;
    StepFile(w, e);
    StepBus(w, e);
    StepKeeps(w, e);
    var w' := Step(w, e);
    if !w'.bus.closed && !FileCurrent(w'.bus) {
      StepHistory(w, e);
      Grows(Live(w.bus) + w.hand, Live(w'.bus) + w'.hand, w.acked, w.accepted, w'.accepted);
    }
  }

  lemma Grows<T>(a: multiset<T>, a': multiset<T>, rest: multiset<T>, total: multiset<T>, total': multiset<T>)
    requires total == a + rest && total' == a' + rest && total <= total'
    ensures a <= a'
  {
    forall x: T
      ensures a[x] <= a'[x]
    {
      assert total[x] == a[x] + rest[x] && total'[x] == a'[x] + rest[x];
    }
  }

  lemma StepHistory(w: World, e: Event)
    requires Enabled(w, e)
    ensures var w' := Step(w, e);
      w.accepted <= w'.accepted && (w'.acked == w.acked || (e.AckLease? && e.id in w.bus.inflight))
  {
    hide Put, Accepts, TakeChan, CancelWaiter, TryTake, Hold, Requeue, Ack, Nack, ExpireLeases, Close;
  }

  lemma {:induction false} RunRestoresNoMore(w: World, es: seq<Event>)
    requires WorldInv(w) && w.bus.durable && RestoresNoMore(w) && Valid(w, es)
    requires AcksWritten(w, es)
    ensures RestoresNoMore(Run(w, es))
    decreases |es|
  {
    hide Inv, Enabled, Step, RestoresNoMore, Conserved, AckWritten;
    if es != [] {
      StepRestoresNoMore(w, es[0]);
      StepKeeps(w, es[0]);
      StepFile(w, es[0]);
      RunRestoresNoMore(Step(w, es[0]), es[1..]);
    }
  }

  /** At every crash point of a run that writes its returns, reopening restores every
      accepted message that is neither acknowledged nor in transit. */
  lemma CrashLosesNothing(b: Bus, es: seq<Event>)
    requires Fresh(b) && b.durable && Valid(Start(b), es) && !Run(Start(b), es).bus.closed
    requires ReturnsWritten(Start(b), es)
    ensures var w := Run(Start(b), es);
      w.accepted - w.acked - InChans(w.bus) - w.hand <= Recoverable(w.bus.file)
  {
    hide Inv, Recoverable, Held, InChans, Run, Valid, ReturnsWritten;
    StartKeeps(b);
    RunKeeps(Start(b), es);
    RunKeepsDurable(Start(b), es);
    RunRestores(Start(b), es);
  }

  /** At every crash point of a run that writes its acknowledgements, reopening restores no
      more than was accepted and not acknowledged. */
  lemma CrashInventsNothing(b: Bus, es: seq<Event>)
    requires Fresh(b) && b.durable && Valid(Start(b), es) && !Run(Start(b), es).bus.closed
    requires AcksWritten(Start(b), es)
    ensures var w := Run(Start(b), es);
      Recoverable(w.bus.file) <= w.accepted - w.acked
  {
    hide Inv, Recoverable, Held, InChans, Run, Valid, AcksWritten;
    StartKeeps(b);
    RunKeeps(Start(b), es);
    RunKeepsDurable(Start(b), es);
    RunRestoresNoMore(Start(b), es);
  }

  lemma {:induction false} RunKeepsDurable(w: World, es: seq<Event>)
    requires WorldInv(w) && w.bus.durable && Valid(w, es)
    ensures Run(w, es).bus.durable
    decreases |es|
  {
    hide Inv, Enabled, Step, Conserved;
    if es != [] {
      StepKeeps(w, es[0]);
      StepFile(w, es[0]);
      RunKeepsDurable(Step(w, es[0]), es[1..]);
    }
  }

  // ---------------------------------------------------------------------------
  // Reopening
  // ---------------------------------------------------------------------------

  /** The reopened bus satisfies the invariant, holds what the file holds, and can be the
      start of a new run. */
  lemma ReopenRestores(maxQueue: int, maxBody: int, f: Snapshot)
    requires SnapOk(f)
    ensures var b := Reopen(maxQueue, maxBody, f);
      Fresh(b) && Held(b) == Recoverable(Some(f)) && b.inflight == f.inflight
  {
    var b := Reopen(maxQueue, maxBody, f);
    BoxesSum(f.boxes);
    assert Held(b) == Recoverable(Some(f));
  }

  lemma {:induction false} BoxesSum(m: map<string, seq<Msg>>)
    ensures Sum(map n | n in m :: Box(m[n], []), BoxMsgs) == Sum(m, QueueMsgs)
    decreases m.Keys
  {
    var s := map n | n in m :: Box(m[n], []);
    if m == map[] {
      assert s == map[];
      SumEmpty(s, BoxMsgs);
      SumEmpty(m, QueueMsgs);
    } else {
      var k :| k in m;
      BoxesSum(m - {k});
      SumRemove(m, QueueMsgs, k);
      SumRemove(s, BoxMsgs, k);
      assert s - {k} == map n | n in (m - {k}) :: Box((m - {k})[n], []);
    }
  }

  /** An exact index is the only one: the index rebuilt from the file is the index the bus
      would have maintained for the same contents. */
  lemma RebuiltIndexIsMaintained(d: map<string, nat>, ms: multiset<Msg>)
    requires Exact(d, Image(KeyOf, ms))
    ensures d == IndexOf(ms)
  {
  }

  // ---------------------------------------------------------------------------
  // Where single operations fall short
  // ---------------------------------------------------------------------------

  /** On a current file an acknowledgement is durable if and only if its write succeeds; one
      whose write fails is undone by a crash, and the message comes back. */
  lemma AckDurableIff(b: Bus, id: string, disk: bool)
    requires Inv(b) && b.durable && FileCurrent(b) && id in b.inflight
    ensures var o := Ack(b, id, disk);
      && (FileCurrent(o.bus) <==> disk)
      && (!disk ==> o.result == Err(DiskError)
                    && Recoverable(o.bus.file) == Held(o.bus) + multiset{b.inflight[id].msg})
  {
    DropLeaseKeeps(b, id);
    AckKeeps(b, id, disk);
    hide Inv, Held;
    var m, r := b.inflight[id].msg, Ack(b, id, disk).bus;
    assert Held(r)[m] + 1 == (Held(r) + multiset{m})[m];
  }

  /** On a current file a requeue leaves nothing that a crash loses if and only if its write
      succeeds or a waiter takes the message. */
  lemma RequeueDurableIff(b: Bus, m: Msg, disk: bool)
    requires Inv(b) && b.durable && FileCurrent(b)
    ensures var o := Requeue(b, m, disk);
      Held(o.bus) <= Recoverable(o.bus.file) <==> disk || !Returns(b, m)
  {
    if m.name != "" && !b.closed {
      var n, b1 := m.name, EnsureBox(b, m.name);
      EnsureBoxKeeps(b, n);
      DeliverKeeps(b, m);
      PersistKeeps(Deliver(b, m), disk);
      if BoxOf(b, n).waiters != [] {
        HandOverKeeps(b1, n, m);
      } else {
        PushFrontKeeps(b1, n, m);
        assert (Held(b) + multiset{m})[m] == Held(b)[m] + 1;
      }
    }
  }

  /** On a current file a cancellation leaves nothing that a crash loses if and only if its
      write succeeds or no message had arrived. */
  lemma CancelDurableIff(b: Bus, c: nat, disk: bool)
    requires Inv(b) && b.durable && FileCurrent(b) && c in b.chans
    ensures var r := CancelWaiter(b, b.chans[c].name, c, disk);
      Held(r) <= Recoverable(r.file) <==> disk || b.chans[c].buf.None?
  {
    hide Inv, Held, InChans;
    var n := b.chans[c].name;
    ChanNamed(b, c);
    UnparkKeeps(b, c);
    var b1 := Unpark(b, n, c);
    if b.chans[c].buf.Some? {
      var m := b.chans[c].buf.value;
      PushFrontKeeps(b1, n, m);
      PersistKeeps(PushFront(b1, n, m), disk);
      assert (Held(b) + multiset{m})[m] == Held(b)[m] + 1;
    }
  }

  /** What a bus holds when it is closed are its leases. */
  lemma ClosedHolds(b: Bus)
    requires Inv(b) && !b.closed
    ensures var c := Close(b); Inv(c) && Held(c) == Leased(b) && c.file == b.file && c.durable == b.durable
  {
    CloseKeeps(b);
    var c := Close(b);
    SnapshotExact(c);
    assert SnapshotOf(c).boxes == map[];
    SumEmpty(SnapshotOf(c).boxes, QueueMsgs);
  }

  /** Acknowledging after Close rewrites the file without the queues, which Close emptied: the
      rest of what was held survives if and only if nothing was queued when the bus was
      closed, or the write fails. */
  lemma AckAfterCloseDurableIff(b: Bus, id: string, disk: bool)
    requires Inv(b) && !b.closed && b.durable && FileCurrent(b) && id in b.inflight
    ensures var r := Ack(Close(b), id, disk).bus; var m := b.inflight[id].msg;
      && (Held(b) - multiset{m} <= Recoverable(r.file) <==> Queued(b) == multiset{} || !disk)
      && (disk ==> Recoverable(r.file) + multiset{m} == Leased(b))
  {
    ClosedHolds(b);
    var c, m := Close(b), b.inflight[id].msg;
    DropLeaseKeeps(c, id);
    PersistKeeps(DropLease(c, id), disk);
    hide Inv, Close, Queued, Leased, DropLease;
    var kept := Held(DropLease(c, id));
    Survives(Queued(b), kept);
    assert Held(b) - multiset{m} == Queued(b) + kept;
  }

  /** So does a taker that cancels after Close and finds a message: it saves the leases and
      that message, and nothing else that was queued. */
  lemma CancelAfterCloseDurableIff(b: Bus, c: nat, disk: bool)
    requires Inv(b) && !b.closed && b.durable && FileCurrent(b) && c in b.chans
    ensures var r := CancelWaiter(Close(b), b.chans[c].name, c, disk); var buf := b.chans[c].buf;
      Held(b) <= Recoverable(r.file) <==> !disk || buf.None? || Queued(b) <= multiset{buf.value}
  {
    ClosedHolds(b);
    var cl, n, buf := Close(b), b.chans[c].name, b.chans[c].buf;
    assert c in cl.chans && cl.chans[c].name == n && cl.chans[c].buf == buf;
    ChanNamed(cl, c);
    UnparkKeeps(cl, c);
    hide Inv, Close, Held, InChans;
    var b1 := Unpark(cl, n, c);
    if buf.Some? {
      PushFrontKeeps(b1, n, buf.value);
      PersistKeeps(PushFront(b1, n, buf.value), disk);
      SurvivesBeside(Queued(b), Leased(b), multiset{buf.value});
      HeldIs(b);
    }
  }

  lemma HeldIs(b: Bus)
    ensures Held(b) == Queued(b) + Leased(b)
  {
  }

  lemma Survives<T>(a: multiset<T>, b: multiset<T>)
    ensures a + b <= b <==> a == multiset{}
  {
    if a != multiset{} {
      var x :| x in a;
      assert (a + b)[x] == a[x] + b[x];
    }
  }

  lemma SurvivesBeside<T>(a: multiset<T>, b: multiset<T>, c: multiset<T>)
    ensures a + b <= b + c <==> a <= c
  {
    if a + b <= b + c {
      forall x: T
        ensures a[x] <= c[x]
      {
        assert (a + b)[x] <= (b + c)[x];
      }
    }
  }
}
