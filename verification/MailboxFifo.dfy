/** First in, first out: the k-th take on a mailbox gets the k-th message it accepted, in every
    run that gives nothing back to that mailbox; leases and other mailboxes are free. */
module MailboxFifo {
  import opened Bags
  import opened MailboxSpec
  import opened MailboxInvariant
  import opened MailboxSteps
  import opened MailboxRuns
  import opened MailboxLeases
  import opened MailboxWaiters

  /** What happened on one mailbox: the messages it held at first and then accepted, its takes,
      and what each was given. A take is known by its channel; one that does not wait has no
      channel and is known by a number below zero. */
  datatype History = History(puts: seq<Msg>, takes: seq<int>, got: map<int, Msg>)

  ghost predicate NoneExpired(b: Bus, n: string, now: int) {
    forall id | id in b.inflight && b.inflight[id].msg.name == n :: !Expired(b, id, now)
  }

  /** The event gives nothing back to mailbox `n`: no cancellation, nack, requeue or expiry of
      its messages; and it does not close the bus. */
  ghost predicate Undisturbed(b: Bus, e: Event, n: string) {
    match e
    case StartTake(_, now, _, _) => NoneExpired(b, n, now)
    case PopNow(_, now, _, _) => NoneExpired(b, n, now)
    case Sweep(now, _, _) => NoneExpired(b, n, now)
    case CancelTake(c, _) => c in b.chans ==> b.chans[c].name != n
    case RequeueMsg(m, _) => m.name != n
    case NackLease(id, _) => id in b.inflight ==> b.inflight[id].msg.name != n
    case CloseBus => false
    case _ => true
  }

  ghost predicate AllUndisturbed(w: World, es: seq<Event>, n: string)
    requires Valid(w, es)
    decreases |es|
  {
    es != [] ==> Undisturbed(w.bus, es[0], n) && AllUndisturbed(Step(w, es[0]), es[1..], n)
  }

  ghost function Record(w: World, h: History, e: Event, n: string): History
    requires Enabled(w, e)
  {
    match e
    case PutMsg(name, m, gen, now, disk) =>
      if name == n && Accepts(w.bus, name, m, gen, now, disk)
      then h.(puts := h.puts + [Stamped(m, name, gen, now)])
      else h
    case StartTake(name, now, order, disk) =>
      var o := TakeChan(w.bus, name, now, order, disk);
      if name == n && o.result.Ok? then h.(takes := h.takes + [o.result.value]) else h
    case ReceiveFrom(c) =>
      if w.bus.chans[c].buf.Some? then h.(got := h.got[c := w.bus.chans[c].buf.value]) else h
    case PopNow(name, now, order, disk) =>
      var o := TryTake(w.bus, name, now, order, disk);
      if name == n && o.result.Ok? then Popped(h, o.result.value) else h
    case _ => h
  }

  ghost function Popped(h: History, m: Msg): History {
    var t := -1 - |h.takes|;
    h.(takes := h.takes + [t], got := h.got[t := m])
  }

  ghost function RecordAll(w: World, h: History, es: seq<Event>, n: string): History
    requires Valid(w, es)
    decreases |es|
  {
    if es == [] then h else RecordAll(Step(w, es[0]), Record(w, h, es[0], n), es[1..], n)
  }

  ghost function Met(h: History): (k: nat)
    ensures k <= |h.puts| && k <= |h.takes| && (k == |h.puts| || k == |h.takes|)
  {
    if |h.puts| < |h.takes| then |h.puts| else |h.takes|
  }

  /** Take k has message k: in its channel, or already received. */
  ghost predicate Paired(b: Bus, h: History, n: string, k: nat)
    requires k < |h.takes| && k < |h.puts|
  {
    var t := h.takes[k];
    if t >= 0 && t in b.chans then b.chans[t] == Chan(n, Some(h.puts[k]), false)
    else t in h.got && h.got[t] == h.puts[k]
  }

  /** Every take has its own number. */
  ghost predicate Numbered(b: Bus, h: History) {
    && NoDup(h.takes)
    && (forall i :: 0 <= i < |h.takes| ==> -|h.takes| <= h.takes[i] < b.next)
    && (forall t | t in h.got :: -|h.takes| <= t < b.next && (t >= 0 ==> t !in b.chans))
  }

  /** Messages and takes meet in order; the surplus of either kind is what is left. */
  ghost predicate Fifo(b: Bus, h: History, n: string) {
    var k := Met(h);
    && BoxOf(b, n).q == h.puts[k..] && BoxOf(b, n).waiters == h.takes[k..]
    && (forall i :: 0 <= i < k ==> Paired(b, h, n, i))
    && Numbered(b, h)
  }

  // ---------------------------------------------------------------------------
  // What happens beside a mailbox
  // ---------------------------------------------------------------------------

  /** The queue, the waiters and the channels of mailbox `n` are as they were. */
  ghost predicate Beside(b: Bus, r: Bus, n: string) {
    && BoxOf(r, n) == BoxOf(b, n) && b.next <= r.next && SameChans(b, r, n)
    && (forall c | c in r.chans && c !in b.chans :: b.next <= c)
  }

  lemma FifoBeside(b: Bus, r: Bus, h: History, n: string)
    requires Fifo(b, h, n) && Beside(b, r, n)
    ensures Fifo(r, h, n)
  {
    forall i | 0 <= i < Met(h)
      ensures Paired(r, h, n, i)
    {
      assert Paired(b, h, n, i);
    }
  }

  lemma {:induction false} NoneForIt(l: map<string, Delivery>, ids: seq<string>, n: string)
    requires forall id | id in ids && id in l :: l[id].msg.name != n
    ensures MsgsFor(l, ids, n) == []
    decreases |ids|
  {
    if ids != [] {
      assert ids[0] in ids;
      NoneForIt(l, ids[1..], n);
    }
  }

  lemma NothingBack(b: Bus, r: Bus, n: string)
    requires TakesBack(b, r, n, [])
    ensures BoxOf(r, n) == BoxOf(b, n) && SameChans(b, r, n)
  {
    ReturnedNone(BoxOf(b, n));
    assert BoxOf(b, n).waiters[..0] == [];
  }

  /** A sweep that finds nothing of mailbox `n` expired passes it by. */
  lemma SweepBeside(b: Bus, now: int, order: seq<string>, n: string)
    requires Inv(b) && IsOrder(order, b.inflight) && NoneExpired(b, n, now)
    ensures var r := RequeueExpired(b, now, order);
      Inv(r) && SameFrame(b, r) && Beside(b, r, n)
  {
    var ids := ExpiredIds(b, now, order);
    assert forall id | id in ids && id in b.inflight :: b.inflight[id].msg.name != n;
    hide Inv, RequeueExpired, TakesBack, SameChans, Held, InChans, IsOrder;
    RequeueExpiredKeeps(b, now, order);
    ExpiryIsRight(b, now, order, n);
    NoneForIt(b.inflight, ids, n);
    NothingBack(b, RequeueExpired(b, now, order), n);
    SweepChans(b, now, order);
  }

  lemma DeliverBeside(b: Bus, m: Msg, n: string)
    requires Inv(b) && m.name != "" && m.name != n
    ensures Beside(b, Deliver(b, m), n)
  {
    hide Inv, SameChans;
    DeliverElsewhere(b, m, n);
    DeliverKeys(b, m);
  }

  lemma NackBeside(b: Bus, id: string, disk: bool, n: string)
    requires Inv(b) && (id in b.inflight ==> b.inflight[id].msg.name != n)
    ensures Beside(b, Nack(b, id, disk).bus, n)
  {
    if id in b.inflight {
      var m := b.inflight[id].msg;
      assert m.name != "";
      hide Inv, Deliver, IndexDel, SnapshotOf;
      DropLeaseKeeps(b, id);
      DeliverBeside(DropLease(b, id), m, n);
    }
  }

  lemma RequeueBeside(b: Bus, m: Msg, disk: bool, n: string)
    requires Inv(b) && m.name != n
    ensures Beside(b, Requeue(b, m, disk).bus, n)
  {
    hide Inv, Deliver, SnapshotOf;
    if m.name != "" { DeliverBeside(b, m, n); }
  }

  lemma CancelBeside(b: Bus, c: nat, disk: bool, n: string)
    requires Inv(b) && c in b.chans && b.chans[c].name != n
    ensures Beside(b, CancelWaiter(b, b.chans[c].name, c, disk), n)
  {
    CancelLeaves(b, c, disk);
    hide Inv, IndexAdd, SnapshotOf, Without;
  }

  lemma SettleBeside(b: Bus, m: Msg, lease: int, id: string, now: int, disk: bool, n: string)
    ensures Beside(b, Hold(b, m, lease, id, now, disk).bus, n) && Beside(b, Ack(b, id, disk).bus, n)
  {
    hide IndexAdd, IndexDel, SnapshotOf;
  }

  lemma ExpireBeside(b: Bus, now: int, order: seq<string>, disk: bool, n: string)
    requires Inv(b) && IsOrder(order, b.inflight) && NoneExpired(b, n, now)
    ensures Beside(b, ExpireLeases(b, now, order, disk), n)
  {
    SweepBeside(b, now, order, n);
    hide Inv, RequeueExpired, AnyExpired, SnapshotOf;
  }

  lemma EnsureBeside(b: Bus, name: string, n: string)
    ensures Beside(b, EnsureBox(b, name), n)
  {
  }

  // ---------------------------------------------------------------------------
  // One event
  // ---------------------------------------------------------------------------

  lemma PutFifo(b: Bus, h: History, n: string, name: string, m: Msg, gen: string, now: int, disk: bool)
    requires Inv(b) && Fifo(b, h, n) && !b.closed
    ensures var acc := name == n && Accepts(b, name, m, gen, now, disk);
      Fifo(Put(b, name, m, gen, now, disk).bus,
           if acc then h.(puts := h.puts + [Stamped(m, name, gen, now)]) else h, n)
  {
    if name != "" && |m.body| <= b.maxBody {
      var msg := Stamped(m, name, gen, now);
      EnsureBoxKeeps(b, name);
      EnsureBeside(b, name, n);
      FifoBeside(b, EnsureBox(b, name), h, n);
      AdmitFifo(EnsureBox(b, name), h, n, msg, disk);
    }
  }

  lemma AdmitFifo(b: Bus, h: History, n: string, m: Msg, disk: bool)
    requires Inv(b) && Fifo(b, h, n) && !b.closed && m.name in b.boxes && m.name != ""
    ensures var o := Admit(b, m, disk);
      Fifo(o.bus, if m.name == n && o.result.Ok? && !Indexed(b, n, m.id) then h.(puts := h.puts + [m]) else h, n)
  {
    var o := Admit(b, m, disk);
    var x := BoxOf(b, m.name);
    if Indexed(b, m.name, m.id) {
    } else if x.waiters != [] {
      HeadWaiter(b, m.name);
      HandOverFifo(b, h, n, m);
    } else if |x.q| < b.maxQueue {
      AppendKeeps(b, m.name, m, disk);
      if o.result.Ok? && m.name == n {
        AppendFifo(b, o.bus, h, n, m);
      } else {
        FifoBeside(b, o.bus, h, n);
      }
    }
  }

  lemma HandOverFifo(b: Bus, h: History, n: string, m: Msg)
    requires Inv(b) && Fifo(b, h, n) && BoxOf(b, m.name).waiters != []
    ensures Fifo(HandOver(b, m.name, m), if m.name == n then h.(puts := h.puts + [m]) else h, n)
  {
    hide Inv;
    HeadWaiter(b, m.name);
    var r := HandOver(b, m.name, m);
    var w := BoxOf(b, m.name).waiters[0];
    var k := Met(h);
    if m.name == n {
      var h' := h.(puts := h.puts + [m]);
      assert w == h.takes[k] && k == |h.puts|;
      assert h'.puts[k + 1..] == [] && h'.takes[k + 1..] == h.takes[k..][1..];
      forall i | 0 <= i <= k
        ensures Paired(r, h', n, i)
      {
        if i < k { assert Paired(b, h, n, i) && h.takes[i] != h.takes[k]; }
      }
    } else {
      FifoBeside(b, r, h, n);
    }
  }

  lemma AppendFifo(b: Bus, r: Bus, h: History, n: string, m: Msg)
    requires Fifo(b, h, n) && BoxOf(b, n).waiters == []
    requires BoxOf(r, n) == Box(BoxOf(b, n).q + [m], []) && r.chans == b.chans && r.next == b.next
    ensures Fifo(r, h.(puts := h.puts + [m]), n)
  {
    var k := Met(h);
    var h' := h.(puts := h.puts + [m]);
    assert h.takes[k..] == [] && k == |h.takes|;
    assert h'.puts[k..] == h.puts[k..] + [m];
    forall i | 0 <= i < k
      ensures Paired(r, h', n, i)
    {
      assert Paired(b, h, n, i);
    }
  }

  lemma TakeFifo(b: Bus, h: History, n: string, name: string, now: int, order: seq<string>, disk: bool)
    requires Inv(b) && Fifo(b, h, n) && !b.closed && IsOrder(order, b.inflight) && NoneExpired(b, n, now)
    ensures var o := TakeChan(b, name, now, order, disk);
      Fifo(o.bus, if name == n && o.result.Ok? then h.(takes := h.takes + [o.result.value]) else h, n)
  {
    if name != "" {
      SweepBeside(b, now, order, n);
      hide Inv, RequeueExpired, TakeHead, Fifo, Moves, FileKeepsUp;
      var b0 := RequeueExpired(b, now, order);
      FifoBeside(b, b0, h, n);
      var b1 := EnsureBox(b0, name);
      EnsureBoxKeeps(b0, name);
      EnsureBeside(b0, name, n);
      FifoBeside(b0, b1, h, n);
      var o := TakeChan(b, name, now, order, disk);
      if BoxOf(b1, name).q != [] {
        TakeHeadKeeps(b1, name, disk);
        ServeFifo(b1, o.bus, h, n, name, disk);
      } else {
        ParkFifo(b1, h, n, name);
      }
    }
  }

  lemma PopFifo(b: Bus, h: History, n: string, name: string, now: int, order: seq<string>, disk: bool)
    requires Inv(b) && Fifo(b, h, n) && !b.closed && IsOrder(order, b.inflight) && NoneExpired(b, n, now)
    ensures var o := TryTake(b, name, now, order, disk);
      Fifo(o.bus, if name == n && o.result.Ok? then Popped(h, o.result.value) else h, n)
  {
    hide Inv, RequeueExpired, TakeHead, Fifo, NoneExpired, Beside, Popped;
    if name != "" {
      SweepBeside(b, now, order, n);
      var b1 := RequeueExpired(b, now, order);
      FifoBeside(b, b1, h, n);
      if BoxOf(b1, name).q != [] { PopHeadFifo(b1, h, n, name, disk); }
    }
  }

  lemma PopHeadFifo(b: Bus, h: History, n: string, name: string, disk: bool)
    requires Inv(b) && Fifo(b, h, n) && BoxOf(b, name).q != [] && !b.closed
    ensures var t := TakeHead(b, name, disk);
      Fifo(t.bus, if name == n && t.result.Ok? then Popped(h, t.result.value) else h, n)
  {
    TakeHeadKeeps(b, name, disk);
    HeadBoxes(b, name, disk);
    hide Inv, TakeHead, Fifo, Moves, FileKeepsUp, Held, InChans, Popped;
    var t := TakeHead(b, name, disk);
    if name != n || t.result.Err? { FifoBeside(b, t.bus, h, n); } else { PopHereFifo(b, t.bus, h, n); }
  }

  lemma PopHereFifo(b: Bus, r: Bus, h: History, n: string)
    requires Fifo(b, h, n) && BoxOf(b, n).q != []
    requires BoxOf(r, n) == Box(BoxOf(b, n).q[1..], BoxOf(b, n).waiters) && r.chans == b.chans && r.next == b.next
    ensures Fifo(r, Popped(h, BoxOf(b, n).q[0]), n)
  {
    var k := Met(h);
    var h' := Popped(h, BoxOf(b, n).q[0]);
    assert k == |h.takes| && h.puts[k..][0] == h.puts[k];
    assert h.puts[k..][1..] == h.puts[k + 1..] && h'.takes[k + 1..] == [];
    NoDupSnoc(h.takes, h'.takes[k]);
    forall i | 0 <= i <= k
      ensures Paired(r, h', n, i)
    {
      if i < k { assert Paired(b, h, n, i); }
    }
  }

  lemma ServeFifo(b: Bus, r: Bus, h: History, n: string, name: string, disk: bool)
    requires Inv(b) && Fifo(b, h, n) && BoxOf(b, name).q != [] && !b.closed
    requires var t := TakeHead(b, name, disk);
      r == if t.result.Ok? then Serve(t.bus, name, BoxOf(b, name).q[0]) else t.bus
    ensures Fifo(r, if name == n && TakeHead(b, name, disk).result.Ok? then h.(takes := h.takes + [b.next]) else h, n)
  {
    TakeHeadKeeps(b, name, disk);
    HeadBoxes(b, name, disk);
    hide Inv, TakeHead, Fifo, Moves, FileKeepsUp, Held, InChans;
    var t := TakeHead(b, name, disk);
    if name != n || t.result.Err? {
      if t.result.Ok? { NextUnused(b); }
      FifoBeside(b, r, h, n);
    } else {
      ServeHereFifo(b, r, h, n);
    }
  }

  /** A pop that is written leaves the rest of its queue; one that is not leaves everything. */
  lemma HeadBoxes(b: Bus, n: string, disk: bool)
    requires BoxOf(b, n).q != []
    ensures var t := TakeHead(b, n, disk);
      t.result.Ok? ==> t.bus.boxes == b.boxes[n := Box(BoxOf(b, n).q[1..], BoxOf(b, n).waiters)]
  {
    hide IndexAdd, IndexDel, SnapshotOf;
  }

  /** A new take on a new channel, parked or served. */
  lemma TakeNumbered(b: Bus, r: Bus, h: History, c: Chan)
    requires Numbered(b, h) && r.chans == b.chans[b.next := c] && r.next == b.next + 1
    ensures Numbered(r, h.(takes := h.takes + [b.next]))
  {
    NoDupSnoc(h.takes, b.next);
  }

  lemma ServeHereFifo(b: Bus, r: Bus, h: History, n: string)
    requires Fifo(b, h, n) && BoxOf(b, n).q != []
    requires BoxOf(r, n) == Box(BoxOf(b, n).q[1..], BoxOf(b, n).waiters)
    requires r.chans == b.chans[b.next := Chan(n, Some(BoxOf(b, n).q[0]), false)] && r.next == b.next + 1
    ensures Fifo(r, h.(takes := h.takes + [b.next]), n)
  {
    var k := Met(h);
    var h' := h.(takes := h.takes + [b.next]);
    assert k == |h.takes| && h.puts[k..][0] == h.puts[k];
    assert h.puts[k..][1..] == h.puts[k + 1..] && h'.takes[k + 1..] == [];
    TakeNumbered(b, r, h, Chan(n, Some(BoxOf(b, n).q[0]), false));
    assert forall i :: 0 <= i < k ==> h.takes[i] < b.next;
    hide Numbered;
    forall i | 0 <= i <= k
      ensures Paired(r, h', n, i)
    {
      if i < k { assert Paired(b, h, n, i); }
    }
  }

  lemma ParkFifo(b: Bus, h: History, n: string, name: string)
    requires Inv(b) && Fifo(b, h, n) && BoxOf(b, name).q == []
    ensures Fifo(Park(b, name), if name == n then h.(takes := h.takes + [b.next]) else h, n)
  {
    NextUnused(b);
    hide Inv, Fifo, Beside;
    if name != n {
      ParkBeside(b, name, n);
      FifoBeside(b, Park(b, name), h, n);
    } else {
      ParkHereFifo(b, Park(b, n), h, n);
    }
  }

  lemma ParkBeside(b: Bus, name: string, n: string)
    requires b.next !in b.chans && name != n
    ensures Beside(b, Park(b, name), n)
  {
  }

  lemma ParkHereFifo(b: Bus, r: Bus, h: History, n: string)
    requires Fifo(b, h, n) && BoxOf(b, n).q == []
    requires BoxOf(r, n) == Box([], BoxOf(b, n).waiters + [b.next])
    requires r.chans == b.chans[b.next := Chan(n, None, true)] && r.next == b.next + 1
    ensures Fifo(r, h.(takes := h.takes + [b.next]), n)
  {
    var k := Met(h);
    var h' := h.(takes := h.takes + [b.next]);
    assert h.puts[k..] == [] && k == |h.puts| && Met(h') == k;
    assert h'.takes[k..] == h.takes[k..] + [b.next];
    TakeNumbered(b, r, h, Chan(n, None, true));
    assert forall i :: 0 <= i < k ==> h.takes[i] < b.next;
    hide Numbered;
    forall i | 0 <= i < k
      ensures Paired(r, h', n, i)
    {
      assert Paired(b, h, n, i);
    }
  }

  lemma ReceiveFifo(b: Bus, h: History, n: string, c: nat)
    requires Inv(b) && Fifo(b, h, n) && c in b.chans && !b.chans[c].open
    ensures Fifo(Receive(b, c).bus,
                 if b.chans[c].buf.Some? then h.(got := h.got[c := b.chans[c].buf.value]) else h, n)
  {
    assert c < b.next;
    hide Inv;
    var r := Receive(b, c).bus;
    var h' := if b.chans[c].buf.Some? then h.(got := h.got[c := b.chans[c].buf.value]) else h;
    forall i | 0 <= i < Met(h)
      ensures Paired(r, h', n, i)
    {
      assert Paired(b, h, n, i);
    }
  }

  lemma FifoStep(w: World, h: History, e: Event, n: string)
    requires Inv(w.bus) && Enabled(w, e) && Undisturbed(w.bus, e, n) && !w.bus.closed && Fifo(w.bus, h, n)
    ensures Fifo(Step(w, e).bus, Record(w, h, e, n), n)
  {
    hide Inv, Put, Accepts, TakeChan, TryTake, CancelWaiter, Hold, Requeue, Ack, Nack, ExpireLeases, Fifo, Beside, NoneExpired, Popped;
    var b := w.bus;
    if e.PutMsg? {
      PutFifo(b, h, n, e.name, e.msg, e.gen, e.now, e.disk);
    } else if e.StartTake? {
      TakeFifo(b, h, n, e.name, e.now, e.order, e.disk);
    } else if e.ReceiveFrom? {
      ReceiveFifo(b, h, n, e.chan);
    } else if e.PopNow? {
      PopFifo(b, h, n, e.name, e.now, e.order, e.disk);
    } else {
      OtherBeside(w, e, n);
      FifoBeside(b, Step(w, e).bus, h, n);
    }
  }

  lemma OtherBeside(w: World, e: Event, n: string)
    requires Inv(w.bus) && Enabled(w, e) && Undisturbed(w.bus, e, n)
    requires !e.PutMsg? && !e.StartTake? && !e.ReceiveFrom? && !e.PopNow?
    ensures Beside(w.bus, Step(w, e).bus, n)
  {
    hide Inv, CancelWaiter, Hold, Requeue, Ack, Nack, ExpireLeases, Beside, NoneExpired;
    match e
    case CancelTake(c, disk) => CancelBeside(w.bus, c, disk, n);
    case HoldMsg(m, lease, id, now, disk) => SettleBeside(w.bus, m, lease, id, now, disk, n);
    case RequeueMsg(m, disk) => RequeueBeside(w.bus, m, disk, n);
    case AckLease(id, disk) => SettleBeside(w.bus, Msg("", "", "", [], 0), 0, id, 0, disk, n);
    case NackLease(id, disk) => NackBeside(w.bus, id, disk, n);
    case Sweep(now, order, disk) => ExpireBeside(w.bus, now, order, disk, n);
    case _ =>
  }

  /** Only Close closes the bus. */
  lemma StaysOpen(w: World, e: Event)
    requires WorldInv(w) && Enabled(w, e) && !e.CloseBus?
    ensures Step(w, e).bus.closed == w.bus.closed
  {
    hide Inv, Moves, FileKeepsUp, FileCurrent, Held, InChans, Put, Accepts, TakeChan, CancelWaiter, TryTake, Hold, Requeue, Returns;
    hide Ack, Nack, ExpireLeases;
    var b := w.bus;
    match e
    case PutMsg(name, m, gen, now, disk) => PutKeeps(b, name, m, gen, now, disk);
    case StartTake(name, now, order, disk) => TakeChanKeeps(b, name, now, order, disk);
    case ReceiveFrom(c) => ReceiveKeeps(b, c);
    case CancelTake(c, disk) => CancelWaiterKeeps(b, c, disk);
    case PopNow(name, now, order, disk) => TryTakeKeeps(b, name, now, order, disk);
    case HoldMsg(m, lease, id, now, disk) => HoldKeeps(b, m, lease, id, now, disk);
    case RequeueMsg(m, disk) => RequeueKeeps(b, m, disk);
    case AckLease(id, disk) => AckKeeps(b, id, disk);
    case NackLease(id, disk) => NackKeeps(b, id, disk);
    case Sweep(now, order, disk) => ExpireLeasesKeeps(b, now, order, disk);
  }

  lemma {:induction false} FifoRun(w: World, h: History, es: seq<Event>, n: string)
    requires WorldInv(w) && Valid(w, es) && !w.bus.closed && Fifo(w.bus, h, n) && AllUndisturbed(w, es, n)
    ensures Fifo(Run(w, es).bus, RecordAll(w, h, es, n), n)
    decreases |es|
  {
    hide Inv, Conserved, Enabled, Step, Record, Fifo;
    if es != [] {
      FifoStep(w, h, es[0], n);
      StepKeeps(w, es[0]);
      StaysOpen(w, es[0]);
      FifoRun(Step(w, es[0]), Record(w, h, es[0], n), es[1..], n);
    }
  }

  /** In every run from a new or reopened bus in which nothing is given back to mailbox `n`: with P
      messages, those it held at first and those it accepted, and T takes, the queue is the
      messages from T on and the waiters are the takes from P on (so one of the two is empty);
      a taker that has its message got the message of its own number. */
  lemma FifoRendezvous(b: Bus, es: seq<Event>, n: string)
    requires Fresh(b) && Valid(Start(b), es) && AllUndisturbed(Start(b), es, n)
    ensures var r := Run(Start(b), es).bus;
            var h := RecordAll(Start(b), History(BoxOf(b, n).q, [], map[]), es, n);
      && BoxOf(r, n).q == (if |h.takes| <= |h.puts| then h.puts[|h.takes|..] else [])
      && BoxOf(r, n).waiters == (if |h.puts| <= |h.takes| then h.takes[|h.puts|..] else [])
      && (forall k :: 0 <= k < |h.takes| && h.takes[k] in h.got ==> k < |h.puts| && h.got[h.takes[k]] == h.puts[k])
      && (forall k :: 0 <= k < |h.takes| && k < |h.puts| ==> Paired(r, h, n, k))
  {
    hide Run, RecordAll, Valid, AllUndisturbed, Fresh, Inv, Conserved, Fifo, Paired;
    var h0 := History(BoxOf(b, n).q, [], map[]);
    StartsFifo(b, n);
    StartKeeps(b);
    FifoRun(Start(b), h0, es, n);
    RunKeeps(Start(b), es);
    FifoSpelledOut(Run(Start(b), es).bus, RecordAll(Start(b), h0, es, n), n);
  }

  lemma StartsFifo(b: Bus, n: string)
    requires Fresh(b)
    ensures Fifo(b, History(BoxOf(b, n).q, [], map[]), n) && !b.closed
  {
    hide Inv;
    if BoxOf(b, n).waiters != [] { HeadWaiter(b, n); }
  }

  lemma FifoSpelledOut(r: Bus, h: History, n: string)
    requires Inv(r) && Fifo(r, h, n)
    ensures BoxOf(r, n).q == if |h.takes| <= |h.puts| then h.puts[|h.takes|..] else []
    ensures BoxOf(r, n).waiters == if |h.puts| <= |h.takes| then h.takes[|h.puts|..] else []
    ensures forall k :: 0 <= k < |h.takes| && h.takes[k] in h.got ==> k < |h.puts| && h.got[h.takes[k]] == h.puts[k]
    ensures forall k :: 0 <= k < |h.takes| && k < |h.puts| ==> Paired(r, h, n, k)
  {
    BoxWaiters(r, n);
    hide Inv;
    forall k | Met(h) <= k < |h.takes|
      ensures h.takes[k] in r.chans
    {
      assert h.takes[k] == BoxOf(r, n).waiters[k - Met(h)];
    }
    forall k | 0 <= k < Met(h)
      ensures h.takes[k] in h.got ==> h.got[h.takes[k]] == h.puts[k]
    {
      assert Paired(r, h, n, k);
    }
  }
}
