/** What each operation of the bus keeps: the invariant, the messages it moves in and out
    of the bus, and how far the state file may lag behind. */
module MailboxSteps {
  import opened Bags
  import opened MailboxSpec
  import opened MailboxInvariant

  /** Everything the bus answers for: queued, leased, or in a channel. */
  ghost function Live(b: Bus): multiset<Msg> { Held(b) + InChans(b) }

  /** From `b` to `r` the bus gains `ins` and loses `outs`. */
  ghost predicate Moves(b: Bus, r: Bus, ins: multiset<Msg>, outs: multiset<Msg>) {
    Live(r) + outs == Live(b) + ins
  }

  /** The file now holds what the bus holds, or it is as before and the bus holds no more. */
  ghost predicate FileKeepsUp(b: Bus, r: Bus) {
    r.durable ==> FileCurrent(r) || (r.file == b.file && Held(r) <= Held(b))
  }

  ghost predicate FileCurrent(b: Bus) { Recoverable(b.file) == Held(b) }

  ghost function One(take: bool, m: Msg): multiset<Msg> { if take then multiset{m} else multiset{} }

  ghost predicate SameConfig(b: Bus, r: Bus) {
    r.maxQueue == b.maxQueue && r.maxBody == b.maxBody && r.durable == b.durable && r.closed == b.closed
  }

  lemma PutKeeps(b: Bus, name: string, m: Msg, gen: string, now: int, disk: bool)
    requires Inv(b)
    ensures var r := Put(b, name, m, gen, now, disk).bus;
      && Inv(r) && SameConfig(b, r) && FileKeepsUp(b, r)
      && Moves(b, r, One(Accepts(b, name, m, gen, now, disk), Stamped(m, name, gen, now)), multiset{})
      && r.inflight == b.inflight
  {
    hide Inv, Admit;
    if name != "" && |m.body| <= b.maxBody && !b.closed {
      EnsureBoxKeeps(b, name);
      AdmitKeeps(EnsureBox(b, name), Stamped(m, name, gen, now), disk);
    }
  }

  lemma AdmitKeeps(b: Bus, m: Msg, disk: bool)
    requires Inv(b) && !b.closed && m.name != "" && m.name in b.boxes
    ensures var o := Admit(b, m, disk);
      && Inv(o.bus) && SameConfig(b, o.bus) && FileKeepsUp(b, o.bus)
      && Moves(b, o.bus, One(o.result.Ok? && !Indexed(b, m.name, m.id), m), multiset{})
      && o.bus.inflight == b.inflight
  {
    hide Inv, Append;
    if Indexed(b, m.name, m.id) {
    } else if BoxOf(b, m.name).waiters != [] {
      HandOverKeeps(b, m.name, m);
    } else if |BoxOf(b, m.name).q| < b.maxQueue {
      AppendKeeps(b, m.name, m, disk);
    }
  }

  /** A failed snapshot leaves the bus exactly as it was. */
  lemma AppendKeeps(b: Bus, n: string, m: Msg, disk: bool)
    requires Inv(b) && n in b.boxes && n != "" && m.name == n && !b.closed
    ensures var o := Append(b, n, m, disk);
      && Inv(o.bus) && SameConfig(b, o.bus) && FileKeepsUp(b, o.bus)
      && Moves(b, o.bus, One(o.result.Ok?, m), multiset{})
      && o.bus.inflight == b.inflight
      && (o.result.Err? ==> o.bus == b)
  {
    hide Inv;
    PushBackKeeps(b, n, m);
    PersistKeeps(PushBack(b, n, m), disk);
    if !PersistOk(PushBack(b, n, m), disk) { PopBackUndoes(b, n, m); }
  }

  /** A failed snapshot leaves the bus exactly as it was. */
  lemma TakeHeadKeeps(b: Bus, n: string, disk: bool)
    requires Inv(b) && BoxOf(b, n).q != [] && !b.closed
    ensures var o := TakeHead(b, n, disk); var m := BoxOf(b, n).q[0];
      && Inv(o.bus) && SameConfig(b, o.bus) && FileKeepsUp(b, o.bus)
      && m.name == n && n in o.bus.boxes && o.bus.chans == b.chans && o.bus.next == b.next
      && Moves(b, o.bus, multiset{}, One(o.result.Ok?, m))
      && o.bus.inflight == b.inflight
      && (o.result.Ok? ==> o.result.value == m)
      && (o.result.Err? ==> o.bus == b)
  {
    hide Inv;
    PopFrontKeeps(b, n);
    PersistKeeps(PopFront(b, n), disk);
    if !PersistOk(PopFront(b, n), disk) { PushFrontUndoes(b, n); }
  }

  /** Taking the last message off again undoes the push, index included. */
  lemma PopBackUndoes(b: Bus, n: string, m: Msg)
    requires Inv(b) && n in b.boxes && !b.closed
    ensures PopBack(PushBack(b, n, m), n, m) == b
  {
    var x := b.boxes[n];
    assert (x.q + [m])[..|x.q|] == x.q;
    IndexAddDel(b, m);
    var r := PopBack(PushBack(b, n, m), n, m);
    assert r.boxes == b.boxes;
  }

  lemma IndexAddDel(b: Bus, m: Msg)
    requires Exact(b.dedup, Image(KeyOf, Held(b)))
    ensures IndexDel(IndexAdd(b.dedup, m), m) == b.dedup
  {
    var k := DedupKey(m.name, m.id);
    assert k in b.dedup ==> b.dedup[k] > 0;
  }

  lemma IndexDelAdd(b: Bus, m: Msg)
    requires m in Held(b) && Exact(b.dedup, Image(KeyOf, Held(b)))
    ensures IndexAdd(IndexDel(b.dedup, m), m) == b.dedup
  {
    ImageRemove(KeyOf, Held(b), m);
    var k := DedupKey(m.name, m.id);
    assert Indexable(m) ==> k in b.dedup && b.dedup[k] > 0;
  }

  /** Putting a popped message back at the front undoes the pop, index included. */
  lemma PushFrontUndoes(b: Bus, n: string)
    requires Inv(b) && BoxOf(b, n).q != [] && !b.closed
    ensures PushFront(PopFront(b, n), n, BoxOf(b, n).q[0]) == b
  {
    var x := b.boxes[n];
    var m := x.q[0];
    PopFrontKeeps(b, n);
    IndexDelAdd(b, m);
    assert [m] + x.q[1..] == x.q;
    var r := PushFront(PopFront(b, n), n, m);
    assert r.boxes == b.boxes;
  }

  lemma DropLeaseUndoes(b: Bus, d: Delivery)
    requires Inv(b) && d.id !in b.inflight && !b.closed
    ensures DropLease(AddLease(b, d), d.id) == b
  {
    IndexAddDel(b, d.msg);
    var r := DropLease(AddLease(b, d), d.id);
    assert r.inflight == b.inflight;
  }

  /** A reservation whose lease cannot be written puts the message back where it was if and
      only if nobody waits for it; a waiter gets it otherwise. */
  lemma RefusedReserveUndoes(b: Bus, n: string, lease: int, id: string, now: int, disk: bool)
    requires Inv(b) && !b.closed && b.durable && BoxOf(b, n).q != [] && id !in b.inflight
    ensures var taken := TakeHead(b, n, true); var h := Hold(taken.bus, taken.result.value, lease, id, now, false);
      && taken.result == Ok(BoxOf(b, n).q[0]) && h.result == Err(DiskError)
      && var r := Requeue(h.bus, taken.result.value, disk).bus;
      (r.boxes == b.boxes && r.dedup == b.dedup && r.inflight == b.inflight <==> BoxOf(b, n).waiters == [])
  {
    var m, taken := BoxOf(b, n).q[0], TakeHead(b, n, true).bus;
    assert n != "" && n in b.boxes && m.name == n;
    TakeHeadKeeps(b, n, true);
    DropLeaseUndoes(taken, NewDelivery(m, lease, id, now));
    PushFrontUndoes(b, n);
    hide Inv, IndexAdd, IndexDel, SnapshotOf, Moves, FileKeepsUp;
    var h := Hold(taken, m, lease, id, now, false).bus;
    assert h == taken;
    var r := Deliver(h, m);
    if BoxOf(b, n).waiters == [] {
      assert r == PushFront(PopFront(b, n), n, m).(file := taken.file);
    } else {
      assert BoxOf(r, n).q == BoxOf(b, n).q[1..];
      assert |BoxOf(r, n).q| != |BoxOf(b, n).q|;
    }
  }

  lemma TakeChanKeeps(b: Bus, name: string, now: int, order: seq<string>, disk: bool)
    requires Inv(b)
    ensures var o := TakeChan(b, name, now, order, disk);
      && Inv(o.bus) && SameConfig(b, o.bus) && FileKeepsUp(b, o.bus)
      && Moves(b, o.bus, multiset{}, multiset{})
      && o.bus.inflight.Keys <= b.inflight.Keys
  {
    hide Inv, RequeueExpired, TakeHead;
    if name != "" && !b.closed {
      RequeueExpiredKeeps(b, now, order);
      EnsureBoxKeeps(RequeueExpired(b, now, order), name);
      var b1 := EnsureBox(RequeueExpired(b, now, order), name);
      if BoxOf(b1, name).q != [] {
        TakeHeadKeeps(b1, name, disk);
        var o := TakeHead(b1, name, disk);
        if o.result.Ok? { ServeKeeps(o.bus, name, o.result.value); }
      } else {
        ParkKeeps(b1, name);
      }
    }
  }

  lemma ReceiveKeeps(b: Bus, c: nat)
    requires Inv(b) && c in b.chans && !b.chans[c].open
    ensures var o := Receive(b, c);
      && Inv(o.bus) && SameConfig(b, o.bus) && FileKeepsUp(b, o.bus)
      && Held(o.bus) == Held(b) && InChans(b) == InChans(o.bus) + ChanMsgs(b.chans[c])
      && Moves(b, o.bus, multiset{}, ChanMsgs(b.chans[c]))
      && o.bus.inflight == b.inflight
  {
    SumRemove(b.chans, ChanMsgs, c);
    assert Held(Receive(b, c).bus) == Held(b);
  }

  /** A channel belongs to a mailbox that is there, and carries only its messages. */
  lemma ChanNamed(b: Bus, c: nat)
    requires Inv(b) && c in b.chans
    ensures var n := b.chans[c].name; n != "" && n in b.boxes && (b.chans[c].buf.Some? ==> b.chans[c].buf.value.name == n)
  {
    assert ChansOk(b) && BoxesOk(b);
  }

  lemma CancelWaiterKeeps(b: Bus, c: nat, disk: bool)
    requires Inv(b) && c in b.chans
    ensures var r := CancelWaiter(b, b.chans[c].name, c, disk);
      && Inv(r) && SameConfig(b, r) && Moves(b, r, multiset{}, multiset{})
      && (disk || b.chans[c].buf.None? ==> FileKeepsUp(b, r))
      && r.inflight == b.inflight && (r.file == b.file || FileCurrent(r))
  {
    hide Inv, Held;
    var n := b.chans[c].name;
    ChanNamed(b, c);
    UnparkKeeps(b, c);
    var b1 := Unpark(b, n, c);
    if b.chans[c].buf.Some? {
      PushFrontKeeps(b1, n, b.chans[c].buf.value);
      PersistKeeps(PushFront(b1, n, b.chans[c].buf.value), disk);
    }
  }

  lemma TryTakeKeeps(b: Bus, name: string, now: int, order: seq<string>, disk: bool)
    requires Inv(b)
    ensures var o := TryTake(b, name, now, order, disk);
      && Inv(o.bus) && SameConfig(b, o.bus) && FileKeepsUp(b, o.bus)
      && Moves(b, o.bus, multiset{}, if o.result.Ok? then multiset{o.result.value} else multiset{})
      && o.bus.inflight.Keys <= b.inflight.Keys
  {
    hide Inv, RequeueExpired, TakeHead;
    if name != "" && !b.closed {
      RequeueExpiredKeeps(b, now, order);
      var b1 := RequeueExpired(b, now, order);
      if BoxOf(b1, name).q != [] { TakeHeadKeeps(b1, name, disk); }
    }
  }

  lemma HoldKeeps(b: Bus, m: Msg, lease: int, id: string, now: int, disk: bool)
    requires Inv(b) && id !in b.inflight
    ensures var o := Hold(b, m, lease, id, now, disk);
      && Inv(o.bus) && SameConfig(b, o.bus) && FileKeepsUp(b, o.bus)
      && Moves(b, o.bus, One(o.result.Ok?, m), multiset{})
      && o.bus.inflight.Keys <= b.inflight.Keys + {id}
  {
    hide Inv;
    if m.name != "" && !b.closed {
      var d := NewDelivery(m, lease, id, now);
      AddLeaseKeeps(b, d);
      PersistKeeps(AddLease(b, d), disk);
      if !PersistOk(AddLease(b, d), disk) { DropLeaseUndoes(b, d); }
    }
  }

  lemma AckKeeps(b: Bus, id: string, disk: bool)
    requires Inv(b)
    ensures var r := Ack(b, id, disk).bus;
      && Inv(r) && SameConfig(b, r) && FileKeepsUp(b, r) && (r.file == b.file || FileCurrent(r))
      && (disk && b.durable && id in b.inflight ==> FileCurrent(r))
      && Moves(b, r, multiset{}, if id in b.inflight then multiset{b.inflight[id].msg} else multiset{})
      && r.inflight == b.inflight - {id}
  {
    hide Inv;
    if id in b.inflight {
      DropLeaseKeeps(b, id);
      PersistKeeps(DropLease(b, id), disk);
    } else {
      assert b.inflight == b.inflight - {id};
    }
  }

  lemma NackKeeps(b: Bus, id: string, disk: bool)
    requires Inv(b)
    ensures var r := Nack(b, id, disk).bus;
      && Inv(r) && SameConfig(b, r) && FileKeepsUp(b, r)
      && Moves(b, r, multiset{}, multiset{})
      && r.inflight == b.inflight - {id}
  {
    hide Inv, Release;
    if id in b.inflight {
      ReleaseKeeps(b, id);
      PersistKeeps(Release(b, id), disk);
    } else {
      assert b.inflight == b.inflight - {id};
    }
  }

  lemma RequeueKeeps(b: Bus, m: Msg, disk: bool)
    requires Inv(b)
    ensures var r := Requeue(b, m, disk).bus;
      && Inv(r) && SameConfig(b, r) && (r.file == b.file || FileCurrent(r))
      && (disk || !Returns(b, m) ==> FileKeepsUp(b, r))
      && Moves(b, r, One(m.name != "" && !b.closed, m), multiset{})
      && r.inflight == b.inflight
  {
    hide Inv, Deliver;
    if m.name != "" && !b.closed {
      DeliverKeeps(b, m);
      PersistKeeps(Deliver(b, m), disk);
      if !Returns(b, m) { PassedOn(b, m); }
    }
  }

  /** A requeued message ends up queued: nobody waits for it. */
  predicate Returns(b: Bus, m: Msg) {
    m.name != "" && !b.closed && BoxOf(b, m.name).waiters == []
  }

  lemma PassedOn(b: Bus, m: Msg)
    requires Inv(b) && m.name != "" && BoxOf(b, m.name).waiters != []
    ensures Held(Deliver(b, m)) == Held(b)
  {
    hide Inv, HandOver;
    EnsureBoxKeeps(b, m.name);
    HandOverKeeps(EnsureBox(b, m.name), m.name, m);
  }

  lemma ExpireLeasesKeeps(b: Bus, now: int, order: seq<string>, disk: bool)
    requires Inv(b)
    ensures var r := ExpireLeases(b, now, order, disk);
      && Inv(r) && SameConfig(b, r) && FileKeepsUp(b, r)
      && Moves(b, r, multiset{}, multiset{})
      && r.inflight.Keys <= b.inflight.Keys
  {
    hide Inv, RequeueExpired, AnyExpired;
    RequeueExpiredKeeps(b, now, order);
    PersistKeeps(RequeueExpired(b, now, order), disk);
  }

  lemma ListedOnce(b: Bus)
    requires Inv(b)
    ensures AllClosable(b)
  {
    forall n, k, c | n in b.boxes && k in b.boxes && c in b.boxes[n].waiters && c in b.boxes[k].waiters
      ensures n == k
    {
      assert b.chans[c].name == n;
    }
  }

  lemma OpenIsListed(b: Bus, c: nat)
    requires Inv(b) && c in b.chans && b.chans[c].open
    ensures Listed(b, c)
  {
  }

  /** Close closes every listed channel exactly once, and no other. */
  lemma CloseKeeps(b: Bus)
    requires Inv(b)
    ensures var r := Close(b);
      && Inv(r) && r.closed && r.inflight == b.inflight && AllClosable(b)
      && r.chans.Keys == b.chans.Keys && (!b.closed ==> forall c | c in r.chans :: !r.chans[c].open)
  {
    ListedOnce(b);
    hide AllClosable, Listed;
    if !b.closed {
      var r := Close(b);
      forall c | c in r.chans
        ensures !r.chans[c].open
      {
        if b.chans[c].open { OpenIsListed(b, c); }
      }
      assert ChansOk(r);
    }
  }
}
