/** The invariant of the mailbox machine, and what every single change does to it, to
    what the bus holds and to what waits in channels. */
module MailboxInvariant {
  import opened Bags
  import opened MailboxSpec

  /** The index read as a multiset: present exactly for positive counts. */
  ghost predicate Exact(d: map<string, nat>, ks: multiset<string>) {
    forall k :: (k in d <==> k in ks) && (k in d ==> d[k] == ks[k])
  }

  ghost predicate QueueNamed(q: seq<Msg>, n: string) {
    forall i :: 0 <= i < |q| ==> q[i].name == n
  }

  ghost predicate SnapOk(s: Snapshot) {
    && (forall n | n in s.boxes :: n != "" && QueueNamed(s.boxes[n], n))
    && (forall id | id in s.inflight :: s.inflight[id].msg.name != "" && s.inflight[id].id == id)
  }

  /** Queues hold their own mailbox's messages; each list of waiters has no repetition and
      names only open channels of that mailbox. */
  ghost predicate BoxesOk(b: Bus) {
    && (forall n | n in b.boxes :: n != "" && QueueNamed(b.boxes[n].q, n) && NoDup(b.boxes[n].waiters))
    && (forall n, c | n in b.boxes && c in b.boxes[n].waiters ::
          c in b.chans && b.chans[c].open && b.chans[c].name == n)
  }

  /** An open channel is empty and listed; a channel carries its mailbox's messages. */
  ghost predicate ChansOk(b: Bus) {
    forall c | c in b.chans ::
      && c < b.next
      && b.chans[c].name in b.boxes
      && (b.chans[c].open ==> b.chans[c].buf.None? && c in b.boxes[b.chans[c].name].waiters)
      && (b.chans[c].buf.Some? ==> b.chans[c].buf.value.name == b.chans[c].name)
  }

  ghost predicate LeasesOk(b: Bus) {
    forall id | id in b.inflight :: b.inflight[id].msg.name != "" && b.inflight[id].id == id
  }

  ghost predicate IndexOk(b: Bus) {
    b.closed || Exact(b.dedup, Image(KeyOf, Held(b)))
  }

  ghost predicate Inv(b: Bus) {
    && !b.fault
    && BoxesOk(b) && ChansOk(b) && LeasesOk(b) && IndexOk(b)
    && (b.file.Some? ==> SnapOk(b.file.value))
  }

  /** What moving messages about leaves alone. */
  ghost predicate SameFrame(b: Bus, r: Bus) {
    && r.maxQueue == b.maxQueue && r.maxBody == b.maxBody && r.durable == b.durable
    && r.closed == b.closed && r.file == b.file && r.next == b.next
  }

  // ---------------------------------------------------------------------------
  // The index follows what the bus holds
  // ---------------------------------------------------------------------------

  lemma IndexAddExact(d: map<string, nat>, ms: multiset<Msg>, m: Msg)
    requires Exact(d, Image(KeyOf, ms))
    ensures Exact(IndexAdd(d, m), Image(KeyOf, ms + multiset{m}))
  {
    ImageAdd(KeyOf, ms, m);
  }

  lemma IndexDelExact(d: map<string, nat>, ms: multiset<Msg>, m: Msg)
    requires m in ms && Exact(d, Image(KeyOf, ms))
    ensures Exact(IndexDel(d, m), Image(KeyOf, ms - multiset{m}))
  {
    ImageRemove(KeyOf, ms, m);
  }

  // ---------------------------------------------------------------------------
  // Single changes
  // ---------------------------------------------------------------------------

  lemma SetBox(b: Bus, n: string, x: Box)
    ensures Queued(b) == Sum(b.boxes - {n}, BoxMsgs) + multiset(BoxOf(b, n).q)
    ensures Sum(b.boxes[n := x], BoxMsgs) == Sum(b.boxes - {n}, BoxMsgs) + multiset(x.q)
  {
    SumUpdate(b.boxes, BoxMsgs, n, x);
  }

  lemma EnsureBoxKeeps(b: Bus, n: string)
    requires Inv(b) && n != ""
    ensures var r := EnsureBox(b, n);
      Inv(r) && Held(r) == Held(b) && n in r.boxes && BoxOf(r, n) == BoxOf(b, n)
  {
    if n !in b.boxes {
      SetBox(b, n, Box([], []));
      var r := EnsureBox(b, n);
      assert Held(r) == Held(b);
      assert BoxesOk(r) && ChansOk(r);
    }
  }

  lemma PushMoves(b: Bus, n: string, m: Msg)
    ensures Held(PushFront(b, n, m)) == Held(b) + multiset{m}
    ensures Held(PushBack(b, n, m)) == Held(b) + multiset{m}
  {
    var x := BoxOf(b, n);
    SetBox(b, n, Box([m] + x.q, x.waiters));
    SetBox(b, n, Box(x.q + [m], x.waiters));
  }

  lemma PushFrontKeeps(b: Bus, n: string, m: Msg)
    requires Inv(b) && n != "" && m.name == n
    ensures var r := PushFront(b, n, m); Inv(r) && Held(r) == Held(b) + multiset{m}
  {
    PushMoves(b, n, m);
    hide Held, IndexAdd;
    var r := PushFront(b, n, m);
    assert BoxesOk(r) && ChansOk(r);
    if !b.closed { IndexAddExact(b.dedup, Held(b), m); }
  }

  lemma PushBackKeeps(b: Bus, n: string, m: Msg)
    requires Inv(b) && n != "" && m.name == n
    ensures var r := PushBack(b, n, m); Inv(r) && Held(r) == Held(b) + multiset{m}
  {
    PushMoves(b, n, m);
    hide Held, IndexAdd;
    var r := PushBack(b, n, m);
    assert BoxesOk(r) && ChansOk(r);
    if !b.closed { IndexAddExact(b.dedup, Held(b), m); }
  }

  lemma PopFrontMoves(b: Bus, n: string)
    requires BoxOf(b, n).q != []
    ensures var m := BoxOf(b, n).q[0]; m in Held(b) && Held(b) == Held(PopFront(b, n)) + multiset{m}
  {
    var x := BoxOf(b, n);
    assert x.q == [x.q[0]] + x.q[1..];
    SetBox(b, n, Box(x.q[1..], x.waiters));
  }

  lemma PopFrontOk(b: Bus, n: string)
    requires BoxesOk(b) && ChansOk(b) && BoxOf(b, n).q != []
    ensures var r := PopFront(b, n); BoxesOk(r) && ChansOk(r) && BoxOf(b, n).q[0].name == n
  {
    hide IndexDel;
    assert QueueNamed(b.boxes[n].q, n);
  }

  lemma PopFrontKeeps(b: Bus, n: string)
    requires Inv(b) && BoxOf(b, n).q != []
    ensures var r := PopFront(b, n); var m := BoxOf(b, n).q[0];
      Inv(r) && m.name == n && m in Held(b) && Held(b) == Held(r) + multiset{m}
  {
    var m, r := BoxOf(b, n).q[0], PopFront(b, n);
    PopFrontMoves(b, n);
    PopFrontOk(b, n);
    hide Held, BoxesOk, ChansOk, IndexDel;
    if !b.closed {
      IndexDelExact(b.dedup, Held(b), m);
      assert Held(b) - multiset{m} == Held(r);
    }
  }

  lemma HandOverKeeps(b: Bus, n: string, m: Msg)
    requires Inv(b) && BoxOf(b, n).waiters != [] && m.name == n
    ensures var r := HandOver(b, n, m);
      Inv(r) && Held(r) == Held(b) && InChans(r) == InChans(b) + multiset{m}
  {
    var x := BoxOf(b, n);
    var c := x.waiters[0];
    assert x.waiters == [c] + x.waiters[1..];
    SetBox(b, n, Box(x.q, x.waiters[1..]));
    SumUpdate(b.chans, ChanMsgs, c, Chan(n, Some(m), false));
    var r := HandOver(b, n, m);
    assert Held(r) == Held(b);
    assert forall w :: w in x.waiters[1..] ==> w in x.waiters && w != c;
  }

  lemma AddLeaseKeeps(b: Bus, d: Delivery)
    requires Inv(b) && d.id !in b.inflight && d.msg.name != ""
    ensures var r := AddLease(b, d); Inv(r) && Held(r) == Held(b) + multiset{d.msg}
  {
    SumUpdate(b.inflight, LeaseMsgs, d.id, d);
    var r := AddLease(b, d);
    assert Held(r) == Held(b) + multiset{d.msg};
    if !b.closed { IndexAddExact(b.dedup, Held(b), d.msg); }
  }

  lemma DropLeaseKeeps(b: Bus, id: string)
    requires Inv(b) && id in b.inflight
    ensures var r := DropLease(b, id); var m := b.inflight[id].msg;
      Inv(r) && m in Held(b) && Held(b) == Held(r) + multiset{m}
  {
    var m := b.inflight[id].msg;
    SumRemove(b.inflight, LeaseMsgs, id);
    var r := DropLease(b, id);
    assert Held(b) == Held(r) + multiset{m};
    if !b.closed {
      IndexDelExact(b.dedup, Held(b), m);
      assert Held(b) - multiset{m} == Held(r);
    }
  }

  lemma ServeKeeps(b: Bus, n: string, m: Msg)
    requires Inv(b) && n in b.boxes && m.name == n
    ensures var r := Serve(b, n, m);
      Inv(r) && Held(r) == Held(b) && InChans(r) == InChans(b) + multiset{m}
  {
    SumUpdate(b.chans, ChanMsgs, b.next, Chan(n, Some(m), false));
  }

  lemma NextUnused(b: Bus)
    requires Inv(b)
    ensures b.next !in b.chans
  {
    assert ChansOk(b);
  }

  lemma ParkBoxesOk(b: Bus, n: string)
    requires BoxesOk(b) && ChansOk(b) && n != ""
    ensures BoxesOk(Park(b, n)) && ChansOk(Park(b, n))
  {
    var x, r := BoxOf(b, n), Park(b, n);
    assert b.next !in b.chans && b.next !in x.waiters;
    NoDupSnoc(x.waiters, b.next);
    forall k, c | k in r.boxes && c in r.boxes[k].waiters
      ensures c in r.chans && r.chans[c].open && r.chans[c].name == k
    {
      if k == n {
        assert c in x.waiters + [b.next];
      } else {
        assert k in b.boxes && c in b.boxes[k].waiters;
      }
    }
  }

  lemma ParkKeeps(b: Bus, n: string)
    requires Inv(b) && n != ""
    ensures var r := Park(b, n); Inv(r) && Held(r) == Held(b) && InChans(r) == InChans(b)
  {
    var x, r := BoxOf(b, n), Park(b, n);
    ParkBoxesOk(b, n);
    assert b.next !in b.chans;
    SetBox(b, n, Box(x.q, x.waiters + [b.next]));
    assert Held(r) == Held(b);
    SumUpdate(b.chans, ChanMsgs, b.next, Chan(n, None, true));
    assert b.chans - {b.next} == b.chans;
  }

  lemma UnparkKeeps(b: Bus, c: nat)
    requires Inv(b) && c in b.chans
    ensures var r := Unpark(b, b.chans[c].name, c);
      Inv(r) && Held(r) == Held(b) && InChans(b) == InChans(r) + ChanMsgs(b.chans[c])
  {
    var n := b.chans[c].name;
    var x := BoxOf(b, n);
    WithoutNoDup(x.waiters, c);
    SetBox(b, n, Box(x.q, Without(x.waiters, c)));
    assert Held(Unpark(b, n, c)) == Held(b);
    SumRemove(b.chans, ChanMsgs, c);
  }

  lemma SnapshotExact(b: Bus)
    ensures FileQueued(SnapshotOf(b)) == Queued(b)
  {
    SnapshotSum(b.boxes);
  }

  lemma {:induction false} SnapshotSum(m: map<string, Box>)
    ensures Sum(map n | n in m && m[n].q != [] :: m[n].q, QueueMsgs) == Sum(m, BoxMsgs)
    decreases m.Keys
  {
    var s := map n | n in m && m[n].q != [] :: m[n].q;
    if m == map[] {
      assert s == map[];
      SumEmpty(s, QueueMsgs);
      SumEmpty(m, BoxMsgs);
    } else {
      var k :| k in m;
      var rest := m - {k};
      SumRemove(m, BoxMsgs, k);
      SnapshotSum(rest);
      assert s - {k} == map n | n in rest && rest[n].q != [] :: rest[n].q;
      if k in s {
        SumRemove(s, QueueMsgs, k);
      } else {
        assert s - {k} == s;
      }
    }
  }

  lemma PersistKeeps(b: Bus, disk: bool)
    requires Inv(b)
    ensures Inv(Persist(b, disk)) && Held(Persist(b, disk)) == Held(b)
    ensures b.durable && disk ==> Recoverable(Persist(b, disk).file) == Held(b)
  {
    SnapshotExact(b);
  }

  lemma DeliverKeeps(b: Bus, m: Msg)
    requires Inv(b) && m.name != ""
    ensures var r := Deliver(b, m);
      && Inv(r)
      && (Held(r) == Held(b) || Held(r) == Held(b) + multiset{m})
      && Held(r) + InChans(r) == Held(b) + InChans(b) + multiset{m}
      && r.inflight == b.inflight && SameFrame(b, r)
  {
    hide Inv;
    EnsureBoxKeeps(b, m.name);
    var b1 := EnsureBox(b, m.name);
    if BoxOf(b1, m.name).waiters != [] {
      HandOverKeeps(b1, m.name, m);
    } else {
      PushFrontKeeps(b1, m.name, m);
    }
  }

  lemma ReleaseKeeps(b: Bus, id: string)
    requires Inv(b) && id in b.inflight
    ensures var r := Release(b, id);
      && Inv(r)
      && Held(r) <= Held(b)
      && Held(r) + InChans(r) == Held(b) + InChans(b)
      && r.inflight == b.inflight - {id} && SameFrame(b, r)
  {
    assert b.inflight[id].msg.name != "";
    hide Inv, Deliver;
    DropLeaseKeeps(b, id);
    DeliverKeeps(DropLease(b, id), b.inflight[id].msg);
  }

  lemma {:induction false} RequeueExpiredKeeps(b: Bus, now: int, order: seq<string>)
    requires Inv(b)
    ensures var r := RequeueExpired(b, now, order);
      && Inv(r)
      && Held(r) <= Held(b)
      && Held(r) + InChans(r) == Held(b) + InChans(b)
      && r.inflight.Keys <= b.inflight.Keys && SameFrame(b, r)
    decreases |order|
  {
    hide Inv, Release;
    if order != [] {
      if Expired(b, order[0], now) {
        ReleaseKeeps(b, order[0]);
        RequeueExpiredKeeps(Release(b, order[0]), now, order[1..]);
      } else {
        RequeueExpiredKeeps(b, now, order[1..]);
      }
    }
  }
}
