/** Leases: what releasing several of them does to each mailbox, lease expiry for every
    iteration order, and the life of a delivery id. */
module MailboxLeases {
  import opened Bags
  import opened MailboxSpec
  import opened MailboxInvariant

  /** Releases the given leases one after the other. */
  ghost function ReleaseAll(b: Bus, ids: seq<string>): Bus
    decreases |ids|
  {
    if ids == [] then b
    else if ids[0] in b.inflight then ReleaseAll(Release(b, ids[0]), ids[1..])
    else ReleaseAll(b, ids[1..])
  }

  /** The messages of mailbox `n` among the given leases, in their order. */
  ghost function MsgsFor(leases: map<string, Delivery>, ids: seq<string>, n: string): seq<Msg>
    decreases |ids|
  {
    if ids == [] then []
    else
      (if ids[0] in leases && leases[ids[0]].msg.name == n then [leases[ids[0]].msg] else [])
      + MsgsFor(leases, ids[1..], n)
  }

  /** How many of `ms` the waiters of `x` take. */
  ghost function Served(x: Box, ms: seq<Msg>): (k: nat)
    ensures k <= |ms| && k <= |x.waiters| && (k == |ms| || k == |x.waiters|)
  {
    if |ms| < |x.waiters| then |ms| else |x.waiters|
  }

  /** The oldest waiters get one message each; the rest ends up in front of the old queue,
      last returned first. */
  ghost function Returned(x: Box, ms: seq<Msg>): Box {
    Box(Reversed(ms[Served(x, ms)..]) + x.q, x.waiters[Served(x, ms)..])
  }

  /** The i-th oldest waiter's channel carries the i-th message and is closed; no other
      channel of the mailbox changes. */
  ghost predicate WaitersGet(b: Bus, r: Bus, n: string, ms: seq<Msg>) {
    var ws := BoxOf(b, n).waiters;
    var k := Served(BoxOf(b, n), ms);
    && (forall i :: 0 <= i < k ==> ws[i] in r.chans && r.chans[ws[i]] == Chan(n, Some(ms[i]), false))
    && (forall c | c in b.chans && b.chans[c].name == n && c !in ws[..k] :: c in r.chans && r.chans[c] == b.chans[c])
  }

  /** Mailbox `n` takes back `ms`. */
  ghost predicate TakesBack(b: Bus, r: Bus, n: string, ms: seq<Msg>) {
    BoxOf(r, n) == Returned(BoxOf(b, n), ms) && WaitersGet(b, r, n, ms)
  }

  ghost predicate LeasesWithout(b: Bus, r: Bus, ids: seq<string>) {
    r.inflight == map id | id in b.inflight && id !in ids :: b.inflight[id]
  }

  lemma ReturnedNone(x: Box)
    ensures Returned(x, []) == x
  {
    assert Reversed([]) + x.q == x.q;
  }

  lemma ReturnedThen(x: Box, m: Msg, ms: seq<Msg>)
    ensures Returned(Returned(x, [m]), ms) == Returned(x, [m] + ms)
    ensures Returned(x, [m]) == if x.waiters == [] then Box([m] + x.q, []) else Box(x.q, x.waiters[1..])
    ensures Served(x, [m] + ms) == if x.waiters == [] then 0 else Served(Returned(x, [m]), ms) + 1
  {
    hide Returned, Served;
    if x.waiters == [] { NobodyWaits(x, m, ms); } else { SomebodyWaits(x, m, ms); }
  }

  lemma NobodyWaits(x: Box, m: Msg, ms: seq<Msg>)
    requires x.waiters == []
    ensures Returned(Returned(x, [m]), ms) == Returned(x, [m] + ms)
    ensures Returned(x, [m]) == Box([m] + x.q, []) && Served(x, [m] + ms) == 0
  {
    var all := [m] + ms;
    assert [m][0..] == [m] && [m][1..] == [];
    assert Reversed([m]) == [m];
    assert all[0..] == all && all[1..] == ms && ms[0..] == ms;
    assert Reversed(ms) + ([m] + x.q) == (Reversed(ms) + [m]) + x.q;
  }

  lemma SomebodyWaits(x: Box, m: Msg, ms: seq<Msg>)
    requires x.waiters != []
    ensures Returned(Returned(x, [m]), ms) == Returned(x, [m] + ms)
    ensures Returned(x, [m]) == Box(x.q, x.waiters[1..]) && Served(x, [m] + ms) == Served(Returned(x, [m]), ms) + 1
  {
    var all, x1 := [m] + ms, Box(x.q, x.waiters[1..]);
    assert Returned(x, [m]) == x1 by {
      assert [m][1..] == [] && Reversed([m][1..]) == [];
    }
    var k := Served(x1, ms);
    hide Reversed;
    assert all[k + 1..] == ms[k..];
    assert x.waiters[k + 1..] == x1.waiters[k..];
  }

  lemma HeadWaiter(b: Bus, n: string)
    requires Inv(b) && BoxOf(b, n).waiters != []
    ensures var w := BoxOf(b, n).waiters[0];
      n in b.boxes && w in b.chans && b.chans[w] == Chan(n, None, true)
  {
    assert BoxOf(b, n).waiters[0] in BoxOf(b, n).waiters;
  }

  lemma DeliverTakesBack(b: Bus, m: Msg)
    requires Inv(b) && m.name != ""
    ensures TakesBack(b, Deliver(b, m), m.name, [m])
  {
    hide Inv, Returned;
    var x := BoxOf(b, m.name);
    ReturnedThen(x, m, []);
    if x.waiters != [] {
      HeadWaiter(b, m.name);
      assert x.waiters[..1] == [x.waiters[0]];
    }
  }

  lemma DeliverElsewhere(b: Bus, m: Msg, n: string)
    requires Inv(b) && m.name != "" && m.name != n
    ensures var r := Deliver(b, m); BoxOf(r, n) == BoxOf(b, n) && SameChans(b, r, n)
  {
    hide Inv;
    if BoxOf(b, m.name).waiters != [] { HeadWaiter(b, m.name); }
  }

  ghost predicate SameChans(b: Bus, r: Bus, n: string) {
    forall c | c in b.chans && b.chans[c].name == n :: c in r.chans && r.chans[c] == b.chans[c]
  }

  /** Taking back one message and then the others is taking back all of them. */
  lemma WaitersGetThen(b: Bus, b1: Bus, r: Bus, n: string, m: Msg, ms: seq<Msg>)
    requires NoDup(BoxOf(b, n).waiters)
    requires forall w | w in BoxOf(b, n).waiters :: w in b.chans && b.chans[w].name == n
    requires BoxOf(b1, n) == Returned(BoxOf(b, n), [m])
    requires WaitersGet(b, b1, n, [m]) && WaitersGet(b1, r, n, ms)
    ensures WaitersGet(b, r, n, [m] + ms)
  {
    var x, ws, ws1 := BoxOf(b, n), BoxOf(b, n).waiters, BoxOf(b1, n).waiters;
    ReturnedThen(x, m, ms);
    hide Returned;
    var k, k1 := Served(x, [m] + ms), Served(x, [m]);
    if ws != [] {
      assert ws1 == ws[1..];
      assert ws[0] !in ws1[..k - 1];
      FirstThenRest(b, b1, r, n, m, ms);
      assert forall y :: y in ws1[..k - 1] ==> y in ws[..k];
    }
    assert forall c :: c in ws[..k1] ==> c in ws[..k];
  }

  lemma FirstThenRest(b: Bus, b1: Bus, r: Bus, n: string, m: Msg, ms: seq<Msg>)
    requires BoxOf(b, n).waiters != [] && BoxOf(b1, n).waiters == BoxOf(b, n).waiters[1..]
    requires NoDup(BoxOf(b, n).waiters) && WaitersGet(b, b1, n, [m]) && WaitersGet(b1, r, n, ms)
    requires Served(BoxOf(b, n), [m] + ms) == Served(BoxOf(b1, n), ms) + 1
    ensures var ws := BoxOf(b, n).waiters;
      forall i :: 0 <= i < Served(BoxOf(b, n), [m] + ms) ==> ws[i] in r.chans && r.chans[ws[i]] == Chan(n, Some(([m] + ms)[i]), false)
  {
    var ws, ws1, all := BoxOf(b, n).waiters, BoxOf(b1, n).waiters, [m] + ms;
    var k := Served(BoxOf(b, n), all);
    assert ws[0] !in ws1[..k - 1];
    forall i | 0 <= i < k
      ensures ws[i] in r.chans && r.chans[ws[i]] == Chan(n, Some(all[i]), false)
    {
      if i > 0 { assert ws[i] == ws1[i - 1] && all[i] == ms[i - 1]; }
    }
  }

  lemma {:induction false} MsgsForAgree(l: map<string, Delivery>, l': map<string, Delivery>, ids: seq<string>, n: string)
    requires forall id | id in ids :: (id in l <==> id in l') && (id in l ==> l[id] == l'[id])
    ensures MsgsFor(l, ids, n) == MsgsFor(l', ids, n)
    decreases |ids|
  {
    if ids != [] { MsgsForAgree(l, l', ids[1..], n); }
  }

  lemma ReleaseTakesBack(b: Bus, id: string, n: string)
    requires Inv(b) && id in b.inflight
    ensures var m := b.inflight[id].msg; var r := Release(b, id);
      if m.name == n then TakesBack(b, r, n, [m]) else BoxOf(r, n) == BoxOf(b, n) && SameChans(b, r, n)
  {
    var m := b.inflight[id].msg;
    assert m.name != "";
    hide Inv, Deliver, TakesBack, SameChans;
    var b1 := DropLease(b, id);
    DropLeaseKeeps(b, id);
    SameBoxes(b, b1, Deliver(b1, m), n, [m]);
    if m.name == n { DeliverTakesBack(b1, m); } else { DeliverElsewhere(b1, m, n); }
  }

  lemma SameBoxes(b: Bus, b1: Bus, r: Bus, n: string, ms: seq<Msg>)
    requires b.boxes == b1.boxes && b.chans == b1.chans
    ensures BoxOf(b, n) == BoxOf(b1, n)
    ensures TakesBack(b1, r, n, ms) ==> TakesBack(b, r, n, ms)
    ensures SameChans(b1, r, n) ==> SameChans(b, r, n)
  {
  }

  /** What releasing a list of leases does to each mailbox; ids that are not leased, or no
      longer, count for nothing. */
  lemma {:induction false} ReleaseAllTakesBack(b: Bus, ids: seq<string>, n: string)
    requires Inv(b) && NoDup(ids)
    ensures var r := ReleaseAll(b, ids);
      Inv(r) && TakesBack(b, r, n, MsgsFor(b.inflight, ids, n)) && LeasesWithout(b, r, ids)
    decreases |ids|
  {
    hide Inv, Release, Returned, TakesBack, LeasesWithout;
    if ids == [] {
      NothingReleased(b, n);
    } else {
      var id, rest := ids[0], ids[1..];
      assert id !in rest && ids == [id] + rest;
      if id in b.inflight {
        ReleaseKeeps(b, id);
        ReleaseAllTakesBack(Release(b, id), rest, n);
        ReleaseFirst(b, id, rest, n);
      } else {
        ReleaseAllTakesBack(b, rest, n);
        SkipFirst(b, ReleaseAll(b, rest), id, rest, n);
      }
    }
  }

  lemma NothingReleased(b: Bus, n: string)
    ensures TakesBack(b, b, n, []) && LeasesWithout(b, b, [])
  {
    ReturnedNone(BoxOf(b, n));
    assert b.inflight == map id | id in b.inflight && id !in [] :: b.inflight[id];
  }

  lemma SkipFirst(b: Bus, r: Bus, id: string, rest: seq<string>, n: string)
    requires id !in b.inflight && LeasesWithout(b, r, rest)
    ensures LeasesWithout(b, r, [id] + rest) && MsgsFor(b.inflight, [id] + rest, n) == MsgsFor(b.inflight, rest, n)
  {
    assert ([id] + rest)[1..] == rest && [] + MsgsFor(b.inflight, rest, n) == MsgsFor(b.inflight, rest, n);
  }

  lemma ReleaseFirst(b: Bus, id: string, rest: seq<string>, n: string)
    requires Inv(b) && id in b.inflight && id !in rest
    requires var b1 := Release(b, id); var r := ReleaseAll(b1, rest);
      TakesBack(b1, r, n, MsgsFor(b1.inflight, rest, n)) && LeasesWithout(b1, r, rest)
    ensures var r := ReleaseAll(Release(b, id), rest);
      TakesBack(b, r, n, MsgsFor(b.inflight, [id] + rest, n)) && LeasesWithout(b, r, [id] + rest)
  {
    hide Inv, Release, Returned, ReleaseAll;
    var m, b1 := b.inflight[id].msg, Release(b, id);
    var ms, r := MsgsFor(b.inflight, rest, n), ReleaseAll(b1, rest);
    ReleaseKeeps(b, id);
    ReleaseTakesBack(b, id, n);
    MsgsForAgree(b.inflight, b1.inflight, rest, n);
    assert ([id] + rest)[1..] == rest;
    assert LeasesWithout(b, r, [id] + rest);
    if m.name == n {
      BoxWaiters(b, n);
      WaitersGetThen(b, b1, r, n, m, ms);
      ReturnedThen(BoxOf(b, n), m, ms);
    } else {
      assert [] + ms == ms;
    }
  }

  lemma BoxWaiters(b: Bus, n: string)
    requires Inv(b)
    ensures NoDup(BoxOf(b, n).waiters)
    ensures forall w | w in BoxOf(b, n).waiters :: w in b.chans && b.chans[w].name == n
  {
  }

  // ---------------------------------------------------------------------------
  // Expiry
  // ---------------------------------------------------------------------------

  /** The expired leases, in the order of the iteration. */
  ghost function ExpiredIds(b: Bus, now: int, order: seq<string>): (r: seq<string>)
    ensures forall id :: id in r <==> id in order && Expired(b, id, now)
    decreases |order|
  {
    if order == [] then []
    else (if Expired(b, order[0], now) then [order[0]] else []) + ExpiredIds(b, now, order[1..])
  }

  lemma {:induction false} ExpiredIdsNoDup(b: Bus, now: int, order: seq<string>)
    requires NoDup(order)
    ensures NoDup(ExpiredIds(b, now, order))
    decreases |order|
  {
    if order != [] {
      assert order[0] !in order[1..];
      ExpiredIdsNoDup(b, now, order[1..]);
    }
  }

  lemma {:induction false} ExpiredIdsAgree(b: Bus, b1: Bus, now: int, order: seq<string>)
    requires forall id | id in order :: Expired(b, id, now) <==> Expired(b1, id, now)
    ensures ExpiredIds(b, now, order) == ExpiredIds(b1, now, order)
    decreases |order|
  {
    if order != [] { ExpiredIdsAgree(b, b1, now, order[1..]); }
  }

  lemma {:induction false} RequeueExpiredIsReleaseAll(b: Bus, now: int, order: seq<string>)
    requires Inv(b) && NoDup(order)
    ensures RequeueExpired(b, now, order) == ReleaseAll(b, ExpiredIds(b, now, order))
    decreases |order|
  {
    hide Inv, Release;
    if order != [] {
      var id := order[0];
      assert id !in order[1..];
      if Expired(b, id, now) {
        ReleaseKeeps(b, id);
        var b1 := Release(b, id);
        RequeueExpiredIsReleaseAll(b1, now, order[1..]);
        ExpiredIdsAgree(b, b1, now, order[1..]);
        assert ExpiredIds(b, now, order)[1..] == ExpiredIds(b, now, order[1..]);
      } else {
        RequeueExpiredIsReleaseAll(b, now, order[1..]);
        assert ExpiredIds(b, now, order) == ExpiredIds(b, now, order[1..]);
      }
    }
  }

  /** Whatever the iteration order, a sweep leaves exactly the unexpired leases; in each
      mailbox the oldest waiters get the expired messages one each, and the rest goes in
      front of the old queue. */
  lemma ExpiryIsRight(b: Bus, now: int, order: seq<string>, n: string)
    requires Inv(b) && IsOrder(order, b.inflight)
    ensures var r := RequeueExpired(b, now, order);
      && r.inflight == (map id | id in b.inflight && now <= b.inflight[id].expires :: b.inflight[id])
      && TakesBack(b, r, n, MsgsFor(b.inflight, ExpiredIds(b, now, order), n))
  {
    hide Inv, ReleaseAll, TakesBack;
    var ids := ExpiredIds(b, now, order);
    RequeueExpiredIsReleaseAll(b, now, order);
    ExpiredIdsNoDup(b, now, order);
    ReleaseAllTakesBack(b, ids, n);
    assert forall id :: id in b.inflight ==> (id !in ids <==> now <= b.inflight[id].expires);
  }

  ghost function MsgOf(leases: map<string, Delivery>, n: string): string -> multiset<Msg> {
    id => if id in leases && leases[id].msg.name == n then multiset{leases[id].msg} else multiset{}
  }

  lemma {:induction false} MsgsForBag(leases: map<string, Delivery>, ids: seq<string>, n: string)
    ensures multiset(MsgsFor(leases, ids, n)) == Image(MsgOf(leases, n), multiset(ids))
    decreases |ids|
  {
    var f := MsgOf(leases, n);
    if ids == [] {
      ImageEmpty(f, multiset(ids));
    } else {
      MsgsForBag(leases, ids[1..], n);
      assert ids == [ids[0]] + ids[1..];
      assert multiset(ids) == multiset(ids[1..]) + multiset{ids[0]};
      ImageAdd(f, multiset(ids[1..]), ids[0]);
    }
  }

  /** The messages a mailbox takes back are the same for every iteration order. */
  lemma ExpiryOrderIrrelevant(b: Bus, now: int, order: seq<string>, order': seq<string>, n: string)
    requires IsOrder(order, b.inflight) && IsOrder(order', b.inflight)
    ensures var ms := MsgsFor(b.inflight, ExpiredIds(b, now, order), n);
            var ms' := MsgsFor(b.inflight, ExpiredIds(b, now, order'), n);
      multiset(ms) == multiset(ms') && |ms| == |ms'|
  {
    var ids, ids' := ExpiredIds(b, now, order), ExpiredIds(b, now, order');
    ExpiredIdsNoDup(b, now, order);
    ExpiredIdsNoDup(b, now, order');
    SameBag(ids, ids');
    MsgsForBag(b.inflight, ids, n);
    MsgsForBag(b.inflight, ids', n);
    var ms, ms' := MsgsFor(b.inflight, ids, n), MsgsFor(b.inflight, ids', n);
    assert |multiset(ms)| == |ms| && |multiset(ms')| == |ms'|;
  }

  lemma SameBag<T(!new)>(s: seq<T>, t: seq<T>)
    requires NoDup(s) && NoDup(t) && forall x :: x in s <==> x in t
    ensures multiset(s) == multiset(t)
  {
    OneEach(s);
    OneEach(t);
  }

  lemma {:induction false} OneEach<T(!new)>(s: seq<T>)
    requires NoDup(s)
    ensures forall x :: multiset(s)[x] == if x in s then 1 else 0
  {
    if s != [] {
      OneEach(s[1..]);
      assert s == [s[0]] + s[1..];
      assert s[0] !in s[1..];
    }
  }
}
