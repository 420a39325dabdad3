/** The bus as the object that internal/mailbox/mailbox.go declares: its methods update their
    fields and boxes in place. Each method is one critical section, proved to compute the
    function of the same name in MailboxSpec or TopicSpec, so that what is proved about runs of
    those functions is proved about runs of these methods. No method sends on a closed or full
    channel, or closes one twice. */
module Mailbox {
  import opened Bags
  import opened MailboxSpec
  import opened MailboxInvariant
  import opened MailboxSteps
  import MailboxLeases
  import MailboxRecovery
  import opened TopicSpec
  import TopicOutcomes
  import TopicRuns

  /** What OpenPersistent finds at its path. */
  datatype Stored = Missing | Unreadable | Holding(snapshot: Snapshot)

  /** Visiting one more lease. */
  lemma {:induction false} RequeueSnoc(b: MailboxSpec.Bus, now: int, order: seq<string>, id: string)
    ensures var r := RequeueExpired(b, now, order);
      RequeueExpired(b, now, order + [id]) == if Expired(r, id, now) then Release(r, id) else r
    decreases |order|
  {
    hide Release;
    if order == [] {
      assert [id][1..] == [];
    } else {
      assert (order + [id])[1..] == order[1..] + [id];
      RequeueSnoc(if Expired(b, order[0], now) then Release(b, order[0]) else b, now, order[1..], id);
    }
  }

  lemma {:induction false} FilledSnoc(f: Feed, ms: seq<Msg>, m: Msg)
    ensures Filled(f, ms + [m]) == Offered(Filled(f, ms), m)
    decreases |ms|
  {
    if ms == [] {
      assert [m][1..] == [];
    } else {
      assert (ms + [m])[1..] == ms[1..] + [m];
      FilledSnoc(Offered(f, ms[0]), ms[1..], m);
    }
  }

  lemma {:induction false} SubsWithoutSnoc(subs: seq<Subscription>, s: Subscription, ch: nat)
    ensures SubsWithout(subs + [s], ch) == SubsWithout(subs, ch) + if s.ch != ch then [s] else []
    decreases |subs|
  {
    if subs == [] {
      assert [s][1..] == [];
    } else {
      assert (subs + [s])[1..] == subs[1..] + [s];
      SubsWithoutSnoc(subs[1..], s, ch);
    }
  }

  lemma UnsubStep(subs: seq<Subscription>, i: nat, ch: nat)
    requires i < |subs| && TopicRuns.Distinct(subs)
    ensures SubsWithout(subs[..i + 1], ch) == SubsWithout(subs[..i], ch) + if subs[i].ch != ch then [subs[i]] else []
    ensures Subscribed(subs[..i + 1], ch) <==> Subscribed(subs[..i], ch) || subs[i].ch == ch
    ensures Subscribed(subs[..i], ch) ==> subs[i].ch != ch
  {
    assert subs[..i + 1] == subs[..i] + [subs[i]];
    SubsWithoutSnoc(subs[..i], subs[i], ch);
    if subs[i].ch == ch { assert subs[..i + 1][i].ch == ch; }
    if Subscribed(subs[..i], ch) {
      var j :| 0 <= j < |subs[..i]| && subs[..i][j].ch == ch;
      assert subs[..i + 1][j].ch == ch;
    }
  }

  /** The mailboxes are the stored ones, each with its queue in the stored order and nobody
      waiting. */
  ghost predicate HoldsQueues(boxes: map<string, Box>, stored: map<string, seq<Msg>>)
    reads Boxes(boxes)
  {
    boxes.Keys == stored.Keys && forall n | n in stored :: n in boxes && boxes[n].q == stored[n] && boxes[n].waiters == []
  }

  ghost function Loaded(stored: map<string, seq<Msg>>): map<string, MailboxSpec.Box> {
    map n | n in stored :: MailboxSpec.Box(stored[n], [])
  }

  /** `chans` after those in `ws` are closed. */
  ghost function Shut(chans: map<nat, Chan>, ws: seq<nat>): map<nat, Chan> {
    map c | c in chans :: if c in ws then chans[c].(open := false) else chans[c]
  }

  /** The boxes and channels of `b` when the mailboxes outside `names` have been closed. */
  ghost function ClosedBoxes(b: MailboxSpec.Bus, names: set<string>): map<string, MailboxSpec.Box> {
    map n | n in b.boxes :: if n in names then b.boxes[n] else MailboxSpec.Box([], [])
  }

  ghost function ClosedChans(b: MailboxSpec.Bus, names: set<string>): map<nat, Chan> {
    map c | c in b.chans :: if ListedOutside(b, names, c) then b.chans[c].(open := false) else b.chans[c]
  }

  lemma ClosingStarts(b: MailboxSpec.Bus)
    ensures ClosedBoxes(b, b.boxes.Keys) == b.boxes && ClosedChans(b, b.boxes.Keys) == b.chans
  {
  }

  lemma ClosingEnds(b: MailboxSpec.Bus)
    requires !b.closed && AllClosable(b)
    ensures MailboxSpec.Close(b) == b.(closed := true, boxes := ClosedBoxes(b, {}), chans := ClosedChans(b, {}))
  {
    forall c | c in b.chans
      ensures ListedOutside(b, {}, c) <==> Listed(b, c)
    {
    }
  }

  lemma ClosingStep(b: MailboxSpec.Bus, names: set<string>, n: string)
    requires AllClosable(b) && n in names && n in b.boxes
    ensures var ws := b.boxes[n].waiters;
      && NoDup(ws)
      && (forall i :: 0 <= i < |ws| ==> ws[i] in ClosedChans(b, names) && ClosedChans(b, names)[ws[i]].open)
      && ClosedBoxes(b, names)[n] == b.boxes[n]
      && ClosedBoxes(b, names - {n}) == ClosedBoxes(b, names)[n := MailboxSpec.Box([], [])]
      && ClosedChans(b, names - {n}) == Shut(ClosedChans(b, names), ws)
  {
    var ws := b.boxes[n].waiters;
    forall i | 0 <= i < |ws|
      ensures ws[i] in b.chans && b.chans[ws[i]].open && !ListedOutside(b, names, ws[i])
    {
      assert ws[i] in ws;
    }
    forall c | c in b.chans
      ensures ListedOutside(b, names - {n}, c) <==> ListedOutside(b, names, c) || c in ws
    {
    }
  }

  lemma ClosingOk(t: Topics)
    requires TopicRuns.SubsOk(t)
    ensures TopicRuns.SubsOk(CloseFeeds(t, t.subs).(subs := []))
  {
    TopicRuns.CloseFeedsEach(t, t.subs);
  }

  /** `c` waits on a mailbox that is not among `names`. */
  ghost predicate ListedOutside(b: MailboxSpec.Bus, names: set<string>, c: nat) {
    exists n | n in b.boxes && n !in names :: c in b.boxes[n].waiters
  }

  class Box {
    var q: seq<Msg>
    var waiters: seq<nat>

    constructor (q: seq<Msg>)
      ensures this.q == q && waiters == []
    {
      this.q, waiters := q, [];
    }
  }

  ghost function Boxes(boxes: map<string, Box>): (all: set<Box>)
    ensures forall n | n in boxes :: boxes[n] in all
  {
    set n | n in boxes :: boxes[n]
  }

  /** No two mailboxes share a box. */
  ghost predicate Distinct(boxes: map<string, Box>) {
    forall m, n | m in boxes && n in boxes && boxes[m] == boxes[n] :: m == n
  }

  lemma BoxesAdded(boxes: map<string, Box>, n: string, bx: Box)
    requires n !in boxes
    ensures Boxes(boxes[n := bx]) == Boxes(boxes) + {bx}
  {
    forall x | x in Boxes(boxes) + {bx}
      ensures x in Boxes(boxes[n := bx])
    {
      if x != bx {
        var k :| k in boxes && boxes[k] == x;
        assert boxes[n := bx][k] == x;
      } else {
        assert boxes[n := bx][n] == x;
      }
    }
  }

  /** `chans` are the one-slot channels some taker still reads, `feeds` the subscribers'. */
  class Bus {
    const maxQueue: nat
    const maxBody: nat
    const durable: bool
    var closed: bool
    var boxes: map<string, Box>
    var subs: seq<Subscription>
    var last: map<string, Msg>
    var dedup: map<string, nat>
    var inflight: map<string, Delivery>
    var file: Option<Snapshot>
    var chans: map<nat, Chan>
    var next: nat
    var feeds: map<nat, Feed>
    var nextFeed: nat

    ghost function Contents(): (c: map<string, MailboxSpec.Box>)
      reads this`boxes, Boxes(boxes)
      ensures c.Keys == boxes.Keys
      ensures forall n | n in boxes :: c[n] == MailboxSpec.Box(boxes[n].q, boxes[n].waiters)
    {
      map n | n in boxes :: MailboxSpec.Box(boxes[n].q, boxes[n].waiters)
    }

    ghost function View(): MailboxSpec.Bus
      reads this`closed, this`boxes, this`dedup, this`inflight, this`file, this`chans, this`next, Boxes(boxes)
    {
      MailboxSpec.Bus(maxQueue, maxBody, durable, closed, Contents(), dedup, inflight, file, chans, next, false)
    }

    ghost function Board(): Topics
      reads this`closed, this`last, this`subs, this`feeds, this`nextFeed
    {
      Topics(maxBody, closed, last, subs, feeds, nextFeed, false)
    }

    /** The queues, the leases and the index; the methods on topics do not touch them. */
    ghost predicate ValidJobs()
      reads this`closed, this`boxes, this`dedup, this`inflight, this`file, this`chans, this`next, Boxes(boxes)
    {
      Distinct(boxes) && Inv(View())
    }

    /** The cache and the subscribers; the methods on jobs do not touch them. */
    ghost predicate ValidTopics()
      reads this`closed, this`last, this`subs, this`feeds, this`nextFeed
    {
      TopicRuns.SubsOk(Board()) && |last| <= MAX_CACHED_TOPICS
    }

    /** NewWithLimits, on no path or on the path of a missing file. */
    constructor (maxQueue: int, maxBody: int, durable: bool)
      ensures ValidJobs() && ValidTopics() && fresh(Boxes(boxes))
      ensures View() == Open(maxQueue, maxBody, durable)
      ensures Board() == OpenTopics(this.maxBody)
    {
      this.maxQueue := if maxQueue <= 0 then DEFAULT_MAX_QUEUE else maxQueue;
      this.maxBody := if maxBody <= 0 then DEFAULT_MAX_BODY else maxBody;
      this.durable := durable;
      closed := false;
      boxes, dedup, inflight, file, chans, next := map[], map[], map[], None, map[], 0;
      subs, last, feeds, nextFeed := [], map[], map[], 0;
      new;
      SumEmpty(View().boxes, BoxMsgs);
      SumEmpty(View().inflight, LeaseMsgs);
      ImageEmpty(KeyOf, Held(View()));
    }

    /** Takes over the queues and leases of an existing file, and counts the index afresh. */
    method Load(f: Snapshot)
      requires boxes == map[] && dedup == map[] && inflight == map[]
      modifies this`boxes, this`dedup, this`inflight, this`file
      ensures Distinct(boxes) && fresh(Boxes(boxes))
      ensures View() == old(View()).(boxes := Loaded(f.boxes), inflight := f.inflight,
                                     dedup := IndexOf(Recoverable(Some(f))), file := Some(f))
      ensures HoldsQueues(boxes, f.boxes) && inflight == f.inflight && file == Some(f)
    {
      hide Exact, Contents, Distinct, HoldsQueues;
      file := Some(f);
      LoadBoxes(f.boxes);
      LoadLeases(f.boxes, f.inflight);
      assert dedup == IndexOf(Recoverable(file)) by { MailboxRecovery.RebuiltIndexIsMaintained(dedup, Recoverable(file)); }
    }

    method LoadBoxes(stored: map<string, seq<Msg>>)
      requires boxes == map[] && dedup == map[]
      modifies this`boxes, this`dedup
      ensures Distinct(boxes) && fresh(Boxes(boxes)) && Contents() == Loaded(stored) && HoldsQueues(boxes, stored)
      ensures Exact(dedup, Image(KeyOf, Sum(stored, QueueMsgs)))
    {
      hide Exact, Contents, Distinct, HoldsQueues, Loaded, Boxes, Sum, Image;
      var names := stored.Keys;
      NothingLoaded(stored);
      while names != {}
        invariant names <= stored.Keys
        invariant Distinct(boxes) && fresh(Boxes(boxes)) && Contents() == Loaded(stored - names)
        invariant Exact(dedup, Image(KeyOf, Sum(stored - names, QueueMsgs)))
        decreases |names|
      {
        var n :| n in names;
        ghost var done := stored - names;
        names := names - {n};
        assert stored - names == done[n := stored[n]];
        LoadBox(done, n, stored[n]);
      }
      assert stored - names == stored;
      QueuesLoaded(stored);
    }

    lemma NothingLoaded(stored: map<string, seq<Msg>>)
      requires boxes == map[] && dedup == map[]
      ensures Distinct(boxes) && Boxes(boxes) == {} && Contents() == Loaded(stored - stored.Keys)
      ensures Exact(dedup, Image(KeyOf, Sum(stored - stored.Keys, QueueMsgs)))
    {
      SumEmpty(stored - stored.Keys, QueueMsgs);
      ImageEmpty(KeyOf, Sum(stored - stored.Keys, QueueMsgs));
    }

    lemma QueuesLoaded(stored: map<string, seq<Msg>>)
      requires Contents() == Loaded(stored)
      ensures HoldsQueues(boxes, stored)
    {
      assert forall n | n in stored :: Contents()[n] == MailboxSpec.Box(stored[n], []);
    }

    method LoadBox(ghost done: map<string, seq<Msg>>, n: string, q: seq<Msg>)
      requires n !in done && Distinct(boxes) && Contents() == Loaded(done)
      requires Exact(dedup, Image(KeyOf, Sum(done, QueueMsgs)))
      modifies this`boxes, this`dedup
      ensures Distinct(boxes)
      ensures forall x | x in Boxes(boxes) :: x in Boxes(old(boxes)) || fresh(x)
      ensures Contents() == Loaded(done[n := q])
      ensures Exact(dedup, Image(KeyOf, Sum(done[n := q], QueueMsgs)))
    {
      hide Exact, Sum, Boxes, Distinct;
      assert n !in boxes;
      var _ := AddBox(n, q);
      assert Contents() == Loaded(done[n := q]);
      assert done - {n} == done;
      SumUpdate(done, QueueMsgs, n, q);
      IndexQueue(Sum(done, QueueMsgs), q);
    }

    method AddBox(n: string, q: seq<Msg>) returns (bx: Box)
      requires Distinct(boxes) && n !in boxes
      modifies this`boxes
      ensures boxes == old(boxes)[n := bx] && fresh(bx)
      ensures Distinct(boxes) && Boxes(boxes) == Boxes(old(boxes)) + {bx}
      ensures Contents() == old(Contents())[n := MailboxSpec.Box(q, [])]
    {
      bx := new Box(q);
      BoxesAdded(boxes, n, bx);
      boxes := boxes[n := bx];
    }

    method IndexQueue(ghost counted: multiset<Msg>, q: seq<Msg>)
      requires Exact(dedup, Image(KeyOf, counted))
      modifies this`dedup
      ensures Exact(dedup, Image(KeyOf, counted + multiset(q)))
    {
      assert counted + multiset(q[..0]) == counted;
      for i := 0 to |q|
        invariant Exact(dedup, Image(KeyOf, counted + multiset(q[..i])))
      {
        assert q[..i + 1] == q[..i] + [q[i]];
        IndexAddExact(dedup, counted + multiset(q[..i]), q[i]);
        assert counted + multiset(q[..i]) + multiset{q[i]} == counted + multiset(q[..i + 1]);
        hide Exact, Image, IndexAdd;
        IndexAddLocked(q[i]);
      }
      assert q[..|q|] == q;
    }

    method LoadLeases(ghost stored: map<string, seq<Msg>>, leases: map<string, Delivery>)
      requires inflight == map[] && Exact(dedup, Image(KeyOf, Sum(stored, QueueMsgs)))
      modifies this`inflight, this`dedup
      ensures inflight == leases
      ensures Exact(dedup, Image(KeyOf, Sum(stored, QueueMsgs) + Sum(leases, LeaseMsgs)))
    {
      ghost var queued := Sum(stored, QueueMsgs);
      var ids := leases.Keys;
      SumEmpty(inflight, LeaseMsgs);
      assert queued + Sum(inflight, LeaseMsgs) == queued;
      while ids != {}
        invariant ids <= leases.Keys && inflight == leases - ids
        invariant Exact(dedup, Image(KeyOf, queued + Sum(inflight, LeaseMsgs)))
        decreases |ids|
      {
        hide Exact, Sum, Image;
        var id :| id in ids;
        ids := ids - {id};
        LoadLease(queued, id, leases[id]);
        assert inflight == leases - ids;
      }
    }

    method LoadLease(ghost queued: multiset<Msg>, id: string, d: Delivery)
      requires id !in inflight && Exact(dedup, Image(KeyOf, queued + Sum(inflight, LeaseMsgs)))
      modifies this`inflight, this`dedup
      ensures inflight == old(inflight)[id := d]
      ensures Exact(dedup, Image(KeyOf, queued + Sum(inflight, LeaseMsgs)))
    {
      assert inflight - {id} == inflight;
      SumUpdate(inflight, LeaseMsgs, id, d);
      IndexAddExact(dedup, queued + Sum(inflight, LeaseMsgs), d.msg);
      hide Exact, Sum, Image, IndexAdd;
      assert queued + Sum(inflight, LeaseMsgs) + multiset{d.msg} == queued + Sum(inflight[id := d], LeaseMsgs);
      inflight := inflight[id := d];
      IndexAddLocked(d.msg);
    }

    /** No file is a new bus; a file that cannot be read or decoded is an error. */
    static method OpenPersistent(stored: Stored, maxQueue: int, maxBody: int) returns (r: Result<Bus>)
      ensures r.Err? <==> stored.Unreadable?
      ensures r.Ok? ==> fresh(r.value) && fresh(Boxes(r.value.boxes)) && r.value.ValidTopics()
      ensures r.Ok? ==>
        && r.value.maxQueue == (if maxQueue > 0 then maxQueue else 1024)
        && r.value.maxBody == (if maxBody > 0 then maxBody else 1048576) && r.value.durable && !r.value.closed
      ensures stored.Missing? ==> r.value.boxes == map[] && r.value.inflight == map[] && r.value.file == None
      ensures stored.Holding? ==>
        && HoldsQueues(r.value.boxes, stored.snapshot.boxes) && r.value.inflight == stored.snapshot.inflight
        && r.value.file == Some(stored.snapshot)
      ensures stored.Missing? ==> r.value.ValidJobs() && r.value.View() == Open(maxQueue, maxBody, true)
      ensures stored.Holding? ==> r.value.View() == Reopen(maxQueue, maxBody, stored.snapshot)
      ensures stored.Holding? && SnapOk(stored.snapshot) ==> r.value.ValidJobs()
    {
      if stored.Missing? {
        var b := new Bus(maxQueue, maxBody, true);
        return Ok(b);
      }
      if stored.Unreadable? { return Err(DiskError); }
      var b := new Bus(maxQueue, maxBody, true);
      b.Load(stored.snapshot);
      hide Inv, HoldsQueues;
      assert b.View() == Reopen(maxQueue, maxBody, stored.snapshot);
      assert SnapOk(stored.snapshot) ==> Inv(b.View()) by {
        if SnapOk(stored.snapshot) { MailboxRecovery.ReopenRestores(maxQueue, maxBody, stored.snapshot); }
      }
      return Ok(b);
    }

    // -------------------------------------------------------------------------
    // The index
    // -------------------------------------------------------------------------

    method IndexAddLocked(m: Msg)
      modifies this`dedup
      ensures dedup == IndexAdd(old(dedup), m)
    {
      if m.id == "" || m.name == "" { return; }
      var k := DedupKey(m.name, m.id);
      var n := if k in dedup then dedup[k] else 0;
      dedup := dedup[k := n + 1];
    }

    method IndexDelLocked(m: Msg)
      modifies this`dedup
      ensures dedup == IndexDel(old(dedup), m)
    {
      if m.id == "" || m.name == "" { return; }
      var k := DedupKey(m.name, m.id);
      var n := if k in dedup then dedup[k] else 0;
      if n > 1 {
        dedup := dedup[k := n - 1];
      } else {
        dedup := dedup - {k};
      }
    }

    predicate IndexedLocked(name: string, id: string)
      reads this`dedup
    {
      if id == "" || name == "" then false else DedupKey(name, id) in dedup
    }

    // -------------------------------------------------------------------------
    // The state file
    // -------------------------------------------------------------------------

    method PersistLocked(disk: bool) returns (ok: bool)
      modifies this`file
      ensures View() == Persist(old(View()), disk)
      ensures ok <==> PersistOk(old(View()), disk)
    {
      if !durable { return true; }
      var st: map<string, seq<Msg>>, names := map[], boxes.Keys;
      while names != {}
        invariant names <= boxes.Keys
        invariant st == map n | n in boxes && n !in names && boxes[n].q != [] :: boxes[n].q
        decreases |names|
      {
        var n :| n in names;
        names := names - {n};
        if |boxes[n].q| > 0 { st := st[n := boxes[n].q]; }
      }
      if !disk { return false; }
      file := Some(Snapshot(st, inflight));
      assert st == SnapshotOf(old(View())).boxes;
      return true;
    }

    // -------------------------------------------------------------------------
    // Channels and boxes
    // -------------------------------------------------------------------------

    method Send(c: nat, m: Msg)
      requires c in chans && chans[c].open && chans[c].buf.None?
      modifies this`chans
      ensures chans == old(chans)[c := old(chans)[c].(buf := Some(m))]
    {
      chans := chans[c := chans[c].(buf := Some(m))];
    }

    method CloseChan(c: nat)
      requires c in chans && chans[c].open
      modifies this`chans
      ensures chans == old(chans)[c := old(chans)[c].(open := false)]
    {
      chans := chans[c := chans[c].(open := false)];
    }

    method BoxLocked(name: string) returns (bx: Box)
      requires Distinct(boxes)
      modifies this`boxes
      ensures Distinct(boxes) && Boxes(boxes) == Boxes(old(boxes)) + {bx}
      ensures bx in Boxes(old(boxes)) || fresh(bx)
      ensures name in boxes && boxes[name] == bx
      ensures View() == EnsureBox(old(View()), name)
    {
      if name in boxes {
        assert Boxes(boxes) == Boxes(boxes) + {boxes[name]};
        return boxes[name];
      }
      bx := AddBox(name, []);
    }

    /** Only the box of `n` was written. */
    twostate lemma BoxWritten(n: string)
      requires Distinct(boxes) && boxes == old(boxes) && n in boxes
      requires forall k | k in boxes && k != n :: boxes[k].q == old(boxes[k].q) && boxes[k].waiters == old(boxes[k].waiters)
      ensures Contents() == old(Contents())[n := MailboxSpec.Box(boxes[n].q, boxes[n].waiters)]
    {
    }

    method Prepend(bx: Box, ghost n: string, m: Msg)
      requires Distinct(boxes) && n in boxes && boxes[n] == bx
      modifies bx`q, this`dedup
      ensures View() == PushFront(old(View()), n, m)
    {
      bx.q := [m] + bx.q;
      IndexAddLocked(m);
      BoxWritten(n);
    }

    method PopHead(bx: Box, ghost n: string) returns (m: Msg)
      requires Distinct(boxes) && n in boxes && boxes[n] == bx && bx.q != []
      modifies bx`q, this`dedup
      ensures m == old(bx.q)[0] && View() == PopFront(old(View()), n)
    {
      m := bx.q[0];
      bx.q := bx.q[1..];
      IndexDelLocked(m);
      BoxWritten(n);
    }

    method GiveOldest(bx: Box, ghost n: string, m: Msg)
      requires Distinct(boxes) && n in boxes && boxes[n] == bx && bx.waiters != []
      requires bx.waiters[0] in chans && chans[bx.waiters[0]].open && chans[bx.waiters[0]].buf.None?
      modifies bx`waiters, this`chans
      ensures View() == HandOver(old(View()), n, m)
    {
      var w := bx.waiters[0];
      bx.waiters := bx.waiters[1..];
      Send(w, m);
      CloseChan(w);
      BoxWritten(n);
    }

    method DeliverLocked(m: Msg)
      requires Distinct(boxes) && Inv(View()) && m.name != ""
      modifies this`boxes, this`dedup, this`chans, Boxes(boxes)
      ensures View() == Deliver(old(View()), m)
      ensures Distinct(boxes)
      ensures forall x | x in Boxes(boxes) :: x in Boxes(old(boxes)) || fresh(x)
      ensures Inv(View())
    {
      ghost var b := View();
      hide Inv, HandOver, PushFront, Contents, Distinct, Boxes;
      assert Inv(EnsureBox(b, m.name)) by { EnsureBoxKeeps(b, m.name); }
      var bx := BoxLocked(m.name);
      hide EnsureBox;
      if |bx.waiters| > 0 {
        MailboxLeases.HeadWaiter(View(), m.name);
        GiveOldest(bx, m.name, m);
      } else {
        Prepend(bx, m.name, m);
      }
      assert Inv(View()) by { DeliverKeeps(b, m); }
    }

    /** Appends to the queue and snapshots; a failed snapshot is rolled back. */
    method Enqueue(bx: Box, ghost n: string, m: Msg, disk: bool) returns (r: Result<()>)
      requires Distinct(boxes) && n in boxes && boxes[n] == bx
      modifies bx`q, this`dedup, this`file
      ensures Outcome(View(), r) == Append(old(View()), n, m, disk)
    {
      hide IndexAdd, IndexDel, SnapshotOf, Contents;
      bx.q := bx.q + [m];
      IndexAddLocked(m);
      BoxWritten(n);
      assert View() == PushBack(old(View()), n, m);
      var ok := PersistLocked(disk);
      if ok { return Ok(()); }
      label Popping:
      bx.q := bx.q[..|bx.q| - 1];
      IndexDelLocked(m);
      BoxWritten@Popping(n);
      return Err(DiskError);
    }

    /** Pops the queue and snapshots; a failed snapshot is rolled back. */
    method Dequeue(bx: Box, ghost n: string, disk: bool) returns (r: Result<Msg>)
      requires Distinct(boxes) && n in boxes && boxes[n] == bx && bx.q != []
      modifies bx`q, this`dedup, this`file
      ensures Outcome(View(), r) == TakeHead(old(View()), n, disk)
    {
      hide IndexAdd, IndexDel, SnapshotOf, Contents;
      var m := PopHead(bx, n);
      var ok := PersistLocked(disk);
      if ok { return Ok(m); }
      Prepend(bx, n, m);
      return Err(DiskError);
    }

    method RequeueExpiredLocked(now: int) returns (changed: bool, ghost order: seq<string>)
      requires Distinct(boxes) && Inv(View())
      modifies this`boxes, this`dedup, this`inflight, this`chans, Boxes(boxes)
      ensures Distinct(boxes)
      ensures forall x | x in Boxes(boxes) :: x in Boxes(old(boxes)) || fresh(x)
      ensures IsOrder(order, old(inflight))
      ensures View() == RequeueExpired(old(View()), now, order)
      ensures changed <==> AnyExpired(old(View()), now)
    {
      ghost var b := View();
      var ids := inflight.Keys;
      changed, order := false, [];
      while ids != {}
        invariant Distinct(boxes) && (forall x | x in Boxes(boxes) :: x in Boxes(old(boxes)) || fresh(x)) && Inv(View())
        invariant View() == RequeueExpired(b, now, order)
        invariant NoDup(order) && forall k :: k in order <==> k in b.inflight && k !in ids
        invariant ids <= b.inflight.Keys
        invariant forall k | k in ids :: k in inflight && inflight[k] == b.inflight[k]
        invariant changed <==> exists k | k in order :: Expired(b, k, now)
        decreases |ids|
      {
        hide Inv, RequeueExpired, Release, Contents;
        var id :| id in ids;
        ids := ids - {id};
        assert Expired(View(), id, now) <==> Expired(b, id, now);
        RequeueSnoc(b, now, order, id);
        NoDupSnoc(order, id);
        if now > inflight[id].expires { ReleaseLocked(id); changed := true; }
        order := order + [id];
      }
    }

    /** A lease ends and its message goes back. */
    method ReleaseLocked(id: string)
      requires Distinct(boxes) && Inv(View()) && id in inflight
      modifies this`boxes, this`dedup, this`inflight, this`chans, Boxes(boxes)
      ensures View() == Release(old(View()), id)
      ensures Distinct(boxes) && Inv(View())
      ensures forall x | x in Boxes(boxes) :: x in Boxes(old(boxes)) || fresh(x)
      ensures inflight == old(inflight) - {id}
    {
      ghost var b := View();
      var d := inflight[id];
      assert d.msg.name != "";
      assert Inv(DropLease(b, id)) by { DropLeaseKeeps(b, id); }
      hide Inv, IndexDel, Contents;
      inflight := inflight - {id};
      IndexDelLocked(d.msg);
      assert View() == DropLease(b, id);
      hide DropLease, Deliver;
      DeliverLocked(d.msg);
    }

    // -------------------------------------------------------------------------
    // Jobs
    // -------------------------------------------------------------------------

    method Put(name: string, m: Msg, gen: string, now: int, disk: bool) returns (r: Result<()>)
      requires ValidJobs()
      modifies this`boxes, this`dedup, this`inflight, this`file, this`chans, this`next, Boxes(boxes)
      ensures Outcome(View(), r) == MailboxSpec.Put(old(View()), name, m, gen, now, disk)
      ensures ValidJobs()
      ensures forall x | x in Boxes(boxes) :: x in Boxes(old(boxes)) || fresh(x)
    {
      ghost var b := View();
      hide Admit, Contents, Distinct, Boxes;
      if name == "" { return Err(BadName); }
      if |m.body| > maxBody { return Err(TooLarge); }
      var msg := m.(name := name);
      if msg.id == "" { msg := msg.(id := gen); }
      if msg.at == 0 { msg := msg.(at := now); }
      if closed { return Err(Closed); }
      assert Inv(EnsureBox(b, name)) by { EnsureBoxKeeps(b, name); }
      assert msg == Stamped(m, name, gen, now);
      hide Inv, EnsureBox, Stamped;
      var bx := BoxLocked(name);
      r := Offer(bx, msg, disk);
      assert View() == MailboxSpec.Put(b, name, m, gen, now, disk).bus;
      assert Inv(View()) by { PutKeeps(b, name, m, gen, now, disk); }
    }

    /** Put under the lock. */
    method Offer(bx: Box, m: Msg, disk: bool) returns (r: Result<()>)
      requires Distinct(boxes) && Inv(View()) && m.name in boxes && boxes[m.name] == bx
      modifies bx, this`dedup, this`file, this`chans
      ensures Outcome(View(), r) == Admit(old(View()), m, disk)
    {
      ghost var b := View();
      assert bx.waiters != [] ==> b.chans[bx.waiters[0]] == Chan(m.name, None, true) by {
        if bx.waiters != [] { MailboxLeases.HeadWaiter(b, m.name); }
      }
      assert bx.waiters != [] ==> bx.waiters[0] in chans;
      hide Inv, Append, HandOver, Contents;
      if IndexedLocked(m.name, m.id) { return Ok(()); }
      if |bx.waiters| > 0 {
        GiveOldest(bx, m.name, m);
        return Ok(());
      }
      if |bx.q| >= maxQueue { return Err(Dropped); }
      r := Enqueue(bx, m.name, m, disk);
    }

    /** The locked part of Take. */
    method TakeChan(name: string, now: int, disk: bool) returns (r: Result<nat>, ghost order: seq<string>)
      requires ValidJobs()
      modifies this`boxes, this`dedup, this`inflight, this`file, this`chans, this`next, Boxes(boxes)
      ensures r == Err(BadName) || r == Err(Closed) || IsOrder(order, old(inflight))
      ensures Outcome(View(), r) == MailboxSpec.TakeChan(old(View()), name, now, order, disk)
      ensures ValidJobs()
      ensures forall x | x in Boxes(boxes) :: x in Boxes(old(boxes)) || fresh(x)
    {
      order := [];
      ghost var b := View();
      hide Inv, RequeueExpired, TakeHead, Contents, AnyExpired, Distinct, Boxes;
      if name == "" { return Err(BadName), order; }
      if closed { return Err(Closed), order; }
      var changed;
      changed, order := RequeueExpiredLocked(now);
      ghost var swept := Boxes(boxes);
      var bx := BoxLocked(name);
      assert (forall x | x in Boxes(boxes) :: x in Boxes(old(boxes)) || fresh(x)) by {
        assert Boxes(boxes) == swept + {bx};
      }
      hide EnsureBox, Serve, Park;
      if |bx.q| > 0 {
        var o := Dequeue(bx, name, disk);
        if o.Err? {
          r := Err(o.error);
        } else {
          var c := ServeLocked(name, o.value);
          r := Ok(c);
        }
      } else {
        var c := ParkLocked(bx, name);
        r := Ok(c);
      }
      assert View() == MailboxSpec.TakeChan(b, name, now, order, disk).bus;
      assert Inv(View()) by { TakeChanKeeps(b, name, now, order, disk); }
    }

    method ParkLocked(bx: Box, name: string) returns (c: nat)
      requires Distinct(boxes) && name in boxes && boxes[name] == bx
      modifies bx`waiters, this`chans, this`next
      ensures View() == Park(old(View()), name) && c == old(next)
    {
      hide Contents;
      c := next;
      chans := chans[c := Chan(name, None, true)];
      bx.waiters := bx.waiters + [c];
      next := c + 1;
      BoxWritten(name);
    }

    method ServeLocked(name: string, m: Msg) returns (c: nat)
      modifies this`chans, this`next
      ensures View() == Serve(old(View()), name, m) && c == old(next)
    {
      hide Contents;
      c := next;
      chans := chans[c := Chan(name, Some(m), false)];
      next := c + 1;
    }

    /** The taker receives; a closed channel with nothing in it reads as ErrClosed. */
    method Receive(c: nat) returns (r: Result<Msg>)
      requires ValidJobs() && c in chans && !chans[c].open
      modifies this`chans
      ensures Outcome(View(), r) == MailboxSpec.Receive(old(View()), c)
      ensures ValidJobs()
    {
      hide Inv, Contents;
      var ch := chans[c];
      chans := chans - {c};
      r := if ch.buf.Some? then Ok(ch.buf.value) else Err(Closed);
      assert View() == MailboxSpec.Receive(old(View()), c).bus;
      assert Inv(View()) by { ReceiveKeeps(old(View()), c); }
    }

    method CancelWaiter(name: string, c: nat, disk: bool)
      requires ValidJobs() && c in chans && chans[c].name == name
      modifies this`boxes, this`dedup, this`inflight, this`file, this`chans, this`next, Boxes(boxes)
      ensures View() == MailboxSpec.CancelWaiter(old(View()), name, c, disk)
      ensures ValidJobs()
      ensures forall x | x in Boxes(boxes) :: x in Boxes(old(boxes)) || fresh(x)
    {
      ghost var b := View();
      hide Inv, IndexAdd, SnapshotOf, Contents, Distinct, Boxes;
      ChanNamed(b, c);
      var bx, ch := boxes[name], chans[c];
      FilterWaiters(bx, name, c);
      chans := chans - {c};
      assert View() == Unpark(b, name, c);
      hide Unpark, PushFront, Persist;
      if ch.buf.Some? { PutBack(bx, name, ch.buf.value, disk); }
      assert View() == MailboxSpec.CancelWaiter(b, name, c, disk);
      assert Inv(View()) by { CancelWaiterKeeps(b, c, disk); }
    }

    method PutBack(bx: Box, ghost name: string, m: Msg, disk: bool)
      requires Distinct(boxes) && name in boxes && boxes[name] == bx
      modifies bx`q, this`dedup, this`file
      ensures View() == Persist(PushFront(old(View()), name, m), disk)
    {
      hide PushFront, SnapshotOf, Contents;
      Prepend(bx, name, m);
      var _ := PersistLocked(disk);
    }

    method FilterWaiters(bx: Box, ghost name: string, c: nat)
      requires Distinct(boxes) && name in boxes && boxes[name] == bx
      modifies bx`waiters
      ensures Contents() == old(Contents())[name := MailboxSpec.Box(bx.q, Without(old(bx.waiters), c))]
    {
      var out: seq<nat> := [];
      for i := 0 to |bx.waiters|
        invariant bx.waiters == old(bx.waiters) && out == Without(bx.waiters[..i], c)
        modifies {}
      {
        assert bx.waiters[..i + 1] == bx.waiters[..i] + [bx.waiters[i]];
        WithoutLast(bx.waiters[..i], c, bx.waiters[i]);
        if bx.waiters[i] != c { out := out + [bx.waiters[i]]; }
      }
      assert bx.waiters[..|bx.waiters|] == bx.waiters;
      bx.waiters := out;
      BoxWritten(name);
    }

    method TryTake(name: string, now: int, disk: bool) returns (r: Result<Msg>, ghost order: seq<string>)
      requires ValidJobs()
      modifies this`boxes, this`dedup, this`inflight, this`file, this`chans, this`next, Boxes(boxes)
      ensures r == Err(BadName) || r == Err(Closed) || IsOrder(order, old(inflight))
      ensures Outcome(View(), r) == MailboxSpec.TryTake(old(View()), name, now, order, disk)
      ensures ValidJobs()
      ensures forall x | x in Boxes(boxes) :: x in Boxes(old(boxes)) || fresh(x)
    {
      order := [];
      ghost var b := View();
      hide Inv, RequeueExpired, TakeHead, Contents, AnyExpired, Distinct, Boxes;
      if name == "" { return Err(BadName), order; }
      if closed { return Err(Closed), order; }
      var changed;
      changed, order := RequeueExpiredLocked(now);
      if name !in boxes || |boxes[name].q| == 0 {
        r := Err(Empty);
      } else {
        r := Dequeue(boxes[name], name, disk);
      }
      assert View() == MailboxSpec.TryTake(b, name, now, order, disk).bus;
      assert Inv(View()) by { TryTakeKeeps(b, name, now, order, disk); }
    }

    method Hold(m: Msg, lease: int, id: string, now: int, disk: bool) returns (r: Result<Delivery>)
      requires ValidJobs() && id !in inflight
      modifies this`dedup, this`inflight, this`file
      ensures Outcome(View(), r) == MailboxSpec.Hold(old(View()), m, lease, id, now, disk)
      ensures ValidJobs()
    {
      hide Inv, AddLease, DropLease, SnapshotOf, Contents;
      if m.name == "" { return Err(BadName); }
      var term := lease;
      if term <= 0 { term := MINUTE; }
      if closed { return Err(Closed); }
      var d := Delivery(id, m, now + term);
      var ok := LeaseLocked(d, disk);
      r := if ok then Ok(d) else Err(DiskError);
      assert View() == MailboxSpec.Hold(old(View()), m, lease, id, now, disk).bus;
      assert Inv(View()) by { HoldKeeps(old(View()), m, lease, id, now, disk); }
    }

    /** Adds the lease and snapshots; a failed snapshot is rolled back. */
    method LeaseLocked(d: Delivery, disk: bool) returns (ok: bool)
      modifies this`dedup, this`inflight, this`file
      ensures ok <==> PersistOk(AddLease(old(View()), d), disk)
      ensures View() == if ok then Persist(AddLease(old(View()), d), disk) else DropLease(AddLease(old(View()), d), d.id)
    {
      hide IndexAdd, IndexDel, SnapshotOf, Contents;
      inflight := inflight[d.id := d];
      IndexAddLocked(d.msg);
      assert View() == AddLease(old(View()), d);
      ok := PersistLocked(disk);
      if !ok {
        inflight := inflight - {d.id};
        IndexDelLocked(d.msg);
      }
    }

    method Ack(id: string, disk: bool) returns (r: Result<()>)
      requires ValidJobs()
      modifies this`dedup, this`inflight, this`file
      ensures Outcome(View(), r) == MailboxSpec.Ack(old(View()), id, disk)
      ensures ValidJobs()
    {
      hide Inv, IndexAdd, IndexDel, SnapshotOf, Contents;
      if id !in inflight { return Err(NotFound); }
      var d := inflight[id];
      inflight := inflight - {id};
      IndexDelLocked(d.msg);
      assert View() == DropLease(old(View()), id);
      var ok := PersistLocked(disk);
      r := if ok then Ok(()) else Err(DiskError);
      assert View() == MailboxSpec.Ack(old(View()), id, disk).bus;
      assert Inv(View()) by { AckKeeps(old(View()), id, disk); }
    }

    method Nack(id: string, disk: bool) returns (r: Result<()>)
      requires ValidJobs()
      modifies this`boxes, this`dedup, this`inflight, this`file, this`chans, this`next, Boxes(boxes)
      ensures Outcome(View(), r) == MailboxSpec.Nack(old(View()), id, disk)
      ensures ValidJobs()
      ensures forall x | x in Boxes(boxes) :: x in Boxes(old(boxes)) || fresh(x)
    {
      hide Inv, Release, SnapshotOf, Contents;
      if id !in inflight { return Err(NotFound); }
      ReleaseLocked(id);
      var ok := PersistLocked(disk);
      r := if ok then Ok(()) else Err(DiskError);
      assert View() == MailboxSpec.Nack(old(View()), id, disk).bus;
      assert Inv(View()) by { NackKeeps(old(View()), id, disk); }
    }

    method Requeue(m: Msg, disk: bool) returns (r: Result<()>)
      requires ValidJobs()
      modifies this`boxes, this`dedup, this`inflight, this`file, this`chans, this`next, Boxes(boxes)
      ensures Outcome(View(), r) == MailboxSpec.Requeue(old(View()), m, disk)
      ensures ValidJobs()
      ensures forall x | x in Boxes(boxes) :: x in Boxes(old(boxes)) || fresh(x)
    {
      hide Inv, Deliver, SnapshotOf, Contents;
      if m.name == "" { return Err(BadName); }
      if closed { return Err(Closed); }
      DeliverLocked(m);
      var ok := PersistLocked(disk);
      r := if ok then Ok(()) else Err(DiskError);
      assert View() == MailboxSpec.Requeue(old(View()), m, disk).bus;
      assert Inv(View()) by { RequeueKeeps(old(View()), m, disk); }
    }

    /** Reserve without waiting: a message whose lease cannot be written is put back. */
    method TryReserve(name: string, lease: int, id: string, now: int, diskTake: bool, diskHold: bool, diskBack: bool)
      returns (r: Result<Delivery>, ghost order: seq<string>)
      requires ValidJobs() && id !in inflight
      modifies this`boxes, this`dedup, this`inflight, this`file, this`chans, this`next, Boxes(boxes)
      ensures var o := MailboxSpec.TryTake(old(View()), name, now, order, diskTake);
        if o.result.Err? then View() == o.bus && r == Err(o.result.error)
        else
          var h := MailboxSpec.Hold(o.bus, o.result.value, lease, id, now, diskHold);
          r == h.result && View() == if r.Ok? then h.bus else MailboxSpec.Requeue(h.bus, o.result.value, diskBack).bus
      ensures ValidJobs()
      ensures forall x | x in Boxes(boxes) :: x in Boxes(old(boxes)) || fresh(x)
    {
      hide Inv, MailboxSpec.TryTake, MailboxSpec.Hold, MailboxSpec.Requeue, Contents, Distinct;
      ghost var b := View();
      var o;
      o, order := TryTake(name, now, diskTake);
      if o.Err? { return Err(o.error), order; }
      assert id !in inflight by { TryTakeKeeps(b, name, now, order, diskTake); }
      r := Hold(o.value, lease, id, now, diskHold);
      if r.Err? {
        var _ := Requeue(o.value, diskBack);
      }
    }

    method ExpireLeases(now: int, disk: bool) returns (ghost order: seq<string>)
      requires ValidJobs()
      modifies this`boxes, this`dedup, this`inflight, this`file, this`chans, this`next, Boxes(boxes)
      ensures old(closed) || IsOrder(order, old(inflight))
      ensures View() == MailboxSpec.ExpireLeases(old(View()), now, order, disk)
      ensures ValidJobs()
      ensures forall x | x in Boxes(boxes) :: x in Boxes(old(boxes)) || fresh(x)
    {
      order := [];
      hide Inv, RequeueExpired, AnyExpired, SnapshotOf, Contents;
      if closed { return; }
      var changed;
      changed, order := RequeueExpiredLocked(now);
      if changed {
        var _ := PersistLocked(disk);
      }
      assert View() == MailboxSpec.ExpireLeases(old(View()), now, order, disk);
      assert Inv(View()) by { ExpireLeasesKeeps(old(View()), now, order, disk); }
    }

    // -------------------------------------------------------------------------
    // Closing
    // -------------------------------------------------------------------------

    method Close()
      requires ValidJobs() && ValidTopics()
      modifies this`closed, this`chans, this`subs, this`feeds, Boxes(boxes)
      ensures View() == MailboxSpec.Close(old(View())) && Board() == CloseTopics(old(Board()))
      ensures ValidJobs() && ValidTopics() && boxes == old(boxes)
    {
      if closed {
        ClosedAlready();
        return;
      }
      assert TopicRuns.SubsOk(Board().(closed := true));
      hide Inv, TopicRuns.SubsOk, View, Board, Distinct, MailboxSpec.Close, CloseFeeds;
      CloseJobs();
      CloseBoard();
    }

    lemma ClosedAlready()
      requires closed
      ensures View() == MailboxSpec.Close(View()) && Board() == CloseTopics(Board())
    {
    }

    method CloseJobs()
      requires ValidJobs() && !closed
      modifies this`closed, this`chans, Boxes(boxes)
      ensures View() == MailboxSpec.Close(old(View())) && closed
      ensures Board() == old(Board()).(closed := true)
      ensures ValidJobs()
    {
      ghost var b := View();
      hide Inv, AllClosable, Contents, Distinct, MailboxSpec.Close;
      assert AllClosable(b) by { CloseKeeps(b); }
      closed := true;
      CloseBoxes(b);
      assert Inv(View()) by { CloseKeeps(b); }
    }

    method CloseBoxes(ghost b: MailboxSpec.Bus)
      requires Distinct(boxes) && !b.closed && View() == b.(closed := true) && AllClosable(b)
      modifies this`chans, Boxes(boxes)
      ensures View() == MailboxSpec.Close(b)
    {
      ClosingStarts(b);
      ClosingEnds(b);
      hide AllClosable, ClosedBoxes, ClosedChans, Shut, Distinct, MailboxSpec.Close;
      var names := boxes.Keys;
      while names != {}
        invariant names <= boxes.Keys
        invariant Contents() == ClosedBoxes(b, names) && chans == ClosedChans(b, names)
        decreases |names|
      {
        var n :| n in names;
        ClosingStep(b, names, n);
        CloseBox(boxes[n], n);
        names := names - {n};
      }
    }

    method CloseBox(bx: Box, ghost n: string)
      requires Distinct(boxes) && n in boxes && boxes[n] == bx
      requires NoDup(bx.waiters) && forall i :: 0 <= i < |bx.waiters| ==> bx.waiters[i] in chans && chans[bx.waiters[i]].open
      modifies bx, this`chans
      ensures Contents() == old(Contents())[n := MailboxSpec.Box([], [])]
      ensures chans == Shut(old(chans), old(bx.waiters))
    {
      var ws := bx.waiters;
      for i := 0 to |ws|
        invariant bx.waiters == ws && chans == Shut(old(chans), ws[..i])
        modifies this`chans
      {
        assert ws[i] !in ws[..i];
        CloseChan(ws[i]);
        assert ws[..i + 1] == ws[..i] + [ws[i]];
      }
      assert ws[..|ws|] == ws;
      bx.waiters := [];
      bx.q := [];
      BoxWritten(n);
    }

    method CloseBoard()
      requires TopicRuns.SubsOk(Board())
      modifies this`subs, this`feeds
      ensures Board() == CloseFeeds(old(Board()), old(Board()).subs).(subs := []) && TopicRuns.SubsOk(Board())
      ensures View() == old(View())
    {
      hide Contents, TopicRuns.SubsOk, CloseFeeds;
      CloseSubs();
    }

    method CloseSubs()
      requires TopicRuns.SubsOk(Board())
      modifies this`subs, this`feeds
      ensures Board() == CloseFeeds(old(Board()), old(subs)).(subs := []) && TopicRuns.SubsOk(Board())
    {
      ghost var t := Board();
      for i := 0 to |subs|
        invariant subs == t.subs && CloseFeeds(t.(feeds := feeds), t.subs[i..]) == CloseFeeds(t, t.subs)
        invariant forall j :: i <= j < |subs| ==> subs[j].ch in feeds && feeds[subs[j].ch].open
        modifies this`feeds
      {
        CloseSub(subs[i].ch);
      }
      subs := [];
      ClosingOk(t);
    }

    method CloseSub(ch: nat)
      requires ch in feeds && feeds[ch].open
      modifies this`feeds
      ensures feeds == old(feeds)[ch := old(feeds)[ch].(open := false)]
    {
      feeds := feeds[ch := feeds[ch].(open := false)];
    }

    // -------------------------------------------------------------------------
    // Topics
    // -------------------------------------------------------------------------

    /** A send that gives up when the channel is full. */
    method OfferFeed(ch: nat, m: Msg)
      requires ch in feeds && feeds[ch].open
      modifies this`feeds
      ensures feeds == old(feeds)[ch := Offered(old(feeds)[ch], m)]
    {
      var f := feeds[ch];
      if |f.buf| < FEED_SLOTS { f := f.(buf := f.buf + [m]); }
      feeds := feeds[ch := f];
    }

    method Pub(topic: string, m: Msg, now: int) returns (r: Result<()>, ghost evict: string)
      requires ValidTopics()
      modifies this`last, this`feeds
      ensures old(last) != map[] ==> evict in old(last)
      ensures (Board(), r) == TopicSpec.Pub(old(Board()), topic, m, now, evict)
      ensures ValidTopics()
    {
      evict := "";
      if last != map[] { ghost var k :| k in last; evict := k; }
      if topic == "" { return Err(BadName), evict; }
      if |m.body| > maxBody { return Err(TooLarge), evict; }
      var msg := m.(name := topic);
      if msg.at == 0 { msg := msg.(at := now); }
      if closed { return Err(Closed), evict; }
      evict := Remember(topic, msg);
      hide OfferAll, Cached;
      OfferSubs(topic, msg);
      r := Ok(());
    }

    method OfferSubs(topic: string, m: Msg)
      requires TopicRuns.SubsOk(Board())
      modifies this`feeds
      ensures Board() == OfferAll(old(Board()), subs, topic, m) && TopicRuns.SubsOk(Board())
    {
      ghost var t := Board();
      for i := 0 to |subs|
        invariant OfferAll(t.(feeds := feeds), subs[i..], topic, m) == OfferAll(t, subs, topic, m)
        invariant feeds.Keys == t.feeds.Keys && forall c | c in feeds :: feeds[c].open == t.feeds[c].open
        modifies this`feeds
      {
        if MatchTopic(topic, subs[i].prefix) { OfferFeed(subs[i].ch, m); }
      }
    }

    /** The cache, after room was made for a new topic by dropping an arbitrary one. */
    method Remember(topic: string, m: Msg) returns (ghost evict: string)
      requires |last| <= MAX_CACHED_TOPICS
      modifies this`last
      ensures old(last) != map[] ==> evict in old(last)
      ensures last == Cached(old(last), topic, m, evict) && |last| <= MAX_CACHED_TOPICS
    {
      evict := "";
      if last != map[] { ghost var k :| k in last; evict := k; }
      ghost var before := last;
      if topic !in last && |last| >= MAX_CACHED_TOPICS {
        var k :| k in last;
        evict := k;
        last := last - {k};
      }
      TopicRuns.CachedKeeps(before, topic, m, evict);
      last := last[topic := m];
    }

    method Sub(prefix: string) returns (r: Result<nat>, ghost order: seq<string>)
      requires ValidTopics()
      modifies this`subs, this`feeds, this`nextFeed
      ensures old(closed) || IsOrder(order, last)
      ensures (Board(), r) == TopicSpec.Sub(old(Board()), prefix, order)
      ensures ValidTopics()
    {
      order := [];
      if closed { return Err(Closed), order; }
      ghost var t := Board();
      var ch := nextFeed;
      nextFeed := ch + 1;
      subs := subs + [Subscription(prefix, ch)];
      feeds := feeds[ch := Feed([], true)];
      var topics := last.Keys;
      while topics != {}
        invariant topics <= last.Keys
        invariant NoDup(order) && forall k :: k in order <==> k in last && k !in topics
        invariant feeds == t.feeds[ch := Filled(Feed([], true), Replay(last, order, prefix))]
        invariant feeds[ch].open
        modifies this`feeds
        decreases |topics|
      {
        var k :| k in topics;
        topics := topics - {k};
        NoDupSnoc(order, k);
        TopicOutcomes.ReplayLast(last, order, k, prefix);
        FilledSnoc(Feed([], true), Replay(last, order, prefix), last[k]);
        if MatchTopic(k, prefix) {
          OfferFeed(ch, last[k]);
        } else {
          assert Replay(last, order, prefix) + [] == Replay(last, order, prefix);
        }
        order := order + [k];
      }
      TopicRuns.SubscribedOk(t, Board(), prefix);
      r := Ok(ch);
    }

    method Unsub(ch: nat)
      requires ValidTopics()
      modifies this`subs, this`feeds
      ensures Board() == TopicSpec.Unsub(old(Board()), ch)
      ensures ValidTopics()
    {
      ghost var t := Board();
      var out: seq<Subscription> := [];
      for i := 0 to |subs|
        invariant subs == t.subs && out == SubsWithout(subs[..i], ch)
        invariant feeds == if Subscribed(subs[..i], ch) then CloseFeed(t, ch).feeds else t.feeds
        modifies this`feeds
      {
        var s := subs[i];
        UnsubStep(subs, i, ch);
        hide SubsWithout, Subscribed;
        if s.ch != ch {
          out := out + [s];
        } else {
          CloseSub(s.ch);
        }
      }
      assert subs[..|subs|] == subs;
      subs := out;
      assert Board() == TopicSpec.Unsub(t, ch);
      assert ValidTopics() by {
        TopicRuns.SubsWithoutDistinct(t.subs, ch);
        TopicRuns.UnsubOk(t, ch);
      }
    }
  }
}
