/** What each operation answers and does, read off its queues, waiters, channels, leases and
    file alone: when it fails and with which error, what it leaves unchanged, and exactly what
    it changes otherwise. */
module MailboxOutcomes {
  import opened Bags
  import opened MailboxSpec
  import opened MailboxInvariant
  import opened MailboxSteps
  import opened MailboxLeases
  import opened MailboxWaiters

  // ---------------------------------------------------------------------------
  // Vocabulary
  // ---------------------------------------------------------------------------

  /** Every other mailbox is as before. */
  ghost predicate OthersSame(b: Bus, r: Bus, n: string) {
    forall k: string | k != n :: BoxOf(r, k) == BoxOf(b, k)
  }

  ghost predicate BoxesSame(b: Bus, r: Bus) {
    forall k: string :: BoxOf(r, k) == BoxOf(b, k)
  }

  ghost predicate ChansSame(b: Bus, r: Bus) {
    r.chans == b.chans && r.next == b.next
  }

  /** The file holds the queue of every mailbox that has one, in order, and every lease. */
  ghost predicate Saved(f: Option<Snapshot>, b: Bus) {
    && f.Some? && f.value.inflight == b.inflight
    && (forall n | n in f.value.boxes :: BoxOf(b, n).q != [])
    && (forall n: string | BoxOf(b, n).q != [] :: n in f.value.boxes && f.value.boxes[n] == BoxOf(b, n).q)
  }

  /** A write that succeeds saves the new state; one that fails, or a bus without a file, leaves
      the file alone. */
  ghost predicate Writes(b: Bus, r: Bus, disk: bool) {
    if b.durable && disk then Saved(r.file, r) else r.file == b.file
  }

  predicate WriteFails(b: Bus, disk: bool) { b.durable && !disk }

  /** A queued or leased message has the key of (name, id). */
  ghost predicate HoldsKey(b: Bus, name: string, id: string) {
    id != "" && exists m | m in Held(b) :: m.id != "" && m.name != "" && m.name + "\0" + m.id == name + "\0" + id
  }

  /** `p` is what a Put of `m` to `name` keeps. */
  predicate IsPut(p: Msg, name: string, m: Msg, gen: string, now: int) {
    && p.name == name && p.from == m.from && p.body == m.body
    && p.id == (if m.id != "" then m.id else gen)
    && p.at == (if m.at != 0 then m.at else now)
  }

  /** The oldest waiter of `n` got `m`, its channel is closed, and no other channel changed. */
  ghost predicate OldestGets(b: Bus, r: Bus, n: string, m: Msg) {
    var ws := BoxOf(b, n).waiters;
    && ws != [] && BoxOf(r, n) == Box(BoxOf(b, n).q, ws[1..])
    && r.chans == b.chans[ws[0] := Chan(n, Some(m), false)] && r.next == b.next
  }

  /** `m` went back to its mailbox: to the oldest waiter, or to the front of the queue. */
  ghost predicate GoesBack(b: Bus, r: Bus, m: Msg) {
    && OthersSame(b, r, m.name)
    && if BoxOf(b, m.name).waiters != [] then OldestGets(b, r, m.name, m)
       else BoxOf(r, m.name) == Box([m] + BoxOf(b, m.name).q, []) && ChansSame(b, r)
  }

  lemma {:induction false} InImage(ms: multiset<Msg>, k: string)
    ensures k in Image(KeyOf, ms) <==> exists m | m in ms :: k in KeyOf(m)
    decreases |ms|
  {
    if ms == multiset{} {
      ImageEmpty(KeyOf, ms);
    } else {
      var m :| m in ms;
      var rest := ms - multiset{m};
      InImage(rest, k);
      ImageRemove(KeyOf, ms, m);
      assert forall x :: x in ms <==> x == m || x in rest;
      hide KeyOf;
    }
  }

  /** The index knows a key exactly when a queued or leased message has it. */
  lemma IndexedIff(b: Bus, name: string, id: string)
    requires Inv(b) && !b.closed && name != ""
    ensures Indexed(b, name, id) <==> HoldsKey(b, name, id)
  {
    InImage(Held(b), DedupKey(name, id));
    assert Exact(b.dedup, Image(KeyOf, Held(b)));
    hide Held;
  }

  lemma PersistSaves(b: Bus, disk: bool)
    ensures Writes(b, Persist(b, disk), disk)
  {
  }

  // ---------------------------------------------------------------------------
  // Opening and reopening
  // ---------------------------------------------------------------------------

  /** Limits that are not positive are the defaults: 1024 messages, bodies of one mebibyte. */
  lemma OpenSays(maxQueue: int, maxBody: int, durable: bool)
    ensures var b := Open(maxQueue, maxBody, durable);
      && b.maxQueue == (if maxQueue > 0 then maxQueue else 1024) && b.maxBody == (if maxBody > 0 then maxBody else 1048576)
      && b.durable == durable && !b.closed && b.file == None
      && b.boxes == map[] && b.inflight == map[] && b.dedup == map[] && b.chans == map[]
  {
  }

  /** A reopened bus has exactly the stored mailboxes, each with its queue in the stored order
      and nobody waiting, and exactly the stored leases. */
  lemma ReopenSays(maxQueue: int, maxBody: int, f: Snapshot)
    ensures var b := Reopen(maxQueue, maxBody, f);
      && b.maxQueue == (if maxQueue > 0 then maxQueue else 1024) && b.maxBody == (if maxBody > 0 then maxBody else 1048576)
      && b.durable && !b.closed && b.file == Some(f) && b.chans == map[]
      && b.boxes.Keys == f.boxes.Keys && (forall n | n in f.boxes :: b.boxes[n] == Box(f.boxes[n], []))
      && b.inflight == f.inflight
  {
  }

  /** Reopening what a write saved brings back every queue in its order, and every lease with
      its message and its expiry. */
  lemma ReopenKeepsOrder(b: Bus, disk: bool, maxQueue: int, maxBody: int, n: string)
    requires b.durable && disk
    ensures var f := Persist(b, disk).file;
      && f.Some?
      && var r := Reopen(maxQueue, maxBody, f.value);
      && BoxOf(r, n).q == BoxOf(b, n).q && BoxOf(r, n).waiters == [] && r.inflight == b.inflight
  {
    PersistSaves(b, disk);
    ReopenSaved(b, Persist(b, disk).file, maxQueue, maxBody, n);
  }

  lemma ReopenSaved(b: Bus, f: Option<Snapshot>, maxQueue: int, maxBody: int, n: string)
    requires Saved(f, b)
    ensures var r := Reopen(maxQueue, maxBody, f.value);
      BoxOf(r, n) == Box(BoxOf(b, n).q, []) && r.inflight == b.inflight
  {
    ReopenSays(maxQueue, maxBody, f.value);
    if BoxOf(b, n).q == [] { assert n !in f.value.boxes; }
  }

  // ---------------------------------------------------------------------------
  // Put
  // ---------------------------------------------------------------------------

  /** The outcome of a Put: the errors of a bad call, and otherwise, in this order, a retry that
      changes nothing, a message for the oldest waiter, a full mailbox, a queued message, and
      a failed write that leaves no trace. */
  ghost predicate PutOutcome(b: Bus, name: string, m: Msg, gen: string, now: int, disk: bool, r: Bus, a: Result<()>) {
    if name == "" then a == Err(BadName) && r == b
    else if |m.body| > b.maxBody then a == Err(TooLarge) && r == b
    else if b.closed then a == Err(Closed) && r == b
    else
      && OthersSame(b, r, name) && r.inflight == b.inflight && SameConfig(b, r)
      && PutHere(b, name, m, gen, now, disk, r, a)
  }

  ghost predicate PutHere(b: Bus, name: string, m: Msg, gen: string, now: int, disk: bool, r: Bus, a: Result<()>) {
    var x, y := BoxOf(b, name), BoxOf(r, name);
    if HoldsKey(b, name, if m.id != "" then m.id else gen) then
      a == Ok(()) && y == x && ChansSame(b, r) && r.file == b.file && r.dedup == b.dedup
    else if x.waiters != [] then
      a == Ok(()) && r.file == b.file && r.dedup == b.dedup && exists p :: IsPut(p, name, m, gen, now) && OldestGets(b, r, name, p)
    else
      && ChansSame(b, r) && y.waiters == []
      && (a == Err(Dropped) <==> |x.q| >= b.maxQueue)
      && (|x.q| >= b.maxQueue || WriteFails(b, disk) ==> y == x && r.file == b.file && r.dedup == b.dedup)
      && (|x.q| < b.maxQueue && WriteFails(b, disk) ==> a == Err(DiskError))
      && (|x.q| < b.maxQueue && !WriteFails(b, disk) ==>
            && a == Ok(()) && |y.q| == |x.q| + 1 && y.q[..|x.q|] == x.q && IsPut(y.q[|x.q|], name, m, gen, now)
            && Writes(b, r, disk))
  }

  lemma PutSays(b: Bus, name: string, m: Msg, gen: string, now: int, disk: bool)
    requires Inv(b)
    ensures var o := Put(b, name, m, gen, now, disk); PutOutcome(b, name, m, gen, now, disk, o.bus, o.result)
  {
    hide Inv, Admit, Admitted, HoldsKey, PutHere, OthersSame;
    if name != "" && |m.body| <= b.maxBody && !b.closed {
      var p, b1, o := Stamped(m, name, gen, now), EnsureBox(b, name), Put(b, name, m, gen, now, disk);
      EnsureBoxKeeps(b, name);
      IndexedIff(b, name, p.id);
      AdmitSays(b1, p, disk);
      AdmittedPut(b, b1, m, gen, now, p, disk, o.bus, o.result);
      ConfigKept(b, name, m, gen, now, disk);
    }
  }

  lemma ConfigKept(b: Bus, name: string, m: Msg, gen: string, now: int, disk: bool)
    requires Inv(b)
    ensures var r := Put(b, name, m, gen, now, disk).bus; r.inflight == b.inflight && SameConfig(b, r)
  {
    hide Inv, Put, Moves, FileKeepsUp, Accepts;
    PutKeeps(b, name, m, gen, now, disk);
  }

  /** The outcome for a message `p` that is complete, in a mailbox that is there. */
  ghost predicate Admitted(b: Bus, p: Msg, disk: bool, r: Bus, a: Result<()>) {
    var x := BoxOf(b, p.name);
    if Indexed(b, p.name, p.id) then a == Ok(()) && r == b
    else if x.waiters != [] then a == Ok(()) && OldestGets(b, r, p.name, p) && r.file == b.file && r.dedup == b.dedup
    else if |x.q| >= b.maxQueue then a == Err(Dropped) && r == b
    else if WriteFails(b, disk) then a == Err(DiskError) && r == b
    else a == Ok(()) && BoxOf(r, p.name) == Box(x.q + [p], []) && ChansSame(b, r) && Writes(b, r, disk)
  }

  lemma AdmittedPut(b: Bus, b1: Bus, m: Msg, gen: string, now: int, p: Msg, disk: bool, r: Bus, a: Result<()>)
    requires b1 == b.(boxes := b1.boxes) && BoxesSame(b, b1)
    requires IsPut(p, p.name, m, gen, now) && (Indexed(b, p.name, p.id) <==> HoldsKey(b, p.name, p.id))
    requires OthersSame(b1, r, p.name) && Admitted(b1, p, disk, r, a)
    ensures OthersSame(b, r, p.name) && PutHere(b, p.name, m, gen, now, disk, r, a)
  {
    hide HoldsKey, Saved;
    var x := BoxOf(b, p.name);
    assert BoxOf(b1, p.name) == x && (Indexed(b1, p.name, p.id) <==> Indexed(b, p.name, p.id));
    assert (x.q + [p])[..|x.q|] == x.q;
  }

  lemma AdmitSays(b: Bus, p: Msg, disk: bool)
    requires Inv(b) && !b.closed && p.name in b.boxes && p.name != ""
    ensures var o := Admit(b, p, disk); OthersSame(b, o.bus, p.name) && Admitted(b, p, disk, o.bus, o.result)
  {
    var n, x := p.name, BoxOf(b, p.name);
    hide Append, Saved;
    if Indexed(b, n, p.id) {
    } else if x.waiters != [] {
      HeadWaiter(b, n);
      hide Inv, Append;
    } else if |x.q| < b.maxQueue {
      AppendSays(b, p, disk);
      hide Inv, Append;
    }
  }

  lemma AppendSays(b: Bus, p: Msg, disk: bool)
    requires Inv(b) && !b.closed && p.name in b.boxes && p.name != "" && BoxOf(b, p.name).waiters == []
    ensures var o := Append(b, p.name, p, disk); var r := o.bus;
      && OthersSame(b, r, p.name)
      && if WriteFails(b, disk) then o.result == Err(DiskError) && r == b
         else o.result == Ok(()) && BoxOf(r, p.name) == Box(BoxOf(b, p.name).q + [p], []) && ChansSame(b, r) && Writes(b, r, disk)
  {
    AppendKeeps(b, p.name, p, disk);
    PersistSaves(PushBack(b, p.name, p), disk);
    hide Inv, IndexAdd, IndexDel, SnapshotOf, Moves, FileKeepsUp, Saved;
  }

  // ---------------------------------------------------------------------------
  // Sweeps
  // ---------------------------------------------------------------------------

  /** The messages of mailbox `n` whose leases have expired. */
  ghost function ExpiredMsgs(b: Bus, now: int, order: seq<string>, n: string): seq<Msg> {
    MsgsFor(b.inflight, ExpiredIds(b, now, order), n)
  }

  /** What a sweep makes of mailbox `n`. */
  ghost function AfterSweep(b: Bus, now: int, order: seq<string>, n: string): Box {
    Returned(BoxOf(b, n), ExpiredMsgs(b, now, order, n))
  }

  /** The expired leases are gone, the others are as they were, and the oldest waiters of every
      mailbox got its expired messages. */
  ghost predicate SweepHandsOut(b: Bus, r: Bus, now: int, order: seq<string>) {
    && r.inflight == (map id | id in b.inflight && now <= b.inflight[id].expires :: b.inflight[id])
    && (forall k: string :: WaitersGet(b, r, k, ExpiredMsgs(b, now, order, k)))
  }

  ghost predicate Sweeps(b: Bus, r: Bus, now: int, order: seq<string>) {
    SweepHandsOut(b, r, now, order) && forall k: string :: BoxOf(r, k) == AfterSweep(b, now, order, k)
  }

  lemma SweepSays(b: Bus, now: int, order: seq<string>)
    requires Inv(b) && IsOrder(order, b.inflight)
    ensures var r := RequeueExpired(b, now, order); Inv(r) && Sweeps(b, r, now, order) && SameFrame(b, r)
  {
    hide Inv, RequeueExpired, Returned, WaitersGet, Held, InChans, ExpiredIds, MsgsFor, IsOrder;
    var r := RequeueExpired(b, now, order);
    RequeueExpiredKeeps(b, now, order);
    ExpiryIsRight(b, now, order, "");
    forall k: string
      ensures BoxOf(r, k) == AfterSweep(b, now, order, k) && WaitersGet(b, r, k, ExpiredMsgs(b, now, order, k))
    {
      ExpiryIsRight(b, now, order, k);
    }
  }

  ghost predicate ExpireOutcome(b: Bus, now: int, order: seq<string>, disk: bool, r: Bus) {
    if b.closed then r == b
    else
      && Sweeps(b, r, now, order)
      && if exists id | id in b.inflight :: now > b.inflight[id].expires then Writes(b, r, disk) else r.file == b.file
  }

  /** The sweeper's step: a snapshot is written exactly when something expired. */
  lemma ExpireSays(b: Bus, now: int, order: seq<string>, disk: bool)
    requires Inv(b) && IsOrder(order, b.inflight)
    ensures ExpireOutcome(b, now, order, disk, ExpireLeases(b, now, order, disk))
  {
    hide Inv, RequeueExpired, AfterSweep, ExpiredMsgs, WaitersGet, IsOrder, SnapshotOf, Saved;
    var s, r := RequeueExpired(b, now, order), ExpireLeases(b, now, order, disk);
    SweepSays(b, now, order);
    PersistSaves(s, disk);
    AnyIff(b, now);
    hide AnyExpired;
    if !b.closed { SweepsStill(b, s, r, now, order); }
  }

  lemma SweepsStill(b: Bus, s: Bus, r: Bus, now: int, order: seq<string>)
    requires Sweeps(b, s, now, order) && r == s.(file := r.file)
    ensures Sweeps(b, r, now, order)
  {
    hide AfterSweep, ExpiredMsgs;
    forall k: string
      ensures BoxOf(r, k) == AfterSweep(b, now, order, k) && WaitersGet(b, r, k, ExpiredMsgs(b, now, order, k))
    {
      assert BoxOf(s, k) == AfterSweep(b, now, order, k) && WaitersGet(b, s, k, ExpiredMsgs(b, now, order, k));
    }
  }

  lemma AnyIff(b: Bus, now: int)
    ensures AnyExpired(b, now) <==> exists id | id in b.inflight :: now > b.inflight[id].expires
  {
    if id :| id in b.inflight && now > b.inflight[id].expires { assert Expired(b, id, now); }
  }

  // ---------------------------------------------------------------------------
  // Takes
  // ---------------------------------------------------------------------------

  /** The outcome of the locked part of Take, after its sweep: a new channel that carries the
      head of the queue, closed; or an open one at the end of the waiters. */
  ghost predicate TakeOutcome(b: Bus, name: string, now: int, order: seq<string>, disk: bool, r: Bus, a: Result<nat>) {
    if name == "" then a == Err(BadName) && r == b
    else if b.closed then a == Err(Closed) && r == b
    else
      var x, y := AfterSweep(b, now, order, name), BoxOf(r, name);
      && SweepHandsOut(b, r, now, order) && (forall k: string | k != name :: BoxOf(r, k) == AfterSweep(b, now, order, k))
      && if x.q == [] then
           && a == Ok(b.next) && r.next == b.next + 1 && y == Box([], x.waiters + [b.next])
           && b.next in r.chans && r.chans[b.next] == Chan(name, None, true) && r.file == b.file
         else if WriteFails(b, disk) then
           a == Err(DiskError) && r.next == b.next && y == x && r.file == b.file
         else
           && a == Ok(b.next) && r.next == b.next + 1 && y == Box(x.q[1..], x.waiters)
           && b.next in r.chans && r.chans[b.next] == Chan(name, Some(x.q[0]), false) && Writes(b, r, disk)
  }

  ghost predicate TryTakeOutcome(b: Bus, name: string, now: int, order: seq<string>, disk: bool, r: Bus, a: Result<Msg>) {
    if name == "" then a == Err(BadName) && r == b
    else if b.closed then a == Err(Closed) && r == b
    else
      var x, y := AfterSweep(b, now, order, name), BoxOf(r, name);
      && SweepHandsOut(b, r, now, order) && (forall k: string | k != name :: BoxOf(r, k) == AfterSweep(b, now, order, k))
      && r.next == b.next
      && if x.q == [] then a == Err(Empty) && y == x && r.file == b.file
         else if WriteFails(b, disk) then a == Err(DiskError) && y == x && r.file == b.file
         else a == Ok(x.q[0]) && y == Box(x.q[1..], x.waiters) && Writes(b, r, disk)
  }

  /** Popping the head of a queue: on a failed write nothing at all changes. */
  lemma HeadSays(b: Bus, n: string, disk: bool)
    requires Inv(b) && !b.closed && BoxOf(b, n).q != []
    ensures var o := TakeHead(b, n, disk); var (x, r) := (BoxOf(b, n), o.bus);
      if WriteFails(b, disk) then o.result == Err(DiskError) && r == b
      else
        && o.result == Ok(x.q[0]) && r.boxes == b.boxes[n := Box(x.q[1..], x.waiters)] && ChansSame(b, r)
        && r.inflight == b.inflight && Writes(b, r, disk) && r.durable == b.durable
  {
    TakeHeadKeeps(b, n, disk);
    PersistSaves(PopFront(b, n), disk);
    hide Inv, IndexAdd, IndexDel, SnapshotOf, Moves, FileKeepsUp, Saved;
  }

  /** Nothing that a sweep hands out changes when a channel is added. */
  lemma HandsOutStill(b: Bus, s: Bus, r: Bus, now: int, order: seq<string>, c: Chan)
    requires Inv(b) && SweepHandsOut(b, s, now, order) && r.inflight == s.inflight && s.chans.Keys == b.chans.Keys
    requires r.chans == s.chans || r.chans == s.chans[b.next := c]
    ensures SweepHandsOut(b, r, now, order)
  {
    NextUnused(b);
    hide Inv, ExpiredMsgs, WaitersGet;
    forall k: string
      ensures WaitersGet(b, r, k, ExpiredMsgs(b, now, order, k))
    {
      assert WaitersGet(b, s, k, ExpiredMsgs(b, now, order, k));
      StillGet(b, s, r, k, ExpiredMsgs(b, now, order, k), c);
    }
  }

  lemma StillGet(b: Bus, s: Bus, r: Bus, k: string, ms: seq<Msg>, c: Chan)
    requires WaitersGet(b, s, k, ms) && s.chans.Keys == b.chans.Keys && b.next !in b.chans
    requires r.chans == s.chans || r.chans == s.chans[b.next := c]
    ensures WaitersGet(b, r, k, ms)
  {
    hide Served;
  }

  lemma SavedStill(f: Option<Snapshot>, s: Bus, r: Bus)
    requires Saved(f, s) && r.boxes == s.boxes && r.inflight == s.inflight
    ensures Saved(f, r)
  {
    assert BoxesSame(s, r);
  }

  /** From a bus just swept, in which the mailbox is there, to the end of a take. */
  lemma ServesOrParks(b: Bus, name: string, disk: bool)
    requires Inv(b) && !b.closed && name in b.boxes && name != ""
    ensures var x := BoxOf(b, name);
      x.q != [] ==>
        var t := TakeHead(b, name, disk);
        if WriteFails(b, disk) then t.result == Err(DiskError) && t.bus == b
        else
          var r := Serve(t.bus, name, x.q[0]);
          && t.result == Ok(x.q[0]) && t.bus.next == b.next && r.boxes == b.boxes[name := Box(x.q[1..], x.waiters)]
          && r.inflight == b.inflight && Writes(b, r, disk)
          && r.chans == b.chans[b.next := Chan(name, Some(x.q[0]), false)] && r.next == b.next + 1
  {
    var x := BoxOf(b, name);
    if x.q != [] {
      HeadSays(b, name, disk);
      hide Inv, TakeHead, Saved;
      var t := TakeHead(b, name, disk).bus;
      if b.durable && disk { SavedStill(t.file, t, Serve(t, name, x.q[0])); }
    }
  }

  /** Only mailbox `name` differs from what the sweep left. */
  lemma OthersSwept(b: Bus, s: Bus, r: Bus, name: string, now: int, order: seq<string>)
    requires Sweeps(b, s, now, order) && OthersSame(s, r, name)
    ensures forall k: string | k != name :: BoxOf(r, k) == AfterSweep(b, now, order, k)
    ensures BoxOf(s, name) == AfterSweep(b, now, order, name)
  {
    hide AfterSweep, SweepHandsOut;
    forall k: string | k != name
      ensures BoxOf(r, k) == AfterSweep(b, now, order, k)
    {
      assert BoxOf(r, k) == BoxOf(s, k);
    }
  }

  lemma TakeSays(b: Bus, name: string, now: int, order: seq<string>, disk: bool)
    requires Inv(b) && IsOrder(order, b.inflight)
    ensures var o := TakeChan(b, name, now, order, disk); TakeOutcome(b, name, now, order, disk, o.bus, o.result)
  {
    hide Inv, RequeueExpired, TakeHead, TakeOutcome, IsOrder, SameFrame, Sweeps, Held;
    if name == "" || b.closed {
      TakeRefused(b, name, now, order, disk);
    } else {
      var s := RequeueExpired(b, now, order);
      SweepSays(b, now, order);
      SweepChans(b, now, order);
      TakeSwept(b, s, name, now, order, disk);
    }
  }

  lemma TakeRefused(b: Bus, name: string, now: int, order: seq<string>, disk: bool)
    requires name == "" || b.closed
    ensures var o := TakeChan(b, name, now, order, disk); TakeOutcome(b, name, now, order, disk, o.bus, o.result)
  {
  }

  lemma TakeSwept(b: Bus, s: Bus, name: string, now: int, order: seq<string>, disk: bool)
    requires Inv(b) && name != "" && !b.closed && s == RequeueExpired(b, now, order)
    requires Inv(s) && Sweeps(b, s, now, order) && SameFrame(b, s) && s.chans.Keys == b.chans.Keys
    ensures var o := TakeChan(b, name, now, order, disk); TakeOutcome(b, name, now, order, disk, o.bus, o.result)
  {
    hide Inv, RequeueExpired, TakeHead, TakeOutcome, Sweeps, Held, Serve, Park, Saved;
    EnsureBoxKeeps(s, name);
    var b1 := EnsureBox(s, name);
    OnlyHere(s, b1, name);
    ServesOrParks(b1, name, disk);
    ParkSays(b1, name);
    var o, x := TakeChan(b, name, now, order, disk), BoxOf(b1, name);
    hide TakeChan, EnsureBox, OthersSame;
    if x.q != [] && WriteFails(b, disk) {
      TakeEnds(b, s, name, now, order, disk, x, None, o.bus, o.result);
    } else {
      TakeEnds(b, s, name, now, order, disk, x, if x.q != [] then Some(x.q[0]) else None, o.bus, o.result);
    }
  }

  /** What is left to see once a take has left the mailbox `x` it swept. */
  lemma TakeEnds(b: Bus, s: Bus, name: string, now: int, order: seq<string>, disk: bool,
                 x: Box, buf: Option<Msg>, r: Bus, a: Result<nat>)
    requires Inv(b) && name != "" && !b.closed && Sweeps(b, s, now, order) && SameFrame(b, s) && s.chans.Keys == b.chans.Keys
    requires BoxOf(s, name) == x && r.inflight == s.inflight
    requires forall k | k in s.boxes && k != name :: k in r.boxes && r.boxes[k] == s.boxes[k]
    requires r.boxes.Keys == s.boxes.Keys + {name}
    requires if x.q != [] && WriteFails(b, disk) then
               a == Err(DiskError) && r.next == b.next && BoxOf(r, name) == x && r.file == s.file && r.chans == s.chans
             else
               && a == Ok(b.next) && r.next == b.next + 1 && r.chans == s.chans[b.next := Chan(name, buf, buf.None?)]
               && if x.q == [] then buf == None && BoxOf(r, name) == Box([], x.waiters + [b.next]) && r.file == s.file
                  else buf == Some(x.q[0]) && BoxOf(r, name) == Box(x.q[1..], x.waiters) && Writes(b, r, disk)
    ensures TakeOutcome(b, name, now, order, disk, r, a)
  {
    hide Inv, AfterSweep, SweepHandsOut, Saved, OthersSame;
    OnlyHere(s, r, name);
    OthersSwept(b, s, r, name, now, order);
    HandsOutStill(b, s, r, now, order, Chan(name, buf, buf.None?));
  }

  lemma ParkSays(b: Bus, n: string)
    ensures var r := Park(b, n); var x := BoxOf(b, n);
      && r.boxes == b.boxes[n := Box(x.q, x.waiters + [b.next])] && r.chans == b.chans[b.next := Chan(n, None, true)]
      && r.next == b.next + 1 && r.inflight == b.inflight && r.file == b.file
  {
  }

  lemma OnlyHere(b: Bus, r: Bus, n: string)
    requires r.boxes.Keys == b.boxes.Keys + {n} || r.boxes.Keys == b.boxes.Keys
    requires forall k | k in b.boxes && k != n :: r.boxes[k] == b.boxes[k]
    ensures OthersSame(b, r, n)
  {
  }

  lemma TryTakeSays(b: Bus, name: string, now: int, order: seq<string>, disk: bool)
    requires Inv(b) && IsOrder(order, b.inflight)
    ensures var o := TryTake(b, name, now, order, disk); TryTakeOutcome(b, name, now, order, disk, o.bus, o.result)
  {
    hide Inv, RequeueExpired, TakeHead, IsOrder, SameFrame, Sweeps, Held, AfterSweep, SweepHandsOut;
    if name != "" && !b.closed {
      var s := RequeueExpired(b, now, order);
      SweepSays(b, now, order);
      SweepChans(b, now, order);
      TryTakeSwept(b, s, name, now, order, disk);
    }
  }

  lemma TryTakeSwept(b: Bus, s: Bus, name: string, now: int, order: seq<string>, disk: bool)
    requires Inv(b) && name != "" && !b.closed && s == RequeueExpired(b, now, order)
    requires Inv(s) && Sweeps(b, s, now, order) && SameFrame(b, s) && s.chans.Keys == b.chans.Keys
    ensures var o := TryTake(b, name, now, order, disk); TryTakeOutcome(b, name, now, order, disk, o.bus, o.result)
  {
    hide Inv, RequeueExpired, TakeHead, TryTakeOutcome, Sweeps, Held, Saved;
    if BoxOf(s, name).q != [] { HeadSays(s, name, disk); }
    var o := TryTake(b, name, now, order, disk);
    hide TryTake;
    TryTakeEnds(b, s, name, now, order, disk, o.bus, o.result);
  }

  lemma TryTakeEnds(b: Bus, s: Bus, name: string, now: int, order: seq<string>, disk: bool, r: Bus, a: Result<Msg>)
    requires Inv(b) && name != "" && !b.closed && Sweeps(b, s, now, order) && SameFrame(b, s) && s.chans.Keys == b.chans.Keys
    requires r.inflight == s.inflight && r.chans == s.chans && r.next == s.next
    requires var x := BoxOf(s, name);
      if x.q == [] then a == Err(Empty) && r == s
      else if WriteFails(b, disk) then a == Err(DiskError) && r == s
      else a == Ok(x.q[0]) && r.boxes == s.boxes[name := Box(x.q[1..], x.waiters)] && Writes(b, r, disk)
    ensures TryTakeOutcome(b, name, now, order, disk, r, a)
  {
    hide Inv, AfterSweep, SweepHandsOut, Saved, OthersSame;
    OnlyHere(s, r, name);
    OthersSwept(b, s, r, name, now, order);
    HandsOutStill(b, s, r, now, order, Chan("", None, false));
  }

  // ---------------------------------------------------------------------------
  // Leases
  // ---------------------------------------------------------------------------

  /** A lease of the given length, one minute if it is not positive, from now. */
  ghost predicate HoldOutcome(b: Bus, m: Msg, lease: int, id: string, now: int, disk: bool, r: Bus, a: Result<Delivery>) {
    if m.name == "" then a == Err(BadName) && r == b
    else if b.closed then a == Err(Closed) && r == b
    else if WriteFails(b, disk) then a == Err(DiskError) && r == b
    else
      var d := Delivery(id, m, if lease > 0 then now + lease else now + 60_000_000_000);
      && a == Ok(d) && r.inflight == b.inflight[id := d]
      && BoxesSame(b, r) && ChansSame(b, r) && Writes(b, r, disk)
  }

  lemma HoldSays(b: Bus, m: Msg, lease: int, id: string, now: int, disk: bool)
    requires Inv(b) && id !in b.inflight
    ensures var o := Hold(b, m, lease, id, now, disk); HoldOutcome(b, m, lease, id, now, disk, o.bus, o.result)
  {
    if m.name != "" && !b.closed {
      var d := NewDelivery(m, lease, id, now);
      DropLeaseUndoes(b, d);
      PersistSaves(AddLease(b, d), disk);
      hide Inv, IndexAdd, IndexDel, SnapshotOf, Saved;
    }
  }

  ghost predicate AckOutcome(b: Bus, id: string, disk: bool, r: Bus, a: Result<()>) {
    if id !in b.inflight then a == Err(NotFound) && r == b
    else
      && a == (if WriteFails(b, disk) then Err(DiskError) else Ok(()))
      && r.inflight == b.inflight - {id} && BoxesSame(b, r) && ChansSame(b, r) && Writes(b, r, disk)
  }

  lemma AckSays(b: Bus, id: string, disk: bool)
    ensures var o := Ack(b, id, disk); AckOutcome(b, id, disk, o.bus, o.result)
  {
    if id in b.inflight {
      PersistSaves(DropLease(b, id), disk);
      hide IndexDel, SnapshotOf, Saved;
    }
  }

  ghost predicate NackOutcome(b: Bus, id: string, disk: bool, r: Bus, a: Result<()>) {
    if id !in b.inflight then a == Err(NotFound) && r == b
    else
      && a == (if WriteFails(b, disk) then Err(DiskError) else Ok(()))
      && r.inflight == b.inflight - {id} && GoesBack(b, r, b.inflight[id].msg) && Writes(b, r, disk)
  }

  lemma NackSays(b: Bus, id: string, disk: bool)
    requires Inv(b)
    ensures var o := Nack(b, id, disk); NackOutcome(b, id, disk, o.bus, o.result)
  {
    if id in b.inflight {
      var m, b1 := b.inflight[id].msg, DropLease(b, id);
      assert m.name != "";
      DropLeaseKeeps(b, id);
      DeliverSays(b1, m);
      PersistSaves(Release(b, id), disk);
      hide Inv, Deliver, IndexDel, SnapshotOf, Saved;
      GoesBackOn(b, b1, Release(b, id), Nack(b, id, disk).bus, m);
    }
  }

  lemma DeliverSays(b: Bus, m: Msg)
    requires Inv(b)
    ensures var r := Deliver(b, m); GoesBack(b, r, m) && r.inflight == b.inflight && r.file == b.file && r.durable == b.durable
  {
    hide Inv, HandOver, PushFront, OthersSame, OldestGets;
    var n := m.name;
    if BoxOf(b, n).waiters != [] {
      HeadWaiter(b, n);
      HandOverSays(b, n, m);
    } else {
      EnsurePushes(b, m);
    }
  }

  lemma EnsurePushes(b: Bus, m: Msg)
    requires BoxOf(b, m.name).waiters == []
    ensures var r := PushFront(EnsureBox(b, m.name), m.name, m);
      && OthersSame(b, r, m.name) && BoxOf(r, m.name) == Box([m] + BoxOf(b, m.name).q, []) && ChansSame(b, r)
      && r.inflight == b.inflight && r.file == b.file && r.durable == b.durable
  {
    hide IndexAdd;
  }

  lemma HandOverSays(b: Bus, n: string, m: Msg)
    requires BoxOf(b, n).waiters != [] && n in b.boxes
    requires var w := BoxOf(b, n).waiters[0]; w in b.chans && b.chans[w] == Chan(n, None, true)
    ensures var r := HandOver(b, n, m);
      OldestGets(b, r, n, m) && OthersSame(b, r, n) && r.inflight == b.inflight && r.file == b.file && r.durable == b.durable
  {
  }

  /** Taking a lease away before, or writing a snapshot after, makes no difference to it. */
  lemma GoesBackOn(b: Bus, b1: Bus, r1: Bus, r: Bus, m: Msg)
    requires GoesBack(b1, r1, m) && b1.boxes == b.boxes && b1.chans == b.chans && b1.next == b.next
    requires r.boxes == r1.boxes && r.chans == r1.chans && r.next == r1.next
    ensures GoesBack(b, r, m)
  {
    assert BoxesSame(b, b1) && BoxesSame(r1, r);
  }

  ghost predicate RequeueOutcome(b: Bus, m: Msg, disk: bool, r: Bus, a: Result<()>) {
    if m.name == "" then a == Err(BadName) && r == b
    else if b.closed then a == Err(Closed) && r == b
    else
      && a == (if WriteFails(b, disk) then Err(DiskError) else Ok(()))
      && r.inflight == b.inflight && GoesBack(b, r, m) && Writes(b, r, disk)
  }

  lemma RequeueSays(b: Bus, m: Msg, disk: bool)
    requires Inv(b)
    ensures var o := Requeue(b, m, disk); RequeueOutcome(b, m, disk, o.bus, o.result)
  {
    if m.name != "" && !b.closed {
      DeliverSays(b, m);
      PersistSaves(Deliver(b, m), disk);
      hide Inv, Deliver, SnapshotOf, Saved;
      GoesBackOn(b, b, Deliver(b, m), Requeue(b, m, disk).bus, m);
    }
  }

  // ---------------------------------------------------------------------------
  // Cancelling and closing
  // ---------------------------------------------------------------------------

  /** The taker no longer waits; a message it had got is in front of the queue. */
  ghost predicate CancelOutcome(b: Bus, c: nat, disk: bool, r: Bus)
    requires c in b.chans
  {
    var n, buf := b.chans[c].name, b.chans[c].buf;
    var x, y := BoxOf(b, n), BoxOf(r, n);
    && OthersSame(b, r, n) && r.inflight == b.inflight && r.chans == b.chans - {c} && r.next == b.next
    && if buf.Some? then y == Box([buf.value] + x.q, x.waiters) && Writes(b, r, disk)
       else
         && y.q == x.q && r.file == b.file && c !in y.waiters
         && exists i :: 0 <= i <= |x.waiters| && y.waiters == x.waiters[..i] + x.waiters[if i < |x.waiters| then i + 1 else i..]
  }

  lemma {:induction false} WithoutOne(s: seq<nat>, c: nat) returns (i: nat)
    requires NoDup(s)
    ensures i <= |s| && Without(s, c) == s[..i] + s[if i < |s| then i + 1 else i..]
    decreases |s|
  {
    if s == [] {
      i := 0;
    } else if s[0] == c {
      i := 0;
      assert s[0] !in s[1..];
      WithoutNoDup(s[1..], c);
    } else {
      var j := WithoutOne(s[1..], c);
      i := j + 1;
      assert s[..i] == [s[0]] + s[1..][..j];
    }
  }

  lemma CancelSays(b: Bus, c: nat, disk: bool)
    requires Inv(b) && c in b.chans
    ensures CancelOutcome(b, c, disk, CancelWaiter(b, b.chans[c].name, c, disk))
  {
    var n, r := b.chans[c].name, CancelWaiter(b, b.chans[c].name, c, disk);
    CancelLeaves(b, c, disk);
    BoxWaiters(b, n);
    CancelRest(b, c, disk);
    hide Inv, CancelWaiter, Saved, OthersSame;
    OnlyHere(b, r, n);
    var i := WithoutOne(BoxOf(b, n).waiters, c);
  }

  lemma CancelRest(b: Bus, c: nat, disk: bool)
    requires c in b.chans && b.chans[c].name in b.boxes
    ensures var r := CancelWaiter(b, b.chans[c].name, c, disk);
      && r.inflight == b.inflight && r.chans == b.chans - {c} && r.next == b.next
      && if b.chans[c].buf.Some? then Writes(b, r, disk) else r.file == b.file
  {
    var n, buf := b.chans[c].name, b.chans[c].buf;
    if buf.Some? { PersistSaves(PushFront(Unpark(b, n, c), n, buf.value), disk); }
    hide IndexAdd, SnapshotOf, Saved, Without;
  }

  /** Every mailbox is empty, every channel is closed with what it carries, and leases, index
      and file are as before; a second close does nothing. */
  lemma CloseSays(b: Bus)
    requires Inv(b)
    ensures var r := Close(b);
      && r.closed && (b.closed ==> r == b)
      && (!b.closed ==>
            && (forall n: string :: BoxOf(r, n) == Box([], []))
            && r.chans.Keys == b.chans.Keys && (forall c | c in r.chans :: r.chans[c] == b.chans[c].(open := false))
            && r.inflight == b.inflight && r.dedup == b.dedup && r.file == b.file && r.next == b.next)
  {
    CloseKeeps(b);
    hide Inv, AllClosable, Listed;
  }
}
