/** The mailbox half of the bus as a state machine over values: one function for each
    function of internal/mailbox/mailbox.go that runs under the bus lock. What the
    environment decides (the clock, a generated id, the order of a map iteration,
    whether a snapshot reaches the disk) is a parameter. */
module MailboxSpec {
  import opened Bags
  import Wire

  const DEFAULT_MAX_QUEUE: nat := 1024
  const DEFAULT_MAX_BODY: nat := 1048576
  const MINUTE: int := 60_000_000_000

  type Bytes = Wire.Bytes

  datatype Msg = Msg(id: string, name: string, from: string, body: Bytes, at: int)

  datatype Delivery = Delivery(id: string, msg: Msg, expires: int)

  /** A one-slot Go channel, made by takeChan on behalf of one taker of mailbox `name`. */
  datatype Chan = Chan(name: string, buf: Option<Msg>, open: bool)

  datatype Box = Box(q: seq<Msg>, waiters: seq<nat>)

  /** What the state file holds. */
  datatype Snapshot = Snapshot(boxes: map<string, seq<Msg>>, inflight: map<string, Delivery>)

  datatype Error = BadName | TooLarge | Closed | Empty | Dropped | NotFound | DiskError

  datatype Result<+T> = Ok(value: T) | Err(error: Error)

  /** `chans` are the channels some taker still reads; `fault` records a Go-level failure:
      a send that would block or panic, or a second close. */
  datatype Bus = Bus(
    maxQueue: nat, maxBody: nat, durable: bool, closed: bool,
    boxes: map<string, Box>, dedup: map<string, nat>, inflight: map<string, Delivery>,
    file: Option<Snapshot>, chans: map<nat, Chan>, next: nat, fault: bool)

  datatype Outcome<+T> = Outcome(bus: Bus, result: Result<T>)

  // ---------------------------------------------------------------------------
  // Contents
  // ---------------------------------------------------------------------------

  function BoxOf(b: Bus, n: string): Box {
    if n in b.boxes then b.boxes[n] else Box([], [])
  }

  ghost function BoxMsgs(x: Box): multiset<Msg> { multiset(x.q) }

  ghost function LeaseMsgs(d: Delivery): multiset<Msg> { multiset{d.msg} }

  ghost function ChanMsgs(c: Chan): multiset<Msg> {
    if c.buf.Some? then multiset{c.buf.value} else multiset{}
  }

  ghost function Queued(b: Bus): multiset<Msg> { Sum(b.boxes, BoxMsgs) }

  ghost function Leased(b: Bus): multiset<Msg> { Sum(b.inflight, LeaseMsgs) }

  /** What the bus itself holds: queued or leased. */
  ghost function Held(b: Bus): multiset<Msg> { Queued(b) + Leased(b) }

  /** What sits in a one-slot channel, handed over but not yet received. */
  ghost function InChans(b: Bus): multiset<Msg> { Sum(b.chans, ChanMsgs) }

  // ---------------------------------------------------------------------------
  // The deduplication index
  // ---------------------------------------------------------------------------

  function DedupKey(name: string, id: string): string { name + "\0" + id }

  predicate Indexable(m: Msg) { m.id != "" && m.name != "" }

  ghost function KeyOf(m: Msg): multiset<string> {
    if Indexable(m) then multiset{DedupKey(m.name, m.id)} else multiset{}
  }

  function IndexAdd(d: map<string, nat>, m: Msg): map<string, nat> {
    if !Indexable(m) then d
    else
      var k := DedupKey(m.name, m.id);
      d[k := (if k in d then d[k] else 0) + 1]
  }

  function IndexDel(d: map<string, nat>, m: Msg): map<string, nat> {
    if !Indexable(m) then d
    else
      var k := DedupKey(m.name, m.id);
      if k in d && d[k] > 1 then d[k := d[k] - 1] else d - {k}
  }

  predicate Indexed(b: Bus, name: string, id: string) {
    id != "" && name != "" && DedupKey(name, id) in b.dedup
  }

  // ---------------------------------------------------------------------------
  // Channels
  // ---------------------------------------------------------------------------

  /** Sends `m` on `c` and closes it, as Put and deliverLocked do under the lock. */
  function SendAndClose(b: Bus, c: nat, m: Msg): Bus {
    if c in b.chans && b.chans[c].open && b.chans[c].buf.None?
    then b.(chans := b.chans[c := Chan(b.chans[c].name, Some(m), false)])
    else b.(fault := true)
  }

  // ---------------------------------------------------------------------------
  // Single changes to a box or to the leases, each with its index update
  // ---------------------------------------------------------------------------

  function EnsureBox(b: Bus, n: string): Bus {
    if n in b.boxes then b else b.(boxes := b.boxes[n := Box([], [])])
  }

  function PushFront(b: Bus, n: string, m: Msg): Bus {
    var x := BoxOf(b, n);
    b.(boxes := b.boxes[n := Box([m] + x.q, x.waiters)], dedup := IndexAdd(b.dedup, m))
  }

  function PushBack(b: Bus, n: string, m: Msg): Bus {
    var x := BoxOf(b, n);
    b.(boxes := b.boxes[n := Box(x.q + [m], x.waiters)], dedup := IndexAdd(b.dedup, m))
  }

  function PopFront(b: Bus, n: string): Bus
    requires BoxOf(b, n).q != []
  {
    var x := BoxOf(b, n);
    b.(boxes := b.boxes[n := Box(x.q[1..], x.waiters)], dedup := IndexDel(b.dedup, x.q[0]))
  }

  function PopBack(b: Bus, n: string, m: Msg): Bus
    requires BoxOf(b, n).q != []
  {
    var x := BoxOf(b, n);
    b.(boxes := b.boxes[n := Box(x.q[..|x.q| - 1], x.waiters)], dedup := IndexDel(b.dedup, m))
  }

  /** Hands `m` to the oldest waiter of `n`. */
  function HandOver(b: Bus, n: string, m: Msg): Bus
    requires BoxOf(b, n).waiters != []
  {
    var x := BoxOf(b, n);
    SendAndClose(b.(boxes := b.boxes[n := Box(x.q, x.waiters[1..])]), x.waiters[0], m)
  }

  function AddLease(b: Bus, d: Delivery): Bus {
    b.(inflight := b.inflight[d.id := d], dedup := IndexAdd(b.dedup, d.msg))
  }

  function DropLease(b: Bus, id: string): Bus
    requires id in b.inflight
  {
    b.(inflight := b.inflight - {id}, dedup := IndexDel(b.dedup, b.inflight[id].msg))
  }

  /** A channel that already carries its message, for a taker that found one queued. */
  function Serve(b: Bus, n: string, m: Msg): Bus {
    b.(chans := b.chans[b.next := Chan(n, Some(m), false)], next := b.next + 1)
  }

  /** A fresh channel at the end of the waiters of `n`. */
  function Park(b: Bus, n: string): Bus {
    var x := BoxOf(b, n);
    b.(boxes := b.boxes[n := Box(x.q, x.waiters + [b.next])],
       chans := b.chans[b.next := Chan(n, None, true)], next := b.next + 1)
  }

  function Unpark(b: Bus, n: string, c: nat): Bus {
    var x := BoxOf(b, n);
    b.(boxes := b.boxes[n := Box(x.q, Without(x.waiters, c))], chans := b.chans - {c})
  }

  /** deliverLocked: the oldest waiter, or else the front of the queue. */
  function Deliver(b: Bus, m: Msg): Bus {
    var b1 := EnsureBox(b, m.name);
    if BoxOf(b1, m.name).waiters != [] then HandOver(b1, m.name, m) else PushFront(b1, m.name, m)
  }

  /** A lease ends and its message goes back to its mailbox. */
  function Release(b: Bus, id: string): Bus
    requires id in b.inflight
  {
    Deliver(DropLease(b, id), b.inflight[id].msg)
  }

  // ---------------------------------------------------------------------------
  // Snapshots
  // ---------------------------------------------------------------------------

  function SnapshotOf(b: Bus): Snapshot {
    Snapshot(map n | n in b.boxes && b.boxes[n].q != [] :: b.boxes[n].q, b.inflight)
  }

  /** persistLocked: replaces the file atomically, or leaves it alone and reports failure. */
  function Persist(b: Bus, disk: bool): Bus {
    if b.durable && disk then b.(file := Some(SnapshotOf(b))) else b
  }

  predicate PersistOk(b: Bus, disk: bool) { !b.durable || disk }

  // ---------------------------------------------------------------------------
  // Lease expiry
  // ---------------------------------------------------------------------------

  predicate Expired(b: Bus, id: string, now: int) {
    id in b.inflight && now > b.inflight[id].expires
  }

  predicate AnyExpired(b: Bus, now: int) {
    exists id | id in b.inflight :: Expired(b, id, now)
  }

  /** requeueExpiredLocked, visiting the leases in the given order. */
  function RequeueExpired(b: Bus, now: int, order: seq<string>): Bus
    decreases |order|
  {
    if order == [] then b
    else if Expired(b, order[0], now) then RequeueExpired(Release(b, order[0]), now, order[1..])
    else RequeueExpired(b, now, order[1..])
  }

  /** A map iteration visits every key exactly once, in some order. */
  ghost predicate IsOrder<V>(order: seq<string>, m: map<string, V>) {
    NoDup(order) && forall k :: k in order <==> k in m
  }

  // ---------------------------------------------------------------------------
  // The operations
  // ---------------------------------------------------------------------------

  function Open(maxQueue: int, maxBody: int, durable: bool): Bus {
    Bus(if maxQueue <= 0 then DEFAULT_MAX_QUEUE else maxQueue,
        if maxBody <= 0 then DEFAULT_MAX_BODY else maxBody,
        durable, false, map[], map[], map[], None, map[], 0, false)
  }

  /** Put's message: the mailbox's name, and an id and a time when the caller gave none. */
  function Stamped(m: Msg, name: string, gen: string, now: int): Msg {
    m.(name := name, id := if m.id == "" then gen else m.id, at := if m.at == 0 then now else m.at)
  }

  function Put(b: Bus, name: string, m: Msg, gen: string, now: int, disk: bool): Outcome<()> {
    if name == "" then Outcome(b, Err(BadName))
    else if |m.body| > b.maxBody then Outcome(b, Err(TooLarge))
    else if b.closed then Outcome(b, Err(Closed))
    else
      Admit(EnsureBox(b, name), Stamped(m, name, gen, now), disk)
  }

  /** Put under the lock: a known id is the same message; else the oldest waiter, or the queue. */
  function Admit(b: Bus, m: Msg, disk: bool): Outcome<()> {
    if Indexed(b, m.name, m.id) then Outcome(b, Ok(()))
    else if BoxOf(b, m.name).waiters != [] then Outcome(HandOver(b, m.name, m), Ok(()))
    else if |BoxOf(b, m.name).q| >= b.maxQueue then Outcome(b, Err(Dropped))
    else Append(b, m.name, m, disk)
  }

  /** Queues `m` at the back and snapshots; a failed snapshot takes it off again. */
  function Append(b: Bus, n: string, m: Msg, disk: bool): Outcome<()> {
    var b1 := PushBack(b, n, m);
    if PersistOk(b1, disk) then Outcome(Persist(b1, disk), Ok(()))
    else Outcome(PopBack(b1, n, m), Err(DiskError))
  }

  /** Pops the front of the queue and snapshots; a failed snapshot puts it back. */
  function TakeHead(b: Bus, n: string, disk: bool): Outcome<Msg>
    requires BoxOf(b, n).q != []
  {
    var m := BoxOf(b, n).q[0];
    var b1 := PopFront(b, n);
    if PersistOk(b1, disk) then Outcome(Persist(b1, disk), Ok(m))
    else Outcome(PushFront(b1, n, m), Err(DiskError))
  }

  /** Put returned nil for a message that was not already queued or leased. */
  predicate Accepts(b: Bus, name: string, m: Msg, gen: string, now: int, disk: bool) {
    Put(b, name, m, gen, now, disk).result.Ok? && !Indexed(b, name, Stamped(m, name, gen, now).id)
  }

  /** The locked part of Take: a channel that carries a message, or a parked one. */
  function TakeChan(b: Bus, name: string, now: int, order: seq<string>, disk: bool): Outcome<nat> {
    if name == "" then Outcome(b, Err(BadName))
    else if b.closed then Outcome(b, Err(Closed))
    else
      var b1 := EnsureBox(RequeueExpired(b, now, order), name);
      if BoxOf(b1, name).q != [] then
        var o := TakeHead(b1, name, disk);
        if o.result.Ok? then Outcome(Serve(o.bus, name, o.result.value), Ok(o.bus.next))
        else Outcome(o.bus, Err(o.result.error))
      else Outcome(Park(b1, name), Ok(b1.next))
  }

  /** The taker receives from its channel, and is done with it. */
  function Receive(b: Bus, c: nat): Outcome<Msg>
    requires c in b.chans
  {
    Outcome(b.(chans := b.chans - {c}),
            if b.chans[c].buf.Some? then Ok(b.chans[c].buf.value) else Err(Closed))
  }

  /** cancelWaiter: a message that arrived meanwhile goes back to the front. */
  function CancelWaiter(b: Bus, name: string, c: nat, disk: bool): Bus
    requires c in b.chans
  {
    if name !in b.boxes then b.(chans := b.chans - {c})
    else
      var b1 := Unpark(b, name, c);
      if b.chans[c].buf.Some? then Persist(PushFront(b1, name, b.chans[c].buf.value), disk) else b1
  }

  function TryTake(b: Bus, name: string, now: int, order: seq<string>, disk: bool): Outcome<Msg> {
    if name == "" then Outcome(b, Err(BadName))
    else if b.closed then Outcome(b, Err(Closed))
    else
      var b1 := RequeueExpired(b, now, order);
      if BoxOf(b1, name).q == [] then Outcome(b1, Err(Empty)) else TakeHead(b1, name, disk)
  }

  function NewDelivery(m: Msg, lease: int, id: string, now: int): Delivery {
    Delivery(id, m, now + if lease <= 0 then MINUTE else lease)
  }

  function Hold(b: Bus, m: Msg, lease: int, id: string, now: int, disk: bool): Outcome<Delivery> {
    if m.name == "" then Outcome(b, Err(BadName))
    else if b.closed then Outcome(b, Err(Closed))
    else
      var d := NewDelivery(m, lease, id, now);
      var b1 := AddLease(b, d);
      if PersistOk(b1, disk) then Outcome(Persist(b1, disk), Ok(d))
      else Outcome(DropLease(b1, id), Err(DiskError))
  }

  function Ack(b: Bus, id: string, disk: bool): Outcome<()> {
    if id !in b.inflight then Outcome(b, Err(NotFound))
    else
      var b1 := DropLease(b, id);
      Outcome(Persist(b1, disk), if PersistOk(b1, disk) then Ok(()) else Err(DiskError))
  }

  function Nack(b: Bus, id: string, disk: bool): Outcome<()> {
    if id !in b.inflight then Outcome(b, Err(NotFound))
    else
      var b1 := Release(b, id);
      Outcome(Persist(b1, disk), if PersistOk(b1, disk) then Ok(()) else Err(DiskError))
  }

  function Requeue(b: Bus, m: Msg, disk: bool): Outcome<()> {
    if m.name == "" then Outcome(b, Err(BadName))
    else if b.closed then Outcome(b, Err(Closed))
    else
      var b1 := Deliver(b, m);
      Outcome(Persist(b1, disk), if PersistOk(b1, disk) then Ok(()) else Err(DiskError))
  }

  function ExpireLeases(b: Bus, now: int, order: seq<string>, disk: bool): Bus {
    if b.closed then b
    else if AnyExpired(b, now) then Persist(RequeueExpired(b, now, order), disk)
    else RequeueExpired(b, now, order)
  }

  /** Close ends every waiter and empties every queue; the index and the leases stay. */
  function Close(b: Bus): Bus {
    if b.closed then b
    else
      b.(closed := true,
         boxes := map n | n in b.boxes :: Box([], []),
         chans := map c | c in b.chans :: if Listed(b, c) then b.chans[c].(open := false) else b.chans[c],
         fault := b.fault || !AllClosable(b))
  }

  predicate Listed(b: Bus, c: nat) {
    exists n | n in b.boxes :: c in b.boxes[n].waiters
  }

  /** Every listed channel can be closed, and is listed once. */
  predicate AllClosable(b: Bus) {
    && (forall n | n in b.boxes :: forall i, j :: 0 <= i < j < |b.boxes[n].waiters| ==>
          b.boxes[n].waiters[i] != b.boxes[n].waiters[j])
    && (forall n, k, c | n in b.boxes && k in b.boxes && c in b.boxes[n].waiters && c in b.boxes[k].waiters :: n == k)
    && (forall n, c | n in b.boxes && c in b.boxes[n].waiters :: c in b.chans && b.chans[c].open)
  }

  // ---------------------------------------------------------------------------
  // Recovery
  // ---------------------------------------------------------------------------

  ghost function FileQueued(s: Snapshot): multiset<Msg> { Sum(s.boxes, QueueMsgs) }

  ghost function QueueMsgs(q: seq<Msg>): multiset<Msg> { multiset(q) }

  /** What a reopened bus would hold. */
  ghost function Recoverable(f: Option<Snapshot>): multiset<Msg> {
    if f.None? then multiset{} else FileQueued(f.value) + Sum(f.value.inflight, LeaseMsgs)
  }

  /** The index that counts exactly the given messages. */
  ghost function IndexOf(ms: multiset<Msg>): map<string, nat> {
    map k | k in Image(KeyOf, ms) :: Image(KeyOf, ms)[k]
  }

  /** OpenPersistent on an existing file: the queues, the leases and a rebuilt index. */
  ghost function Reopen(maxQueue: int, maxBody: int, f: Snapshot): Bus {
    Open(maxQueue, maxBody, true).(
      boxes := map n | n in f.boxes :: Box(f.boxes[n], []),
      inflight := f.inflight,
      dedup := IndexOf(Recoverable(Some(f))),
      file := Some(f))
  }
}
