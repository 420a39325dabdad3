/** Runs of the mailbox machine. A world is a bus together with what has left it (messages
    in the hands of takers) and the history a run is judged by. Every interleaving of the
    lock-protected operations is a sequence of events. */
module MailboxRuns {
  import opened Bags
  import opened MailboxSpec
  import opened MailboxInvariant
  import opened MailboxSteps

  datatype World = World(bus: Bus, hand: multiset<Msg>, accepted: multiset<Msg>, acked: multiset<Msg>, issued: set<string>)

  datatype Event =
    | PutMsg(name: string, msg: Msg, gen: string, now: int, disk: bool)
    | StartTake(name: string, now: int, order: seq<string>, disk: bool)
    | ReceiveFrom(chan: nat)
    | CancelTake(chan: nat, disk: bool)
    | PopNow(name: string, now: int, order: seq<string>, disk: bool)
    | HoldMsg(msg: Msg, lease: int, id: string, now: int, disk: bool)
    | RequeueMsg(msg: Msg, disk: bool)
    | AckLease(id: string, disk: bool)
    | NackLease(id: string, disk: bool)
    | Sweep(now: int, order: seq<string>, disk: bool)
    | CloseBus

  /** A map iteration visits every lease once; a taker receives only what is there; only a
      message in hand is held or requeued; a delivery id is never generated twice. */
  ghost predicate Enabled(w: World, e: Event) {
    match e
    case StartTake(_, _, order, _) => IsOrder(order, w.bus.inflight)
    case ReceiveFrom(c) => c in w.bus.chans && !w.bus.chans[c].open
    case CancelTake(c, _) => c in w.bus.chans
    case PopNow(_, _, order, _) => IsOrder(order, w.bus.inflight)
    case HoldMsg(m, _, id, _, _) => m in w.hand && id !in w.issued
    case RequeueMsg(m, _) => m in w.hand
    case Sweep(_, order, _) => IsOrder(order, w.bus.inflight)
    case _ => true
  }

  ghost function Step(w: World, e: Event): World
    requires Enabled(w, e)
  {
    match e
    case PutMsg(name, m, gen, now, disk) =>
      w.(bus := Put(w.bus, name, m, gen, now, disk).bus,
         accepted := w.accepted + One(Accepts(w.bus, name, m, gen, now, disk), Stamped(m, name, gen, now)))
    case StartTake(name, now, order, disk) =>
      w.(bus := TakeChan(w.bus, name, now, order, disk).bus)
    case ReceiveFrom(c) =>
      w.(bus := Receive(w.bus, c).bus, hand := w.hand + ChanMsgs(w.bus.chans[c]))
    case CancelTake(c, disk) =>
      w.(bus := CancelWaiter(w.bus, w.bus.chans[c].name, c, disk))
    case PopNow(name, now, order, disk) =>
      var o := TryTake(w.bus, name, now, order, disk);
      w.(bus := o.bus, hand := w.hand + if o.result.Ok? then multiset{o.result.value} else multiset{})
    case HoldMsg(m, lease, id, now, disk) =>
      var o := Hold(w.bus, m, lease, id, now, disk);
      w.(bus := o.bus, hand := w.hand - One(o.result.Ok?, m), issued := w.issued + {id})
    case RequeueMsg(m, disk) =>
      w.(bus := Requeue(w.bus, m, disk).bus, hand := w.hand - One(m.name != "" && !w.bus.closed, m))
    case AckLease(id, disk) =>
      w.(bus := Ack(w.bus, id, disk).bus,
         acked := w.acked + if id in w.bus.inflight then multiset{w.bus.inflight[id].msg} else multiset{})
    case NackLease(id, disk) =>
      w.(bus := Nack(w.bus, id, disk).bus)
    case Sweep(now, order, disk) =>
      w.(bus := ExpireLeases(w.bus, now, order, disk))
    case CloseBus =>
      w.(bus := Close(w.bus))
  }

  ghost predicate Valid(w: World, es: seq<Event>)
    decreases |es|
  {
    es == [] || (Enabled(w, es[0]) && Valid(Step(w, es[0]), es[1..]))
  }

  ghost function Run(w: World, es: seq<Event>): World
    requires Valid(w, es)
    decreases |es|
  {
    if es == [] then w else Run(Step(w, es[0]), es[1..])
  }

  /** A run starts on a new bus or on a reopened one; what was recovered counts as accepted. */
  ghost function Start(b: Bus): World {
    World(b, multiset{}, Held(b), multiset{}, b.inflight.Keys)
  }

  ghost predicate Fresh(b: Bus) {
    Inv(b) && !b.closed && b.chans == map[] && (b.durable ==> FileCurrent(b))
  }

  ghost predicate Conserved(w: World) {
    w.accepted == Live(w.bus) + (w.hand + w.acked)
  }

  ghost predicate WorldInv(w: World) {
    && Inv(w.bus)
    && w.bus.inflight.Keys <= w.issued
    && (!w.bus.closed ==> Conserved(w))
  }

  /** What an event adds to the bus from outside it. */
  ghost function Gains(w: World, e: Event): multiset<Msg>
    requires Enabled(w, e)
  {
    match e
    case PutMsg(name, m, gen, now, disk) =>
      One(Accepts(w.bus, name, m, gen, now, disk), Stamped(m, name, gen, now))
    case HoldMsg(m, lease, id, now, disk) => One(Hold(w.bus, m, lease, id, now, disk).result.Ok?, m)
    case RequeueMsg(m, _) => One(m.name != "" && !w.bus.closed, m)
    case _ => multiset{}
  }

  /** What an event takes out of the bus. */
  ghost function Losses(w: World, e: Event): multiset<Msg>
    requires Enabled(w, e)
  {
    match e
    case ReceiveFrom(c) => ChanMsgs(w.bus.chans[c])
    case PopNow(name, now, order, disk) =>
      var o := TryTake(w.bus, name, now, order, disk);
      if o.result.Ok? then multiset{o.result.value} else multiset{}
    case AckLease(id, _) => if id in w.bus.inflight then multiset{w.bus.inflight[id].msg} else multiset{}
    case _ => multiset{}
  }

  /** The bus keeps its invariant, ids stay issued, and an open bus gains and loses what the
      event says. */
  ghost predicate BusFollows(w: World, e: Event)
    requires Enabled(w, e)
  {
    var w' := Step(w, e);
    && Inv(w'.bus) && w'.bus.inflight.Keys <= w'.issued && w.issued <= w'.issued
    && (!w'.bus.closed ==> !w.bus.closed && Moves(w.bus, w'.bus, Gains(w, e), Losses(w, e)))
  }

  /** Messages come and go through Put and takes. */
  predicate Passes(e: Event) {
    e.PutMsg? || e.StartTake? || e.ReceiveFrom? || e.CancelTake? || e.PopNow?
  }

  lemma StepBus(w: World, e: Event)
    requires Inv(w.bus) && w.bus.inflight.Keys <= w.issued && Enabled(w, e)
    ensures var w' := Step(w, e);
      && Inv(w'.bus) && w'.bus.inflight.Keys <= w'.issued && w.issued <= w'.issued
      && (!w'.bus.closed ==> !w.bus.closed && Moves(w.bus, w'.bus, Gains(w, e), Losses(w, e)))
  {
    hide Inv, Moves, Step, Gains, Losses, Enabled;
    if Passes(e) { PassingBus(w, e); } else { LeasingBus(w, e); }
  }

  lemma PassingBus(w: World, e: Event)
    requires Inv(w.bus) && w.bus.inflight.Keys <= w.issued && Enabled(w, e) && Passes(e)
    ensures BusFollows(w, e)
  {
    hide Inv, Moves, FileKeepsUp, FileCurrent, Held, InChans, Put, Accepts, TakeChan, CancelWaiter, TryTake;
    match e
    case PutMsg(name, m, gen, now, disk) => PutKeeps(w.bus, name, m, gen, now, disk);
    case StartTake(name, now, order, disk) => TakeChanKeeps(w.bus, name, now, order, disk);
    case ReceiveFrom(c) => ReceiveKeeps(w.bus, c);
    case CancelTake(c, disk) => CancelWaiterKeeps(w.bus, c, disk);
    case PopNow(name, now, order, disk) => TryTakeKeeps(w.bus, name, now, order, disk);
    case _ =>
  }

  lemma LeasingBus(w: World, e: Event)
    requires Inv(w.bus) && w.bus.inflight.Keys <= w.issued && Enabled(w, e) && !Passes(e)
    ensures BusFollows(w, e)
  {
    hide Inv, BusFollows;
    if e.HoldMsg? || e.RequeueMsg? { HoldingBus(w, e); } else { SettlingBus(w, e); }
  }

  lemma HoldingBus(w: World, e: Event)
    requires Inv(w.bus) && w.bus.inflight.Keys <= w.issued && Enabled(w, e) && (e.HoldMsg? || e.RequeueMsg?)
    ensures BusFollows(w, e)
  {
    hide Inv, Moves, FileKeepsUp, FileCurrent, Held, InChans, Hold, Requeue, Returns;
    if e.HoldMsg? {
      HoldKeeps(w.bus, e.msg, e.lease, e.id, e.now, e.disk);
    } else {
      RequeueKeeps(w.bus, e.msg, e.disk);
    }
  }

  lemma SettlingBus(w: World, e: Event)
    requires Inv(w.bus) && w.bus.inflight.Keys <= w.issued && Enabled(w, e) && !Passes(e) && !e.HoldMsg? && !e.RequeueMsg?
    ensures BusFollows(w, e)
  {
    hide Inv, Moves, FileKeepsUp, FileCurrent, Held, InChans, Ack, Nack, ExpireLeases, Close, AllClosable;
    match e
    case AckLease(id, disk) =>
      AckKeeps(w.bus, id, disk);
      assert (w.bus.inflight - {id}).Keys <= w.bus.inflight.Keys;
    case NackLease(id, disk) =>
      NackKeeps(w.bus, id, disk);
      assert (w.bus.inflight - {id}).Keys <= w.bus.inflight.Keys;
    case Sweep(now, order, disk) => ExpireLeasesKeeps(w.bus, now, order, disk);
    case CloseBus => CloseKeeps(w.bus);
    case _ =>
  }

  /** Outside the bus, hand and history take up exactly what the bus gains and loses. */
  lemma StepOutside(w: World, e: Event)
    requires Enabled(w, e)
    ensures var w' := Step(w, e);
      w'.accepted + (w.hand + w.acked) + Losses(w, e) == w.accepted + (w'.hand + w'.acked) + Gains(w, e)
  {
    hide Put, Accepts, TakeChan, CancelWaiter, TryTake, Hold, Requeue, Ack, Nack, ExpireLeases, Close;
  }

  lemma StepKeeps(w: World, e: Event)
    requires WorldInv(w) && Enabled(w, e)
    ensures WorldInv(Step(w, e))
  {
    hide Inv, Step, Gains, Losses, Enabled, Live;
    StepBus(w, e);
    var w' := Step(w, e);
    if !w'.bus.closed {
      StepOutside(w, e);
      Balance(Live(w.bus), Live(w'.bus), Gains(w, e), Losses(w, e),
              w.hand + w.acked, w'.hand + w'.acked, w.accepted, w'.accepted);
    }
  }

  lemma {:induction false} RunKeeps(w: World, es: seq<Event>)
    requires WorldInv(w) && Valid(w, es)
    ensures WorldInv(Run(w, es))
    decreases |es|
  {
    hide WorldInv, Enabled, Step;
    if es != [] {
      StepKeeps(w, es[0]);
      RunKeeps(Step(w, es[0]), es[1..]);
    }
  }

  /** A new bus can start a run, with a state file that is missing or without one. */
  lemma OpenIsFresh(maxQueue: int, maxBody: int, durable: bool)
    ensures Fresh(Open(maxQueue, maxBody, durable)) && Held(Open(maxQueue, maxBody, durable)) == multiset{}
  {
    var b := Open(maxQueue, maxBody, durable);
    SumEmpty(b.boxes, BoxMsgs);
    SumEmpty(b.inflight, LeaseMsgs);
    ImageEmpty(KeyOf, Held(b));
  }

  lemma StartKeeps(b: Bus)
    requires Fresh(b)
    ensures WorldInv(Start(b))
  {
    SumEmpty(b.chans, ChanMsgs);
  }

  // ---------------------------------------------------------------------------
  // Conservation
  // ---------------------------------------------------------------------------

  /** On an open bus every message Put newly accepted is in exactly one place: queued,
      leased, in a waiter's channel, in a taker's hand, or acknowledged. No failed write,
      nack, expiry, requeue or cancellation loses or invents one. */
  lemma Conservation(b: Bus, es: seq<Event>)
    requires Fresh(b) && Valid(Start(b), es) && !Run(Start(b), es).bus.closed
    ensures var w := Run(Start(b), es);
      w.accepted == Queued(w.bus) + Leased(w.bus) + InChans(w.bus) + w.hand + w.acked
  {
    StartKeeps(b);
    RunKeeps(Start(b), es);
  }
}
