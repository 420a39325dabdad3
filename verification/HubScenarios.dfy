/** The states in which the hub falls short do arise: how they are reached from any reachable
    state that has the sessions and the messages they are about. */
module HubScenarios {
  import opened Bags
  import opened MailboxSpec
  import opened MailboxInvariant
  import opened MailboxSteps
  import opened MailboxRuns
  import opened HubSpec
  import opened HubJobs
  import opened HubLists
  import opened HubLate
  import opened HubReps
  import MailboxFifo

  ghost predicate Steps(h: Hub, e: HubEvent, h': Hub) {
    HubEnabled(h, e) && h' == HubStep(h, e)
  }

  ghost predicate Leads(h: Hub, es: seq<HubEvent>, h': Hub) {
    HubValid(h, es) && h' == HubRun(h, es)
  }

  lemma OneStep(h: Hub, e: HubEvent, h': Hub)
    requires Steps(h, e, h')
    ensures Leads(h, [e], h')
  {
    hide HubEnabled, HubStep;
    assert [e][1..] == [];
    assert HubRun(h', []) == h';
  }

  lemma {:induction false} Joined(h: Hub, es: seq<HubEvent>, h1: Hub, fs: seq<HubEvent>, h2: Hub)
    requires Leads(h, es, h1) && Leads(h1, fs, h2)
    ensures Leads(h, es + fs, h2)
    decreases |es|
  {
    hide HubEnabled, HubStep;
    if es == [] {
      assert [] + fs == fs;
    } else {
      assert (es + fs)[1..] == es[1..] + fs;
      Joined(HubStep(h, es[0]), es[1..], h1, fs, h2);
    }
  }

  lemma OneMore(h: Hub, es: seq<HubEvent>, h1: Hub, e: HubEvent, h2: Hub)
    requires Leads(h, es, h1) && Steps(h1, e, h2)
    ensures Leads(h, es + [e], h2)
  {
    hide Leads, Steps;
    OneStep(h1, e, h2);
    Joined(h, es, h1, [e], h2);
  }

  // ---------------------------------------------------------------------------
  // Single steps of a job
  // ---------------------------------------------------------------------------

  lemma {:induction false} NothingExpired(b: Bus, now: int, order: seq<string>)
    requires !AnyExpired(b, now)
    ensures RequeueExpired(b, now, order) == b
    decreases |order|
  {
    if order != [] { NothingExpired(b, now, order[1..]); }
  }

  lemma HeadTaken(b: Bus, n: string)
    requires BoxOf(b, n).q != []
    ensures var t := TakeHead(b, n, true); t.result == Ok(BoxOf(b, n).q[0]) && t.bus.closed == b.closed
  {
    hide IndexAdd, IndexDel, SnapshotOf;
  }

  lemma HeadNamed(b: Bus, n: string)
    requires Inv(b) && BoxOf(b, n).q != []
    ensures BoxOf(b, n).q[0].name == n && n != ""
  {
    PopFrontOk(b, n);
    assert BoxesOk(b);
  }

  /** The job finds the head of the queue in its channel. */
  lemma StartsOnHead(h: Hub, j: nat, sid: nat, kind: Kind, n: string, now: int, order: seq<string>) returns (h': Hub)
    requires Inv(h.world.bus) && !h.world.bus.closed && BoxOf(h.world.bus, n).q != [] && !AnyExpired(h.world.bus, now)
    requires j !in h.jobs && sid in h.sessions && IsOrder(order, h.world.bus.inflight)
    ensures var (b, b', x) := (h.world.bus, h'.world.bus, BoxOf(h.world.bus, n));
      && Steps(h, StartJob(j, sid, kind, n, now, order, true), h')
      && h'.jobs == h.jobs[j := Job(sid, kind, HubSpec.Stage.Waiting(b.next))] && h'.sessions == h.sessions
      && h'.world.issued == h.world.issued
      && b'.inflight == b.inflight && b'.boxes == b.boxes[n := Box(x.q[1..], x.waiters)] && !b'.closed
      && b.next in b'.chans && b'.chans[b.next] == Chan(n, Some(x.q[0]), false)
  {
    var b := h.world.bus;
    h' := HubStep(h, StartJob(j, sid, kind, n, now, order, true));
    NothingExpired(b, now, order);
    assert n != "" && EnsureBox(b, n) == b;
    MailboxFifo.HeadBoxes(b, n, true);
    TakeHeadKeeps(b, n, true);
    HeadTaken(b, n);
    hide Inv, TakeHead, RequeueExpired, AnyExpired, Moves, FileKeepsUp, SameConfig, IsOrder, Held, InChans;
  }

  lemma ReceivesIt(h: Hub, j: nat, m: Msg) returns (h': Hub)
    requires j in h.jobs && At(h, j).Waiting? && At(h, j).chan in h.world.bus.chans
    requires var c := h.world.bus.chans[At(h, j).chan]; c.buf == Some(m) && !c.open
    ensures var (b, b') := (h.world.bus, h'.world.bus);
      && Steps(h, ReceiveJob(j), h')
      && h'.jobs == h.jobs[j := h.jobs[j].(stage := Taken(m))] && h'.sessions == h.sessions
      && m in h'.world.hand && h'.world.issued == h.world.issued
      && b'.inflight == b.inflight && b'.boxes == b.boxes && b'.closed == b.closed
  {
    h' := HubStep(h, ReceiveJob(j));
  }

  lemma Overwrites<V>(m: map<nat, V>, j: nat, v: V, v': V)
    ensures m[j := v][j := v'] == m[j := v']
  {
  }

  /** The head of the queue gets into the job's hand. */
  lemma TakesHead(h: Hub, j: nat, sid: nat, kind: Kind, n: string, now: int, order: seq<string>) returns (h1: Hub, h': Hub)
    requires Inv(h.world.bus) && !h.world.bus.closed && BoxOf(h.world.bus, n).q != [] && !AnyExpired(h.world.bus, now)
    requires j !in h.jobs && sid in h.sessions && IsOrder(order, h.world.bus.inflight)
    ensures var (b, b', x) := (h.world.bus, h'.world.bus, BoxOf(h.world.bus, n));
      && Steps(h, StartJob(j, sid, kind, n, now, order, true), h1) && Steps(h1, ReceiveJob(j), h')
      && h'.jobs == h.jobs[j := Job(sid, kind, Taken(x.q[0]))] && h'.sessions == h.sessions
      && x.q[0] in h'.world.hand && x.q[0].name != "" && h'.world.issued == h.world.issued
      && b'.inflight == b.inflight && b'.boxes == b.boxes[n := Box(x.q[1..], x.waiters)] && !b'.closed
  {
    hide Steps, IsOrder, AnyExpired, Inv;
    var m := BoxOf(h.world.bus, n).q[0];
    HeadNamed(h.world.bus, n);
    h1 := StartsOnHead(h, j, sid, kind, n, now, order);
    hide BoxOf;
    h' := ReceivesIt(h1, j, m);
    Overwrites(h.jobs, j, h1.jobs[j], Job(sid, kind, Taken(m)));
  }

  /** A job leases the message it has in hand. */
  lemma HoldsIt(h: Hub, j: nat, lease: int, id: string, now: int, disk: bool) returns (h': Hub)
    requires j in h.jobs && At(h, j).Taken? && At(h, j).msg in h.world.hand && At(h, j).msg.name != ""
    requires !h.world.bus.closed && id !in h.world.issued && (h.world.bus.durable ==> disk)
    ensures var m := At(h, j).msg;
      && Steps(h, HoldJob(j, lease, id, now, disk), h')
      && h'.jobs == h.jobs[j := h.jobs[j].(stage := HubSpec.Stage.Leased(id, m.id))] && h'.sessions == h.sessions
      && h'.world.bus.inflight == h.world.bus.inflight[id := NewDelivery(m, lease, id, now)]
      && h'.world.bus.boxes == h.world.bus.boxes && !h'.world.bus.closed && h'.world.issued == h.world.issued + {id}
  {
    hide IndexAdd, IndexDel, SnapshotOf;
    h' := HubStep(h, HoldJob(j, lease, id, now, disk));
  }

  lemma ListsIt(h: Hub, j: nat) returns (h': Hub)
    requires j in h.jobs && At(h, j).Leased? && h.jobs[j].sid in h.sessions
    ensures var (sid, id, m) := (h.jobs[j].sid, At(h, j).id, At(h, j).msgId);
      && Steps(h, ListJob(j), h')
      && h'.world == h.world && At(h', j) == HubSpec.Stage.Listed(id, m) && h'.jobs.Keys == h.jobs.Keys
      && h'.sessions.Keys == h.sessions.Keys
      && (h.jobs[j].kind.Ready? && m != "" ==> FiledFor(h', sid, m, id))
  {
    h' := HubStep(h, ListJob(j));
  }

  // ---------------------------------------------------------------------------
  // A late lease
  // ---------------------------------------------------------------------------

  lemma InHand(h: Hub, j: nat)
    requires JobsInv(h) && j in h.jobs && At(h, j).Taken?
    ensures At(h, j).msg in h.world.hand && At(h, j).msg.name != ""
  {
    hide WorldInv;
    SumWithout(h.jobs, j);
  }

  lemma ClosesIt(h: Hub, j: nat) returns (h': Hub)
    requires ListsInv(h) && j in h.jobs && At(h, j).Leased? && At(h, j).id in h.world.bus.inflight
    ensures Steps(h, BeginClose(h.jobs[j].sid), h') && At(h', j) == At(h, j) && Late(h', h.jobs[j].sid, At(h, j).id)
  {
    var e := BeginClose(h.jobs[j].sid);
    assert JobOk(h, j);
    assert HubEnabled(h, e);
    ListsStep(h, e);
    h' := HubStep(h, e);
    assert h'.world == h.world && h'.jobs == h.jobs && h'.sessions[h.jobs[j].sid].closed;
    hide ListsInv, HubStep;
    LateStarts(h', j);
  }

  lemma HoldsAndCloses(h: Hub, j: nat, lease: int, id: string, now: int, disk: bool) returns (h': Hub)
    requires ListsInv(h) && JobsInv(h)
    requires j in h.jobs && At(h, j).Taken? && !h.world.bus.closed && id !in h.world.issued && (h.world.bus.durable ==> disk)
    ensures Leads(h, [HoldJob(j, lease, id, now, disk), BeginClose(h.jobs[j].sid)], h')
    ensures At(h', j).Leased? && At(h', j).id == id && Late(h', h.jobs[j].sid, id)
  {
    hide ListsInv, JobsInv, Leads, Late;
    InHand(h, j);
    var h1 := HoldsIt(h, j, lease, id, now, disk);
    ListsSteps(h, HoldJob(j, lease, id, now, disk), h1);
    h' := ClosesIt(h1, j);
    OneStep(h, HoldJob(j, lease, id, now, disk), h1);
    OneMore(h, [HoldJob(j, lease, id, now, disk)], h1, BeginClose(h.jobs[j].sid), h');
    assert [HoldJob(j, lease, id, now, disk)] + [BeginClose(h.jobs[j].sid)]
        == [HoldJob(j, lease, id, now, disk), BeginClose(h.jobs[j].sid)];
  }

  lemma ListsSteps(h: Hub, e: HubEvent, h': Hub)
    requires ListsInv(h) && Steps(h, e, h')
    ensures ListsInv(h')
  {
    hide ListsInv, HubEnabled, HubStep;
    ListsStep(h, e);
  }

  /** From every reachable state in which a job has a message in hand: it leases it, its session
      closes, and the delivery is late. */
  lemma LateArises(b: Bus, es: seq<HubEvent>, j: nat, lease: int, id: string, now: int, disk: bool)
    requires Fresh(b) && HubValid(HubStart(b), es)
    requires var h := HubRun(HubStart(b), es);
      && j in h.jobs && At(h, j).Taken? && !h.world.bus.closed && id !in h.world.issued
      && (h.world.bus.durable ==> disk)
    ensures var h := HubRun(HubStart(b), es);
      var c := [HoldJob(j, lease, id, now, disk), BeginClose(h.jobs[j].sid)];
      && HubValid(h, c) && At(HubRun(h, c), j).Leased? && At(HubRun(h, c), j).id == id
      && Late(HubRun(h, c), h.jobs[j].sid, id)
  {
    hide HubRun, HubValid, HubStart, Fresh, ListsInv, JobsInv, Late;
    ListsStart(b);
    ListsKeep(HubStart(b), es);
    StartJobs(b);
    JobsKeep(HubStart(b), es);
    var h' := HoldsAndCloses(HubRun(HubStart(b), es), j, lease, id, now, disk);
  }

  // ---------------------------------------------------------------------------
  // A lost reply
  // ---------------------------------------------------------------------------

  lemma Asks(h: Hub, sid: nat, id: string, now: int, ttl: int) returns (h': Hub)
    requires sid in h.sessions && id != ""
    ensures Steps(h, ReqFrame(sid, id, now, ttl), h') && h'.sessions == h.sessions && ScopedId(sid, id) in h'.pending
  {
    hide ScopedId, ExpirePending;
    h' := HubStep(h, ReqFrame(sid, id, now, ttl));
  }

  lemma Closes(h: Hub, sid: nat) returns (h': Hub)
    requires sid in h.sessions
    ensures Steps(h, BeginClose(sid), h') && sid in h'.sessions && h'.sessions[sid].closed && h'.pending == h.pending
  {
    h' := HubStep(h, BeginClose(sid));
  }

  /** From every state that has the two sessions: one asks, the worker's session closes, and the
      worker's rep is one whose OK cannot be written while the slot is open. */
  lemma LostRepArises(h: Hub, sid: nat, id: string, worker: nat, now: int, ttl: int)
    requires sid in h.sessions && worker in h.sessions && id != ""
    ensures var c := [ReqFrame(sid, id, now, ttl), BeginClose(worker)];
      && HubValid(h, c) && ScopedId(sid, id) in HubRun(h, c).pending
      && HubEnabled(HubRun(h, c), ForwardRep(worker, ScopedId(sid, id), false))
  {
    hide Steps, ScopedId, HubValid, HubRun;
    var e, e' := ReqFrame(sid, id, now, ttl), BeginClose(worker);
    var h1 := Asks(h, sid, id, now, ttl);
    var h2 := Closes(h1, worker);
    OneStep(h, e, h1);
    OneMore(h, [e], h1, e', h2);
    assert [e] + [e'] == [e, e'];
  }

  // ---------------------------------------------------------------------------
  // Two deliveries under one message id
  // ---------------------------------------------------------------------------

  /** A job of session `sid` on mailbox `n`: it takes what is queued there, leases and lists it. */
  function Serves(j: nat, sid: nat, kind: Kind, n: string, lease: int, id: string, now: int, order: seq<string>): seq<HubEvent> {
    [StartJob(j, sid, kind, n, now, order, true), ReceiveJob(j), HoldJob(j, lease, id, now, true), ListJob(j)]
  }

  lemma FourSteps(h: Hub, c: seq<HubEvent>, h1: Hub, h2: Hub, h3: Hub, h4: Hub)
    requires |c| == 4 && Steps(h, c[0], h1) && Steps(h1, c[1], h2) && Steps(h2, c[2], h3) && Steps(h3, c[3], h4)
    ensures Leads(h, c, h4)
  {
    hide Steps, Leads;
    OneStep(h, c[0], h1);
    OneMore(h, [c[0]], h1, c[1], h2);
    OneMore(h, [c[0]] + [c[1]], h2, c[2], h3);
    OneMore(h, [c[0]] + [c[1]] + [c[2]], h3, c[3], h4);
    assert [c[0]] + [c[1]] + [c[2]] + [c[3]] == c;
  }

  lemma RepsSteps(h: Hub, e: HubEvent, h': Hub)
    requires RepsInv(h) && Steps(h, e, h')
    ensures RepsInv(h')
  {
    hide RepsInv, HubEnabled, HubStep;
    RepsStep(h, e);
  }

  /** A job on a mailbox with queued messages gets the first of them into its lease in three steps
      of its own. */
  lemma LeasesHead(h: Hub, j: nat, sid: nat, kind: Kind, n: string, lease: int, id: string, now: int, order: seq<string>)
    returns (h1: Hub, h2: Hub, h': Hub)
    requires RepsInv(h) && !h.world.bus.closed && BoxOf(h.world.bus, n).q != [] && !AnyExpired(h.world.bus, now)
    requires j !in h.jobs && sid in h.sessions && id !in h.world.issued && IsOrder(order, h.world.bus.inflight)
    ensures var c := Serves(j, sid, kind, n, lease, id, now, order); var (b, b', x) := (h.world.bus, h'.world.bus, BoxOf(h.world.bus, n));
      && Steps(h, c[0], h1) && Steps(h1, c[1], h2) && Steps(h2, c[2], h') && RepsInv(h')
      && h'.jobs == h.jobs[j := Job(sid, kind, HubSpec.Stage.Leased(id, x.q[0].id))] && h'.sessions == h.sessions
      && h'.world.issued == h.world.issued + {id} && b'.inflight == b.inflight[id := NewDelivery(x.q[0], lease, id, now)]
      && b'.boxes == b.boxes[n := Box(x.q[1..], x.waiters)] && !b'.closed
  {
    hide RepsInv, Steps, IsOrder, AnyExpired, NewDelivery, Inv;
    RepsBusInv(h);
    var c, m := Serves(j, sid, kind, n, lease, id, now, order), BoxOf(h.world.bus, n).q[0];
    h1, h2 := TakesHead(h, j, sid, kind, n, now, order);
    hide BoxOf;
    h' := HoldsIt(h2, j, lease, id, now, true);
    Overwrites(h.jobs, j, h2.jobs[j], Job(sid, kind, HubSpec.Stage.Leased(id, m.id)));
    RepsSteps(h, c[0], h1);
    RepsSteps(h1, c[1], h2);
    RepsSteps(h2, c[2], h');
  }

  lemma RepsBusInv(h: Hub)
    requires RepsInv(h)
    ensures Inv(h.world.bus) && h.world.bus.inflight.Keys <= h.world.issued
  {
    hide Inv, FiledFor, Carries, Answers;
  }

  /** It is then listed, and filed for a rep if the job was a ready. */
  lemma ServesHead(h: Hub, j: nat, sid: nat, n: string, lease: int, id: string, now: int, order: seq<string>) returns (h': Hub)
    requires RepsInv(h) && !h.world.bus.closed && BoxOf(h.world.bus, n).q != [] && !AnyExpired(h.world.bus, now)
    requires j !in h.jobs && sid in h.sessions && id !in h.world.issued && IsOrder(order, h.world.bus.inflight)
    requires BoxOf(h.world.bus, n).q[0].id != ""
    ensures var (b, b', x) := (h.world.bus, h'.world.bus, BoxOf(h.world.bus, n));
      && Leads(h, Serves(j, sid, Ready, n, lease, id, now, order), h') && RepsInv(h')
      && FiledFor(h', sid, x.q[0].id, id) && h'.jobs.Keys == h.jobs.Keys + {j} && h'.sessions.Keys == h.sessions.Keys
      && h'.world.issued == h.world.issued + {id} && b'.inflight == b.inflight[id := NewDelivery(x.q[0], lease, id, now)]
      && b'.boxes == b.boxes[n := Box(x.q[1..], x.waiters)] && !b'.closed
    ensures var m := BoxOf(h.world.bus, n).q[0].id;
      forall first | FiledFor(h, sid, m, first) :: first != id && Unfiled(h', first)
  {
    hide RepsInv, Steps, Leads, IsOrder, AnyExpired, NewDelivery, Unfiled;
    var m := BoxOf(h.world.bus, n).q[0].id;
    var h1, h2, h3 := LeasesHead(h, j, sid, Ready, n, lease, id, now, order);
    hide BoxOf;
    h' := ListsIt(h3, j);
    RepsSteps(h3, ListJob(j), h');
    FourSteps(h, Serves(j, sid, Ready, n, lease, id, now, order), h1, h2, h3, h');
    forall first | FiledFor(h, sid, m, first)
      ensures first != id && Unfiled(h', first)
    {
      assert FiledFor(h3, sid, m, first);
      ReplacesIt(h3, j, first, h');
    }
  }

  lemma ReplacesIt(h: Hub, j: nat, id: string, h': Hub)
    requires RepsInv(h) && j in h.jobs && At(h, j).Leased? && h.jobs[j].kind.Ready? && At(h, j).msgId != ""
    requires Steps(h, ListJob(j), h') && FiledFor(h, h.jobs[j].sid, At(h, j).msgId, id)
    ensures id != At(h, j).id && Unfiled(h', id)
  {
    hide RepsInv, HubEnabled, HubStep, Unfiled;
    Replaces(h, j, id);
  }

  lemma StillNothingExpired(b: Bus, r: Bus, m: Msg, lease: int, id: string, now: int, order: seq<string>)
    requires !AnyExpired(b, now) && r.inflight == b.inflight[id := NewDelivery(m, lease, id, now)]
    requires IsOrder(order, b.inflight) && id !in b.inflight
    ensures !AnyExpired(r, now) && IsOrder(order + [id], r.inflight)
  {
    forall k | k in r.inflight
      ensures !Expired(r, k, now)
    {
      if k != id { assert !Expired(b, k, now); }
    }
    NoDupSnoc(order, id);
  }

  lemma OtherBox(b: Bus, r: Bus, n: string, n': string)
    requires n != n' && n in r.boxes && r.boxes == b.boxes[n := r.boxes[n]]
    ensures BoxOf(r, n') == BoxOf(b, n')
  {
  }

  lemma ServesTwice(h: Hub, sid: nat, j: nat, j': nat, n: string, n': string,
                    lease: int, id: string, id': string, now: int, order: seq<string>) returns (h': Hub)
    requires RepsInv(h) && n != n' && id != id' && j != j'
    requires var w := h.world;
      && !w.bus.closed && sid in h.sessions && j !in h.jobs && j' !in h.jobs && id !in w.issued && id' !in w.issued
      && BoxOf(w.bus, n).q != [] && BoxOf(w.bus, n').q != []
      && BoxOf(w.bus, n).q[0].id == BoxOf(w.bus, n').q[0].id != ""
      && !AnyExpired(w.bus, now) && IsOrder(order, w.bus.inflight)
    ensures Leads(h, Serves(j, sid, Ready, n, lease, id, now, order) + Serves(j', sid, Ready, n', lease, id', now, order + [id]), h')
    ensures id in h'.world.bus.inflight && id' in h'.world.bus.inflight
    ensures FiledFor(h', sid, BoxOf(h.world.bus, n).q[0].id, id') && Unfiled(h', id)
  {
    hide RepsInv, Leads, IsOrder, AnyExpired, NewDelivery, Unfiled, FiledFor, Serves, Inv;
    RepsBusInv(h);
    var h1 := ServesHead(h, j, sid, n, lease, id, now, order);
    StillNothingExpired(h.world.bus, h1.world.bus, BoxOf(h.world.bus, n).q[0], lease, id, now, order);
    OtherBox(h.world.bus, h1.world.bus, n, n');
    hide BoxOf;
    h' := ServesHead(h1, j', sid, n', lease, id', now, order + [id]);
    Joined(h, Serves(j, sid, Ready, n, lease, id, now, order), h1, Serves(j', sid, Ready, n', lease, id', now, order + [id]), h');
  }

  /** From every reachable state in which two mailboxes have messages under one id in front, as when
      a client asks two mailboxes under one correlation id: a worker that is ready on both is given
      both; both are leased, and its rep acknowledges the second only. */
  lemma ReplacedDeliveryArises(b: Bus, es: seq<HubEvent>, sid: nat, j: nat, j': nat, n: string, n': string,
                               lease: int, id: string, id': string, now: int, order: seq<string>)
    requires Fresh(b) && HubValid(HubStart(b), es) && n != n' && id != id' && j != j'
    requires var h := HubRun(HubStart(b), es); var w := h.world;
      && !w.bus.closed && sid in h.sessions && j !in h.jobs && j' !in h.jobs && id !in w.issued && id' !in w.issued
      && BoxOf(w.bus, n).q != [] && BoxOf(w.bus, n').q != []
      && BoxOf(w.bus, n).q[0].id == BoxOf(w.bus, n').q[0].id != ""
      && !AnyExpired(w.bus, now) && IsOrder(order, w.bus.inflight)
    ensures var h := HubRun(HubStart(b), es); var m := BoxOf(h.world.bus, n).q[0].id;
      var c := Serves(j, sid, Ready, n, lease, id, now, order) + Serves(j', sid, Ready, n', lease, id', now, order + [id]);
      && HubValid(h, c)
      && var r := HubRun(h, c);
      && id in r.world.bus.inflight && id' in r.world.bus.inflight && FiledFor(r, sid, m, id') && Unfiled(r, id)
  {
    hide HubRun, HubValid, HubStart, Fresh, RepsInv, IsOrder, AnyExpired, Serves, FiledFor, Unfiled, BoxOf;
    RepsStart(b);
    RepsKeep(HubStart(b), es);
    var h' := ServesTwice(HubRun(HubStart(b), es), sid, j, j', n, n', lease, id, id', now, order);
  }
}
