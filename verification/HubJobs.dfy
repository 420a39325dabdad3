/** The hub's jobs against the bus: what a job thinks it holds is what the bus handed out,
    and nothing handed out is without its job. */
module HubJobs {
  import opened Bags
  import opened MailboxSpec
  import opened MailboxInvariant
  import opened MailboxSteps
  import opened MailboxRuns
  import opened MailboxLeases
  import opened MailboxWaiters
  import opened HubSpec
  import opened HubRuns

  ghost function JobMsgs(j: Job): multiset<Msg> {
    if j.stage.Taken? || j.stage.Refused? then multiset{j.stage.msg} else multiset{}
  }

  /** The messages jobs have in hand are messages in hand; on an open bus they are all of
      them. A job's message has a mailbox to go back to. */
  ghost predicate HandsAgree(h: Hub) {
    && Sum(h.jobs, JobMsgs) <= h.world.hand
    && (!h.world.bus.closed ==> Sum(h.jobs, JobMsgs) == h.world.hand)
    && (forall j | j in h.jobs && (At(h, j).Taken? || At(h, j).Refused?) :: At(h, j).msg.name != "")
  }

  /** The channels of the bus are those of the waiting jobs, one each. */
  ghost predicate ChansAgree(h: Hub) {
    && (forall j | j in h.jobs && At(h, j).Waiting? :: At(h, j).chan in h.world.bus.chans)
    && (forall j, k | j in h.jobs && k in h.jobs && At(h, j).Waiting? && At(h, k).Waiting? ::
          At(h, j).chan == At(h, k).chan ==> j == k)
    && (forall c | c in h.world.bus.chans :: exists j :: j in h.jobs && At(h, j) == HubSpec.Stage.Waiting(c))
  }

  // ---------------------------------------------------------------------------
  // Channels come and go with takes
  // ---------------------------------------------------------------------------

  lemma PutKeys(b: Bus, name: string, m: Msg, gen: string, now: int, disk: bool)
    requires Inv(b)
    ensures Put(b, name, m, gen, now, disk).bus.chans.Keys == b.chans.Keys
  {
    if name != "" && BoxOf(b, name).waiters != [] { HeadWaiter(b, name); }
  }

  lemma TakeKeys(b: Bus, name: string, now: int, order: seq<string>, disk: bool)
    requires Inv(b)
    ensures var o := TakeChan(b, name, now, order, disk);
      if o.result.Ok? then o.bus.chans.Keys == b.chans.Keys + {o.result.value} && o.result.value !in b.chans
      else o.bus.chans.Keys == b.chans.Keys
  {
    hide Inv, RequeueExpired, TakeHead, Moves, FileKeepsUp, Held, InChans, SameConfig;
    NextUnused(b);
    RequeueExpiredKeeps(b, now, order);
    SweepChans(b, now, order);
    var b0 := RequeueExpired(b, now, order);
    if name != "" && !b.closed {
      EnsureBoxKeeps(b0, name);
      var b1 := EnsureBox(b0, name);
      assert b1.chans.Keys == b.chans.Keys && b1.next == b.next;
      if BoxOf(b1, name).q != [] { TakeHeadKeeps(b1, name, disk); }
    }
  }

  lemma NackKeys(b: Bus, id: string, disk: bool)
    requires Inv(b)
    ensures Nack(b, id, disk).bus.chans.Keys == b.chans.Keys
  {
    hide Inv, Deliver, SnapshotOf;
    if id in b.inflight {
      DropLeaseKeeps(b, id);
      DeliverKeys(DropLease(b, id), b.inflight[id].msg);
    }
  }

  lemma RequeueKeys(b: Bus, m: Msg, disk: bool)
    requires Inv(b)
    ensures Requeue(b, m, disk).bus.chans.Keys == b.chans.Keys
  {
    hide Inv, Deliver, SnapshotOf;
    DeliverKeys(b, m);
  }

  lemma ExpireKeys(b: Bus, now: int, order: seq<string>, disk: bool)
    requires Inv(b)
    ensures ExpireLeases(b, now, order, disk).chans.Keys == b.chans.Keys
  {
    hide Inv, RequeueExpired, AnyExpired, SnapshotOf;
    SweepChans(b, now, order);
  }

  lemma HoldAckKeys(b: Bus, m: Msg, lease: int, id: string, now: int, disk: bool)
    ensures Hold(b, m, lease, id, now, disk).bus.chans == b.chans && Ack(b, id, disk).bus.chans == b.chans
  {
    hide IndexAdd, IndexDel, SnapshotOf;
  }

  /** Only the events of jobs change which channels there are. */
  lemma OtherKeys(w: World, e: Event)
    requires Inv(w.bus) && Enabled(w, e)
    requires !e.StartTake? && !e.ReceiveFrom? && !e.CancelTake? && !e.PopNow?
    ensures Step(w, e).bus.chans.Keys == w.bus.chans.Keys
  {
    hide Inv, Put, Accepts, Hold, Requeue, Ack, Nack, ExpireLeases, Close, AllClosable;
    match e
    case PutMsg(name, m, gen, now, disk) => PutKeys(w.bus, name, m, gen, now, disk);
    case HoldMsg(m, lease, id, now, disk) => HoldAckKeys(w.bus, m, lease, id, now, disk);
    case RequeueMsg(m, disk) => RequeueKeys(w.bus, m, disk);
    case AckLease(id, disk) => HoldAckKeys(w.bus, Msg("", "", "", [], 0), 0, id, 0, disk);
    case NackLease(id, disk) => NackKeys(w.bus, id, disk);
    case Sweep(now, order, disk) => ExpireKeys(w.bus, now, order, disk);
    case CloseBus => CloseKeeps(w.bus);
  }

  // ---------------------------------------------------------------------------
  // One job at a time
  // ---------------------------------------------------------------------------

  ghost function MsgsAt(h: Hub, j: nat): multiset<Msg> {
    if j in h.jobs then JobMsgs(h.jobs[j]) else multiset{}
  }

  predicate Handles(e: HubEvent) { e.ReceiveJob? || e.HoldJob? || e.RequeueJob? }

  /** The hand of the world grows by what the acting job takes, and shrinks by what it gives;
      a closed bus takes nothing back. */
  ghost predicate InBalance(h: Hub, e: HubEvent, j: nat)
    requires HubEnabled(h, e)
  {
    var before, after := After(h, e).hand + MsgsAt(h, j), h.world.hand + MsgsAt(HubStep(h, e), j);
    after <= before && (!h.world.bus.closed ==> after == before)
  }

  lemma QuietHand(w: World, e: Event)
    requires Enabled(w, e) && !e.ReceiveFrom? && !e.PopNow? && !e.HoldMsg? && !e.RequeueMsg?
    ensures Step(w, e).hand == w.hand
  {
    hide Put, Accepts, TakeChan, CancelWaiter, Ack, Nack, ExpireLeases, Close;
  }

  lemma QuietMsgs(h: Hub, e: HubEvent, j: nat)
    requires HubEnabled(h, e) && Actor(e) == Some(j) && !Handles(e)
    ensures MsgsAt(h, j) == multiset{} && MsgsAt(HubStep(h, e), j) == multiset{}
  {
    hide Enabled, After, BusEvent, TakeChan, Receive, Hold, Ack, Nack, ScopedId, ExpirePending, ClearPending;
    hide TrackInflight, TrackRepAck, TakeRepAck, ClaimInflight, DropInflight, CloseSession;
  }

  lemma QuietBalance(h: Hub, e: HubEvent, j: nat)
    requires HubEnabled(h, e) && Actor(e) == Some(j) && !Handles(e)
    ensures InBalance(h, e, j)
  {
    QuietMsgs(h, e, j);
    hide Enabled, Step, HubStep, MsgsAt;
    if BusEvent(h, e).Some? { QuietHand(h.world, BusEvent(h, e).value); }
  }

  lemma ReceiveBalance(h: Hub, e: HubEvent)
    requires HubEnabled(h, e) && e.ReceiveJob?
    ensures InBalance(h, e, e.job)
  {
    var c := At(h, e.job).chan;
    assert After(h, e).hand == h.world.hand + ChanMsgs(h.world.bus.chans[c]);
    assert MsgsAt(HubStep(h, e), e.job) == ChanMsgs(h.world.bus.chans[c]);
  }

  lemma HoldHand(w: World, e: Event)
    requires Enabled(w, e) && e.HoldMsg?
    ensures e.msg in w.hand
    ensures Step(w, e).hand == w.hand - One(Hold(w.bus, e.msg, e.lease, e.id, e.now, e.disk).result.Ok?, e.msg)
  {
    hide Hold;
  }

  lemma HoldMsgs(h: Hub, e: HubEvent)
    requires HubEnabled(h, e) && e.HoldJob?
    ensures var m := At(h, e.job).msg;
      && MsgsAt(h, e.job) == multiset{m}
      && MsgsAt(HubStep(h, e), e.job) == One(!Hold(h.world.bus, m, e.lease, e.id, e.now, e.disk).result.Ok?, m)
  {
    hide Hold, Enabled, After;
  }

  lemma HoldBalance(h: Hub, e: HubEvent)
    requires HubEnabled(h, e) && e.HoldJob?
    ensures InBalance(h, e, e.job)
  {
    HoldMsgs(h, e);
    hide Enabled, Step, HubStep, MsgsAt, Hold;
    HoldHand(h.world, BusEvent(h, e).value);
  }

  lemma RequeueHand(w: World, e: Event)
    requires Enabled(w, e) && e.RequeueMsg?
    ensures e.msg in w.hand && Step(w, e).hand == w.hand - One(e.msg.name != "" && !w.bus.closed, e.msg)
  {
    hide Requeue;
  }

  lemma RequeueMsgs(h: Hub, e: HubEvent)
    requires HubEnabled(h, e) && e.RequeueJob?
    ensures MsgsAt(h, e.job) == multiset{At(h, e.job).msg} && MsgsAt(HubStep(h, e), e.job) == multiset{}
  {
    hide Enabled, After;
  }

  lemma RequeueBalance(h: Hub, e: HubEvent)
    requires HubEnabled(h, e) && e.RequeueJob? && At(h, e.job).msg.name != ""
    ensures InBalance(h, e, e.job)
  {
    RequeueMsgs(h, e);
    hide Enabled, Step, HubStep, MsgsAt;
    RequeueHand(h.world, BusEvent(h, e).value);
  }

  lemma OthersBalance(h: Hub, e: HubEvent)
    requires HubEnabled(h, e) && Actor(e).None?
    ensures After(h, e).hand == h.world.hand && HubStep(h, e).jobs == h.jobs
  {
    hide Put, Accepts, Nack, ExpireLeases, Close, ScopedId, ExpirePending, ClearPending, CloseSession;
  }

  lemma SumStep(h: Hub, e: HubEvent, j: nat)
    requires HubEnabled(h, e) && Actor(e) == Some(j)
    ensures Sum(HubStep(h, e).jobs, JobMsgs) + MsgsAt(h, j) == Sum(h.jobs, JobMsgs) + MsgsAt(HubStep(h, e), j)
  {
    hide HubEnabled, HubStep;
    var h' := HubStep(h, e);
    forall k | k != j
      ensures (k in h'.jobs <==> k in h.jobs) && (k in h.jobs ==> h'.jobs[k] == h.jobs[k])
    {
      OnlyActor(h, e, k);
    }
    assert h'.jobs - {j} == h.jobs - {j};
    SumWithout(h.jobs, j);
    SumWithout(h'.jobs, j);
  }

  lemma SumWithout(m: map<nat, Job>, j: nat)
    ensures Sum(m, JobMsgs) == Sum(m - {j}, JobMsgs) + if j in m then JobMsgs(m[j]) else multiset{}
  {
    if j in m {
      SumRemove(m, JobMsgs, j);
    } else {
      assert m - {j} == m;
    }
  }

  // ---------------------------------------------------------------------------
  // Hands
  // ---------------------------------------------------------------------------

  ghost predicate Named(h: Hub, j: nat) {
    At(h, j).Taken? || At(h, j).Refused? ==> At(h, j).msg.name != ""
  }

  lemma StepNamed(h: Hub, e: HubEvent, j: nat)
    requires Inv(h.world.bus) && HubEnabled(h, e) && Named(h, j)
    ensures Named(HubStep(h, e), j)
  {
    hide HubEnabled, HubStep, Inv, Named;
    if Actor(e) != Some(j) {
      OthersNamed(h, e, j);
    } else if e.ReceiveJob? {
      ReceiverNamed(h, e);
    } else {
      ActorNamed(h, e, j);
    }
  }

  lemma OthersNamed(h: Hub, e: HubEvent, j: nat)
    requires HubEnabled(h, e) && Actor(e) != Some(j) && Named(h, j)
    ensures Named(HubStep(h, e), j)
  {
    hide HubEnabled, HubStep;
    OnlyActor(h, e, j);
  }

  lemma ReceiverNamed(h: Hub, e: HubEvent)
    requires Inv(h.world.bus) && HubEnabled(h, e) && e.ReceiveJob?
    ensures Named(HubStep(h, e), e.job)
  {
    var c := At(h, e.job).chan;
    assert c in h.world.bus.chans;
    if h.world.bus.chans[c].buf.Some? { ReceivedNamed(h.world.bus, c); }
    hide Inv, Enabled, After;
  }

  lemma ActorNamed(h: Hub, e: HubEvent, j: nat)
    requires HubEnabled(h, e) && Actor(e) == Some(j) && !e.ReceiveJob? && Named(h, j)
    ensures Named(HubStep(h, e), j)
  {
    hide Enabled, After, TakeChan, Receive, Hold, Ack, Nack, ScopedId, ExpirePending, ClearPending;
    hide TrackInflight, TrackRepAck, TakeRepAck, ClaimInflight, DropInflight, CloseSession;
  }

  lemma ReceivedNamed(b: Bus, c: nat)
    requires Inv(b) && c in b.chans && b.chans[c].buf.Some?
    ensures b.chans[c].buf.value.name != ""
  {
    assert ChansOk(b) && BoxesOk(b);
    assert b.chans[c].name in b.boxes;
  }

  lemma ActorBalance(h: Hub, e: HubEvent, j: nat)
    requires HubEnabled(h, e) && HandsAgree(h) && Actor(e) == Some(j)
    ensures InBalance(h, e, j)
  {
    if e.RequeueJob? { RefusedInJobs(h, e); }
    hide HubEnabled, HubStep, InBalance, Sum;
    if e.ReceiveJob? {
      ReceiveBalance(h, e);
    } else if e.HoldJob? {
      HoldBalance(h, e);
    } else if e.RequeueJob? {
      RequeueBalance(h, e);
    } else {
      QuietBalance(h, e, j);
    }
  }

  lemma StepSums(h: Hub, e: HubEvent)
    requires HubEnabled(h, e) && HandsAgree(h)
    ensures Sum(HubStep(h, e).jobs, JobMsgs) <= After(h, e).hand
    ensures !h.world.bus.closed ==> Sum(HubStep(h, e).jobs, JobMsgs) == After(h, e).hand
  {
    hide HubEnabled, HubStep, After, MsgsAt, JobMsgs, Sum;
    if Actor(e).Some? {
      var j := Actor(e).value;
      ActorBalance(h, e, j);
      SumStep(h, e, j);
      Shifted(Sum(h.jobs, JobMsgs), Sum(HubStep(h, e).jobs, JobMsgs), MsgsAt(h, j), MsgsAt(HubStep(h, e), j),
              h.world.hand, After(h, e).hand);
    } else {
      OthersBalance(h, e);
    }
  }

  lemma BusOfWorld(w: World)
    requires WorldInv(w)
    ensures Inv(w.bus)
  {
    hide Inv, Conserved;
  }

  lemma StepHands(h: Hub, e: HubEvent)
    requires WorldInv(h.world) && HubEnabled(h, e) && HandsAgree(h)
    ensures HandsAgree(HubStep(h, e))
  {
    hide HubEnabled, HubStep, Inv, After, WorldInv, JobMsgs, Sum;
    var h' := HubStep(h, e);
    BusOfWorld(h.world);
    StepWorld(h, e);
    StaysClosed(h, e);
    StepSums(h, e);
    forall j | j in h'.jobs && (At(h', j).Taken? || At(h', j).Refused?)
      ensures At(h', j).msg.name != ""
    {
      assert Named(h, j);
      StepNamed(h, e, j);
    }
  }

  lemma RefusedInJobs(h: Hub, e: HubEvent)
    requires HubEnabled(h, e) && e.RequeueJob?
    ensures e.job in h.jobs && At(h, e.job).Refused?
  {
    hide Enabled;
  }

  /** A sum that moves with the hand stays below it, and equal to it. */
  lemma Shifted<T>(s: multiset<T>, s': multiset<T>, a: multiset<T>, a': multiset<T>, hand: multiset<T>, hand': multiset<T>)
    requires s' + a == s + a' && hand + a' <= hand' + a
    ensures s <= hand ==> s' <= hand'
    ensures s == hand && hand + a' == hand' + a ==> s' == hand'
  {
    forall x: T
      ensures s[x] <= hand[x] ==> s'[x] <= hand'[x]
      ensures s[x] == hand[x] && hand + a' == hand' + a ==> s'[x] == hand'[x]
    {
      assert (s' + a)[x] == (s + a')[x];
      assert (hand + a')[x] <= (hand' + a)[x];
      assert hand + a' == hand' + a ==> (hand + a')[x] == (hand' + a)[x];
    }
  }

  lemma StaysClosed(h: Hub, e: HubEvent)
    requires WorldInv(h.world) && HubEnabled(h, e)
    ensures WorldInv(After(h, e))
    ensures !After(h, e).bus.closed ==> !h.world.bus.closed
  {
    hide Inv, Enabled, Step, Conserved;
    if BusEvent(h, e).Some? {
      StepBus(h.world, BusEvent(h, e).value);
      StepKeeps(h.world, BusEvent(h, e).value);
    }
  }

  // ---------------------------------------------------------------------------
  // Channels
  // ---------------------------------------------------------------------------

  /** The channel a job waits on, if any. */
  function WaitsOn(h: Hub, j: nat): Option<nat> {
    if At(h, j).Waiting? then Some(At(h, j).chan) else None
  }

  /** The channels of the bus change with the job that waits on them. */
  ghost predicate ChansFollow(h: Hub, e: HubEvent, j: nat)
    requires HubEnabled(h, e)
  {
    var chans, chans' := h.world.bus.chans.Keys, After(h, e).bus.chans.Keys;
    match (WaitsOn(h, j), WaitsOn(HubStep(h, e), j))
    case (None, None) => chans' == chans
    case (None, Some(c)) => c !in chans && chans' == chans + {c}
    case (Some(c), None) => chans' == chans - {c}
    case _ => false
  }

  lemma StartChans(h: Hub, e: HubEvent)
    requires Inv(h.world.bus) && HubEnabled(h, e) && e.StartJob?
    ensures ChansFollow(h, e, e.job)
  {
    hide Inv, TakeChan;
    TakeKeys(h.world.bus, e.name, e.now, e.order, e.disk);
  }

  lemma CancelKeys(b: Bus, c: nat, disk: bool)
    requires c in b.chans
    ensures CancelWaiter(b, b.chans[c].name, c, disk).chans == b.chans - {c}
  {
    hide IndexAdd, SnapshotOf, Without, BoxOf;
  }

  lemma EndKeys(w: World, e: Event)
    requires Enabled(w, e) && (e.ReceiveFrom? || e.CancelTake?)
    ensures Step(w, e).bus.chans == w.bus.chans - {e.chan}
  {
    hide Put, Accepts, TakeChan, CancelWaiter, TryTake, Hold, Requeue, Ack, Nack, ExpireLeases, Close;
    if e.CancelTake? { CancelKeys(w.bus, e.chan, e.disk); }
  }

  lemma EndChans(h: Hub, e: HubEvent, j: nat)
    requires HubEnabled(h, e) && Actor(e) == Some(j) && (e.ReceiveJob? || e.CancelJob?)
    ensures ChansFollow(h, e, j)
  {
    hide Enabled, Step, Receive;
    EndKeys(h.world, BusEvent(h, e).value);
  }

  lemma QuietChans(h: Hub, e: HubEvent, j: nat)
    requires Inv(h.world.bus) && HubEnabled(h, e) && Actor(e) == Some(j)
    requires !e.StartJob? && !e.ReceiveJob? && !e.CancelJob?
    ensures ChansFollow(h, e, j)
  {
    assert WaitsOn(h, j) == None && WaitsOn(HubStep(h, e), j) == None by {
      hide Inv, Enabled, After, TakeChan, Receive, Hold, Ack, Nack, ScopedId, ExpirePending, ClearPending;
      hide TrackInflight, TrackRepAck, TakeRepAck, ClaimInflight, DropInflight, CloseSession;
    }
    hide Inv, Enabled, Step, HubStep;
    if BusEvent(h, e).Some? { OtherKeys(h.world, BusEvent(h, e).value); }
  }

  lemma ActorChans(h: Hub, e: HubEvent, j: nat)
    requires Inv(h.world.bus) && HubEnabled(h, e) && Actor(e) == Some(j)
    ensures ChansFollow(h, e, j)
  {
    hide Inv, HubEnabled, ChansFollow;
    if e.StartJob? {
      StartChans(h, e);
    } else if e.ReceiveJob? || e.CancelJob? {
      EndChans(h, e, j);
    } else {
      QuietChans(h, e, j);
    }
  }

  lemma OthersChans(h: Hub, e: HubEvent)
    requires WorldInv(h.world) && HubEnabled(h, e) && Actor(e).None?
    ensures After(h, e).bus.chans.Keys == h.world.bus.chans.Keys && HubStep(h, e).jobs == h.jobs
  {
    OthersBalance(h, e);
    hide Inv, Conserved, Enabled, Step;
    if BusEvent(h, e).Some? { OtherKeys(h.world, BusEvent(h, e).value); }
  }

  lemma StepFollows(h: Hub, e: HubEvent, j: nat)
    requires Inv(h.world.bus) && HubEnabled(h, e) && Actor(e) == Some(j)
    ensures Follows(h, HubStep(h, e), j)
  {
    ActorChans(h, e, j);
    StepWorld(h, e);
    hide HubEnabled, HubStep, After, Inv;
    var h' := HubStep(h, e);
    forall k: nat | k != j
      ensures At(h', k) == At(h, k) && (k in h'.jobs <==> k in h.jobs)
    {
      OnlyActor(h, e, k);
    }
  }

  lemma StepChans(h: Hub, e: HubEvent)
    requires WorldInv(h.world) && HubEnabled(h, e) && ChansAgree(h)
    ensures ChansAgree(HubStep(h, e))
  {
    assert Inv(h.world.bus);
    hide HubEnabled, HubStep, After, WorldInv, Inv, ChansAgree, Follows;
    if Actor(e).Some? {
      StepFollows(h, e, Actor(e).value);
      AgreeOn(h, HubStep(h, e), Actor(e).value);
    } else {
      StepWorld(h, e);
      OthersChans(h, e);
      SameAgree(h, HubStep(h, e));
    }
  }

  lemma SameAgree(h: Hub, h': Hub)
    requires ChansAgree(h) && h'.jobs == h.jobs && h'.world.bus.chans.Keys == h.world.bus.chans.Keys
    ensures ChansAgree(h')
  {
    forall c | c in h'.world.bus.chans
      ensures exists i :: i in h'.jobs && At(h', i) == HubSpec.Stage.Waiting(c)
    {
      var i :| i in h.jobs && At(h, i) == HubSpec.Stage.Waiting(c);
      assert At(h', i) == HubSpec.Stage.Waiting(c);
    }
  }

  /** From `h` to `h'` the job `j` changes, and the channels with it. */
  ghost predicate Follows(h: Hub, h': Hub, j: nat) {
    && (forall k: nat | k != j :: At(h', k) == At(h, k) && (k in h'.jobs <==> k in h.jobs))
    && var chans, chans' := h.world.bus.chans.Keys, h'.world.bus.chans.Keys;
    match (WaitsOn(h, j), WaitsOn(h', j))
    case (None, None) => chans' == chans
    case (None, Some(c)) => c !in chans && chans' == chans + {c}
    case (Some(c), None) => chans' == chans - {c}
    case _ => false
  }

  lemma AgreeThere(h: Hub, h': Hub, j: nat, k: nat)
    requires ChansAgree(h) && Follows(h, h', j) && k in h'.jobs && At(h', k).Waiting?
    ensures At(h', k).chan in h'.world.bus.chans
    ensures k != j && At(h', j).Waiting? ==> At(h', k).chan != At(h', j).chan
  {
    if k != j {
      assert At(h, k).chan in h.world.bus.chans;
      if At(h, j).Waiting? { assert At(h, k).chan != At(h, j).chan; }
    }
  }

  lemma AgreeBack(h: Hub, h': Hub, j: nat, c: nat)
    requires ChansAgree(h) && Follows(h, h', j) && c in h'.world.bus.chans
    ensures exists i :: i in h'.jobs && At(h', i) == HubSpec.Stage.Waiting(c)
  {
    if WaitsOn(h', j) == Some(c) {
      assert At(h', j) == HubSpec.Stage.Waiting(c);
    } else {
      assert c in h.world.bus.chans;
      var i :| i in h.jobs && At(h, i) == HubSpec.Stage.Waiting(c);
      assert i != j;
      assert At(h', i) == HubSpec.Stage.Waiting(c);
    }
  }

  lemma AgreeOn(h: Hub, h': Hub, j: nat)
    requires ChansAgree(h) && Follows(h, h', j)
    ensures ChansAgree(h')
  {
    hide Follows;
    forall k | k in h'.jobs && At(h', k).Waiting?
      ensures At(h', k).chan in h'.world.bus.chans
    {
      AgreeThere(h, h', j, k);
    }
    forall i, k | i in h'.jobs && k in h'.jobs && At(h', i).Waiting? && At(h', k).Waiting? && i != k
      ensures At(h', i).chan != At(h', k).chan
    {
      AgreePair(h, h', j, i, k);
    }
    forall c | c in h'.world.bus.chans
      ensures exists i :: i in h'.jobs && At(h', i) == HubSpec.Stage.Waiting(c)
    {
      AgreeBack(h, h', j, c);
    }
  }

  lemma AgreePair(h: Hub, h': Hub, j: nat, i: nat, k: nat)
    requires ChansAgree(h) && Follows(h, h', j)
    requires i in h'.jobs && k in h'.jobs && At(h', i).Waiting? && At(h', k).Waiting? && i != k
    ensures At(h', i).chan != At(h', k).chan
  {
    if i == j {
      AgreeThere(h, h', j, k);
    } else if k == j {
      AgreeThere(h, h', j, i);
    } else {
      assert At(h, i) == At(h', i) && At(h, k) == At(h', k);
    }
  }

  // ---------------------------------------------------------------------------
  // Runs
  // ---------------------------------------------------------------------------

  ghost predicate JobsInv(h: Hub) {
    WorldInv(h.world) && HandsAgree(h) && ChansAgree(h)
  }

  lemma {:induction false} JobsKeep(h: Hub, es: seq<HubEvent>)
    requires JobsInv(h) && HubValid(h, es)
    ensures JobsInv(HubRun(h, es))
    decreases |es|
  {
    hide WorldInv, HandsAgree, ChansAgree, HubEnabled, HubStep, After;
    if es != [] {
      StepHands(h, es[0]);
      StepChans(h, es[0]);
      StaysClosed(h, es[0]);
      StepWorld(h, es[0]);
      JobsKeep(HubStep(h, es[0]), es[1..]);
    }
  }

  lemma StartJobs(b: Bus)
    requires Fresh(b)
    ensures JobsInv(HubStart(b))
  {
    StartKeeps(b);
    SumEmpty(HubStart(b).jobs, JobMsgs);
  }

  /** In every reachable state a job can go on: what it waits for is there, what it took it
      can hold under any new id, and what was refused it can put back. */
  lemma JobsNeverStuck(b: Bus, es: seq<HubEvent>, j: nat)
    requires Fresh(b) && HubValid(HubStart(b), es)
    ensures var h := HubRun(HubStart(b), es);
      && (At(h, j).Waiting? ==>
            && (forall disk :: HubEnabled(h, CancelJob(j, disk)))
            && (!h.world.bus.chans[At(h, j).chan].open ==> HubEnabled(h, ReceiveJob(j))))
      && (At(h, j).Taken? ==> forall lease, id, now, disk :: id !in h.world.issued ==> HubEnabled(h, HoldJob(j, lease, id, now, disk)))
      && (At(h, j).Refused? ==> forall disk :: HubEnabled(h, RequeueJob(j, disk)))
  {
    StartJobs(b);
    JobsKeep(HubStart(b), es);
    hide HubRun, HubValid, HubStart, Fresh, JobsInv;
    CanGoOn(HubRun(HubStart(b), es), j);
  }

  lemma CanGoOn(h: Hub, j: nat)
    requires JobsInv(h)
    ensures At(h, j).Waiting? ==>
      && (forall disk :: HubEnabled(h, CancelJob(j, disk)))
      && (!h.world.bus.chans[At(h, j).chan].open ==> HubEnabled(h, ReceiveJob(j)))
    ensures At(h, j).Taken? ==>
      forall lease, id, now, disk :: id !in h.world.issued ==> HubEnabled(h, HoldJob(j, lease, id, now, disk))
    ensures At(h, j).Refused? ==> forall disk :: HubEnabled(h, RequeueJob(j, disk))
  {
    hide WorldInv;
    if j in h.jobs { SumWithout(h.jobs, j); }
    assert At(h, j).Taken? || At(h, j).Refused? ==> At(h, j).msg in h.world.hand;
  }

  /** End to end: on an open bus every accepted message is queued, leased, in the channel of
      exactly one waiting job, in the hand of exactly one job, or acknowledged. */
  lemma EveryMessageHasAKeeper(b: Bus, es: seq<HubEvent>)
    requires Fresh(b) && HubValid(HubStart(b), es) && !HubRun(HubStart(b), es).world.bus.closed
    ensures var h := HubRun(HubStart(b), es); var w := h.world;
      && w.accepted == Queued(w.bus) + MailboxSpec.Leased(w.bus) + InChans(w.bus) + Sum(h.jobs, JobMsgs) + w.acked
      && ChansAgree(h)
  {
    StartJobs(b);
    JobsKeep(HubStart(b), es);
    hide HubRun, HubValid, HubStart, ChansAgree, Inv, Fresh;
  }
}
