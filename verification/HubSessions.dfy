/** What closing a session gives back to the bus. */
module HubSessions {
  import opened Bags
  import opened MailboxSpec
  import opened MailboxInvariant
  import opened MailboxSteps
  import opened MailboxRuns
  import opened MailboxLeases
  import opened MailboxRecovery
  import opened HubSpec
  import opened HubRuns
  import opened HubLists

  // ---------------------------------------------------------------------------
  // Under any interleaving
  // ---------------------------------------------------------------------------

  /** The session is closed, and each of `ids` is still to be given back or is no longer leased. */
  ghost predicate GivingBack(h: Hub, sid: nat, ids: seq<string>) {
    && sid in h.sessions && h.sessions[sid].closed
    && forall i :: 0 <= i < |ids| ==>
         ids[i] in h.world.issued && (ids[i] in h.sessions[sid].toNack || ids[i] !in h.world.bus.inflight)
  }

  lemma GivingBackStep(h: Hub, e: HubEvent, sid: nat, ids: seq<string>)
    requires HubInv(h) && HubEnabled(h, e) && GivingBack(h, sid, ids)
    ensures GivingBack(HubStep(h, e), sid, ids)
  {
    ClosedStays(h, e, sid);
    StepWorld(h, e);
    hide Inv, Known, Enabled, After, HubStep;
    var h' := HubStep(h, e);
    forall i | 0 <= i < |ids|
      ensures ids[i] in h'.world.issued && (ids[i] in h'.sessions[sid].toNack || ids[i] !in h'.world.bus.inflight)
    {
      AfterLeases(h, e, ids[i]);
      var l := h.sessions[sid].toNack;
      if ids[i] in l && e.NackNext? && e.sid == sid {
        assert l == [l[0]] + l[1..];
      }
    }
  }

  lemma {:induction false} GivingBackRun(h: Hub, es: seq<HubEvent>, sid: nat, ids: seq<string>)
    requires HubInv(h) && HubValid(h, es) && GivingBack(h, sid, ids)
    ensures GivingBack(HubRun(h, es), sid, ids)
    decreases |es|
  {
    hide HubInv, HubEnabled, HubStep, GivingBack;
    if es != [] {
      GivingBackStep(h, es[0], sid, ids);
      HubStepKeeps(h, es[0]);
      GivingBackRun(HubStep(h, es[0]), es[1..], sid, ids);
    }
  }

  /** Every delivery a session listed when close() copied its list is no longer leased once
      close() is through that list, whatever else happened meanwhile. */
  lemma CloseReleasesEverything(h: Hub, sid: nat, es: seq<HubEvent>)
    requires HubInv(h) && sid in h.sessions && !h.sessions[sid].closed
    requires HubEnabled(h, BeginClose(sid)) && HubValid(HubStep(h, BeginClose(sid)), es)
    ensures var h' := HubRun(HubStep(h, BeginClose(sid)), es);
      && sid in h'.sessions && h'.sessions[sid].closed
      && (h'.sessions[sid].toNack == [] ==>
            forall i :: 0 <= i < |h.sessions[sid].inflight| ==> h.sessions[sid].inflight[i] !in h'.world.bus.inflight)
  {
    var ids := h.sessions[sid].inflight;
    var h1 := HubStep(h, BeginClose(sid));
    assert SessionKnown(h.sessions[sid], h.world.issued);
    assert h1.sessions[sid].toNack == ids && h1.world == h.world;
    HubStepKeeps(h, BeginClose(sid));
    hide HubStep, HubRun, HubValid, Inv;
    GivingBackRun(h1, es, sid, ids);
  }

  // ---------------------------------------------------------------------------
  // Without interleaving
  // ---------------------------------------------------------------------------

  /** The nacks of a close, one after the other; each write may fail. */
  ghost function NackAll(b: Bus, ids: seq<string>, disk: seq<bool>): Bus
    requires |disk| == |ids|
    decreases |ids|
  {
    if ids == [] then b else NackAll(Nack(b, ids[0], disk[0]).bus, ids[1..], disk[1..])
  }

  /** Same contents, perhaps another file. */
  ghost predicate SameButFile(b: Bus, r: Bus) {
    r == b.(file := r.file)
  }

  lemma DeliverIgnoresFile(b: Bus, r: Bus, m: Msg)
    requires SameButFile(b, r)
    ensures SameButFile(Deliver(b, m), Deliver(r, m))
  {
    hide IndexAdd, HandOver, PushFront;
    var b1, r1 := EnsureBox(b, m.name), EnsureBox(r, m.name);
    assert r1 == b1.(file := r.file);
    if BoxOf(b1, m.name).waiters != [] {
      HandOverIgnoresFile(b1, r.file, m.name, m);
    } else {
      PushIgnoresFile(b1, r.file, m.name, m);
    }
  }

  lemma HandOverIgnoresFile(b: Bus, f: Option<Snapshot>, n: string, m: Msg)
    requires BoxOf(b, n).waiters != []
    ensures HandOver(b.(file := f), n, m) == HandOver(b, n, m).(file := f)
  {
  }

  lemma PushIgnoresFile(b: Bus, f: Option<Snapshot>, n: string, m: Msg)
    ensures PushFront(b.(file := f), n, m) == PushFront(b, n, m).(file := f)
  {
    hide IndexAdd;
  }

  lemma ReleaseIgnoresFile(b: Bus, r: Bus, id: string)
    requires SameButFile(b, r) && id in b.inflight
    ensures SameButFile(Release(b, id), Release(r, id))
  {
    hide IndexDel, Deliver;
    DeliverIgnoresFile(DropLease(b, id), DropLease(r, id), b.inflight[id].msg);
  }

  lemma NackIsRelease(b: Bus, id: string, disk: bool)
    requires id in b.inflight
    ensures SameButFile(Release(b, id), Nack(b, id, disk).bus)
  {
    hide Release;
  }

  lemma {:induction false} NackAllIsReleaseAll(b: Bus, r: Bus, ids: seq<string>, disk: seq<bool>)
    requires SameButFile(b, r) && |disk| == |ids|
    ensures SameButFile(ReleaseAll(b, ids), NackAll(r, ids, disk))
    decreases |ids|
  {
    hide Nack, Release;
    if ids != [] {
      if ids[0] in b.inflight {
        ReleaseIgnoresFile(b, r, ids[0]);
        NackIsRelease(r, ids[0], disk[0]);
        NackAllIsReleaseAll(Release(b, ids[0]), Nack(r, ids[0], disk[0]).bus, ids[1..], disk[1..]);
      } else {
        NackMissing(r, ids[0], disk[0]);
        NackAllIsReleaseAll(b, r, ids[1..], disk[1..]);
      }
    }
  }

  lemma NackMissing(b: Bus, id: string, disk: bool)
    requires id !in b.inflight
    ensures Nack(b, id, disk).bus == b
  {
  }

  /** With nobody waiting and nothing in between, the close leaves each mailbox with the
      session's deliveries, last listed first, in front of the old queue; and none of them
      leased. */
  lemma CloseRestoresQueues(b: Bus, ids: seq<string>, disk: seq<bool>, n: string)
    requires Inv(b) && NoDup(ids) && |disk| == |ids|
    requires BoxOf(b, n).waiters == []
    ensures var r := NackAll(b, ids, disk);
      && BoxOf(r, n) == Box(Reversed(MsgsFor(b.inflight, ids, n)) + BoxOf(b, n).q, [])
      && r.inflight == map id | id in b.inflight && id !in ids :: b.inflight[id]
  {
    ReleaseAllTakesBack(b, ids, n);
    hide Inv, ReleaseAll, NackAll;
    NackAllIsReleaseAll(b, b, ids, disk);
    var ms := MsgsFor(b.inflight, ids, n);
    assert ms[0..] == ms;
  }

  /** The rest of a close, when nothing comes in between: one nack per delivery. */
  function Nacks(sid: nat, disk: seq<bool>): seq<HubEvent> {
    if disk == [] then [] else [NackNext(sid, disk[0])] + Nacks(sid, disk[1..])
  }

  lemma NackNextStep(h: Hub, sid: nat, d: bool)
    requires sid in h.sessions && h.sessions[sid].toNack != []
    ensures var e := NackNext(sid, d);
      && HubEnabled(h, e)
      && var h' := HubStep(h, e);
      && sid in h'.sessions && h'.sessions[sid].toNack == h.sessions[sid].toNack[1..]
      && h'.world.bus == Nack(h.world.bus, h.sessions[sid].toNack[0], d).bus
  {
    hide Nack;
  }

  lemma {:induction false} NacksRun(h: Hub, sid: nat, disk: seq<bool>)
    requires sid in h.sessions && |disk| == |h.sessions[sid].toNack|
    ensures HubValid(h, Nacks(sid, disk))
    ensures var h' := HubRun(h, Nacks(sid, disk));
      && sid in h'.sessions && h'.sessions[sid].toNack == []
      && h'.world.bus == NackAll(h.world.bus, h.sessions[sid].toNack, disk)
    decreases |disk|
  {
    if disk != [] {
      NackNextStep(h, sid, disk[0]);
      hide HubStep, HubEnabled, Nack;
      var es := Nacks(sid, disk);
      assert es[0] == NackNext(sid, disk[0]) && es[1..] == Nacks(sid, disk[1..]);
      NacksRun(HubStep(h, es[0]), sid, disk[1..]);
    }
  }

  /** In every reachable state: a session that closes with nothing in between leaves a mailbox on
      which nobody waits with the session's deliveries that are still leased, last listed
      first, in front of the old queue; and none of them leased. */
  lemma CloseGivesBackInOrder(b: Bus, es: seq<HubEvent>, sid: nat, disk: seq<bool>, n: string)
    requires Fresh(b) && HubValid(HubStart(b), es)
    requires var h := HubRun(HubStart(b), es);
      && sid in h.sessions && !h.sessions[sid].closed && |disk| == |h.sessions[sid].inflight|
      && BoxOf(h.world.bus, n).waiters == []
    ensures var h := HubRun(HubStart(b), es); var (bus, ids) := (h.world.bus, h.sessions[sid].inflight);
      var c := [BeginClose(sid)] + Nacks(sid, disk);
      && HubValid(h, c)
      && var h' := HubRun(h, c);
      && sid in h'.sessions && h'.sessions[sid].closed && h'.sessions[sid].toNack == []
      && BoxOf(h'.world.bus, n) == Box(Reversed(MsgsFor(bus.inflight, ids, n)) + BoxOf(bus, n).q, [])
      && h'.world.bus.inflight == map id | id in bus.inflight && id !in ids :: bus.inflight[id]
  {
    ListsStart(b);
    ListsKeep(HubStart(b), es);
    var h := HubRun(HubStart(b), es);
    hide HubRun, HubValid, HubStart, JobOk, AloneKnows;
    CloseRun(h, sid, disk);
    assert ListsOnce(h.sessions[sid]);
    CloseRestoresQueues(h.world.bus, h.sessions[sid].inflight, disk, n);
  }

  lemma CloseRun(h: Hub, sid: nat, disk: seq<bool>)
    requires HubInv(h) && sid in h.sessions && !h.sessions[sid].closed && |disk| == |h.sessions[sid].inflight|
    ensures var c := [BeginClose(sid)] + Nacks(sid, disk);
      && HubValid(h, c)
      && var h' := HubRun(h, c);
      && sid in h'.sessions && h'.sessions[sid].closed && h'.sessions[sid].toNack == []
      && h'.world.bus == NackAll(h.world.bus, h.sessions[sid].inflight, disk)
  {
    var c := [BeginClose(sid)] + Nacks(sid, disk);
    assert c[0] == BeginClose(sid) && c[1..] == Nacks(sid, disk);
    assert HubEnabled(h, c[0]);
    var h1 := HubStep(h, c[0]);
    assert h1.world == h.world && h1.sessions[sid].toNack == h.sessions[sid].inflight && h1.sessions[sid].closed;
    HubStepKeeps(h, c[0]);
    hide HubInv, HubStep, HubEnabled;
    NacksRun(h1, sid, disk);
    NacksStayClosed(h1, sid, disk);
  }

  lemma {:induction false} NacksStayClosed(h: Hub, sid: nat, disk: seq<bool>)
    requires HubInv(h) && sid in h.sessions && h.sessions[sid].closed && HubValid(h, Nacks(sid, disk))
    ensures var h' := HubRun(h, Nacks(sid, disk)); sid in h'.sessions && h'.sessions[sid].closed
    decreases |disk|
  {
    if disk != [] {
      var es := Nacks(sid, disk);
      assert es[0] == NackNext(sid, disk[0]) && es[1..] == Nacks(sid, disk[1..]);
      assert sid <= h.sids;
      hide HubInv, HubStep, HubEnabled;
      ClosedStays(h, es[0], sid);
      HubStepKeeps(h, es[0]);
      NacksStayClosed(HubStep(h, es[0]), sid, disk[1..]);
    }
  }

  // ---------------------------------------------------------------------------
  // Shutting down
  // ---------------------------------------------------------------------------

  ghost predicate NobodyWaits(b: Bus) {
    forall n | n in b.boxes :: b.boxes[n].waiters == []
  }

  /** Some nack finds its id still among `leased`, and is written. */
  predicate NackWritten(leased: set<string>, ids: seq<string>, disk: seq<bool>)
    requires |disk| == |ids|
    decreases |ids|
  {
    ids != [] && ((ids[0] in leased && disk[0]) || NackWritten(leased - {ids[0]}, ids[1..], disk[1..]))
  }

  /** With nobody waiting a nack moves its message back to the queue, and writes what is held. */
  lemma NackHeld(b: Bus, id: string, disk: bool)
    requires Inv(b) && NobodyWaits(b) && b.durable
    ensures var r := Nack(b, id, disk).bus;
      && Inv(r) && NobodyWaits(r) && r.durable && Held(r) == Held(b) && r.inflight.Keys == b.inflight.Keys - {id}
      && Recoverable(r.file) == if id in b.inflight && disk then Held(b) else Recoverable(b.file)
  {
    if id in b.inflight {
      ReleaseKeeps(b, id);
      PersistKeeps(Release(b, id), disk);
      NackQuiet(b, id);
      hide Inv, Release, Held, NobodyWaits;
      InChansOf(b, Release(b, id));
      Cancels(Held(Release(b, id)), Held(b), InChans(b));
      assert Release(b, id).inflight == b.inflight - {id};
    }
  }

  lemma NackQuiet(b: Bus, id: string)
    requires NobodyWaits(b) && id in b.inflight
    ensures var r := Release(b, id); NobodyWaits(r) && r.chans == b.chans
  {
    hide IndexAdd, IndexDel;
  }

  lemma InChansOf(b: Bus, r: Bus)
    requires r.chans == b.chans
    ensures InChans(r) == InChans(b)
  {
  }

  lemma Cancels<T>(a: multiset<T>, b: multiset<T>, c: multiset<T>)
    requires a + c == b + c
    ensures a == b
  {
    forall x: T
      ensures a[x] == b[x]
    {
      assert (a + c)[x] == (b + c)[x];
    }
  }

  lemma {:induction false} NackAllHeld(b: Bus, ids: seq<string>, disk: seq<bool>)
    requires Inv(b) && NobodyWaits(b) && b.durable && |disk| == |ids|
    ensures var r := NackAll(b, ids, disk);
      && Held(r) == Held(b)
      && Recoverable(r.file) == if NackWritten(b.inflight.Keys, ids, disk) then Held(b) else Recoverable(b.file)
    decreases |ids|
  {
    hide Inv, NobodyWaits, Nack, Held;
    if ids != [] {
      NackHeld(b, ids[0], disk[0]);
      NackAllHeld(Nack(b, ids[0], disk[0]).bus, ids[1..], disk[1..]);
    }
  }

  /** The hub closes the bus, which empties the queues, and then its sessions, which give back
      their deliveries, in any order: everything the bus held survives in its file if and only
      if nothing was queued, or no nack of a lease was written. */
  lemma ShutdownDurableIff(b: Bus, ids: seq<string>, disk: seq<bool>)
    requires Inv(b) && !b.closed && b.durable && FileCurrent(b) && |disk| == |ids|
    ensures var r := NackAll(Close(b), ids, disk);
      && (Held(b) <= Recoverable(r.file) <==> Queued(b) == multiset{} || !NackWritten(b.inflight.Keys, ids, disk))
      && (NackWritten(b.inflight.Keys, ids, disk) ==> Recoverable(r.file) == MailboxSpec.Leased(b))
  {
    ClosedHolds(b);
    assert NobodyWaits(Close(b)) && Close(b).inflight == b.inflight;
    NackAllHeld(Close(b), ids, disk);
    hide Inv, Close, NackAll, Held, NackWritten;
    HeldIs(b);
    Survives(Queued(b), MailboxSpec.Leased(b));
  }
}
