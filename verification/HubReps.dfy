/** What a worker's rep acknowledges: a delivery of the very message it answers, and of several
    that were given to it under one message id the latest only. */
module HubReps {
  import opened Bags
  import opened MailboxSpec
  import opened MailboxInvariant
  import opened MailboxRuns
  import opened MailboxDeliveries
  import opened HubSpec
  import opened HubRuns
  import opened HubLists

  /** While it is leased, delivery `id` is one of a message with id `msgId`. */
  ghost predicate Answers(h: Hub, id: string, msgId: string) {
    id in h.world.bus.inflight ==> h.world.bus.inflight[id].msg.id == msgId
  }

  /** The session would acknowledge delivery `id` for a rep under `msgId`. */
  predicate FiledFor(h: Hub, sid: nat, msgId: string, id: string) {
    sid in h.sessions && msgId in h.sessions[sid].repAck && h.sessions[sid].repAck[msgId] == id
  }

  /** The job has leased or listed delivery `id` of a message with id `msgId`. */
  predicate Carries(s: Stage, msgId: string, id: string) {
    s == HubSpec.Stage.Leased(id, msgId) || s == HubSpec.Stage.Listed(id, msgId)
  }

  /** Deliveries are filed under the ids of their messages, each at most once in the whole hub. */
  ghost predicate RepsInv(h: Hub) {
    && ListsInv(h)
    && (forall sid, m, id | FiledFor(h, sid, m, id) :: Answers(h, id, m))
    && (forall k, m, id | k in h.jobs && Carries(h.jobs[k].stage, m, id) :: Answers(h, id, m))
    && (forall sid, m, sid', m', id | FiledFor(h, sid, m, id) && FiledFor(h, sid', m', id) :: sid == sid' && m == m')
  }

  // ---------------------------------------------------------------------------
  // One step
  // ---------------------------------------------------------------------------

  lemma OpFiles(s: Session, t: Session, x: string, m: string)
    requires IsOp(s, t, x) && m in t.repAck
    ensures m in s.repAck && t.repAck[m] == s.repAck[m]
  {
  }

  lemma ListFiles(s: Session, x: string, k: string, m: string, id: string)
    ensures m in TrackInflight(s, x).repAck && TrackInflight(s, x).repAck[m] == id ==> m in s.repAck && s.repAck[m] == id
    ensures var t := TrackRepAck(TrackInflight(s, x), k, x);
      m in t.repAck && t.repAck[m] == id ==> (m in s.repAck && s.repAck[m] == id) || (m == k && id == x)
  {
  }

  /** A session comes to file a delivery only when a job lists it there, under its message. */
  lemma FiledStep(h: Hub, e: HubEvent, sid: nat, m: string, id: string)
    requires HubEnabled(h, e) && FiledFor(HubStep(h, e), sid, m, id)
    ensures FiledFor(h, sid, m, id)
      || (e.ListJob? && h.jobs[e.job].sid == sid && At(h, e.job) == HubSpec.Stage.Leased(id, m))
  {
    if Touched(h, e) != Some(sid) {
      hide HubEnabled, HubStep;
      OnlyTouched(h, e, sid);
    } else if e.Connect? {
      hide Enabled, After;
    } else if e.ListJob? {
      ListedOp(h, e);
      JobListed(h, e);
      hide Enabled, HubStep, TrackInflight, TrackRepAck;
      ListFiles(h.sessions[sid], At(h, e.job).id, At(h, e.job).msgId, m, id);
    } else {
      assert sid in h.sessions;
      TouchedOp(h, e, sid);
      hide HubEnabled, HubStep, IsOp;
      var x: string :| IsOp(h.sessions[sid], HubStep(h, e).sessions[sid], x);
      OpFiles(h.sessions[sid], HubStep(h, e).sessions[sid], x, m);
    }
  }

  /** A job comes to carry a delivery only by leasing the message it has in hand. */
  lemma CarriesStep(h: Hub, e: HubEvent, k: nat, m: string, id: string)
    requires HubEnabled(h, e) && k in HubStep(h, e).jobs && Carries(HubStep(h, e).jobs[k].stage, m, id)
    ensures (k in h.jobs && Carries(h.jobs[k].stage, m, id)) || (e.HoldJob? && e.job == k && e.id == id && At(h, k).msg.id == m)
  {
    if Actor(e) != Some(k) {
      hide HubEnabled, HubStep;
      OnlyActor(h, e, k);
    } else if e.StartJob? || e.ReceiveJob? || e.CancelJob? || e.HoldJob? || e.RequeueJob? {
      CarriesEarly(h, e, k, m, id);
    } else {
      CarriesLate(h, e, k, m, id);
    }
  }

  lemma CarriesEarly(h: Hub, e: HubEvent, k: nat, m: string, id: string)
    requires HubEnabled(h, e) && Actor(e) == Some(k) && k in HubStep(h, e).jobs && Carries(HubStep(h, e).jobs[k].stage, m, id)
    requires e.StartJob? || e.ReceiveJob? || e.CancelJob? || e.HoldJob? || e.RequeueJob?
    ensures (k in h.jobs && Carries(h.jobs[k].stage, m, id)) || (e.HoldJob? && e.job == k && e.id == id && At(h, k).msg.id == m)
  {
    hide Enabled, After, BusEvent, TakeChan, Receive, Hold;
  }

  lemma CarriesLate(h: Hub, e: HubEvent, k: nat, m: string, id: string)
    requires HubEnabled(h, e) && Actor(e) == Some(k) && k in HubStep(h, e).jobs && Carries(HubStep(h, e).jobs[k].stage, m, id)
    requires !(e.StartJob? || e.ReceiveJob? || e.CancelJob? || e.HoldJob? || e.RequeueJob?)
    ensures k in h.jobs && Carries(h.jobs[k].stage, m, id)
  {
    hide Enabled, After, BusEvent, Ack, Nack, DropInflight, TakeRepAck, TrackInflight, TrackRepAck;
  }

  /** A lease keeps its message; a new one has the message its job had in hand. */
  lemma LeaseKeepsMsg(h: Hub, e: HubEvent, id: string)
    requires HubInv(h) && HubEnabled(h, e) && id in HubStep(h, e).world.bus.inflight
    ensures var l, l' := h.world.bus.inflight, HubStep(h, e).world.bus.inflight;
      if id in l then l'[id] == l[id]
      else e.HoldJob? && e.id == id && id !in h.world.issued && At(h, e.job).Taken? && l'[id].msg == At(h, e.job).msg
  {
    StepWorld(h, e);
    AfterLeases(h, e, id);
    hide Inv, Enabled, Step, Known, HubStep;
    if BusEvent(h, e).Some? {
      StepLeases(h.world, BusEvent(h, e).value, id);
      if id !in h.world.bus.inflight { HeldMsg(h, e); }
    }
  }

  lemma HeldMsg(h: Hub, e: HubEvent)
    requires HubEnabled(h, e) && e.HoldJob? && e.id !in h.world.bus.inflight && e.id in After(h, e).bus.inflight
    ensures At(h, e.job).Taken? && After(h, e).bus.inflight[e.id].msg == At(h, e.job).msg
  {
    HoldLeases(h.world.bus, At(h, e.job).msg, e.lease, e.id, e.now, e.disk);
    hide Hold;
    HoldValue(h.world.bus, At(h, e.job).msg, e.lease, e.id, e.now, e.disk);
  }

  lemma HoldValue(b: Bus, m: Msg, lease: int, id: string, now: int, disk: bool)
    ensures var o := Hold(b, m, lease, id, now, disk); o.result.Ok? ==> o.result.value.msg == m
  {
    hide IndexAdd, IndexDel, SnapshotOf;
  }

  lemma AnswersStep(h: Hub, e: HubEvent, id: string, m: string)
    requires HubInv(h) && HubEnabled(h, e) && Answers(h, id, m) && id in h.world.issued
    ensures Answers(HubStep(h, e), id, m)
  {
    hide HubInv, HubEnabled, HubStep;
    if id in HubStep(h, e).world.bus.inflight { LeaseKeepsMsg(h, e, id); }
  }

  lemma FiledIsIssued(h: Hub, sid: nat, m: string, id: string)
    requires Known(h) && FiledFor(h, sid, m, id)
    ensures id in h.world.issued && Remembers(h.sessions[sid], id)
  {
    assert SessionKnown(h.sessions[sid], h.world.issued);
  }

  lemma CarriedIsIssued(h: Hub, k: nat, m: string, id: string)
    requires Known(h) && k in h.jobs && Carries(h.jobs[k].stage, m, id)
    ensures id in h.world.issued
  {
    assert StageKnown(h.jobs[k].stage, h.world.issued, h.world.bus.inflight.Keys);
  }

  lemma CarriedAnswers(h: Hub, e: HubEvent, k: nat, m: string, id: string)
    requires RepsInv(h) && HubEnabled(h, e) && k in HubStep(h, e).jobs && Carries(HubStep(h, e).jobs[k].stage, m, id)
    ensures Answers(HubStep(h, e), id, m)
  {
    assert HubInv(h) && Known(h);
    hide ListsInv, HubInv, Known, HubEnabled, HubStep;
    CarriesStep(h, e, k, m, id);
    if k in h.jobs && Carries(h.jobs[k].stage, m, id) {
      CarriedIsIssued(h, k, m, id);
      AnswersStep(h, e, id, m);
    } else if id in HubStep(h, e).world.bus.inflight {
      NewIsUnissued(h, e);
      LeaseKeepsMsg(h, e, id);
    }
  }

  lemma NewIsUnissued(h: Hub, e: HubEvent)
    requires HubInv(h) && HubEnabled(h, e) && e.HoldJob?
    ensures e.id !in h.world.bus.inflight
  {
    HeldIsNew(h, e);
  }

  lemma ListerCarries(h: Hub, e: HubEvent)
    requires HubEnabled(h, e) && e.ListJob?
    ensures e.job in h.jobs && At(h, e.job).Leased? && h.jobs[e.job].sid in h.sessions
  {
  }

  lemma FiledAnswers(h: Hub, e: HubEvent, sid: nat, m: string, id: string)
    requires RepsInv(h) && HubEnabled(h, e) && FiledFor(HubStep(h, e), sid, m, id)
    ensures Answers(HubStep(h, e), id, m)
  {
    assert HubInv(h) && Known(h);
    if e.ListJob? { ListerCarries(h, e); }
    hide ListsInv, HubInv, Known, HubEnabled, HubStep;
    FiledStep(h, e, sid, m, id);
    if FiledFor(h, sid, m, id) {
      FiledIsIssued(h, sid, m, id);
    } else {
      assert Carries(h.jobs[e.job].stage, m, id);
      CarriedIsIssued(h, e.job, m, id);
    }
    AnswersStep(h, e, id, m);
  }

  /** A job lists only what no session has filed. */
  lemma FiledOnceStep(h: Hub, e: HubEvent, sid: nat, m: string, sid': nat, m': string, id: string)
    requires RepsInv(h) && HubEnabled(h, e)
    requires FiledFor(HubStep(h, e), sid, m, id) && FiledFor(HubStep(h, e), sid', m', id)
    ensures sid == sid' && m == m'
  {
    assert Known(h);
    assert forall k | k in h.jobs && At(h, k).Leased? :: AloneKnows(h, k, At(h, k).id);
    if e.ListJob? { ListerCarries(h, e); }
    hide ListsInv, Known, HubEnabled, HubStep;
    FiledStep(h, e, sid, m, id);
    FiledStep(h, e, sid', m', id);
    if FiledFor(h, sid, m, id) { FiledIsIssued(h, sid, m, id); }
    if FiledFor(h, sid', m', id) { FiledIsIssued(h, sid', m', id); }
    hide Remembers;
  }

  lemma RepsStep(h: Hub, e: HubEvent)
    requires RepsInv(h) && HubEnabled(h, e)
    ensures RepsInv(HubStep(h, e))
  {
    assert ListsInv(h);
    ListsStep(h, e);
    hide RepsInv, ListsInv, HubEnabled, HubStep, FiledFor, Carries, Answers;
    var h' := HubStep(h, e);
    forall sid, m, id | FiledFor(h', sid, m, id)
      ensures Answers(h', id, m)
    {
      FiledAnswers(h, e, sid, m, id);
    }
    forall k, m, id | k in h'.jobs && Carries(h'.jobs[k].stage, m, id)
      ensures Answers(h', id, m)
    {
      CarriedAnswers(h, e, k, m, id);
    }
    forall sid, m, sid', m', id | FiledFor(h', sid, m, id) && FiledFor(h', sid', m', id)
      ensures sid == sid' && m == m'
    {
      FiledOnceStep(h, e, sid, m, sid', m', id);
    }
    RepsFrom(h');
  }

  lemma RepsFrom(h: Hub)
    requires ListsInv(h)
    requires forall sid, m, id | FiledFor(h, sid, m, id) :: Answers(h, id, m)
    requires forall k, m, id | k in h.jobs && Carries(h.jobs[k].stage, m, id) :: Answers(h, id, m)
    requires forall sid, m, sid', m', id | FiledFor(h, sid, m, id) && FiledFor(h, sid', m', id) :: sid == sid' && m == m'
    ensures RepsInv(h)
  {
    hide ListsInv, FiledFor, Carries, Answers;
  }

  // ---------------------------------------------------------------------------
  // Runs
  // ---------------------------------------------------------------------------

  lemma {:induction false} RepsKeep(h: Hub, es: seq<HubEvent>)
    requires RepsInv(h) && HubValid(h, es)
    ensures RepsInv(HubRun(h, es))
    decreases |es|
  {
    hide RepsInv, HubEnabled, HubStep;
    if es != [] {
      RepsStep(h, es[0]);
      RepsKeep(HubStep(h, es[0]), es[1..]);
    }
  }

  lemma RepsStart(b: Bus)
    requires Fresh(b)
    ensures RepsInv(HubStart(b))
  {
    ListsStart(b);
    hide ListsInv, Fresh;
  }

  /** An issued delivery is of the same message for as long as it is leased. */
  lemma {:induction false} AnswersRun(h: Hub, es: seq<HubEvent>, id: string, m: string)
    requires HubInv(h) && HubValid(h, es) && Answers(h, id, m) && id in h.world.issued
    ensures Answers(HubRun(h, es), id, m)
    decreases |es|
  {
    hide Inv, Known, HubEnabled, HubStep, Answers;
    if es != [] {
      AnswersStep(h, es[0], id, m);
      HubStepKeeps(h, es[0]);
      StepWorld(h, es[0]);
      AfterLeases(h, es[0], id);
      AnswersRun(HubStep(h, es[0]), es[1..], id, m);
    }
  }

  lemma RepStarts(h: Hub, e: HubEvent)
    requires HubEnabled(h, e) && e.RepFrame?
    ensures e.sid in h.sessions && e.job !in h.jobs && HubStep(h, e).world == h.world
    ensures var s := h.sessions[e.sid];
      At(HubStep(h, e), e.job)
      == if e.msgId in s.repAck && s.repAck[e.msgId] != "" then Claiming(s.repAck[e.msgId], true) else Settled("")
  {
  }

  /** In every reachable state: a rep starts to acknowledge exactly the delivery that its session filed
      under its id, and whenever later that delivery is still leased, it is a delivery of a message with
      that id. */
  lemma RepAcksWhatItAnswers(b: Bus, es: seq<HubEvent>, e: HubEvent, later: seq<HubEvent>)
    requires Fresh(b) && HubValid(HubStart(b), es)
    requires var h := HubRun(HubStart(b), es); HubEnabled(h, e) && e.RepFrame? && HubValid(HubStep(h, e), later)
    ensures var h := HubRun(HubStart(b), es); var h' := HubStep(h, e); var r := h.sessions[e.sid].repAck;
      && At(h', e.job) == (if e.msgId in r && r[e.msgId] != "" then Claiming(r[e.msgId], true) else Settled(""))
      && (At(h', e.job).Claiming? ==> Answers(HubRun(h', later), At(h', e.job).id, e.msgId))
  {
    hide HubRun, HubValid, HubStart;
    RepsStart(b);
    RepsKeep(HubStart(b), es);
    var h := HubRun(HubStart(b), es);
    RepStarts(h, e);
    RepsStep(h, e);
    hide HubEnabled, HubStep;
    var h' := HubStep(h, e);
    if At(h', e.job).Claiming? {
      var id := At(h', e.job).id;
      assert FiledFor(h, e.sid, e.msgId, id);
      assert ListsInv(h) && ListsInv(h');
      FiledIsIssued(h, e.sid, e.msgId, id);
      hide ListsOnce, AloneKnows, JobOk, Inv, Known;
      AnswersRun(h', later, id, e.msgId);
    }
  }

  // ---------------------------------------------------------------------------
  // Two deliveries under one message id
  // ---------------------------------------------------------------------------

  /** No session would acknowledge the delivery for a rep, and none will come to. */
  ghost predicate Unfiled(h: Hub, id: string) {
    && (forall sid, m :: !FiledFor(h, sid, m, id))
    && (forall k, m | k in h.jobs :: h.jobs[k].stage != HubSpec.Stage.Leased(id, m))
    && id in h.world.issued
  }

  lemma UnfiledThere(h: Hub, e: HubEvent, id: string, sid: nat, m: string)
    requires HubEnabled(h, e) && Unfiled(h, id)
    ensures !FiledFor(HubStep(h, e), sid, m, id)
  {
    if e.ListJob? { ListerCarries(h, e); }
    hide HubEnabled, HubStep;
    if FiledFor(HubStep(h, e), sid, m, id) { FiledStep(h, e, sid, m, id); }
  }

  lemma UnfiledJob(h: Hub, e: HubEvent, id: string, k: nat, m: string)
    requires HubEnabled(h, e) && Unfiled(h, id) && k in HubStep(h, e).jobs
    ensures HubStep(h, e).jobs[k].stage != HubSpec.Stage.Leased(id, m)
  {
    if e.HoldJob? { HeldIsNew(h, e); }
    StageStep(h, e, k);
    hide HubEnabled, HubStep, FiledFor;
  }

  lemma UnfiledStep(h: Hub, e: HubEvent, id: string)
    requires HubInv(h) && HubEnabled(h, e) && Unfiled(h, id)
    ensures Unfiled(HubStep(h, e), id)
  {
    StepWorld(h, e);
    AfterLeases(h, e, id);
    var h' := HubStep(h, e);
    assert id in h'.world.issued;
    hide HubInv, HubEnabled, HubStep, FiledFor;
    forall sid, m
      ensures !FiledFor(h', sid, m, id)
    {
      UnfiledThere(h, e, id, sid, m);
    }
    forall k, m | k in h'.jobs
      ensures h'.jobs[k].stage != HubSpec.Stage.Leased(id, m)
    {
      UnfiledJob(h, e, id, k, m);
    }
  }

  lemma {:induction false} UnfiledRun(h: Hub, es: seq<HubEvent>, id: string)
    requires HubInv(h) && HubValid(h, es) && Unfiled(h, id)
    ensures Unfiled(HubRun(h, es), id)
    decreases |es|
  {
    hide HubInv, HubEnabled, HubStep, Unfiled;
    if es != [] {
      UnfiledStep(h, es[0], id);
      HubStepKeeps(h, es[0]);
      UnfiledRun(HubStep(h, es[0]), es[1..], id);
    }
  }

  lemma Replaces(h: Hub, j: nat, id: string)
    requires RepsInv(h) && j in h.jobs && At(h, j).Leased? && h.jobs[j].kind.Ready? && At(h, j).msgId != ""
    requires HubEnabled(h, ListJob(j)) && FiledFor(h, h.jobs[j].sid, At(h, j).msgId, id)
    ensures var h' := HubStep(h, ListJob(j));
      id != At(h, j).id && FiledFor(h', h.jobs[j].sid, At(h, j).msgId, At(h, j).id) && Unfiled(h', id)
  {
    assert ListsInv(h) && AloneKnows(h, j, At(h, j).id);
    FiledIsIssued(h, h.jobs[j].sid, At(h, j).msgId, id);
    ReplacedHere(h, j);
    ReplacedNowhere(h, j, id);
    ReplacedJobs(h, j, id);
    StepWorld(h, ListJob(j));
    hide ListsInv, HubStep, Remembers;
  }

  lemma ReplacedHere(h: Hub, j: nat)
    requires HubEnabled(h, ListJob(j)) && h.jobs[j].kind.Ready? && At(h, j).msgId != ""
    ensures FiledFor(HubStep(h, ListJob(j)), h.jobs[j].sid, At(h, j).msgId, At(h, j).id)
  {
    hide Enabled, After;
  }

  lemma ReplacedNowhere(h: Hub, j: nat, id: string)
    requires RepsInv(h) && HubEnabled(h, ListJob(j)) && h.jobs[j].kind.Ready? && At(h, j).msgId != ""
    requires FiledFor(h, h.jobs[j].sid, At(h, j).msgId, id) && id != At(h, j).id
    ensures forall sid, m :: !FiledFor(HubStep(h, ListJob(j)), sid, m, id)
  {
    ReplacedHere(h, j);
    var h' := HubStep(h, ListJob(j));
    hide ListsInv, HubEnabled, HubStep;
    forall sid, m
      ensures !FiledFor(h', sid, m, id)
    {
      if FiledFor(h', sid, m, id) { FiledStep(h, ListJob(j), sid, m, id); }
    }
  }

  lemma ReplacedJobs(h: Hub, j: nat, id: string)
    requires RepsInv(h) && HubEnabled(h, ListJob(j)) && FiledFor(h, h.jobs[j].sid, At(h, j).msgId, id)
    ensures forall k, m | k in HubStep(h, ListJob(j)).jobs :: HubStep(h, ListJob(j)).jobs[k].stage != HubSpec.Stage.Leased(id, m)
  {
    var h' := HubStep(h, ListJob(j));
    FiledIsIssued(h, h.jobs[j].sid, At(h, j).msgId, id);
    assert forall k | k in h.jobs && At(h, k).Leased? :: AloneKnows(h, k, At(h, k).id);
    hide ListsInv, HubEnabled, HubStep, Remembers;
    forall k, m | k in h'.jobs
      ensures h'.jobs[k].stage != HubSpec.Stage.Leased(id, m)
    {
      StageStep(h, ListJob(j), k);
    }
  }

  /** In every reachable state: when a ready session is given a second delivery under one message
      id, the second replaces the first; no rep of any session, at any later time, acknowledges
      the first, which the worker has to settle by name, or lose by closing or by expiry. */
  lemma LatestDeliveryOnly(b: Bus, es: seq<HubEvent>, j: nat, id: string, later: seq<HubEvent>, e: HubEvent)
    requires Fresh(b) && HubValid(HubStart(b), es)
    requires var h := HubRun(HubStart(b), es);
      && j in h.jobs && At(h, j).Leased? && h.jobs[j].kind.Ready? && At(h, j).msgId != ""
      && HubEnabled(h, ListJob(j)) && FiledFor(h, h.jobs[j].sid, At(h, j).msgId, id)
      && HubValid(HubStep(h, ListJob(j)), later)
      && e.RepFrame? && HubEnabled(HubRun(HubStep(h, ListJob(j)), later), e)
    ensures var h := HubRun(HubStart(b), es); var h' := HubStep(h, ListJob(j)); var r := HubRun(h', later);
      && id != At(h, j).id && FiledFor(h', h.jobs[j].sid, At(h, j).msgId, At(h, j).id)
      && !WorksOn(At(HubStep(r, e), e.job), id)
  {
    hide HubRun, HubValid, HubStart;
    RepsStart(b);
    RepsKeep(HubStart(b), es);
    var h := HubRun(HubStart(b), es);
    Replaces(h, j, id);
    RepsStep(h, ListJob(j));
    hide HubEnabled, HubStep, Unfiled;
    var h' := HubStep(h, ListJob(j));
    UnfiledRun(h', later, id);
    RepNotFor(HubRun(h', later), e, id);
  }

  lemma RepNotFor(h: Hub, e: HubEvent, id: string)
    requires HubEnabled(h, e) && e.RepFrame? && Unfiled(h, id)
    ensures !WorksOn(At(HubStep(h, e), e.job), id)
  {
    RepStarts(h, e);
    hide HubEnabled, HubStep;
    var r := h.sessions[e.sid].repAck;
    if e.msgId in r { assert !FiledFor(h, e.sid, e.msgId, id); }
  }
}
