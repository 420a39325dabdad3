/** Requests and replies: a reply goes only to the session that asked, under its own id, and
    no more often than it asked. */
module HubRouting {
  import opened MailboxSpec
  import opened MailboxRuns
  import opened HubSpec

  /** A slot is filed under the scoped id of its own session and client id. */
  ghost predicate SlotsOk(p: map<string, Pending>) {
    forall k | k in p :: p[k].clientId != "" && k == ScopedId(p[k].sid, p[k].clientId)
  }

  ghost function Waiting(h: Hub, sid: nat, id: string): nat {
    if ScopedId(sid, id) in h.pending then 1 else 0
  }

  /** Replies forwarded, and the slot still open, are covered by requests made. */
  ghost predicate Balanced(h: Hub) {
    forall sid: nat, id: string | id != "" :: h.answered[(sid, id)] + Waiting(h, sid, id) <= h.asked[(sid, id)]
  }

  ghost predicate OnlyReal(h: Hub) {
    forall p | p in h.answered :: p.1 != ""
  }

  ghost predicate RoutingInv(h: Hub) {
    SlotsOk(h.pending) && Balanced(h) && OnlyReal(h)
  }

  /** The events that change the pending table. */
  predicate TouchesPending(e: HubEvent) {
    e.ForgetRequests? || e.ForwardRep? || e.ReqFrame? || e.ReqFailed?
  }

  lemma TablesSame(h: Hub, e: HubEvent)
    requires HubEnabled(h, e) && !TouchesPending(e)
    ensures var h' := HubStep(h, e); h'.pending == h.pending && h'.asked == h.asked && h'.answered == h.answered
  {
    hide HubEnabled, Enabled, After, TakeChan, Receive, Hold, Ack, Nack, BusEvent;
    hide TrackInflight, TrackRepAck, TakeRepAck, ClaimInflight, DropInflight, CloseSession;
  }

  /** Dropping slots never unbalances. */
  lemma Shrinks(h: Hub, h': Hub)
    requires RoutingInv(h) && h'.asked == h.asked && h'.answered == h.answered
    requires forall k | k in h'.pending :: k in h.pending && h'.pending[k] == h.pending[k]
    ensures RoutingInv(h')
  {
    forall sid: nat, id: string | id != ""
      ensures h'.answered[(sid, id)] + Waiting(h', sid, id) <= h'.asked[(sid, id)]
    {
      assert h.answered[(sid, id)] + Waiting(h, sid, id) <= h.asked[(sid, id)];
    }
  }

  lemma Asks(h: Hub, h': Hub, sid: nat, id: string, slot: Pending)
    requires RoutingInv(h) && id != "" && slot.sid == sid && slot.clientId == id
    requires h'.asked == h.asked + multiset{(sid, id)} && h'.answered == h.answered
    requires h'.pending == h.pending[ScopedId(sid, id) := slot]
    ensures RoutingInv(h')
  {
    hide ScopedId;
    forall s: nat, i: string | i != ""
      ensures h'.answered[(s, i)] + Waiting(h', s, i) <= h'.asked[(s, i)]
    {
      assert h.answered[(s, i)] + Waiting(h, s, i) <= h.asked[(s, i)];
      if ScopedId(s, i) == ScopedId(sid, id) { ScopedIdInjective(s, i, sid, id); }
    }
  }

  lemma Forwards(h: Hub, h': Hub, k: string)
    requires RoutingInv(h) && k in h.pending && h'.asked == h.asked
    requires h'.answered == h.answered + multiset{(h.pending[k].sid, h.pending[k].clientId)}
    requires h'.pending == h.pending - {k}
    ensures RoutingInv(h')
  {
    hide ScopedId;
    forall s: nat, i: string | i != ""
      ensures h'.answered[(s, i)] + Waiting(h', s, i) <= h'.asked[(s, i)]
    {
      assert h.answered[(s, i)] + Waiting(h, s, i) <= h.asked[(s, i)];
    }
  }

  lemma RoutingStep(h: Hub, e: HubEvent)
    requires RoutingInv(h) && HubEnabled(h, e)
    ensures RoutingInv(HubStep(h, e))
  {
    hide RoutingInv, ScopedId, After;
    var h' := HubStep(h, e);
    if !TouchesPending(e) {
      TablesSame(h, e);
      Shrinks(h, h');
    } else if e.ReqFrame? {
      var h1 := h.(pending := ExpirePending(h.pending, e.now));
      Shrinks(h, h1);
      Asks(h1, h', e.sid, e.id, Pending(e.sid, e.id, e.now + e.ttl));
    } else if e.ForwardRep? && e.ok && e.msgId in h.pending {
      Forwards(h, h', e.msgId);
    } else {
      Shrinks(h, h');
    }
  }

  lemma {:induction false} RoutingRun(h: Hub, es: seq<HubEvent>)
    requires RoutingInv(h) && HubValid(h, es)
    ensures RoutingInv(HubRun(h, es))
    decreases |es|
  {
    hide RoutingInv, HubEnabled, HubStep;
    if es != [] {
      RoutingStep(h, es[0]);
      RoutingRun(HubStep(h, es[0]), es[1..]);
    }
  }

  /** A rep under `msgId` consumes the slot there, and answers (sid, id) if and only if that
      slot is open, `msgId` is the scoped id of (sid, id), and the worker was sent its OK. */
  lemma ForwardsTo(h: Hub, e: HubEvent, sid: nat, id: string)
    requires SlotsOk(h.pending) && HubEnabled(h, e) && e.ForwardRep? && id != ""
    ensures var h' := HubStep(h, e);
      && h'.pending == h.pending - {e.msgId}
      && h'.answered[(sid, id)]
         == h.answered[(sid, id)] + if e.msgId in h.pending && e.msgId == ScopedId(sid, id) && e.ok then 1 else 0
  {
    if e.msgId in h.pending && e.msgId == ScopedId(sid, id) {
      ScopedIdInjective(sid, id, h.pending[e.msgId].sid, h.pending[e.msgId].clientId);
    }
    hide ScopedId, After;
    if e.msgId !in h.pending { assert h.pending - {e.msgId} == h.pending; }
  }

  /** In every reachable state: a rep is forwarded if and only if a slot is open under its id
      and the worker was sent its OK, and then to the one session and client id which that id
      scopes; and no session has been sent more replies under an id than it made requests. */
  lemma RepliesReachTheAsker(b: Bus, es: seq<HubEvent>, e: HubEvent, sid: nat, id: string)
    requires HubValid(HubStart(b), es) && id != ""
    requires e.ForwardRep? && HubEnabled(HubRun(HubStart(b), es), e)
    ensures var h := HubRun(HubStart(b), es);
      && h.answered[(sid, id)] <= h.asked[(sid, id)]
      && HubStep(h, e).answered[(sid, id)]
         == h.answered[(sid, id)] + if e.msgId in h.pending && e.msgId == ScopedId(sid, id) && e.ok then 1 else 0
  {
    RoutingRun(HubStart(b), es);
    var h := HubRun(HubStart(b), es);
    hide HubRun, HubValid, ScopedId, HubStep, HubEnabled;
    assert h.answered[(sid, id)] + Waiting(h, sid, id) <= h.asked[(sid, id)];
    ForwardsTo(h, e, sid, id);
  }

  // ---------------------------------------------------------------------------
  // A reply that is lost
  // ---------------------------------------------------------------------------

  /** Nobody asks under (sid, id) in the run. */
  predicate AsksNot(es: seq<HubEvent>, sid: nat, id: string) {
    forall i :: 0 <= i < |es| ==> !(es[i].ReqFrame? && es[i].sid == sid && es[i].id == id)
  }

  lemma NoSlotStep(h: Hub, e: HubEvent, sid: nat, id: string)
    requires RoutingInv(h) && HubEnabled(h, e) && id != "" && ScopedId(sid, id) !in h.pending
    requires !(e.ReqFrame? && e.sid == sid && e.id == id)
    ensures var h' := HubStep(h, e);
      ScopedId(sid, id) !in h'.pending && h'.answered[(sid, id)] == h.answered[(sid, id)]
  {
    if !TouchesPending(e) {
      TablesSame(h, e);
    } else if e.ForwardRep? {
      ForwardsTo(h, e, sid, id);
    } else if e.ReqFrame? {
      if ScopedId(sid, id) == ScopedId(e.sid, e.id) { ScopedIdInjective(sid, id, e.sid, e.id); }
      hide ScopedId, After;
    } else {
      hide ScopedId, After;
    }
  }

  lemma {:induction false} NoSlotRun(h: Hub, es: seq<HubEvent>, sid: nat, id: string)
    requires RoutingInv(h) && HubValid(h, es) && id != "" && ScopedId(sid, id) !in h.pending && AsksNot(es, sid, id)
    ensures HubRun(h, es).answered[(sid, id)] == h.answered[(sid, id)]
    decreases |es|
  {
    hide RoutingInv, HubEnabled, HubStep, ScopedId;
    if es != [] {
      RoutingStep(h, es[0]);
      NoSlotStep(h, es[0], sid, id);
      NoSlotRun(HubStep(h, es[0]), es[1..], sid, id);
    }
  }

  /** When the worker's OK cannot be written, its rep is lost: the slot is gone, nothing was
      forwarded, and nothing is until the client asks again under that id. */
  lemma RepWithoutOkIsLost(b: Bus, es: seq<HubEvent>, e: HubEvent, later: seq<HubEvent>, sid: nat, id: string)
    requires HubValid(HubStart(b), es) && id != ""
    requires var h := HubRun(HubStart(b), es);
      && e.ForwardRep? && !e.ok && e.msgId == ScopedId(sid, id) && e.msgId in h.pending
      && HubEnabled(h, e) && HubValid(HubStep(h, e), later) && AsksNot(later, sid, id)
    ensures var h := HubRun(HubStart(b), es);
      HubRun(HubStep(h, e), later).answered[(sid, id)] == h.answered[(sid, id)]
  {
    RoutingRun(HubStart(b), es);
    var h := HubRun(HubStart(b), es);
    hide HubRun, HubValid, ScopedId, HubStep, HubEnabled, RoutingInv;
    assert SlotsOk(h.pending);
    RoutingStep(h, e);
    ForwardsTo(h, e, sid, id);
    NoSlotRun(HubStep(h, e), later, sid, id);
  }

  // ---------------------------------------------------------------------------
  // How long a slot stays open
  // ---------------------------------------------------------------------------

  /** The event takes the slot `p` under `key` away, or opens a new one there: a rep, a failed or a
      new req under that id, the end of its session, or a req after its time. */
  predicate Displaces(e: HubEvent, key: string, p: Pending) {
    match e
    case ForwardRep(_, msgId, _) => msgId == key
    case ReqFailed(sid, id) => sid == p.sid && ScopedId(sid, id) == key
    case ForgetRequests(sid) => sid == p.sid
    case ReqFrame(sid, id, now, _) => ScopedId(sid, id) == key || (p.expires != 0 && now > p.expires)
    case _ => false
  }

  predicate NeverDisplaced(es: seq<HubEvent>, key: string, p: Pending) {
    forall i :: 0 <= i < |es| ==> !Displaces(es[i], key, p)
  }

  /** A step keeps an open slot if and only if it does not displace it; and no step but a req under
      its own id opens one. */
  lemma SlotStep(h: Hub, e: HubEvent, key: string)
    requires HubEnabled(h, e)
    ensures var h' := HubStep(h, e);
      && (key in h.pending && !Displaces(e, key, h.pending[key]) ==> key in h'.pending && h'.pending[key] == h.pending[key])
      && (key in h.pending && Displaces(e, key, h.pending[key]) && key in h'.pending ==>
            e.ReqFrame? && ScopedId(e.sid, e.id) == key && h'.pending[key] == Pending(e.sid, e.id, e.now + e.ttl))
      && (key !in h.pending && key in h'.pending ==> e.ReqFrame? && ScopedId(e.sid, e.id) == key)
  {
    hide ScopedId;
    if !TouchesPending(e) {
      hide HubEnabled, HubStep;
      TablesSame(h, e);
    } else {
      hide Enabled, After;
    }
  }

  /** A slot stays open through every run that does not displace it. */
  lemma {:induction false} SlotStays(h: Hub, es: seq<HubEvent>, key: string)
    requires HubValid(h, es) && key in h.pending && NeverDisplaced(es, key, h.pending[key])
    ensures key in HubRun(h, es).pending && HubRun(h, es).pending[key] == h.pending[key]
    decreases |es|
  {
    hide HubEnabled, HubStep, Displaces;
    if es != [] {
      SlotStep(h, es[0], key);
      assert forall i :: 0 <= i < |es[1..]| ==> es[1..][i] == es[i + 1];
      SlotStays(HubStep(h, es[0]), es[1..], key);
    }
  }

  /** From every state: after a req, through every later run that does not displace its slot, a rep
      under its id whose worker was sent the OK is forwarded to that session, under that id. */
  lemma ReplyArrives(h: Hub, sid: nat, id: string, now: int, ttl: int, later: seq<HubEvent>, worker: nat)
    requires HubEnabled(h, ReqFrame(sid, id, now, ttl))
    requires var h1 := HubStep(h, ReqFrame(sid, id, now, ttl)); var key := ScopedId(sid, id);
      && HubValid(h1, later) && NeverDisplaced(later, key, Pending(sid, id, now + ttl))
      && HubEnabled(HubRun(h1, later), ForwardRep(worker, key, true))
    ensures var h' := HubRun(HubStep(h, ReqFrame(sid, id, now, ttl)), later); var key := ScopedId(sid, id);
      && key in h'.pending && h'.pending[key] == Pending(sid, id, now + ttl)
      && HubStep(h', ForwardRep(worker, key, true)).answered == h'.answered + multiset{(sid, id)}
  {
    var e, key := ReqFrame(sid, id, now, ttl), ScopedId(sid, id);
    Opens(h, sid, id, now, ttl);
    hide HubStep, HubEnabled, HubRun, HubValid, ScopedId, NeverDisplaced;
    var h1 := HubStep(h, e);
    SlotStays(h1, later, key);
    Answered(HubRun(h1, later), worker, key);
  }

  lemma Opens(h: Hub, sid: nat, id: string, now: int, ttl: int)
    requires HubEnabled(h, ReqFrame(sid, id, now, ttl))
    ensures var h' := HubStep(h, ReqFrame(sid, id, now, ttl)); var key := ScopedId(sid, id);
      key in h'.pending && h'.pending[key] == Pending(sid, id, now + ttl)
  {
    hide ScopedId, ExpirePending;
  }

  lemma Answered(h: Hub, worker: nat, key: string)
    requires HubEnabled(h, ForwardRep(worker, key, true)) && key in h.pending
    ensures HubStep(h, ForwardRep(worker, key, true)).answered
         == h.answered + multiset{(h.pending[key].sid, h.pending[key].clientId)}
  {
  }
}
