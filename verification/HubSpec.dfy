/** The hub's session layer as a state machine above the bus. Each step is one critical
    section of internal/hub/hub.go; the goroutines that serve take, ready, reserve, rep, ack
    and nack are jobs that advance one step at a time, in any interleaving. */
module HubSpec {
  import opened Bags
  import opened MailboxSpec
  import opened MailboxRuns
  import Decimal

  /** `toNack` is what is left of the list that close() copied. */
  datatype Session = Session(closed: bool, inflight: seq<string>, repAck: map<string, string>, toNack: seq<string>)

  datatype Kind = Take | Ready | Reserve

  /** Where a goroutine stands: waiting in Take; with a message in hand, before or after a
      failed Hold; holding a lease that no session lists yet; about to write the job; about to
      claim the lease; about to acknowledge or give back a claimed lease; about to drop an
      explicitly settled lease from its session's list. */
  datatype Stage =
    | Waiting(chan: nat)
    | Taken(msg: Msg)
    | Refused(msg: Msg)
    | Leased(id: string, msgId: string)
    | Listed(id: string, msgId: string)
    | Claiming(id: string, ack: bool)
    | Claimed(id: string, ack: bool)
    | Settled(id: string)

  datatype Job = Job(sid: nat, kind: Kind, stage: Stage)

  datatype Pending = Pending(sid: nat, clientId: string, expires: int)

  /** `asked` and `answered` are histories: the requests registered, and the replies forwarded,
      each as (session, the client's id). A rep is forwarded when the hub turns to the session that
      asked; whether that session can still be written to is its own affair. */
  datatype Hub = Hub(
    world: World, sids: nat, sessions: map<nat, Session>, jobs: map<nat, Job>, pending: map<string, Pending>,
    asked: multiset<(nat, string)>, answered: multiset<(nat, string)>)

  // ---------------------------------------------------------------------------
  // Scoped ids
  // ---------------------------------------------------------------------------

  function ScopedId(sid: nat, id: string): string {
    if id == "" then "" else "s" + Decimal.Render(sid) + ":" + id
  }

  /** Two sessions never share a scoped id, nor do two ids of one session. */
  lemma ScopedIdInjective(sid: nat, id: string, sid': nat, id': string)
    requires id != "" && id' != "" && ScopedId(sid, id) == ScopedId(sid', id')
    ensures sid == sid' && id == id'
  {
    var a, b := Decimal.Render(sid) + (":" + id), Decimal.Render(sid') + (":" + id');
    hide Decimal.Render;
    assert ScopedId(sid, id) == "s" + a && ScopedId(sid', id') == "s" + b;
    assert a == ScopedId(sid, id)[1..] && b == ScopedId(sid', id')[1..];
    Decimal.SplitAtNonDigit(sid, sid', ":" + id, ":" + id');
    assert id == (":" + id)[1..] && id' == (":" + id')[1..];
  }

  // ---------------------------------------------------------------------------
  // The critical sections of a session
  // ---------------------------------------------------------------------------

  /** close(), first part: mark the session and copy its list. */
  function CloseSession(s: Session): Session {
    if s.closed then s else s.(closed := true, inflight := [], toNack := s.inflight)
  }

  /** claimInflight: false once the session is closed. */
  function ClaimInflight(s: Session, id: string): (Session, bool) {
    if s.closed then (s, false) else (s.(inflight := Without(s.inflight, id)), true)
  }

  function TrackInflight(s: Session, id: string): Session { s.(inflight := s.inflight + [id]) }

  function DropInflight(s: Session, id: string): Session { s.(inflight := Without(s.inflight, id)) }

  function TrackRepAck(s: Session, msgId: string, id: string): Session {
    if msgId == "" then s else s.(repAck := s.repAck[msgId := id])
  }

  function TakeRepAck(s: Session, msgId: string): (Session, string) {
    (s.(repAck := s.repAck - {msgId}), if msgId in s.repAck then s.repAck[msgId] else "")
  }

  // ---------------------------------------------------------------------------
  // The pending table
  // ---------------------------------------------------------------------------

  function ClearPending(p: map<string, Pending>, sid: nat): map<string, Pending> {
    map k | k in p && p[k].sid != sid :: p[k]
  }

  /** Slots nobody answered in time; a slot without a time never expires. */
  function ExpirePending(p: map<string, Pending>, now: int): map<string, Pending> {
    map k | k in p && (p[k].expires == 0 || now <= p[k].expires) :: p[k]
  }

  // ---------------------------------------------------------------------------
  // Steps
  // ---------------------------------------------------------------------------

  datatype HubEvent =
    | Connect
    | BeginClose(sid: nat)
    | NackNext(sid: nat, disk: bool)
    | ForgetRequests(sid: nat)
    | StartJob(job: nat, sid: nat, kind: Kind, name: string, now: int, order: seq<string>, disk: bool)
    | ReceiveJob(job: nat)
    | CancelJob(job: nat, disk: bool)
    | HoldJob(job: nat, lease: int, id: string, now: int, disk: bool)
    | RequeueJob(job: nat, disk: bool)
    | ListJob(job: nat)
    | WriteJob(job: nat, written: bool)
    | ClaimJob(job: nat)
    | SettleJob(job: nat, disk: bool)
    | AckFrame(job: nat, sid: nat, id: string, disk: bool)
    | NackFrame(job: nat, sid: nat, id: string, disk: bool)
    | DropJob(job: nat)
    | RepFrame(job: nat, sid: nat, msgId: string)
    | ForwardRep(sid: nat, msgId: string, ok: bool)
    | ReqFrame(sid: nat, id: string, now: int, ttl: int)
    | ReqFailed(sid: nat, id: string)
    | OnBus(e: Event)

  /** What a hub event does to the bus, if anything. */
  function BusEvent(h: Hub, e: HubEvent): Option<Event> {
    match e
    case NackNext(sid, disk) =>
      if sid in h.sessions && h.sessions[sid].toNack != [] then Some(NackLease(h.sessions[sid].toNack[0], disk)) else None
    case StartJob(_, _, _, name, now, order, disk) => Some(StartTake(name, now, order, disk))
    case ReceiveJob(j) => if At(h, j).Waiting? then Some(ReceiveFrom(At(h, j).chan)) else None
    case CancelJob(j, disk) => if At(h, j).Waiting? then Some(CancelTake(At(h, j).chan, disk)) else None
    case HoldJob(j, lease, id, now, disk) => if At(h, j).Taken? then Some(HoldMsg(At(h, j).msg, lease, id, now, disk)) else None
    case RequeueJob(j, disk) => if At(h, j).Refused? then Some(RequeueMsg(At(h, j).msg, disk)) else None
    case SettleJob(j, disk) =>
      if At(h, j).Claimed? then
        if At(h, j).ack then Some(AckLease(At(h, j).id, disk)) else Some(NackLease(At(h, j).id, disk))
      else None
    case AckFrame(_, _, id, disk) => Some(AckLease(id, disk))
    case NackFrame(_, _, id, disk) => Some(NackLease(id, disk))
    case OnBus(b) => Some(b)
    case _ => None
  }

  /** Where a job stands; a job that does not exist has nothing left to do. */
  function At(h: Hub, j: nat): Stage {
    if j in h.jobs then h.jobs[j].stage else Settled("")
  }

  /** A reply fails only on a closed session, or closes it: a job is left unwritten, and a
      worker's rep without its OK, only when the session is closed by then. */
  ghost predicate HubEnabled(h: Hub, e: HubEvent) {
    && (BusEvent(h, e).Some? ==> Enabled(h.world, BusEvent(h, e).value))
    && match e
       case Connect => true
       case BeginClose(sid) => sid in h.sessions
       case NackNext(sid, _) => sid in h.sessions && h.sessions[sid].toNack != []
       case ForgetRequests(sid) => sid in h.sessions && h.sessions[sid].closed && h.sessions[sid].toNack == []
       case StartJob(j, sid, _, _, _, _, _) => j !in h.jobs && sid in h.sessions
       case ReceiveJob(j) => j in h.jobs && At(h, j).Waiting?
       case CancelJob(j, _) => j in h.jobs && At(h, j).Waiting?
       case HoldJob(j, _, _, _, _) => j in h.jobs && At(h, j).Taken?
       case RequeueJob(j, _) => j in h.jobs && At(h, j).Refused?
       case ListJob(j) => j in h.jobs && At(h, j).Leased? && h.jobs[j].sid in h.sessions
       case WriteJob(j, written) =>
         j in h.jobs && At(h, j).Listed? && h.jobs[j].sid in h.sessions && (written || h.sessions[h.jobs[j].sid].closed)
       case ClaimJob(j) => j in h.jobs && At(h, j).Claiming? && h.jobs[j].sid in h.sessions
       case SettleJob(j, _) => j in h.jobs && At(h, j).Claimed?
       case AckFrame(j, sid, _, _) => j !in h.jobs && sid in h.sessions
       case NackFrame(j, sid, _, _) => j !in h.jobs && sid in h.sessions
       case DropJob(j) => j in h.jobs && At(h, j).Settled? && h.jobs[j].sid in h.sessions
       case RepFrame(j, sid, _) => j !in h.jobs && sid in h.sessions
       case ForwardRep(sid, _, ok) => sid in h.sessions && (ok || h.sessions[sid].closed)
       case ReqFrame(sid, id, _, _) => sid in h.sessions && id != ""
       case ReqFailed(sid, id) => sid in h.sessions
       case OnBus(b) => b.PutMsg? || b.Sweep? || b.CloseBus?
  }

  ghost function After(h: Hub, e: HubEvent): World
    requires HubEnabled(h, e)
  {
    if BusEvent(h, e).Some? then Step(h.world, BusEvent(h, e).value) else h.world
  }

  ghost function HubStep(h: Hub, e: HubEvent): Hub
    requires HubEnabled(h, e)
  {
    var h1 := h.(world := After(h, e));
    var b := h.world.bus;
    match e
    case Connect =>
      h1.(sids := h.sids + 1, sessions := h.sessions[h.sids + 1 := Session(false, [], map[], [])])
    case BeginClose(sid) => h1.(sessions := h.sessions[sid := CloseSession(h.sessions[sid])])
    case NackNext(sid, _) =>
      h1.(sessions := h.sessions[sid := h.sessions[sid].(toNack := h.sessions[sid].toNack[1..])])
    case ForgetRequests(sid) => h1.(pending := ClearPending(h.pending, sid))
    case StartJob(j, sid, kind, name, now, order, disk) =>
      var o := TakeChan(b, name, now, order, disk);
      if o.result.Ok? then h1.(jobs := h.jobs[j := Job(sid, kind, Waiting(o.result.value))]) else h1
    case ReceiveJob(j) =>
      var o := Receive(b, At(h, j).chan);
      if o.result.Ok? then Move(h1, j, Taken(o.result.value)) else Done(h1, j)
    case CancelJob(j, _) => Done(h1, j)
    case HoldJob(j, lease, id, now, disk) =>
      var m := At(h, j).msg;
      if Hold(b, m, lease, id, now, disk).result.Ok? then Move(h1, j, Leased(id, m.id)) else Move(h1, j, Refused(m))
    case RequeueJob(j, _) => Done(h1, j)
    case ListJob(j) =>
      var (sid, id, msgId) := (h.jobs[j].sid, At(h, j).id, At(h, j).msgId);
      var s := TrackInflight(h.sessions[sid], id);
      Move(h1.(sessions := h.sessions[sid := if h.jobs[j].kind.Ready? then TrackRepAck(s, msgId, id) else s]), j, Listed(id, msgId))
    case WriteJob(j, written) =>
      var (sid, id, msgId) := (h.jobs[j].sid, At(h, j).id, At(h, j).msgId);
      if !written then
        var s := if h.jobs[j].kind.Reserve? then h.sessions[sid] else TakeRepAck(h.sessions[sid], msgId).0;
        Move(h1.(sessions := h.sessions[sid := s]), j, Claiming(id, false))
      else if h.jobs[j].kind.Take? then Move(h1, j, Claiming(id, true))
      else Done(h1, j)
    case ClaimJob(j) =>
      var (sid, id, ack) := (h.jobs[j].sid, At(h, j).id, At(h, j).ack);
      var (s, claimed) := ClaimInflight(h.sessions[sid], id);
      var h2 := h1.(sessions := h.sessions[sid := s]);
      if claimed then Move(h2, j, Claimed(id, ack)) else Done(h2, j)
    case SettleJob(j, _) => Done(h1, j)
    case AckFrame(j, sid, id, disk) =>
      if Ack(b, id, disk).result.Ok? then h1.(jobs := h.jobs[j := Job(sid, Take, Settled(id))]) else h1
    case NackFrame(j, sid, id, disk) =>
      if Nack(b, id, disk).result.Ok? then h1.(jobs := h.jobs[j := Job(sid, Take, Settled(id))]) else h1
    case DropJob(j) =>
      var sid := h.jobs[j].sid;
      Done(h1.(sessions := h.sessions[sid := DropInflight(h.sessions[sid], At(h, j).id)]), j)
    case RepFrame(j, sid, msgId) =>
      var (s, id) := TakeRepAck(h.sessions[sid], msgId);
      var h2 := h1.(sessions := h.sessions[sid := s]);
      if id != "" then h2.(jobs := h.jobs[j := Job(sid, Take, Claiming(id, true))]) else h2
    case ForwardRep(_, msgId, ok) =>
      if msgId !in h.pending then h1
      else
        var slot := h.pending[msgId];
        h1.(pending := h.pending - {msgId},
            answered := h.answered + if ok then multiset{(slot.sid, slot.clientId)} else multiset{})
    case ReqFrame(sid, id, now, ttl) =>
      h1.(pending := ExpirePending(h.pending, now)[ScopedId(sid, id) := Pending(sid, id, now + ttl)],
          asked := h.asked + multiset{(sid, id)})
    case ReqFailed(sid, id) =>
      var k := ScopedId(sid, id);
      if k in h.pending && h.pending[k].sid == sid then h1.(pending := h.pending - {k}) else h1
    case OnBus(_) => h1
  }

  ghost function Move(h: Hub, j: nat, s: Stage): Hub
    requires j in h.jobs
  {
    h.(jobs := h.jobs[j := h.jobs[j].(stage := s)])
  }

  ghost function Done(h: Hub, j: nat): Hub {
    h.(jobs := h.jobs - {j})
  }

  ghost predicate HubValid(h: Hub, es: seq<HubEvent>)
    decreases |es|
  {
    es == [] || (HubEnabled(h, es[0]) && HubValid(HubStep(h, es[0]), es[1..]))
  }

  ghost function HubRun(h: Hub, es: seq<HubEvent>): Hub
    requires HubValid(h, es)
    decreases |es|
  {
    if es == [] then h else HubRun(HubStep(h, es[0]), es[1..])
  }

  ghost function HubStart(b: Bus): Hub {
    Hub(Start(b), 0, map[], map[], map[], multiset{}, multiset{})
  }
}
