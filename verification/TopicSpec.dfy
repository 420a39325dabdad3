/** The publish/subscribe half of the bus: the last-value cache and the subscribers'
    bounded channels. The order of a map iteration and the entry a full cache evicts are
    the environment's choice. */
module TopicSpec {
  import opened MailboxSpec

  const MAX_CACHED_TOPICS: nat := 4096
  const FEED_SLOTS: nat := 64

  /** A subscriber's channel. */
  datatype Feed = Feed(buf: seq<Msg>, open: bool)

  datatype Subscription = Subscription(prefix: string, ch: nat)

  datatype Topics = Topics(
    maxBody: nat, closed: bool, last: map<string, Msg>, subs: seq<Subscription>,
    feeds: map<nat, Feed>, next: nat, fault: bool)

  function MatchTopic(topic: string, prefix: string): (r: bool)
    ensures r <==> prefix <= topic
  {
    if prefix == "" then true else MatchPrefix(topic, prefix)
  }

  function MatchPrefix(topic: string, prefix: string): (r: bool)
    ensures r <==> prefix <= topic
  {
    if |topic| < |prefix| then false else topic[..|prefix|] == prefix
  }

  /** A send that gives up when the channel is full. */
  function Offered(f: Feed, m: Msg): Feed {
    if |f.buf| < FEED_SLOTS then f.(buf := f.buf + [m]) else f
  }

  /** `m` offered to each matching subscriber in turn; sending on a closed channel panics. */
  function OfferAll(t: Topics, subs: seq<Subscription>, topic: string, m: Msg): Topics
    decreases |subs|
  {
    if subs == [] then t
    else
      var s := subs[0];
      var t1 :=
        if !MatchTopic(topic, s.prefix) then t
        else if s.ch in t.feeds && t.feeds[s.ch].open
        then t.(feeds := t.feeds[s.ch := Offered(t.feeds[s.ch], m)])
        else t.(fault := true);
      OfferAll(t1, subs[1..], topic, m)
  }

  /** The cache after a publication; a new topic pushes `evict` out of a full cache. */
  function Cached(last: map<string, Msg>, topic: string, m: Msg, evict: string): map<string, Msg> {
    (if topic !in last && |last| >= MAX_CACHED_TOPICS then last - {evict} else last)[topic := m]
  }

  function Published(m: Msg, topic: string, now: int): Msg {
    m.(name := topic, at := if m.at == 0 then now else m.at)
  }

  function Pub(t: Topics, topic: string, m: Msg, now: int, evict: string): (Topics, Result<()>) {
    if topic == "" then (t, Err(BadName))
    else if |m.body| > t.maxBody then (t, Err(TooLarge))
    else if t.closed then (t, Err(Closed))
    else
      var msg := Published(m, topic, now);
      (OfferAll(t.(last := Cached(t.last, topic, msg, evict)), t.subs, topic, msg), Ok(()))
  }

  /** The cached messages a new subscriber is offered, in the order of the iteration. */
  function Replay(last: map<string, Msg>, order: seq<string>, prefix: string): seq<Msg>
    decreases |order|
  {
    if order == [] then []
    else
      (if order[0] in last && MatchTopic(order[0], prefix) then [last[order[0]]] else [])
      + Replay(last, order[1..], prefix)
  }

  function Filled(f: Feed, ms: seq<Msg>): Feed
    decreases |ms|
  {
    if ms == [] then f else Filled(Offered(f, ms[0]), ms[1..])
  }

  function Sub(t: Topics, prefix: string, order: seq<string>): (Topics, Result<nat>) {
    if t.closed then (t, Err(Closed))
    else
      var f := Filled(Feed([], true), Replay(t.last, order, prefix));
      (t.(subs := t.subs + [Subscription(prefix, t.next)], feeds := t.feeds[t.next := f], next := t.next + 1),
       Ok(t.next))
  }

  function SubsWithout(subs: seq<Subscription>, ch: nat): (r: seq<Subscription>)
    ensures forall s :: s in r <==> s in subs && s.ch != ch
    decreases |subs|
  {
    if subs == [] then []
    else (if subs[0].ch != ch then [subs[0]] else []) + SubsWithout(subs[1..], ch)
  }

  predicate Subscribed(subs: seq<Subscription>, ch: nat) {
    exists i :: 0 <= i < |subs| && subs[i].ch == ch
  }

  /** Closing a channel that is closed, or was never made, panics. */
  function CloseFeed(t: Topics, ch: nat): Topics {
    if ch in t.feeds && t.feeds[ch].open then t.(feeds := t.feeds[ch := t.feeds[ch].(open := false)])
    else t.(fault := true)
  }

  function Unsub(t: Topics, ch: nat): Topics {
    var t1 := t.(subs := SubsWithout(t.subs, ch));
    if Subscribed(t.subs, ch) then CloseFeed(t1, ch) else t1
  }

  function CloseFeeds(t: Topics, subs: seq<Subscription>): Topics
    decreases |subs|
  {
    if subs == [] then t else CloseFeeds(CloseFeed(t, subs[0].ch), subs[1..])
  }

  function CloseTopics(t: Topics): Topics {
    if t.closed then t else CloseFeeds(t.(closed := true), t.subs).(subs := [])
  }

  /** The subscriber receives the oldest buffered message. */
  function Recv(t: Topics, ch: nat): Topics
    requires ch in t.feeds && t.feeds[ch].buf != []
  {
    t.(feeds := t.feeds[ch := t.feeds[ch].(buf := t.feeds[ch].buf[1..])])
  }

  function OpenTopics(maxBody: nat): Topics {
    Topics(maxBody, false, map[], [], map[], 0, false)
  }
}
