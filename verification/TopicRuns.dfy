/** Runs of the publish/subscribe half: what a subscriber can have received, what is dropped,
    and what the cache may hold. */
module TopicRuns {
  import opened MailboxSpec
  import opened TopicSpec

  /** What a subscriber was offered, what it received, and how many offers were dropped. */
  datatype Log = Log(offered: seq<Msg>, got: seq<Msg>, dropped: nat)

  /** `logs` by subscriber channel; `latest` is the last publication on each topic. */
  datatype TopicWorld = TopicWorld(t: Topics, logs: map<nat, Log>, latest: map<string, Msg>)

  datatype TopicEvent =
    | PubMsg(topic: string, msg: Msg, now: int, evict: string)
    | Subscribe(prefix: string, order: seq<string>)
    | Unsubscribe(ch: nat)
    | RecvFrom(ch: nat)
    | CloseAll

  ghost predicate Enabled(w: TopicWorld, e: TopicEvent) {
    match e
    case PubMsg(_, _, _, evict) => w.t.last != map[] ==> evict in w.t.last
    case Subscribe(_, order) => IsOrder(order, w.t.last)
    case RecvFrom(ch) => ch in w.t.feeds && w.t.feeds[ch].buf != []
    case _ => true
  }

  /** The subscriber on `ch` is offered a publication on `topic`. */
  predicate Gets(subs: seq<Subscription>, ch: nat, topic: string) {
    exists i :: 0 <= i < |subs| && subs[i].ch == ch && MatchTopic(topic, subs[i].prefix)
  }

  predicate Full(t: Topics, ch: nat) {
    ch in t.feeds && |t.feeds[ch].buf| >= FEED_SLOTS
  }

  /** One more offer, dropped if the channel is full. */
  function LogOffer(l: Log, m: Msg, full: bool): Log {
    Log(l.offered + [m], l.got, l.dropped + if full then 1 else 0)
  }

  ghost function Step(w: TopicWorld, e: TopicEvent): TopicWorld
    requires Enabled(w, e)
  {
    match e
    case PubMsg(topic, m, now, evict) =>
      var (t', r) := Pub(w.t, topic, m, now, evict);
      if r.Err? then w
      else
        var msg := Msg(m.id, topic, m.from, m.body, if m.at != 0 then m.at else now);
        TopicWorld(
          t',
          map c | c in w.logs :: if Gets(w.t.subs, c, topic) then LogOffer(w.logs[c], msg, Full(w.t, c)) else w.logs[c],
          w.latest[topic := msg])
    case Subscribe(prefix, order) =>
      var (t', r) := Sub(w.t, prefix, order);
      if r.Err? then w
      else
        var replay := Replay(w.t.last, order, prefix);
        w.(t := t',
           logs := w.logs[r.value := Log(replay, [], if |replay| > FEED_SLOTS then |replay| - FEED_SLOTS else 0)])
    case Unsubscribe(ch) => w.(t := Unsub(w.t, ch))
    case RecvFrom(ch) =>
      w.(t := Recv(w.t, ch),
         logs := if ch in w.logs then w.logs[ch := w.logs[ch].(got := w.logs[ch].got + [w.t.feeds[ch].buf[0]])]
                 else w.logs)
    case CloseAll => w.(t := CloseTopics(w.t))
  }

  ghost predicate Valid(w: TopicWorld, es: seq<TopicEvent>)
    decreases |es|
  {
    es == [] || (Enabled(w, es[0]) && Valid(Step(w, es[0]), es[1..]))
  }

  ghost function Run(w: TopicWorld, es: seq<TopicEvent>): TopicWorld
    requires Valid(w, es)
    decreases |es|
  {
    if es == [] then w else Run(Step(w, es[0]), es[1..])
  }

  ghost function Start(maxBody: nat): TopicWorld {
    TopicWorld(OpenTopics(maxBody), map[], map[])
  }

  // ---------------------------------------------------------------------------
  // Subsequences
  // ---------------------------------------------------------------------------

  /** `a` can be had from `b` by leaving elements out. */
  predicate Subsequence<T(==)>(a: seq<T>, b: seq<T>)
    decreases |b|
  {
    if a == [] then true
    else if b == [] then false
    else (a[|a| - 1] == b[|b| - 1] && Subsequence(a[..|a| - 1], b[..|b| - 1])) || Subsequence(a, b[..|b| - 1])
  }

  lemma SubsequenceSkip<T>(a: seq<T>, b: seq<T>, x: T)
    requires Subsequence(a, b)
    ensures Subsequence(a, b + [x])
  {
    assert (b + [x])[..|b|] == b;
  }

  lemma SubsequenceTake<T>(a: seq<T>, b: seq<T>, x: T)
    requires Subsequence(a, b)
    ensures Subsequence(a + [x], b + [x])
  {
    assert (a + [x])[..|a|] == a && (b + [x])[..|b|] == b;
  }

  lemma {:induction false} SubsequenceWhole<T>(a: seq<T>, b: seq<T>)
    requires Subsequence(a, b) && |a| == |b|
    ensures a == b
    decreases |b|
  {
    if b != [] {
      var a', b' := a[..|a| - 1], b[..|b| - 1];
      if Subsequence(a, b') { SubsequenceShort(a, b'); }
      SubsequenceWhole(a', b');
      assert a == a' + [a[|a| - 1]] && b == b' + [b[|b| - 1]];
    }
  }

  lemma {:induction false} SubsequenceShort<T>(a: seq<T>, b: seq<T>)
    requires Subsequence(a, b)
    ensures |a| <= |b|
    decreases |b|
  {
    if a != [] {
      if Subsequence(a, b[..|b| - 1]) { SubsequenceShort(a, b[..|b| - 1]); }
      else { SubsequenceShort(a[..|a| - 1], b[..|b| - 1]); }
    }
  }

  // ---------------------------------------------------------------------------
  // The invariant
  // ---------------------------------------------------------------------------

  ghost predicate SubsOk(t: Topics) {
    && (forall i :: 0 <= i < |t.subs| ==> t.subs[i].ch in t.feeds && t.feeds[t.subs[i].ch].open)
    && Distinct(t.subs)
    && (forall c | c in t.feeds :: c < t.next)
  }

  /** What a subscriber received and still has buffered is a subsequence of what it was
      offered, missing exactly the drops. */
  ghost predicate FeedOk(f: Feed, l: Log) {
    && |f.buf| <= FEED_SLOTS
    && Subsequence(l.got + f.buf, l.offered)
    && |l.got + f.buf| + l.dropped == |l.offered|
  }

  ghost predicate CacheOk(t: Topics, latest: map<string, Msg>) {
    && |t.last| <= MAX_CACHED_TOPICS
    && forall k | k in t.last :: k in latest && t.last[k] == latest[k]
  }

  ghost predicate FeedsOk(feeds: map<nat, Feed>, logs: map<nat, Log>) {
    && (forall c :: c in feeds <==> c in logs)
    && (forall c | c in feeds :: FeedOk(feeds[c], logs[c]))
  }

  ghost predicate Inv(w: TopicWorld) {
    !w.t.fault && SubsOk(w.t) && CacheOk(w.t, w.latest) && FeedsOk(w.t.feeds, w.logs)
  }

  lemma OfferKeeps(f: Feed, l: Log, m: Msg)
    requires FeedOk(f, l)
    ensures FeedOk(Offered(f, m), LogOffer(l, m, |f.buf| >= FEED_SLOTS))
  {
    if |f.buf| < FEED_SLOTS {
      SubsequenceTake(l.got + f.buf, l.offered, m);
      assert l.got + (f.buf + [m]) == (l.got + f.buf) + [m];
    } else {
      SubsequenceSkip(l.got + f.buf, l.offered, m);
    }
  }

  lemma {:induction false} FillKeeps(f: Feed, ms: seq<Msg>, l: Log)
    requires FeedOk(f, l)
    ensures var room := FEED_SLOTS - |f.buf|;
      FeedOk(Filled(f, ms), Log(l.offered + ms, l.got, l.dropped + if |ms| > room then |ms| - room else 0))
      && Filled(f, ms).open == f.open
    decreases |ms|
  {
    if ms == [] {
      assert l.offered + ms == l.offered;
    } else {
      OfferKeeps(f, l, ms[0]);
      FillKeeps(Offered(f, ms[0]), ms[1..], LogOffer(l, ms[0], |f.buf| >= FEED_SLOTS));
      assert l.offered + [ms[0]] + ms[1..] == l.offered + ms;
    }
  }

  /** A publication reaches every matching subscriber, each according to its own room only. */
  lemma {:induction false} OfferAllEach(t: Topics, subs: seq<Subscription>, topic: string, m: Msg)
    requires forall i :: 0 <= i < |subs| ==> subs[i].ch in t.feeds && t.feeds[subs[i].ch].open
    requires forall i, j :: 0 <= i < j < |subs| ==> subs[i].ch != subs[j].ch
    ensures OfferAll(t, subs, topic, m) ==
      t.(feeds := map c | c in t.feeds :: if Gets(subs, c, topic) then Offered(t.feeds[c], m) else t.feeds[c])
    decreases |subs|
  {
    if subs == [] {
      assert forall c :: !Gets(subs, c, topic);
    } else {
      var s := subs[0];
      var t1 := if MatchTopic(topic, s.prefix) then t.(feeds := t.feeds[s.ch := Offered(t.feeds[s.ch], m)]) else t;
      OfferAllEach(t1, subs[1..], topic, m);
      forall c | c in t.feeds
        ensures Gets(subs, c, topic) <==> (c == s.ch && MatchTopic(topic, s.prefix)) || Gets(subs[1..], c, topic)
      {
        GetsSplit(subs, c, topic);
      }
      assert !Gets(subs[1..], s.ch, topic);
    }
  }

  lemma GetsSplit(subs: seq<Subscription>, c: nat, topic: string)
    requires subs != []
    ensures Gets(subs, c, topic) <==>
      (c == subs[0].ch && MatchTopic(topic, subs[0].prefix)) || Gets(subs[1..], c, topic)
  {
    if Gets(subs, c, topic) {
      var i :| 0 <= i < |subs| && subs[i].ch == c && MatchTopic(topic, subs[i].prefix);
      if i > 0 { assert subs[1..][i - 1] == subs[i]; }
    }
    if Gets(subs[1..], c, topic) {
      var i :| 0 <= i < |subs[1..]| && subs[1..][i].ch == c && MatchTopic(topic, subs[1..][i].prefix);
      assert subs[i + 1] == subs[1..][i];
    }
  }

  lemma PubKeeps(w: TopicWorld, topic: string, m: Msg, now: int, evict: string)
    requires Inv(w) && Enabled(w, PubMsg(topic, m, now, evict))
    ensures Inv(Step(w, PubMsg(topic, m, now, evict)))
  {
    var t := w.t;
    if Pub(t, topic, m, now, evict).1.Ok? {
      var msg := Published(m, topic, now);
      assert msg == Msg(m.id, topic, m.from, m.body, if m.at != 0 then m.at else now);
      var w' := Step(w, PubMsg(topic, m, now, evict));
      OfferAllEach(t.(last := Cached(t.last, topic, msg, evict)), t.subs, topic, msg);
      PubCache(t, w.latest, topic, msg, evict);
      hide OfferAll, Cached, Gets, SubsOk, CacheOk, FeedsOk;
      PubSubs(t, w'.t);
      PubFeeds(w, w', topic, msg);
      SameCache(t.(last := Cached(t.last, topic, msg, evict)), w'.t, w'.latest);
    }
  }

  lemma PubCache(t: Topics, latest: map<string, Msg>, topic: string, msg: Msg, evict: string)
    requires CacheOk(t, latest) && (t.last != map[] ==> evict in t.last)
    ensures CacheOk(t.(last := Cached(t.last, topic, msg, evict)), latest[topic := msg])
  {
    CachedKeeps(t.last, topic, msg, evict);
  }

  lemma SameCache(t: Topics, t': Topics, latest: map<string, Msg>)
    requires CacheOk(t, latest) && t'.last == t.last
    ensures CacheOk(t', latest)
  {
  }

  /** Offers leave channels open. */
  lemma PubSubs(t: Topics, t': Topics)
    requires SubsOk(t) && t'.subs == t.subs && t'.next == t.next && t'.feeds.Keys == t.feeds.Keys
    requires forall c | c in t.feeds :: t'.feeds[c].open == t.feeds[c].open
    ensures SubsOk(t')
  {
  }

  lemma PubFeeds(w: TopicWorld, w': TopicWorld, topic: string, msg: Msg)
    requires FeedsOk(w.t.feeds, w.logs)
    requires w'.t.feeds == map c | c in w.t.feeds :: if Gets(w.t.subs, c, topic) then Offered(w.t.feeds[c], msg) else w.t.feeds[c]
    requires w'.logs == map c | c in w.logs :: if Gets(w.t.subs, c, topic) then LogOffer(w.logs[c], msg, Full(w.t, c)) else w.logs[c]
    ensures FeedsOk(w'.t.feeds, w'.logs)
  {
    hide Gets;
    forall c | c in w'.t.feeds
      ensures c in w'.logs && FeedOk(w'.t.feeds[c], w'.logs[c])
    {
      OfferKeeps(w.t.feeds[c], w.logs[c], msg);
    }
  }

  lemma CachedKeeps(last: map<string, Msg>, topic: string, m: Msg, evict: string)
    requires |last| <= MAX_CACHED_TOPICS && (last != map[] ==> evict in last)
    ensures |Cached(last, topic, m, evict)| <= MAX_CACHED_TOPICS
  {
    if topic in last {
      assert last[topic := m].Keys == last.Keys;
      assert |last[topic := m]| == |last[topic := m].Keys| == |last.Keys|;
    } else if |last| >= MAX_CACHED_TOPICS {
      assert (last - {evict}).Keys == last.Keys - {evict};
      assert |(last - {evict}).Keys| == |last| - 1;
    }
  }

  lemma SubscribedOk(t: Topics, t': Topics, prefix: string)
    requires SubsOk(t) && t'.subs == t.subs + [Subscription(prefix, t.next)] && t'.next == t.next + 1
    requires t.next in t'.feeds && t'.feeds == t.feeds[t.next := t'.feeds[t.next]] && t'.feeds[t.next].open
    ensures SubsOk(t')
  {
    forall i | 0 <= i < |t.subs|
      ensures t.subs[i].ch < t.next && t'.subs[i] == t.subs[i]
    {
    }
  }

  lemma SubKeeps(w: TopicWorld, prefix: string, order: seq<string>)
    requires Inv(w) && Enabled(w, Subscribe(prefix, order))
    ensures Inv(Step(w, Subscribe(prefix, order)))
  {
    if !w.t.closed {
      var replay := Replay(w.t.last, order, prefix);
      var w' := Step(w, Subscribe(prefix, order));
      FillKeeps(Feed([], true), replay, Log([], [], 0));
      assert [] + replay == replay;
      SubscribedOk(w.t, w'.t, prefix);
      FeedAdded(w.t.feeds, w.logs, w.t.next, w'.t.feeds[w.t.next], w'.logs[w.t.next]);
    }
  }

  lemma FeedAdded(feeds: map<nat, Feed>, logs: map<nat, Log>, c: nat, f: Feed, l: Log)
    requires FeedsOk(feeds, logs) && FeedOk(f, l)
    ensures FeedsOk(feeds[c := f], logs[c := l])
  {
  }

  ghost predicate Distinct(subs: seq<Subscription>) {
    forall i, j :: 0 <= i < j < |subs| ==> subs[i].ch != subs[j].ch
  }

  lemma {:induction false} SubsWithoutDistinct(subs: seq<Subscription>, ch: nat)
    requires Distinct(subs)
    ensures Distinct(SubsWithout(subs, ch))
    decreases |subs|
  {
    if subs != [] {
      var r1 := SubsWithout(subs[1..], ch);
      SubsWithoutDistinct(subs[1..], ch);
      forall j | 0 <= j < |r1|
        ensures r1[j].ch != subs[0].ch
      {
        var s := r1[j];
        assert s in r1 && s in subs[1..];
        var i :| 0 <= i < |subs[1..]| && subs[1..][i] == s;
        assert subs[i + 1] == s;
      }
      assert SubsWithout(subs, ch) == if subs[0].ch != ch then [subs[0]] + r1 else r1;
    }
  }

  /** Closing channels does not change what they carry. */
  lemma FeedsSame(feeds: map<nat, Feed>, feeds': map<nat, Feed>, logs: map<nat, Log>)
    requires FeedsOk(feeds, logs)
    requires forall c :: (c in feeds' <==> c in feeds) && (c in feeds ==> feeds'[c].buf == feeds[c].buf)
    ensures FeedsOk(feeds', logs)
  {
    forall c | c in feeds'
      ensures FeedOk(feeds'[c], logs[c])
    {
      assert FeedOk(feeds[c], logs[c]);
    }
  }

  lemma UnsubOk(t: Topics, ch: nat)
    requires SubsOk(t) && Distinct(SubsWithout(t.subs, ch))
    ensures var t' := Unsub(t, ch); SubsOk(t') && t'.fault == t.fault
  {
    var t' := Unsub(t, ch);
    forall i | 0 <= i < |t'.subs|
      ensures t'.subs[i].ch in t'.feeds && t'.feeds[t'.subs[i].ch].open
    {
      var s := t'.subs[i];
      assert s in t'.subs && s in t.subs && s.ch != ch;
    }
  }

  lemma UnsubKeeps(w: TopicWorld, ch: nat)
    requires Inv(w)
    ensures Inv(Step(w, Unsubscribe(ch)))
  {
    SubsWithoutDistinct(w.t.subs, ch);
    UnsubOk(w.t, ch);
    FeedsSame(w.t.feeds, Unsub(w.t, ch).feeds, w.logs);
  }

  /** Closing the subscribers one after the other never closes a channel twice. */
  lemma {:induction false} CloseFeedsEach(t: Topics, subs: seq<Subscription>)
    requires forall i :: 0 <= i < |subs| ==> subs[i].ch in t.feeds && t.feeds[subs[i].ch].open
    requires forall i, j :: 0 <= i < j < |subs| ==> subs[i].ch != subs[j].ch
    ensures var r := CloseFeeds(t, subs);
      && r == t.(feeds := r.feeds)
      && forall c :: (c in r.feeds <==> c in t.feeds) && (c in t.feeds ==> r.feeds[c].buf == t.feeds[c].buf)
    decreases |subs|
  {
    if subs != [] {
      assert forall i :: 0 <= i < |subs[1..]| ==> subs[1..][i] == subs[i + 1];
      CloseFeedsEach(CloseFeed(t, subs[0].ch), subs[1..]);
    }
  }

  lemma RecvKeeps(w: TopicWorld, ch: nat)
    requires Inv(w) && Enabled(w, RecvFrom(ch))
    ensures Inv(Step(w, RecvFrom(ch)))
  {
    var f, l := w.t.feeds[ch], w.logs[ch];
    assert FeedOk(f, l);
    assert (l.got + [f.buf[0]]) + f.buf[1..] == l.got + f.buf;
    var w' := Step(w, RecvFrom(ch));
    FeedAdded(w.t.feeds, w.logs, ch, w'.t.feeds[ch], w'.logs[ch]);
  }

  lemma StepKeeps(w: TopicWorld, e: TopicEvent)
    requires Inv(w) && Enabled(w, e)
    ensures Inv(Step(w, e))
  {
    match e
    case PubMsg(topic, m, now, evict) => PubKeeps(w, topic, m, now, evict);
    case Subscribe(prefix, order) => SubKeeps(w, prefix, order);
    case Unsubscribe(ch) => UnsubKeeps(w, ch);
    case RecvFrom(ch) => RecvKeeps(w, ch);
    case CloseAll =>
      if !w.t.closed {
        CloseFeedsEach(w.t.(closed := true), w.t.subs);
        FeedsSame(w.t.feeds, CloseTopics(w.t).feeds, w.logs);
      }
  }

  lemma {:induction false} RunKeeps(w: TopicWorld, es: seq<TopicEvent>)
    requires Inv(w) && Valid(w, es)
    ensures Inv(Run(w, es))
    decreases |es|
  {
    hide Inv, Step, Enabled;
    if es != [] {
      StepKeeps(w, es[0]);
      RunKeeps(Step(w, es[0]), es[1..]);
    }
  }

  // ---------------------------------------------------------------------------
  // The theorems
  // ---------------------------------------------------------------------------

  /** In every reachable state: what a subscriber received, followed by what is buffered for
      it, is a subsequence of what it was offered (the replayed cache, then the later
      matching publications, in order), short of exactly its drops; so without a drop it is
      all of it. No send reached a closed channel and none was closed twice. */
  lemma SubscriberSees(maxBody: nat, es: seq<TopicEvent>, ch: nat)
    requires Valid(Start(maxBody), es)
    ensures var w := Run(Start(maxBody), es);
      && !w.t.fault
      && (ch in w.t.feeds ==>
            && ch in w.logs
            && var (buf, l) := (w.t.feeds[ch].buf, w.logs[ch]);
            && |buf| <= FEED_SLOTS
            && Subsequence(l.got + buf, l.offered)
            && |l.got + buf| + l.dropped == |l.offered|
            && (l.dropped == 0 ==> l.got + buf == l.offered))
  {
    RunKeeps(Start(maxBody), es);
    var w := Run(Start(maxBody), es);
    hide Run, Valid, SubsOk, CacheOk;
    if ch in w.t.feeds {
      var l := w.logs[ch];
      assert FeedOk(w.t.feeds[ch], l);
      if l.dropped == 0 { SubsequenceWhole(l.got + w.t.feeds[ch].buf, l.offered); }
    }
  }

  /** In every reachable state the cache is bounded, and whatever was evicted, each entry is
      the latest publication on its topic. */
  lemma CacheIsLatest(maxBody: nat, es: seq<TopicEvent>)
    requires Valid(Start(maxBody), es)
    ensures var w := Run(Start(maxBody), es);
      && |w.t.last| <= MAX_CACHED_TOPICS
      && forall k | k in w.t.last :: k in w.latest && w.t.last[k] == w.latest[k]
  {
    RunKeeps(Start(maxBody), es);
  }
}
