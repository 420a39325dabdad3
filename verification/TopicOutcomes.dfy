/** What each operation on topics answers and does, read off the cache, the subscribers and
    their channels alone. */
module TopicOutcomes {
  import opened Bags
  import opened MailboxSpec
  import opened TopicSpec
  import opened TopicRuns

  /** `p` is what a publication of `m` on `topic` sends and caches. */
  predicate IsPub(p: Msg, topic: string, m: Msg, now: int) {
    && p.name == topic && p.id == m.id && p.from == m.from && p.body == m.body
    && p.at == (if m.at != 0 then m.at else now)
  }

  /** The new entry is there, and every other one is as before; at most `evict` is gone, and only
      for a new topic in a full cache. */
  predicate CacheChanges(last: map<string, Msg>, last': map<string, Msg>, topic: string, evict: string) {
    && topic in last'
    && (forall k | k in last' && k != topic :: k in last && last'[k] == last[k])
    && (forall k | k in last && k !in last' :: k == evict && topic !in last && |last| >= 4096)
  }

  /** Each matching subscriber with room has `p` last in its channel; no other channel changed. */
  predicate SentTo(t: Topics, t': Topics, topic: string, p: Msg) {
    && t'.feeds.Keys == t.feeds.Keys
    && (forall c | c in t.feeds ::
          && t'.feeds[c].open == t.feeds[c].open
          && t'.feeds[c].buf == t.feeds[c].buf + if Gets(t.subs, c, topic) && |t.feeds[c].buf| < 64 then [p] else [])
  }

  predicate PubOutcome(t: Topics, topic: string, m: Msg, now: int, evict: string, t': Topics, a: Result<()>) {
    if topic == "" then a == Err(BadName) && t' == t
    else if |m.body| > t.maxBody then a == Err(TooLarge) && t' == t
    else if t.closed then a == Err(Closed) && t' == t
    else
      && a == Ok(()) && CacheChanges(t.last, t'.last, topic, evict) && IsPub(t'.last[topic], topic, m, now)
      && SentTo(t, t', topic, t'.last[topic]) && t'.subs == t.subs && !t'.closed && t'.fault == t.fault
  }

  lemma PubSays(t: Topics, topic: string, m: Msg, now: int, evict: string)
    requires SubsOk(t)
    ensures var (t', a) := Pub(t, topic, m, now, evict); PubOutcome(t, topic, m, now, evict, t', a)
  {
    if topic != "" && |m.body| <= t.maxBody && !t.closed {
      var msg := Published(m, topic, now);
      OfferAllEach(t.(last := Cached(t.last, topic, msg, evict)), t.subs, topic, msg);
      hide Gets;
    }
  }

  /** Whether a subscriber gets a publication depends on its prefix alone. */
  lemma GetsIff(subs: seq<Subscription>, c: nat, topic: string)
    ensures Gets(subs, c, topic) <==>
      exists i :: 0 <= i < |subs| && subs[i].ch == c && |subs[i].prefix| <= |topic| && topic[..|subs[i].prefix|] == subs[i].prefix
  {
  }

  /** The topics of `ks` are the cached ones that match, each once, in the order of the
      iteration. */
  ghost predicate Enumerates(ks: seq<string>, last: map<string, Msg>, order: seq<string>, prefix: string) {
    NoDup(ks) && Subsequence(ks, order) && forall k :: k in ks <==> k in last && prefix <= k
  }

  /** A replay offers every cached message on a matching topic, and nothing else, once. */
  lemma ReplaySays(last: map<string, Msg>, order: seq<string>, prefix: string) returns (ks: seq<string>)
    requires IsOrder(order, last)
    ensures Enumerates(ks, last, order, prefix)
    ensures ValuesAt(Replay(last, order, prefix), last, ks)
  {
    ks := ReplayKeys(last, order, prefix);
  }

  ghost predicate KeysOf(ks: seq<string>, last: map<string, Msg>, order: seq<string>, prefix: string) {
    && NoDup(ks) && Subsequence(ks, order) && (forall k :: k in ks <==> k in order && k in last && prefix <= k)
  }

  ghost predicate ValuesAt(ms: seq<Msg>, last: map<string, Msg>, ks: seq<string>) {
    |ms| == |ks| && forall i :: 0 <= i < |ks| ==> ks[i] in last && ms[i] == last[ks[i]]
  }

  lemma {:induction false} ReplayKeys(last: map<string, Msg>, order: seq<string>, prefix: string) returns (ks: seq<string>)
    requires NoDup(order)
    ensures KeysOf(ks, last, order, prefix) && ValuesAt(Replay(last, order, prefix), last, ks)
    decreases |order|
  {
    if order == [] {
      ks := [];
    } else {
      var k, rest := order[|order| - 1], order[..|order| - 1];
      var before := ReplayKeys(last, rest, prefix);
      assert order == rest + [k] && k !in rest;
      ReplayLast(last, rest, k, prefix);
      hide KeysOf, ValuesAt, Replay, NoDup;
      OneMoreKey(before, last, rest, prefix, k);
      MoreValues(Replay(last, rest, prefix), last, before, k);
      ks := before + if k in last && prefix <= k then [k] else [];
    }
  }

  lemma OneMoreKey(ks: seq<string>, last: map<string, Msg>, order: seq<string>, prefix: string, k: string)
    requires KeysOf(ks, last, order, prefix) && k !in order
    ensures KeysOf(ks + if k in last && prefix <= k then [k] else [], last, order + [k], prefix)
  {
    hide Subsequence;
    assert k !in ks;
    assert forall x :: x in order + [k] <==> x in order || x == k;
    if k in last && prefix <= k {
      SubsequenceTake(ks, order, k);
      NoDupSnoc(ks, k);
      assert forall x :: x in ks + [k] <==> x in ks || x == k;
      hide NoDup;
    } else {
      SubsequenceSkip(ks, order, k);
      assert ks + [] == ks;
      hide NoDup;
    }
  }

  lemma MoreValues(ms: seq<Msg>, last: map<string, Msg>, ks: seq<string>, k: string)
    requires ValuesAt(ms, last, ks)
    ensures ValuesAt(ms + [], last, ks + []) && (k in last ==> ValuesAt(ms + [last[k]], last, ks + [k]))
  {
  }

  lemma {:induction false} ReplayLast(last: map<string, Msg>, order: seq<string>, k: string, prefix: string)
    ensures Replay(last, order + [k], prefix)
         == Replay(last, order, prefix) + if k in last && prefix <= k then [last[k]] else []
    decreases |order|
  {
    if order == [] {
      assert [k][1..] == [];
    } else {
      assert (order + [k])[1..] == order[1..] + [k];
      ReplayLast(last, order[1..], k, prefix);
    }
  }

  /** Filling an empty channel keeps what fits. */
  lemma {:induction false} FilledSays(f: Feed, ms: seq<Msg>)
    requires |f.buf| <= 64
    ensures var room := 64 - |f.buf|; Filled(f, ms) == Feed(f.buf + ms[..if |ms| < room then |ms| else room], f.open)
    decreases |ms|
  {
    if ms == [] {
      assert f.buf + [] == f.buf;
    } else {
      FilledSays(Offered(f, ms[0]), ms[1..]);
      if |f.buf| < 64 {
        var k := if |ms| < 64 - |f.buf| then |ms| else 64 - |f.buf|;
        assert (f.buf + [ms[0]]) + ms[1..][..k - 1] == f.buf + ms[..k];
      }
    }
  }

  /** A new subscriber has its own channel, which holds the first 64 of the cached messages on
      matching topics, in the order of the iteration; nobody else is touched. */
  lemma SubSays(t: Topics, prefix: string, order: seq<string>) returns (ks: seq<string>)
    requires IsOrder(order, t.last)
    ensures Enumerates(ks, t.last, order, prefix)
    ensures var (t', a) := Sub(t, prefix, order);
      if t.closed then a == Err(Closed) && t' == t
      else
        && a == Ok(t.next) && t'.next == t.next + 1 && t'.subs == t.subs + [Subscription(prefix, t.next)] && t'.last == t.last
        && t.next in t'.feeds && t'.feeds == t.feeds[t.next := t'.feeds[t.next]] && t'.feeds[t.next].open
        && var buf := t'.feeds[t.next].buf;
        && |buf| == (if |ks| < 64 then |ks| else 64) && forall i :: 0 <= i < |buf| ==> ks[i] in t.last && buf[i] == t.last[ks[i]]
  {
    hide Replay, Filled, Enumerates, ValuesAt, IsOrder;
    ks := ReplaySays(t.last, order, prefix);
    var r := Replay(t.last, order, prefix);
    FilledSays(Feed([], true), r);
    FirstOf(r, t.last, ks, if |r| < 64 then |r| else 64);
  }

  lemma FirstOf(ms: seq<Msg>, last: map<string, Msg>, ks: seq<string>, n: nat)
    requires ValuesAt(ms, last, ks) && n <= |ms|
    ensures |ms| == |ks| && forall i :: 0 <= i < n ==> ks[i] in last && ([] + ms[..n])[i] == last[ks[i]]
  {
  }

  /** Its subscription and no other is gone, and its channel and no other is closed, with what it
      holds. */
  lemma UnsubSays(t: Topics, ch: nat)
    requires SubsOk(t)
    ensures var t' := Unsub(t, ch);
      && (forall s :: s in t'.subs <==> s in t.subs && s.ch != ch) && Distinct(t'.subs)
      && t'.feeds.Keys == t.feeds.Keys && t'.last == t.last && t'.fault == t.fault
      && (forall c | c in t.feeds ::
            t'.feeds[c] == if c == ch && Subscribed(t.subs, ch) then Feed(t.feeds[c].buf, false) else t.feeds[c])
  {
    SubsWithoutDistinct(t.subs, ch);
    UnsubOk(t, ch);
  }

  /** Closing ends every subscription and closes every subscribed channel once, with what it holds. */
  lemma CloseSays(t: Topics)
    requires SubsOk(t)
    ensures var t' := CloseTopics(t);
      && t'.closed && (t.closed ==> t' == t) && t'.fault == t.fault && t'.last == t.last
      && (!t.closed ==>
            && t'.subs == [] && t'.feeds.Keys == t.feeds.Keys
            && (forall c | c in t.feeds ::
                  t'.feeds[c] == if Subscribed(t.subs, c) then Feed(t.feeds[c].buf, false) else t.feeds[c]))
  {
    if !t.closed { CloseEach(t.(closed := true), t.subs); }
  }

  lemma {:induction false} CloseEach(t: Topics, subs: seq<Subscription>)
    requires forall i :: 0 <= i < |subs| ==> subs[i].ch in t.feeds && t.feeds[subs[i].ch].open
    requires Distinct(subs)
    ensures var r := CloseFeeds(t, subs);
      && r == t.(feeds := r.feeds) && r.feeds.Keys == t.feeds.Keys
      && forall c | c in t.feeds :: r.feeds[c] == if Subscribed(subs, c) then Feed(t.feeds[c].buf, false) else t.feeds[c]
    decreases |subs|
  {
    if subs != [] {
      assert forall i :: 0 <= i < |subs[1..]| ==> subs[1..][i] == subs[i + 1];
      CloseEach(CloseFeed(t, subs[0].ch), subs[1..]);
      forall c
        ensures Subscribed(subs, c) <==> c == subs[0].ch || Subscribed(subs[1..], c)
      {
        SubscribedSplit(subs, c);
      }
    }
  }

  lemma SubscribedSplit(subs: seq<Subscription>, c: nat)
    requires subs != []
    ensures Subscribed(subs, c) <==> c == subs[0].ch || Subscribed(subs[1..], c)
  {
    if Subscribed(subs, c) {
      var i :| 0 <= i < |subs| && subs[i].ch == c;
      if i > 0 { assert subs[1..][i - 1].ch == c; }
    }
    if Subscribed(subs[1..], c) {
      var i :| 0 <= i < |subs[1..]| && subs[1..][i].ch == c;
      assert subs[i + 1].ch == c;
    }
  }
}
