/** Several lives of one state file: a durable bus that crashes and is reopened again and again
    loses only what was in transit at each crash, and brings back nothing that was acknowledged. */
module MailboxCrashes {
  import opened Bags
  import opened MailboxSpec
  import opened MailboxInvariant
  import opened MailboxRuns
  import opened MailboxRecovery

  /** The limits the bus was opened with, and its run up to the crash. */
  datatype Life = Life(maxQueue: int, maxBody: int, es: seq<Event>)

  /** OpenPersistent: a missing file opens an empty durable bus. */
  ghost function Reborn(f: Option<Snapshot>, l: Life): Bus {
    if f.Some? then Reopen(l.maxQueue, l.maxBody, f.value) else Open(l.maxQueue, l.maxBody, true)
  }

  ghost function End(f: Option<Snapshot>, l: Life): World
    requires Valid(Start(Reborn(f, l)), l.es)
  {
    Run(Start(Reborn(f, l)), l.es)
  }

  /** Each life is a run on what the one before it left in the file, and ends in a crash while
      the bus is open. */
  ghost predicate Lives(f: Option<Snapshot>, lives: seq<Life>)
    decreases |lives|
  {
    lives != [] ==>
      && Valid(Start(Reborn(f, lives[0])), lives[0].es) && !End(f, lives[0]).bus.closed
      && Lives(End(f, lives[0]).bus.file, lives[1..])
  }

  ghost predicate AllReturnsWritten(f: Option<Snapshot>, lives: seq<Life>)
    requires Lives(f, lives)
    decreases |lives|
  {
    lives != [] ==>
      && ReturnsWritten(Start(Reborn(f, lives[0])), lives[0].es)
      && AllReturnsWritten(End(f, lives[0]).bus.file, lives[1..])
  }

  ghost predicate AllAcksWritten(f: Option<Snapshot>, lives: seq<Life>)
    requires Lives(f, lives)
    decreases |lives|
  {
    lives != [] ==>
      && AcksWritten(Start(Reborn(f, lives[0])), lives[0].es)
      && AllAcksWritten(End(f, lives[0]).bus.file, lives[1..])
  }

  /** The file after the last crash; and over all lives, what Put accepted, what was
      acknowledged, and what was in transit, in a channel or a taker's hand, at a crash. */
  datatype Ledger = Ledger(file: Option<Snapshot>, put: multiset<Msg>, acked: multiset<Msg>, transit: multiset<Msg>)

  ghost function Totals(f: Option<Snapshot>, lives: seq<Life>): Ledger
    requires Lives(f, lives)
    decreases |lives|
  {
    if lives == [] then Ledger(f, multiset{}, multiset{}, multiset{})
    else
      var w, rest := End(f, lives[0]), Totals(End(f, lives[0]).bus.file, lives[1..]);
      Ledger(rest.file, (w.accepted - Recoverable(f)) + rest.put, w.acked + rest.acked,
             (InChans(w.bus) + w.hand) + rest.transit)
  }

  ghost predicate FileOk(f: Option<Snapshot>) {
    f.Some? ==> SnapOk(f.value)
  }

  lemma RebornIsFresh(f: Option<Snapshot>, l: Life)
    requires FileOk(f)
    ensures var b := Reborn(f, l); Fresh(b) && b.durable && Held(b) == Recoverable(f)
  {
    if f.Some? { ReopenRestores(l.maxQueue, l.maxBody, f.value); } else { OpenIsFresh(l.maxQueue, l.maxBody, true); }
  }

  /** What one life keeps: its file is well-formed, what it recovered counts as accepted, and
      every accepted message is somewhere. */
  lemma OneLife(f: Option<Snapshot>, l: Life)
    requires FileOk(f) && Valid(Start(Reborn(f, l)), l.es) && !End(f, l).bus.closed
    ensures var w := End(f, l);
      FileOk(w.bus.file) && Recoverable(f) <= w.accepted && w.acked + (InChans(w.bus) + w.hand) <= w.accepted
  {
    var b := Reborn(f, l);
    RebornIsFresh(f, l);
    hide Run, Valid, Fresh, Recoverable, Reborn, Held, InChans;
    StartKeeps(b);
    RunKeeps(Start(b), l.es);
    AcceptedGrows(Start(b), l.es);
  }

  lemma {:induction false} AcceptedGrows(w: World, es: seq<Event>)
    requires Valid(w, es)
    ensures w.accepted <= Run(w, es).accepted
    decreases |es|
  {
    hide Enabled, Step;
    if es != [] {
      StepHistory(w, es[0]);
      AcceptedGrows(Step(w, es[0]), es[1..]);
    }
  }

  /** Over any number of crashes and reopenings in which each message brought back to the queue by a
      requeue or a cancellation was written: what the first file held and all that Put accepted
      since is in the last file, or was acknowledged, or was in transit at a crash. */
  lemma {:induction false} CrashesLoseNothing(f: Option<Snapshot>, lives: seq<Life>)
    requires FileOk(f) && Lives(f, lives) && AllReturnsWritten(f, lives)
    ensures var t := Totals(f, lives);
      Recoverable(f) + t.put <= Recoverable(t.file) + t.acked + t.transit
    decreases |lives|
  {
    hide SnapOk, Recoverable, ReturnsWritten, End, Held, InChans;
    if lives != [] {
      var l := lives[0];
      OneLife(f, l);
      LifeLosesNothing(f, l);
      var w, rest := End(f, l), Totals(End(f, l).bus.file, lives[1..]);
      CrashesLoseNothing(w.bus.file, lives[1..]);
      LossAdds(Recoverable(f), w.accepted, w.acked, InChans(w.bus) + w.hand, Recoverable(w.bus.file),
               rest.put, rest.acked, rest.transit, Recoverable(rest.file));
    }
  }

  lemma LifeLosesNothing(f: Option<Snapshot>, l: Life)
    requires FileOk(f) && Valid(Start(Reborn(f, l)), l.es) && !End(f, l).bus.closed
    requires ReturnsWritten(Start(Reborn(f, l)), l.es)
    ensures var w := End(f, l); w.accepted <= Recoverable(w.bus.file) + w.acked + (InChans(w.bus) + w.hand)
  {
    RebornIsFresh(f, l);
    hide Run, Valid, Fresh, Recoverable, Reborn, Held, InChans, ReturnsWritten;
    CrashLosesNothing(Reborn(f, l), l.es);
    var w := End(f, l);
    Apart(w.accepted, w.acked, InChans(w.bus), w.hand, Recoverable(w.bus.file));
  }

  lemma Apart<T>(a: multiset<T>, b: multiset<T>, c: multiset<T>, d: multiset<T>, r: multiset<T>)
    requires a - b - c - d <= r
    ensures a <= r + b + (c + d)
  {
    forall x: T
      ensures a[x] <= (r + b + (c + d))[x]
    {
      assert (a - b - c - d)[x] <= r[x];
    }
  }

  lemma LossAdds<T>(first: multiset<T>, accepted: multiset<T>, acked: multiset<T>, transit: multiset<T>, file: multiset<T>,
                    put: multiset<T>, acked': multiset<T>, transit': multiset<T>, last: multiset<T>)
    requires first <= accepted && accepted <= file + acked + transit && file + put <= last + acked' + transit'
    ensures first + ((accepted - first) + put) <= last + (acked + acked') + (transit + transit')
  {
    forall x: T
      ensures (first + ((accepted - first) + put))[x] <= (last + (acked + acked') + (transit + transit'))[x]
    {
      assert first[x] <= accepted[x] && accepted[x] <= (file + acked + transit)[x];
      assert (file + put)[x] <= (last + acked' + transit')[x];
    }
  }

  /** Over any number of crashes and reopenings in which each acknowledgement that ended a lease was written:
      the last file and all that was acknowledged are no more than what the first file held and
      all that Put accepted since; so nothing acknowledged ever comes back. */
  lemma {:induction false} CrashesInventNothing(f: Option<Snapshot>, lives: seq<Life>)
    requires FileOk(f) && Lives(f, lives) && AllAcksWritten(f, lives)
    ensures var t := Totals(f, lives);
      Recoverable(t.file) + t.acked <= Recoverable(f) + t.put
    decreases |lives|
  {
    hide SnapOk, Recoverable, AcksWritten, End, Held, InChans;
    if lives != [] {
      var l := lives[0];
      OneLife(f, l);
      LifeInventsNothing(f, l);
      var w, rest := End(f, l), Totals(End(f, l).bus.file, lives[1..]);
      CrashesInventNothing(w.bus.file, lives[1..]);
      GainAdds(Recoverable(f), w.accepted, w.acked, Recoverable(w.bus.file), rest.put, rest.acked, Recoverable(rest.file));
    }
  }

  lemma LifeInventsNothing(f: Option<Snapshot>, l: Life)
    requires FileOk(f) && Valid(Start(Reborn(f, l)), l.es) && !End(f, l).bus.closed
    requires AcksWritten(Start(Reborn(f, l)), l.es)
    ensures var w := End(f, l); Recoverable(w.bus.file) <= w.accepted - w.acked
  {
    RebornIsFresh(f, l);
    hide Run, Valid, Fresh, Recoverable, Reborn, Held, InChans, AcksWritten;
    CrashInventsNothing(Reborn(f, l), l.es);
  }

  lemma GainAdds<T>(first: multiset<T>, accepted: multiset<T>, acked: multiset<T>, file: multiset<T>,
                    put: multiset<T>, acked': multiset<T>, last: multiset<T>)
    requires first <= accepted && acked <= accepted && file <= accepted - acked && last + acked' <= file + put
    ensures last + (acked + acked') <= first + ((accepted - first) + put)
  {
    forall x: T
      ensures (last + (acked + acked'))[x] <= (first + ((accepted - first) + put))[x]
    {
      assert first[x] <= accepted[x] && acked[x] <= accepted[x] && file[x] <= (accepted - acked)[x];
      assert (last + acked')[x] <= (file + put)[x];
    }
  }
}
