/** The deduplication index counts copies, and what that makes of a retried Put. */
module MailboxIndex {
  import opened Bags
  import opened MailboxSpec
  import opened MailboxInvariant
  import opened MailboxSteps
  import opened MailboxRuns

  ghost predicate NulFree(s: string) { forall i :: 0 <= i < |s| ==> s[i] != '\0' }

  ghost function PairOf(m: Msg): multiset<(string, string)> { multiset{(m.name, m.id)} }

  /** How many of the messages go by this mailbox and id. */
  ghost function Copies(ms: multiset<Msg>, name: string, id: string): nat {
    Image(PairOf, ms)[(name, id)]
  }

  lemma DedupKeyInjective(n: string, i: string, n': string, i': string)
    requires NulFree(n) && NulFree(n') && DedupKey(n, i) == DedupKey(n', i')
    ensures n == n' && i == i'
  {
    var k := DedupKey(n, i);
    assert k[|n|] == '\0' && k[|n'|] == '\0';
    assert |n'| <= |n| && |n| <= |n'|;
    assert n == k[..|n|] && n' == k[..|n'|];
    assert i == k[|n| + 1..] && i' == k[|n'| + 1..];
  }

  /** A message of another mailbox or id with the same key. */
  predicate Collides(m: Msg, name: string, id: string) {
    Indexable(m) && DedupKey(m.name, m.id) == DedupKey(name, id) && (m.name != name || m.id != id)
  }

  lemma NulFreeNeverCollides(m: Msg, name: string, id: string)
    requires NulFree(m.name) && NulFree(name)
    ensures !Collides(m, name, id)
  {
    if Indexable(m) && DedupKey(m.name, m.id) == DedupKey(name, id) { DedupKeyInjective(m.name, m.id, name, id); }
  }

  /** The keys counted are at least the copies counted, and as many if and only if no message
      collides. */
  lemma {:induction false} KeysCoverCopies(ms: multiset<Msg>, name: string, id: string)
    requires name != "" && id != ""
    ensures Copies(ms, name, id) <= Image(KeyOf, ms)[DedupKey(name, id)]
    ensures Copies(ms, name, id) == Image(KeyOf, ms)[DedupKey(name, id)] <==> forall m | m in ms :: !Collides(m, name, id)
    decreases |ms|
  {
    if ms == multiset{} {
      ImageEmpty(KeyOf, ms);
      ImageEmpty(PairOf, ms);
    } else {
      var m :| m in ms;
      var rest := ms - multiset{m};
      ImageRemove(KeyOf, ms, m);
      ImageRemove(PairOf, ms, m);
      KeysCoverCopies(rest, name, id);
      assert forall x :: x in ms <==> x == m || x in rest;
      OneKey(m, name, id);
      hide Collides, KeyOf, PairOf;
    }
  }

  lemma OneKey(m: Msg, name: string, id: string)
    requires name != "" && id != ""
    ensures KeyOf(m)[DedupKey(name, id)] == PairOf(m)[(name, id)] + if Collides(m, name, id) then 1 else 0
  {
  }

  /** What the index says about a key. */
  function Count(b: Bus, name: string, id: string): nat {
    if DedupKey(name, id) in b.dedup then b.dedup[DedupKey(name, id)] else 0
  }

  /** In every reachable state of an open bus the index holds the number of queued and leased
      copies of (name, id), and no entry for none, if and only if no queued or leased message
      has the same key under another mailbox or id; with NUL-free names none ever does. */
  lemma IndexCountsCopies(b: Bus, es: seq<Event>, name: string, id: string)
    requires Fresh(b) && Valid(Start(b), es) && !Run(Start(b), es).bus.closed
    requires name != "" && id != ""
    ensures var r := Run(Start(b), es).bus;
      && (DedupKey(name, id) in r.dedup <==> Count(r, name, id) > 0)
      && (Count(r, name, id) == Copies(Held(r), name, id) <==> forall m | m in Held(r) :: !Collides(m, name, id))
      && (NulFree(name) && (forall m | m in Held(r) :: NulFree(m.name)) ==> Count(r, name, id) == Copies(Held(r), name, id))
  {
    hide Run, Valid, Held;
    StartKeeps(b);
    RunKeeps(Start(b), es);
    var r := Run(Start(b), es).bus;
    KeysCoverCopies(Held(r), name, id);
    hide Collides;
    if NulFree(name) && (forall m | m in Held(r) :: NulFree(m.name)) {
      forall m | m in Held(r)
        ensures !Collides(m, name, id)
      {
        NulFreeNeverCollides(m, name, id);
      }
    }
  }

  /** With a NUL in a name two different messages do collide, and the second is taken for a
      copy of the first. */
  lemma NulMakesKeysCollide(b: Bus, m: Msg, m': Msg, gen: string, now: int, disk: bool)
    requires Inv(b) && !b.closed && |m'.body| <= b.maxBody
    requires m in Held(b) && m.name == "a\0b" && m.id == "c" && m'.id == "b\0c"
    ensures var o := Put(b, "a", m', gen, now, disk);
      Collides(m, "a", "b\0c") && o.result == Ok(()) && Held(o.bus) == Held(b) && !Accepts(b, "a", m', gen, now, disk)
  {
    assert DedupKey("a", "b\0c") == DedupKey("a\0b", "c");
    ImageRemove(KeyOf, Held(b), m);
    EnsureBoxKeeps(b, "a");
  }

  // ---------------------------------------------------------------------------
  // Retries
  // ---------------------------------------------------------------------------

  /** A retry while a copy is queued or leased succeeds and changes nothing (but for an empty
      box, after a reopen that found only leases). */
  lemma RetryIsNoOp(b: Bus, name: string, m: Msg, gen: string, now: int, disk: bool)
    requires Inv(b) && !b.closed && name != "" && m.id != "" && |m.body| <= b.maxBody
    requires Copies(Held(b), name, m.id) > 0
    ensures Put(b, name, m, gen, now, disk) == Outcome(EnsureBox(b, name), Ok(()))
    ensures !Accepts(b, name, m, gen, now, disk)
  {
    hide Held;
    KeysCoverCopies(Held(b), name, m.id);
  }

  /** Copies of a message anywhere between Put and acknowledgement. */
  ghost function LiveCopies(w: World, name: string, id: string): nat {
    Copies(Live(w.bus) + w.hand, name, id)
  }

  /** Copies that have left the queue and are not leased: in a channel or in a hand. */
  ghost function TransitCopies(w: World, name: string, id: string): nat {
    Copies(InChans(w.bus) + w.hand, name, id)
  }

  /** Every Put of this message finds no copy of it between a take and its Hold. */
  ghost predicate PutsSettled(w: World, es: seq<Event>, name: string, id: string)
    requires Valid(w, es)
    decreases |es|
  {
    es != [] ==>
      && (es[0].PutMsg? && es[0].name == name && Stamped(es[0].msg, name, es[0].gen, es[0].now).id == id ==>
            TransitCopies(w, name, id) == 0)
      && PutsSettled(Step(w, es[0]), es[1..], name, id)
  }

  lemma {:induction false} CopiesAdd(a: multiset<Msg>, b: multiset<Msg>, name: string, id: string)
    ensures Copies(a + b, name, id) == Copies(a, name, id) + Copies(b, name, id)
    decreases |b|
  {
    if b == multiset{} {
      ImageEmpty(PairOf, b);
      assert a + b == a;
    } else {
      var m :| m in b;
      var b1 := b - multiset{m};
      CopiesAdd(a, b1, name, id);
      ImageRemove(PairOf, b, m);
      ImageAdd(PairOf, a + b1, m);
      assert a + b == (a + b1) + multiset{m};
    }
  }

  ghost function Accepted(w: World, e: Event): multiset<Msg> {
    if e.PutMsg? then One(Accepts(w.bus, e.name, e.msg, e.gen, e.now, e.disk), Stamped(e.msg, e.name, e.gen, e.now))
    else multiset{}
  }

  /** A step changes the number of live copies only by accepting or acknowledging one. */
  lemma StepCopies(w: World, e: Event, name: string, id: string)
    requires WorldInv(w) && Enabled(w, e) && !Step(w, e).bus.closed
    ensures LiveCopies(Step(w, e), name, id) <= LiveCopies(w, name, id) + Copies(Accepted(w, e), name, id)
    ensures e.PutMsg? ==> LiveCopies(Step(w, e), name, id) == LiveCopies(w, name, id) + Copies(Accepted(w, e), name, id)
  {
    hide Inv, Live, Copies, Accepted, Step;
    StepBus(w, e);
    StepKeeps(w, e);
    StepPast(w, e);
    var w' := Step(w, e);
    var a := w'.acked - w.acked;
    assert w'.acked == w.acked + a;
    SameTotal(Live(w.bus) + w.hand, Live(w'.bus) + w'.hand, w.acked, a, w.accepted, Accepted(w, e));
    CopiesAdd(Live(w'.bus) + w'.hand, a, name, id);
    CopiesAdd(Live(w.bus) + w.hand, Accepted(w, e), name, id);
    if e.PutMsg? { CopiesNone(a, name, id); }
  }

  lemma SameTotal<T>(a: multiset<T>, a': multiset<T>, old_: multiset<T>, acks: multiset<T>, total: multiset<T>, puts: multiset<T>)
    requires total == a + old_ && total + puts == a' + (old_ + acks)
    ensures a' + acks == a + puts
  {
    forall x: T
      ensures (a' + acks)[x] == (a + puts)[x]
    {
      assert (total + puts)[x] == a'[x] + (old_ + acks)[x];
    }
  }

  lemma CopiesNone(a: multiset<Msg>, name: string, id: string)
    requires a == multiset{}
    ensures Copies(a, name, id) == 0
  {
    ImageEmpty(PairOf, a);
  }

  lemma StepPast(w: World, e: Event)
    requires Enabled(w, e)
    ensures var w' := Step(w, e);
      && w'.accepted == w.accepted + Accepted(w, e) && w.acked <= w'.acked
      && (e.PutMsg? ==> w'.acked == w.acked && w'.hand == w.hand)
  {
    hide Put, Accepts, TakeChan, CancelWaiter, TryTake, Hold, Requeue, Ack, Nack, ExpireLeases, Close;
  }

  /** An accepted Put makes one more copy than were in transit: it was not queued or leased. */
  lemma PutCopies(w: World, e: Event, name: string, id: string)
    requires WorldInv(w) && Enabled(w, e) && !w.bus.closed && name != "" && id != ""
    requires e.PutMsg? && e.name == name && Stamped(e.msg, name, e.gen, e.now).id == id
    requires Accepts(w.bus, name, e.msg, e.gen, e.now, e.disk)
    ensures LiveCopies(Step(w, e), name, id) == 1 + TransitCopies(w, name, id)
  {
    var m := Stamped(e.msg, name, e.gen, e.now);
    assert !Step(w, e).bus.closed by { PutKeeps(w.bus, name, e.msg, e.gen, e.now, e.disk); }
    KeysCoverCopies(Held(w.bus), name, id);
    assert Copies(Held(w.bus), name, id) == 0;
    hide Inv, Copies, Held, InChans, Step, Accepts, Put;
    StepCopies(w, e, name, id);
    assert Live(w.bus) + w.hand == Held(w.bus) + (InChans(w.bus) + w.hand);
    CopiesAdd(Held(w.bus), InChans(w.bus) + w.hand, name, id);
    assert Accepted(w, e) == multiset{m};
    CopiesOfOne(m, name, id);
  }

  lemma CopiesOfOne(m: Msg, name: string, id: string)
    ensures Copies(multiset{m}, name, id) == if m.name == name && m.id == id then 1 else 0
  {
    ImageEmpty(PairOf, multiset{});
    assert multiset{} + multiset{m} == multiset{m};
    ImageAdd(PairOf, multiset{}, m);
  }

  /** Where every take-and-hold finishes before the next Put under that id, at most one copy
      exists at any time: retries, nacks, expiries and requeues never double a job. */
  lemma {:induction false} AtMostOneCopy(w: World, es: seq<Event>, name: string, id: string)
    requires WorldInv(w) && Valid(w, es) && !Run(w, es).bus.closed
    requires name != "" && id != "" && LiveCopies(w, name, id) <= 1 && PutsSettled(w, es, name, id)
    ensures LiveCopies(Run(w, es), name, id) <= 1 && Copies(Held(Run(w, es).bus), name, id) <= 1
    decreases |es|
  {
    hide Inv, Enabled, Step, LiveCopies, TransitCopies, Conserved;
    if es != [] {
      var e := es[0];
      StepKeeps(w, e);
      StaysClosed(Step(w, e), es[1..]);
      StepBus(w, e);
      StepCopies(w, e, name, id);
      if Copies(Accepted(w, e), name, id) > 0 {
        AcceptedIs(w, e, name, id);
        PutCopies(w, e, name, id);
      }
      AtMostOneCopy(Step(w, e), es[1..], name, id);
    } else {
      HeldIsLive(w, name, id);
    }
  }

  lemma HeldIsLive(w: World, name: string, id: string)
    ensures Copies(Held(w.bus), name, id) <= LiveCopies(w, name, id)
  {
    hide Held, InChans;
    assert Live(w.bus) + w.hand == Held(w.bus) + (InChans(w.bus) + w.hand);
    CopiesAdd(Held(w.bus), InChans(w.bus) + w.hand, name, id);
  }

  lemma AcceptedIs(w: World, e: Event, name: string, id: string)
    requires Copies(Accepted(w, e), name, id) > 0
    ensures e.PutMsg? && e.name == name && Stamped(e.msg, name, e.gen, e.now).id == id
    ensures Accepts(w.bus, e.name, e.msg, e.gen, e.now, e.disk)
  {
    hide Accepts, Copies;
    if Accepted(w, e) == multiset{} {
      CopiesNone(Accepted(w, e), name, id);
    } else {
      CopiesOfOne(Stamped(e.msg, e.name, e.gen, e.now), name, id);
    }
  }

  lemma {:induction false} StaysClosed(w: World, es: seq<Event>)
    requires WorldInv(w) && Valid(w, es)
    ensures w.bus.closed ==> Run(w, es).bus.closed
    decreases |es|
  {
    hide Inv, Enabled, Step, Conserved;
    if es != [] {
      StepBus(w, es[0]);
      StepKeeps(w, es[0]);
      StaysClosed(Step(w, es[0]), es[1..]);
    }
  }
}
