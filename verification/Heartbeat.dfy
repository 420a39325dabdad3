/** A session's heartbeat: when a silent session is closed, how often it is pinged first, and
    why a job's lease outlasts it. Times are nanoseconds; the ticker is ideal. */
module Heartbeat {
  import MailboxSpec

  const DEFAULT_HEARTBEAT: int := 5_000_000_000
  const DEFAULT_LIVENESS: int := 3

  function Beats(liveness: int): (n: int)
    ensures n >= 1
  {
    if liveness <= 0 then DEFAULT_LIVENESS else liveness
  }

  /** The lease of a job given to a taker or a ready worker: twice the time after which a silent session
      is closed, and no less than a minute. */
  function TakeLease(heartbeat: int, liveness: int): (d: int)
    ensures var iv, n := if heartbeat > 0 then heartbeat else 5_000_000_000, if liveness > 0 then liveness else 3;
      d >= 60_000_000_000 && d >= 2 * (n * iv) && (d == 60_000_000_000 || d == 2 * (n * iv))
  {
    var iv := if heartbeat <= 0 then DEFAULT_HEARTBEAT else heartbeat;
    var d := iv * Beats(liveness) * 2;
    if d < MailboxSpec.MINUTE then MailboxSpec.MINUTE else d
  }

  /** Tick `k` of a ticker that was started at `start`. */
  function Tick(start: int, iv: int, k: nat): int { start + k * iv }

  /** How long the session has been silent at a tick; `lastSeen` tells, for every time, when
      the latest frame before it arrived. */
  function Idle(start: int, iv: int, lastSeen: int -> int, k: nat): int {
    Tick(start, iv, k) - lastSeen(Tick(start, iv, k))
  }

  /** The pings sent at the ticks before `k`. */
  function PingTimes(start: int, iv: int, lastSeen: int -> int, k: nat): seq<int> {
    if k <= 1 then []
    else
      PingTimes(start, iv, lastSeen, k - 1)
      + if Idle(start, iv, lastSeen, k - 1) >= iv then [Tick(start, iv, k - 1)] else []
  }

  /** The last frame arrived at `t`. */
  ghost predicate SilentSince(lastSeen: int -> int, t: int) {
    && (forall u {:trigger lastSeen(u)} :: u >= t ==> lastSeen(u) == t)
    && (forall u {:trigger lastSeen(u)} :: u < t ==> lastSeen(u) <= u)
  }

  /** The heartbeat loop, when every ping is written: it closes the session at the first tick
      that finds it silent for `liveness` intervals, and pings at the earlier ticks that find
      it silent for one. */
  method Heartbeat(iv: int, liveness: int, start: int, lastSeen: int -> int, ghost t: int)
    returns (closed: nat, pings: seq<int>)
    requires iv > 0 && SilentSince(lastSeen, t)
    ensures closed >= 1 && Idle(start, iv, lastSeen, closed) >= iv * Beats(liveness)
    ensures forall j :: 1 <= j < closed ==> Idle(start, iv, lastSeen, j) < iv * Beats(liveness)
    ensures pings == PingTimes(start, iv, lastSeen, closed)
  {
    var death := iv * Beats(liveness);
    closed, pings := 1, [];
    while true
      invariant closed >= 1 && pings == PingTimes(start, iv, lastSeen, closed)
      invariant forall j :: 1 <= j < closed ==> Idle(start, iv, lastSeen, j) < death
      decreases t + death + iv - Tick(start, iv, closed)
    {
      var now := start + closed * iv;
      var idle := now - lastSeen(now);
      assert idle == Idle(start, iv, lastSeen, closed) && now == Tick(start, iv, closed);
      if idle >= death {
        return;
      }
      if idle >= iv {
        pings := pings + [now];
      }
      assert (closed + 1) * iv == closed * iv + iv;
      closed := closed + 1;
    }
  }

  /** `x` is tick `j`, which finds the session silent for an interval. */
  predicate SilentTick(start: int, iv: int, lastSeen: int -> int, j: nat, x: int) {
    x == start + j * iv && x - lastSeen(x) >= iv
  }

  ghost predicate SilentBefore(start: int, iv: int, lastSeen: int -> int, k: nat, x: int) {
    exists j: nat :: 1 <= j < k && SilentTick(start, iv, lastSeen, j, x)
  }

  /** The pings are sent at the ticks that find the session silent for an interval, all of them, in
      order. */
  lemma {:induction false} PingsAreTicks(start: int, iv: int, lastSeen: int -> int, k: nat)
    requires iv > 0
    ensures forall x :: x in PingTimes(start, iv, lastSeen, k) <==> SilentBefore(start, iv, lastSeen, k, x)
    ensures var p := PingTimes(start, iv, lastSeen, k); forall i :: 0 < i < |p| ==> p[i - 1] < p[i]
    decreases k
  {
    hide Tick, SilentTick, SilentBefore, PingTimes;
    if k > 1 {
      var before, at := PingTimes(start, iv, lastSeen, k - 1), Tick(start, iv, k - 1);
      PingsAreTicks(start, iv, lastSeen, k - 1);
      PingsSnoc(start, iv, lastSeen, k);
      forall x
        ensures x in PingTimes(start, iv, lastSeen, k) <==> SilentBefore(start, iv, lastSeen, k, x)
        ensures x in before ==> x < at
      {
        OneTickMore(start, iv, lastSeen, k, x);
        assert x in before <==> SilentBefore(start, iv, lastSeen, k - 1, x);
      }
      if |before| > 0 { assert before[|before| - 1] in before; }
    } else {
      NoTickYet(start, iv, lastSeen, k);
    }
  }

  lemma NoTickYet(start: int, iv: int, lastSeen: int -> int, k: nat)
    requires k <= 1
    ensures PingTimes(start, iv, lastSeen, k) == [] && forall x :: !SilentBefore(start, iv, lastSeen, k, x)
  {
  }

  lemma OneTickMore(start: int, iv: int, lastSeen: int -> int, k: nat, x: int)
    requires iv > 0 && k > 1
    ensures var at := Tick(start, iv, k - 1);
      && (SilentBefore(start, iv, lastSeen, k, x) <==>
            SilentBefore(start, iv, lastSeen, k - 1, x) || (x == at && SilentTick(start, iv, lastSeen, k - 1, at)))
      && (SilentBefore(start, iv, lastSeen, k - 1, x) ==> x < at)
  {
    if SilentBefore(start, iv, lastSeen, k - 1, x) {
      var j: nat :| 1 <= j < k - 1 && SilentTick(start, iv, lastSeen, j, x);
      NextMultiple(k - 1, j, iv);
      assert 1 <= j < k;
    }
  }

  lemma PingsSnoc(start: int, iv: int, lastSeen: int -> int, k: nat)
    requires k > 1
    ensures var at := Tick(start, iv, k - 1);
      PingTimes(start, iv, lastSeen, k)
      == PingTimes(start, iv, lastSeen, k - 1) + if SilentTick(start, iv, lastSeen, k - 1, at) then [at] else []
  {
  }

  function Since(times: seq<int>, t: int): seq<int> {
    if times == [] then []
    else Since(times[..|times| - 1], t) + if times[|times| - 1] >= t then [times[|times| - 1]] else []
  }

  lemma SinceSnoc(times: seq<int>, x: int, t: int)
    ensures Since(times + [x], t) == Since(times, t) + if x >= t then [x] else []
  {
    assert (times + [x])[..|times|] == times;
  }

  /** `k0` is the first tick not before `t`, reached after `r` less than an interval. */
  ghost predicate FirstTick(start: int, iv: int, t: int, k0: nat, r: int) {
    Tick(start, iv, k0) == t + r && 0 <= r < iv
  }

  lemma FirstTickExists(start: int, iv: int, t: int) returns (k0: nat, r: int)
    requires iv > 0 && start < t + iv
    ensures FirstTick(start, iv, t, k0, r)
  {
    var d := t - start;
    if d < 0 {
      k0, r := 0, -d;
    } else if d % iv == 0 {
      k0, r := d / iv, 0;
    } else {
      k0, r := d / iv + 1, iv - d % iv;
      assert (d / iv + 1) * iv == (d / iv) * iv + iv;
    }
  }

  lemma FirstTickSoon(start: int, iv: int, t: int, k0: nat, r: int)
    requires FirstTick(start, iv, t, k0, r)
    ensures 0 <= r < iv
  {
  }

  lemma IdleAfter(start: int, iv: int, lastSeen: int -> int, t: int, k0: nat, r: int, j: nat)
    requires iv > 0 && SilentSince(lastSeen, t) && FirstTick(start, iv, t, k0, r)
    ensures Tick(start, iv, k0 + j) == t + r + j * iv
    ensures Idle(start, iv, lastSeen, k0 + j) == r + j * iv
  {
    assert (k0 + j) * iv == k0 * iv + j * iv;
    assert j * iv >= 0;
  }

  lemma NextMultiple(a: int, b: int, iv: int)
    requires a > b && iv > 0
    ensures a * iv >= b * iv + iv
  {
    var d := a - b - 1;
    assert d * iv >= 0;
    assert a * iv == (b + 1 + d) * iv == b * iv + iv + d * iv;
  }

  lemma SameMultiple(j: int, n: int, iv: int, r: int)
    requires iv > 0 && 0 <= r < iv && n * iv <= r + j * iv < (n + 1) * iv
    ensures j == n
  {
    assert (n + 1) * iv == n * iv + iv;
    if j < n { NextMultiple(n, j, iv); }
    if j > n { NextMultiple(j, n, iv); }
  }

  lemma TickBefore(start: int, iv: int, t: int, k0: nat, r: int, k: nat)
    requires iv > 0 && FirstTick(start, iv, t, k0, r) && k < k0
    ensures Tick(start, iv, k) < t
  {
    NextMultiple(k0, k, iv);
  }

  /** From the first tick on, it is the ticks after it that find the session silent for one
      interval. */
  lemma PingAt(start: int, iv: int, lastSeen: int -> int, t: int, k0: nat, r: int, k: nat)
    requires iv > 0 && SilentSince(lastSeen, t) && FirstTick(start, iv, t, k0, r)
    ensures Tick(start, iv, k) >= t && Idle(start, iv, lastSeen, k) >= iv <==> k > k0
  {
    if k < k0 {
      TickBefore(start, iv, t, k0, r, k);
    } else {
      IdleAfter(start, iv, lastSeen, t, k0, r, k - k0);
      if k > k0 {
        assert (k - k0) * iv >= iv;
      } else {
        assert (k - k0) * iv == 0;
      }
    }
  }

  lemma {:induction false} PingsSince(start: int, iv: int, lastSeen: int -> int, t: int, k0: nat, r: int, k: nat)
    requires iv > 0 && SilentSince(lastSeen, t) && FirstTick(start, iv, t, k0, r)
    ensures |Since(PingTimes(start, iv, lastSeen, k), t)| == if k <= k0 + 1 then 0 else k - k0 - 1
    decreases k
  {
    hide SilentSince, FirstTick, Tick, Idle;
    if k > 1 {
      var before := PingTimes(start, iv, lastSeen, k - 1);
      PingsSince(start, iv, lastSeen, t, k0, r, k - 1);
      PingAt(start, iv, lastSeen, t, k0, r, k - 1);
      SinceSnoc(before, Tick(start, iv, k - 1), t);
      assert before + [] == before;
    }
  }

  lemma LateTick(start: int, iv: int, lastSeen: int -> int, t: int, k: nat)
    requires iv > 0 && SilentSince(lastSeen, t) && start >= t + iv
    ensures Tick(start, iv, k) >= t && Idle(start, iv, lastSeen, k) >= iv
  {
    assert k * iv >= 0;
  }

  /** A ticker that starts an interval or more after `t` finds the session silent at every
      tick. */
  lemma {:induction false} LatePings(start: int, iv: int, lastSeen: int -> int, t: int, k: nat)
    requires iv > 0 && SilentSince(lastSeen, t) && start >= t + iv && k >= 1
    ensures |Since(PingTimes(start, iv, lastSeen, k), t)| == k - 1
    decreases k
  {
    hide SilentSince, Tick, Idle;
    if k > 1 {
      LatePings(start, iv, lastSeen, t, k - 1);
      LateTick(start, iv, lastSeen, t, k - 1);
      SinceSnoc(PingTimes(start, iv, lastSeen, k - 1), Tick(start, iv, k - 1), t);
    }
  }

  /** The tick before the closing one was less than n intervals after `t`. */
  lemma TickBeforeClosing(start: int, iv: int, lastSeen: int -> int, t: int, n: int, closed: nat)
    requires iv > 0 && SilentSince(lastSeen, t) && n >= 1 && closed > 1
    requires Tick(start, iv, closed) >= t + iv * n
    requires Idle(start, iv, lastSeen, closed - 1) < iv * n
    ensures Tick(start, iv, closed) == Tick(start, iv, closed - 1) + iv && Tick(start, iv, closed - 1) < t + iv * n
  {
    assert closed * iv == (closed - 1) * iv + iv;
    assert iv * n >= iv;
  }

  lemma ClosedWhen(start: int, iv: int, lastSeen: int -> int, t: int, n: int, closed: nat)
    requires iv > 0 && SilentSince(lastSeen, t) && n >= 1
    requires closed >= 1 && Tick(start, iv, closed) >= t && Idle(start, iv, lastSeen, closed) >= iv * n
    requires forall j :: 1 <= j < closed ==> Idle(start, iv, lastSeen, j) < iv * n
    ensures var at := Tick(start, iv, closed);
      at >= t + n * iv && (at < t + (n + 1) * iv <==> start < t + n * iv)
  {
    assert iv * n == n * iv && (n + 1) * iv == n * iv + iv;
    if closed > 1 {
      assert Idle(start, iv, lastSeen, closed - 1) < iv * n;
      TickBeforeClosing(start, iv, lastSeen, t, n, closed);
      assert (closed - 1) * iv >= 0;
    }
  }

  lemma Intervals(iv: int, n: int)
    requires iv > 0 && n >= 1
    ensures iv * n == n * iv >= iv
  {
    NextMultiple(n, 0, iv);
  }

  /** A session silent since `t`, and not closed before, is closed at the first tick from
      t + n*iv on: before t + (n+1)*iv exactly if the ticker was started before t + n*iv, and
      after exactly n - 1 pings since `t` exactly if it was started before t + iv (or n is 1). */
  lemma SilentSessionCloses(iv: int, liveness: int, start: int, lastSeen: int -> int, t: int, closed: nat)
    requires iv > 0 && SilentSince(lastSeen, t)
    requires closed >= 1 && Idle(start, iv, lastSeen, closed) >= iv * Beats(liveness)
    requires forall j :: 1 <= j < closed ==> Idle(start, iv, lastSeen, j) < iv * Beats(liveness)
    requires Tick(start, iv, closed) >= t
    ensures var n := Beats(liveness); var at := Tick(start, iv, closed);
      && at >= t + n * iv
      && (at < t + (n + 1) * iv <==> start < t + n * iv)
      && (|Since(PingTimes(start, iv, lastSeen, closed), t)| == n - 1 <==> start < t + iv || n == 1)
  {
    hide SilentSince, Tick, Idle, PingTimes, Since, Beats;
    var n := Beats(liveness);
    Intervals(iv, n);
    ClosedWhen(start, iv, lastSeen, t, n, closed);
    if start < t + iv {
      PingsBeforeClosing(start, iv, lastSeen, t, n, closed);
    } else {
      LatePings(start, iv, lastSeen, t, closed);
      LateClosing(start, iv, lastSeen, t, n, closed);
    }
  }

  lemma PingsBeforeClosing(start: int, iv: int, lastSeen: int -> int, t: int, n: int, closed: nat)
    requires iv > 0 && SilentSince(lastSeen, t) && start < t + iv && n >= 1
    requires t + n * iv <= Tick(start, iv, closed) < t + (n + 1) * iv
    ensures |Since(PingTimes(start, iv, lastSeen, closed), t)| == n - 1
  {
    var k0, r := FirstTickExists(start, iv, t);
    NextMultiple(n, 0, iv);
    FirstTickSoon(start, iv, t, k0, r);
    hide SilentSince, FirstTick, Tick, Idle;
    if closed < k0 { TickBefore(start, iv, t, k0, r, closed); }
    IdleAfter(start, iv, lastSeen, t, k0, r, closed - k0);
    SameMultiple(closed - k0, n, iv, r);
    PingsSince(start, iv, lastSeen, t, k0, r, closed);
  }

  /** Then the session is closed after fewer than n - 1 pings, or n is 1. */
  lemma LateClosing(start: int, iv: int, lastSeen: int -> int, t: int, n: int, closed: nat)
    requires iv > 0 && SilentSince(lastSeen, t) && start >= t + iv && n >= 1
    requires closed >= 1 && Tick(start, iv, closed) >= t + iv * n
    requires forall j :: 1 <= j < closed ==> Idle(start, iv, lastSeen, j) < iv * n
    ensures closed - 1 == n - 1 <==> n == 1
  {
    if closed > 1 {
      assert Idle(start, iv, lastSeen, closed - 1) < iv * n;
      TickBeforeClosing(start, iv, lastSeen, t, n, closed);
      assert closed * iv == (closed - 1) * iv + iv && iv * n == n * iv;
    }
  }

  /** A lease given at or after the last sign of life expires only after the session that
      holds it is closed, so the close gives the job back first. */
  lemma LeaseOutlivesSilence(heartbeat: int, liveness: int, t: int, held: int, closedAt: int, m: MailboxSpec.Msg, id: string)
    requires heartbeat > 0 && t <= held && closedAt < t + (Beats(liveness) + 1) * heartbeat
    ensures closedAt < MailboxSpec.NewDelivery(m, TakeLease(heartbeat, liveness), id, held).expires
  {
    var n := Beats(liveness);
    assert n * heartbeat >= heartbeat;
    assert (n + 1) * heartbeat == n * heartbeat + heartbeat;
    assert heartbeat * n == n * heartbeat;
  }

  /** Together: a session that goes silent is closed, and its jobs given back, before any
      lease it was given since its last sign of life can expire. */
  lemma CloseBeatsExpiry(iv: int, liveness: int, start: int, lastSeen: int -> int, t: int, closed: nat,
                         b: MailboxSpec.Bus, id: string, m: MailboxSpec.Msg, held: int)
    requires iv > 0 && SilentSince(lastSeen, t) && start < t + Beats(liveness) * iv && t <= held
    requires closed >= 1 && Idle(start, iv, lastSeen, closed) >= iv * Beats(liveness)
    requires forall j :: 1 <= j < closed ==> Idle(start, iv, lastSeen, j) < iv * Beats(liveness)
    requires Tick(start, iv, closed) >= t
    requires id in b.inflight && b.inflight[id] == MailboxSpec.NewDelivery(m, TakeLease(iv, liveness), id, held)
    ensures !MailboxSpec.Expired(b, id, Tick(start, iv, closed))
  {
    SilentSessionCloses(iv, liveness, start, lastSeen, t, closed);
    LeaseOutlivesSilence(iv, liveness, t, held, Tick(start, iv, closed), m, id);
  }
}
