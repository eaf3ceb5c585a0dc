/**
 The re-arming millisecond timer of sphactor_actor_run_once: the wait it asks the poller for, the
 catch-up loop, and when a TIME event fires. zclock_mono() is a nondecreasing sequence of separate
 reads, so any two reads in one call may differ.
 */
module PollTimer {
  const INT64_MAX: int := 0x7FFF_FFFF_FFFF_FFFF
  const TWO_31: int := 0x8000_0000
  const TWO_32: int := 0x1_0000_0000

  datatype Timer = Timer(timeout: int, next: int)

  /** The clock reads of one call: lines 903, 910, 925, and one per test of the loop at 927. */
  datatype Reads = Reads(check: int, again: int, wake: int, loop: seq<int>)

  /** One call of run_once: its reads, and whether zpoller_wait returned NULL. */
  datatype Tick = Tick(clock: Reads, idle: bool)

  function SetTimeout(timeout: int, now: int): Timer {
    Timer(timeout, if timeout >= 0 then now + timeout else INT64_MAX)
  }

  /** How sphactor_actor_start arms the timer; only -1 means off here. */
  function StartTimer(timeout: int, now: int): Timer {
    Timer(timeout, if timeout == -1 then INT64_MAX else now + timeout)
  }

  /** The conversion of an int64_t to int. */
  function ToInt32(x: int): int {
    var low := x % TWO_32;
    if low < TWO_31 then low else low - TWO_32
  }

  /** time_till_next. */
  function Wait(t: Timer, r: Reads): int {
    if r.check > t.next then 0 else t.next - r.again
  }

  predicate Skipped(t: Timer, r: Reads) {
    t.next - r.wake <= 0
  }

  predicate Fires(t: Timer, k: Tick) {
    k.idle || Skipped(t, k.clock)
  }

  /** The loop's reads are exactly those it makes: all but the last find the deadline reached. */
  predicate LoopReads(t: Timer, loop: seq<int>) {
    if t.timeout > 0 then
      && |loop| > 0
      && (forall i :: 0 <= i < |loop| - 1 ==> t.next + i * t.timeout <= loop[i])
      && loop[|loop| - 1] < t.next + (|loop| - 1) * t.timeout
    else
      loop == []
  }

  function Advance(t: Timer, r: Reads): Timer
    requires LoopReads(t, r.loop)
  {
    if t.timeout > 0 then t.(next := t.next + (|r.loop| - 1) * t.timeout) else t
  }

  function LastRead(r: Reads): int {
    if r.loop == [] then r.wake else r.loop[|r.loop| - 1]
  }

  /** The reads of a call come after every earlier read and do not decrease. */
  predicate InOrder(last: int, r: Reads) {
    && last <= r.check <= r.again <= r.wake
    && (forall i :: 0 <= i < |r.loop| ==> r.wake <= r.loop[i])
    && (forall i, j :: 0 <= i < j < |r.loop| ==> r.loop[i] <= r.loop[j])
  }

  /** The poller gives NULL only when the wait it was asked for is over; a negative wait never is. */
  predicate PollerKept(t: Timer, k: Tick) {
    k.idle ==>
      var wait := ToInt32(Wait(t, k.clock));
      0 <= wait && (if k.clock.check > t.next then k.clock.check else k.clock.again) + wait <= k.clock.wake
  }

  predicate Possible(t: Timer, last: int, k: Tick) {
    InOrder(last, k.clock) && LoopReads(t, k.clock.loop) && PollerKept(t, k)
  }

  predicate AllPossible(t: Timer, last: int, ticks: seq<Tick>)
    decreases |ticks|
  {
    ticks == [] || (Possible(t, last, ticks[0])
                    && AllPossible(Advance(t, ticks[0].clock), LastRead(ticks[0].clock), ticks[1..]))
  }

  function Run(t: Timer, last: int, ticks: seq<Tick>): Timer
    requires AllPossible(t, last, ticks)
    decreases |ticks|
  {
    if ticks == [] then t else Run(Advance(t, ticks[0].clock), LastRead(ticks[0].clock), ticks[1..])
  }

  function LastOf(last: int, ticks: seq<Tick>): int {
    if ticks == [] then last else LastRead(ticks[|ticks| - 1].clock)
  }

  /** How many of the calls fire TIME. */
  function Fired(t: Timer, last: int, ticks: seq<Tick>): nat
    requires AllPossible(t, last, ticks)
    decreases |ticks|
  {
    if ticks == [] then 0
    else (if Fires(t, ticks[0]) then 1 else 0)
         + Fired(Advance(t, ticks[0].clock), LastRead(ticks[0].clock), ticks[1..])
  }

  // ---------------------------------------------------------------- arithmetic

  lemma MulAtLeast(p: int, T: int)
    requires p >= 1 && T > 0
    ensures p * T >= T
  {
    assert (p - 1) * T >= 0;
  }

  lemma MulMinus(p: int, q: int, T: int)
    ensures (p - q) * T == p * T - q * T
  {
  }

  lemma DivUnique(x: int, T: int, q: int, r: int)
    requires T > 0 && 0 <= r < T && x == q * T + r
    ensures x / T == q && x % T == r
  {
    var p := x / T;
    MulMinus(q, p, T);
    MulMinus(p, q, T);
    if q > p { MulAtLeast(q - p, T); }
    if q < p { MulAtLeast(p - q, T); }
  }

  lemma ModShift(a: int, k: int, T: int)
    requires T > 0
    ensures (a + k * T) % T == a % T
  {
    MulMinus(a / T + k, k, T);
    DivUnique(a + k * T, T, a / T + k, a % T);
  }

  /** Different numbers on one grid are at least T apart. */
  lemma GridGap(a: int, b: int, T: int)
    requires T > 0 && a % T == b % T && a < b
    ensures b - a >= T
  {
    var p, q := a / T, b / T;
    MulMinus(q, p, T);
    if q > p { MulAtLeast(q - p, T); }
    if p > q { MulAtLeast(p - q, T); MulMinus(p, q, T); }
  }

  // ---------------------------------------------------------------- the catch-up loop

  /**
   The loop at lines 926-930 on a clock whose i-th read is clock(i). It ends because one of its
   reads, number stop, is before the grid point it is compared with.
   */
  method CatchUp(t: Timer, clock: nat -> int, start: nat, ghost stop: nat) returns (next: int, loop: seq<int>)
    requires t.timeout > 0
    requires clock(start + stop) < t.next + stop * t.timeout
    ensures LoopReads(t, loop)
    ensures |loop| <= stop + 1 && forall i :: 0 <= i < |loop| ==> loop[i] == clock(start + i)
    ensures next == t.next + (|loop| - 1) * t.timeout
  {
    next := t.next;
    var i := 0;
    loop := [clock(start)];
    while next <= clock(start + i)
      invariant 0 <= i <= stop && |loop| == i + 1
      invariant next == t.next + i * t.timeout
      invariant forall j :: 0 <= j <= i ==> loop[j] == clock(start + j)
      invariant forall j :: 0 <= j < i ==> t.next + j * t.timeout <= loop[j]
      decreases stop - i
    {
      MulMinus(i + 1, 1, t.timeout);
      next := next + t.timeout;
      i := i + 1;
      loop := loop + [clock(start + i)];
    }
  }

  /** A clock that stays below some ceiling while the loop runs makes it end. */
  lemma CeilingStops(t: Timer, clock: nat -> int, start: nat, ceiling: int) returns (stop: nat)
    requires t.timeout > 0
    requires var most := if ceiling < t.next then 0 else ceiling - t.next + 1;
      forall j :: start <= j <= start + most ==> clock(j) <= ceiling
    ensures clock(start + stop) < t.next + stop * t.timeout
  {
    stop := if ceiling < t.next then 0 else ceiling - t.next + 1;
    MulMinus(t.timeout, 1, stop);
    assert (t.timeout - 1) * stop >= 0;
  }

  /** The loop goes on for ever exactly when every one of its reads has reached its grid point. */
  lemma LoopEndsExactly(t: Timer, clock: nat -> int, start: nat)
    requires t.timeout > 0
    ensures (exists loop :: LoopReads(t, loop) && forall i :: 0 <= i < |loop| ==> loop[i] == clock(start + i))
       <==> (exists stop: nat :: clock(start + stop) < t.next + stop * t.timeout)
  {
    if loop :| LoopReads(t, loop) && forall i :: 0 <= i < |loop| ==> loop[i] == clock(start + i) {
      var stop := |loop| - 1;
      assert clock(start + stop) < t.next + stop * t.timeout;
    }
    if stop: nat :| clock(start + stop) < t.next + stop * t.timeout {
      var loop := LoopOn(t, clock, start, stop);
    }
  }

  lemma {:induction false} LoopOn(t: Timer, clock: nat -> int, start: nat, stop: nat) returns (loop: seq<int>)
    requires t.timeout > 0 && clock(start + stop) < t.next + stop * t.timeout
    ensures LoopReads(t, loop) && forall i :: 0 <= i < |loop| ==> loop[i] == clock(start + i)
  {
    if first: nat :| first < stop && clock(start + first) < t.next + first * t.timeout {
      loop := LoopOn(t, clock, start, first);
    } else {
      loop := seq(stop + 1, i requires 0 <= i => clock(start + i));
    }
  }

  // ---------------------------------------------------------------- the grid

  /** The deadline is at most one timeout after the last clock read. */
  predicate Armed(t: Timer, last: int) {
    t.next <= last + t.timeout
  }

  /** One call moves the deadline to the least grid point after its last read, in closed form. */
  lemma AdvanceToGrid(t: Timer, last: int, k: Tick)
    requires t.timeout > 0 && Possible(t, last, k)
    ensures var u, now := Advance(t, k.clock), LastRead(k.clock);
      && u.timeout == t.timeout && u.next % t.timeout == t.next % t.timeout
      && last <= k.clock.wake <= now < u.next
      && (u.next == t.next || u.next - t.timeout >= t.next)
      && (u.next > t.next ==> u.next == t.next + t.timeout * ((now - t.next) / t.timeout + 1))
      && (u.next > t.next ==> u.next - t.timeout <= now)
      && (u.next > t.next <==> |k.clock.loop| > 1)
      && (Armed(t, last) ==> Armed(u, now))
  {
    var n, T, now := |k.clock.loop| - 1, t.timeout, LastRead(k.clock);
    ModShift(t.next, n, T);
    if n > 0 {
      MulAtLeast(n, T);
      MulMinus(n, 1, T);
      assert t.next + (n - 1) * T <= k.clock.loop[n - 1] <= now;
      DivUnique(now - t.next, T, n - 1, now - t.next - (n - 1) * T);
    }
  }

  /** No drift: over any number of calls the deadline stays on its grid, at the first point still ahead. */
  lemma {:induction false} DriftFree(t: Timer, last: int, ticks: seq<Tick>)
    requires t.timeout > 0 && Armed(t, last) && AllPossible(t, last, ticks)
    ensures var u, now := Run(t, last, ticks), LastOf(last, ticks);
      && u.timeout == t.timeout && u.next % t.timeout == t.next % t.timeout
      && last <= now && t.next <= u.next <= now + t.timeout
      && (ticks != [] ==> now < u.next)
      && (ticks != [] ==> forall g :: g % t.timeout == t.next % t.timeout && now < g ==> u.next <= g)
    decreases |ticks|
  {
    if ticks != [] {
      AdvanceToGrid(t, last, ticks[0]);
      var u, now := Advance(t, ticks[0].clock), LastRead(ticks[0].clock);
      DriftFree(u, now, ticks[1..]);
      if |ticks| == 1 {
        LeastOnGrid(u, now);
      }
    }
  }

  lemma LeastOnGrid(u: Timer, now: int)
    requires u.timeout > 0 && now < u.next <= now + u.timeout
    ensures forall g :: g % u.timeout == u.next % u.timeout && now < g ==> u.next <= g
  {
    forall g | g % u.timeout == u.next % u.timeout && now < g ensures u.next <= g {
      if g < u.next { GridGap(g, u.next, u.timeout); }
    }
  }

  // ---------------------------------------------------------------- the wait

  lemma ToInt32Exact(x: int)
    requires -TWO_31 <= x < TWO_31
    ensures ToInt32(x) == x
  {
    if x >= 0 { DivUnique(x, TWO_32, 0, x); } else { DivUnique(x, TWO_32, -1, x + TWO_32); }
  }

  /** The deadline falls between the two clock reads. */
  predicate Straddles(t: Timer, r: Reads) {
    r.check <= t.next < r.again
  }

  /**
   The wait is none when the deadline has passed, else what is left of it at the second read. It lies in [0, T]
   exactly when the two reads do not straddle the deadline. The cast to int then loses nothing exactly below
   2^31. When they do, the wait is endless exactly when the lag modulo 2^32 is in (0, 2^31].
   */
  lemma WaitBounded(t: Timer, last: int, r: Reads)
    requires t.timeout > 0 && Armed(t, last) && InOrder(last, r)
    ensures r.check > t.next ==> Wait(t, r) == 0
    ensures r.check <= t.next ==> r.again + Wait(t, r) == t.next
    ensures 0 <= Wait(t, r) <= t.timeout <==> !Straddles(t, r)
    ensures !Straddles(t, r) ==> (ToInt32(Wait(t, r)) == Wait(t, r) <==> Wait(t, r) < TWO_31)
    ensures Straddles(t, r) ==> (ToInt32(Wait(t, r)) < 0 <==> 0 < (r.again - t.next) % TWO_32 <= TWO_31)
  {
    if Straddles(t, r) {
      NegatedResidue(r.again - t.next, TWO_32);
    } else if Wait(t, r) < TWO_31 {
      ToInt32Exact(Wait(t, r));
    }
  }

  lemma NegatedResidue(x: int, m: int)
    requires m > 0
    ensures (-x) % m == (if x % m == 0 then 0 else m - x % m)
  {
    var q, low := x / m, x % m;
    MulMinus(0, q, m);
    MulMinus(-q, 1, m);
    if low == 0 { DivUnique(-x, m, -q, 0); } else { DivUnique(-x, m, -q - 1, m - low); }
  }

  /** Such reads happen: the deadline may pass by any lag between the two. */
  lemma StraddlingReads(t: Timer, lag: int) returns (r: Reads)
    requires t.timeout > 0 && lag > 0
    ensures Armed(t, t.next) && InOrder(t.next, r) && LoopReads(t, r.loop)
    ensures Straddles(t, r) && Wait(t, r) == -lag
  {
    var now, n := t.next + lag, lag / t.timeout + 1;
    r := Reads(t.next, now, now, seq(n + 1, i => now));
    MulMinus(n, 1, t.timeout);
    assert lag == lag / t.timeout * t.timeout + lag % t.timeout;
    forall i | 0 <= i < n ensures t.next + i * t.timeout <= r.loop[i] {
      MulMonotone(i, n - 1, t.timeout);
    }
  }

  lemma MulMonotone(p: int, q: int, T: int)
    requires p <= q && T > 0
    ensures p * T <= q * T
  {
    assert (q - p) * T >= 0;
  }

  /** A timer that is off: set_timeout with any negative timeout, or start with -1. */
  predicate Off(t: Timer, timeout: int, now: int) {
    (timeout < 0 && t == SetTimeout(timeout, now)) || (timeout == -1 && t == StartTimer(timeout, now))
  }

  /** With the timer off the cast wait is an endless one exactly when bit 31 of the clock is clear. */
  lemma OffWait(t: Timer, timeout: int, now: int, r: Reads)
    requires Off(t, timeout, now) && r.check <= INT64_MAX
    ensures ToInt32(Wait(t, r)) < 0 <==> r.again % TWO_32 < TWO_31
  {
    var low := r.again % TWO_32;
    DivUnique(INT64_MAX - r.again, TWO_32, TWO_31 - 1 - r.again / TWO_32, TWO_32 - 1 - low);
  }

  /** So an idle actor whose timer is off can still see a TIME event, exactly when bit 31 is set. */
  lemma OffFiresExactly(t: Timer, timeout: int, armed: int, last: int, now: int)
    requires Off(t, timeout, armed) && last <= now <= INT64_MAX
    ensures (exists k :: Possible(t, last, k) && k.idle && k.clock.again == now) <==> now % TWO_32 >= TWO_31
  {
    if k :| Possible(t, last, k) && k.idle && k.clock.again == now {
      OffWait(t, timeout, armed, k.clock);
    }
    var wait := ToInt32(INT64_MAX - now);
    var k := Tick(Reads(now, now, now + (if wait < 0 then 0 else wait), []), true);
    OffWait(t, timeout, armed, k.clock);
    if now % TWO_32 >= TWO_31 {
      assert Possible(t, last, k);
    }
  }

  // ---------------------------------------------------------------- TIME events

  /**
   A NULL from the poller never comes before the deadline: a wait of 2^31 or more, but less than 2^32, is
   endless after the cast.
   */
  lemma FiresWhenDue(t: Timer, last: int, k: Tick)
    requires 0 < t.timeout < TWO_32 && Armed(t, last) && Possible(t, last, k)
    ensures Fires(t, k) <==> Skipped(t, k.clock)
  {
    var wait := Wait(t, k.clock);
    if k.idle && 0 <= wait {
      if wait < TWO_31 { ToInt32Exact(wait); } else { DivUnique(wait, TWO_32, 0, wait); }
    }
  }

  /** From 2^32 on the cast can turn the wait into none at all: TIME fires with nothing due. */
  lemma EarlyTick(T: int, t0: int) returns (k: Tick)
    requires T >= TWO_32
    ensures var t := SetTimeout(T, t0);
      && Armed(t, t0) && Possible(t, t0, k) && Fires(t, k) && !Skipped(t, k.clock)
      && Advance(t, k.clock) == t && LastRead(k.clock) == t0 + T - TWO_32
  {
    var now := t0 + T - TWO_32;
    k := Tick(Reads(now, now, now, [now]), true);
    DivUnique(TWO_32, TWO_32, 1, 0);
  }

  /** So TIME fires exactly when it is due, in every call, if and only if the timeout is below 2^32. */
  lemma FiresWhenDueExactly(T: int)
    requires T > 0
    ensures (forall next, last, k :: Armed(Timer(T, next), last) && Possible(Timer(T, next), last, k)
                                     ==> (Fires(Timer(T, next), k) <==> Skipped(Timer(T, next), k.clock)))
       <==> T < TWO_32
  {
    if T < TWO_32 {
      forall next, last, k | Armed(Timer(T, next), last) && Possible(Timer(T, next), last, k)
        ensures Fires(Timer(T, next), k) <==> Skipped(Timer(T, next), k.clock)
      {
        FiresWhenDue(Timer(T, next), last, k);
      }
    } else {
      var k := EarlyTick(T, 0);
      assert Possible(Timer(T, T), 0, k);
    }
  }

  /**
   A call fires TIME exactly when it advances the deadline, however many grid points were missed,
   unless the deadline falls between the reads at 925 and 927: then it advances without an event.
   */
  lemma Coalesces(t: Timer, last: int, k: Tick)
    requires 0 < t.timeout < TWO_32 && Armed(t, last) && Possible(t, last, k)
    ensures Fires(t, k) ==> Advance(t, k.clock).next >= t.next + t.timeout
    ensures Advance(t, k.clock).next > t.next && !Fires(t, k) <==> k.clock.wake < t.next <= k.clock.loop[0]
  {
    FiresWhenDue(t, last, k);
    AdvanceToGrid(t, last, k);
    assert t.next + 0 * t.timeout == t.next;
    if Skipped(t, k.clock) { assert |k.clock.loop| != 1; }
  }

  /** Every TIME event comes with an advance of at least T if and only if the timeout is below 2^32. */
  lemma CoalescesExactly(T: int)
    requires T > 0
    ensures (forall next, last, k :: Armed(Timer(T, next), last) && Possible(Timer(T, next), last, k)
                                     && Fires(Timer(T, next), k)
                                     ==> Advance(Timer(T, next), k.clock).next >= next + T)
       <==> T < TWO_32
  {
    if T < TWO_32 {
      forall next, last, k | Armed(Timer(T, next), last) && Possible(Timer(T, next), last, k)
                             && Fires(Timer(T, next), k)
        ensures Advance(Timer(T, next), k.clock).next >= next + T
      {
        Coalesces(Timer(T, next), last, k);
      }
    } else {
      var k := EarlyTick(T, 0);
      assert Possible(Timer(T, T), 0, k);
    }
  }

  lemma {:induction false} FiredAdvances(t: Timer, last: int, ticks: seq<Tick>)
    requires 0 < t.timeout < TWO_32 && Armed(t, last) && AllPossible(t, last, ticks)
    ensures Fired(t, last, ticks) * t.timeout <= Run(t, last, ticks).next - t.next
    decreases |ticks|
  {
    if ticks != [] {
      Coalesces(t, last, ticks[0]);
      AdvanceToGrid(t, last, ticks[0]);
      var rest := Fired(Advance(t, ticks[0].clock), LastRead(ticks[0].clock), ticks[1..]);
      FiredAdvances(Advance(t, ticks[0].clock), LastRead(ticks[0].clock), ticks[1..]);
      MulMinus(rest + 1, 1, t.timeout);
    }
  }

  /** Between arming at t0 and the last read now there are at most (now - t0) / T TIME events. */
  lemma {:induction false} RateBound(timeout: int, t0: int, ticks: seq<Tick>)
    requires 0 < timeout < TWO_32 && AllPossible(SetTimeout(timeout, t0), t0, ticks)
    ensures Fired(SetTimeout(timeout, t0), t0, ticks) <= (LastOf(t0, ticks) - t0) / timeout
  {
    var t, now := SetTimeout(timeout, t0), LastOf(t0, ticks);
    DriftFree(t, t0, ticks);
    FiredAdvances(t, t0, ticks);
    AtMostQuotient(Fired(t, t0, ticks), now - t0, timeout);
  }

  predicate RateKept(timeout: int, t0: int, ticks: seq<Tick>)
    requires timeout > 0 && AllPossible(SetTimeout(timeout, t0), t0, ticks)
  {
    Fired(SetTimeout(timeout, t0), t0, ticks) <= (LastOf(t0, ticks) - t0) / timeout
  }

  /** Wherever the timer is armed, every run keeps to that rate if and only if the timeout is below 2^32. */
  lemma {:induction false} RateBoundExactly(timeout: int, t0: int)
    requires timeout > 0
    ensures (forall ticks :: AllPossible(SetTimeout(timeout, t0), t0, ticks) ==> RateKept(timeout, t0, ticks))
       <==> timeout < TWO_32
  {
    if timeout < TWO_32 {
      forall ticks | AllPossible(SetTimeout(timeout, t0), t0, ticks) ensures RateKept(timeout, t0, ticks) {
        RateBound(timeout, t0, ticks);
      }
    } else {
      var ticks := EarlyRun(timeout, t0);
      assert !RateKept(timeout, t0, ticks);
    }
  }

  lemma EarlyRun(timeout: int, t0: int) returns (ticks: seq<Tick>)
    requires timeout >= TWO_32
    ensures |ticks| == 1 && AllPossible(SetTimeout(timeout, t0), t0, ticks) && !RateKept(timeout, t0, ticks)
  {
    var k := EarlyTick(timeout, t0);
    ticks := [k];
    assert ticks[1..] == [];
    DivUnique(timeout - TWO_32, timeout, 0, timeout - TWO_32);
  }

  lemma AtMostQuotient(n: int, x: int, T: int)
    requires T > 0 && n * T <= x
    ensures n <= x / T
  {
    var q := x / T;
    if n > q {
      MulAtLeast(n - q, T);
      MulMinus(n, q, T);
    }
  }

  // ---------------------------------------------------------------- a ready socket is not starved

  predicate AllFire(t: Timer, last: int, ticks: seq<Tick>)
    requires AllPossible(t, last, ticks)
  {
    Fired(t, last, ticks) == |ticks|
  }

  /** Some socket is ready at every call, so the poller never returns NULL. */
  predicate AlwaysReady(ticks: seq<Tick>) {
    forall k :: k in ticks ==> !k.idle
  }

  lemma {:induction false} FiredAtMost(t: Timer, last: int, ticks: seq<Tick>)
    requires AllPossible(t, last, ticks)
    ensures Fired(t, last, ticks) <= |ticks|
    decreases |ticks|
  {
    if ticks != [] { FiredAtMost(Advance(t, ticks[0].clock), LastRead(ticks[0].clock), ticks[1..]); }
  }

  lemma {:induction false} FiringSpan(t: Timer, last: int, ticks: seq<Tick>)
    requires t.timeout > 0 && AllPossible(t, last, ticks) && AlwaysReady(ticks)
    requires |ticks| > 0 && AllFire(t, last, ticks)
    ensures ticks[|ticks| - 1].clock.wake >= t.next + (|ticks| - 1) * t.timeout
    decreases |ticks|
  {
    var k, tail := ticks[0], ticks[1..];
    var u, now := Advance(t, k.clock), LastRead(k.clock);
    assert k in ticks;
    FiredAtMost(u, now, tail);
    if tail != [] {
      AdvanceToGrid(t, last, k);
      FiringSpan(u, now, tail);
      MulMinus(|ticks| - 1, 1, t.timeout);
    }
  }

  /** n TIME events in a row, a socket being ready, take longer than n - 2 timeouts. */
  lemma {:induction false} ConsecutiveFires(t: Timer, last: int, ticks: seq<Tick>)
    requires t.timeout > 0 && AllPossible(t, last, ticks) && AlwaysReady(ticks)
    requires |ticks| >= 2 && AllFire(t, last, ticks)
    ensures ticks[|ticks| - 1].clock.wake - ticks[0].clock.wake > (|ticks| - 2) * t.timeout
  {
    AdvanceToGrid(t, last, ticks[0]);
    var u, now := Advance(t, ticks[0].clock), LastRead(ticks[0].clock);
    FiredAtMost(u, now, ticks[1..]);
    FiringSpan(u, now, ticks[1..]);
  }

  predicate GapsAtMost(ticks: seq<Tick>, d: int) {
    forall i :: 0 < i < |ticks| ==> ticks[i].clock.wake - ticks[i - 1].clock.wake <= d
  }

  /** With at most half a timeout between deadline checks, three calls in a row never all fire TIME. */
  lemma {:induction false} NoThreeInARow(t: Timer, last: int, ticks: seq<Tick>, d: int)
    requires t.timeout > 0 && 2 * d <= t.timeout
    requires |ticks| == 3 && AllPossible(t, last, ticks) && AlwaysReady(ticks) && GapsAtMost(ticks, d)
    ensures !AllFire(t, last, ticks)
  {
    if AllFire(t, last, ticks) {
      assert ticks[1].clock.wake - ticks[0].clock.wake <= d;
      assert ticks[2].clock.wake - ticks[1].clock.wake <= d;
      ConsecutiveFires(t, last, ticks);
    }
  }

  /** Three calls in a row that all fire, the second at a time that leaves both gaps at most d. */
  lemma ThreeInARow(T: int, second: int, d: int) returns (ticks: seq<Tick>)
    requires T > 0 && T <= second < 2 * T && second - (T - 1) <= d && 2 * T - second <= d
    ensures |ticks| == 3 && AllPossible(Timer(T, 0), -1, ticks) && AlwaysReady(ticks) && GapsAtMost(ticks, d)
    ensures AllFire(Timer(T, 0), -1, ticks)
  {
    hide Fires, Fired, AllPossible;
    var k1 := Tick(Reads(T - 1, T - 1, T - 1, [T - 1, T - 1]), false);
    var k2 := Tick(Reads(second, second, second, [second, second]), false);
    var k3 := Tick(Reads(2 * T, 2 * T, 2 * T, [2 * T, 2 * T]), false);
    ticks := [k1, k2, k3];
    assert LoopReads(Timer(T, 2 * T), k3.clock.loop) && LoopReads(Timer(T, T), k2.clock.loop);
    assert [k1] + [k2, k3] == ticks && [k2] + [k3] == [k2, k3] && [k3] + [] == [k3];
    NoTicks(Timer(T, 3 * T), 2 * T);
    Prepend(Timer(T, 2 * T), second, k3, []);
    Prepend(Timer(T, T), T - 1, k2, [k3]);
    Prepend(Timer(T, 0), -1, k1, [k2, k3]);
  }

  lemma {:induction false} NoTicks(t: Timer, last: int)
    ensures AllPossible(t, last, []) && AllFire(t, last, [])
  {
  }

  lemma {:induction false} Prepend(t: Timer, last: int, k: Tick, rest: seq<Tick>)
    requires Possible(t, last, k) && Skipped(t, k.clock)
    requires AllPossible(Advance(t, k.clock), LastRead(k.clock), rest)
    requires AllFire(Advance(t, k.clock), LastRead(k.clock), rest)
    ensures AllPossible(t, last, [k] + rest) && AllFire(t, last, [k] + rest)
  {
    assert ([k] + rest)[1..] == rest;
  }

  /** Three TIME events in a row while a socket is ready are ruled out if and only if 2 * d <= T. */
  lemma NoThreeInARowExactly(T: int, d: int)
    requires T > 0
    ensures (forall next, last, ticks ::
               |ticks| == 3 && AllPossible(Timer(T, next), last, ticks) && AlwaysReady(ticks) && GapsAtMost(ticks, d)
               ==> !AllFire(Timer(T, next), last, ticks))
       <==> 2 * d <= T
  {
    if 2 * d <= T {
      forall next, last, ticks |
        |ticks| == 3 && AllPossible(Timer(T, next), last, ticks) && AlwaysReady(ticks) && GapsAtMost(ticks, d)
        ensures !AllFire(Timer(T, next), last, ticks)
      {
        NoThreeInARow(Timer(T, next), last, ticks, d);
      }
    } else {
      var ticks := ThreeInARow(T, T + (if d < T then T - d else 0), d);
      assert AllFire(Timer(T, 0), -1, ticks);
    }
  }

  // ---------------------------------------------------------------- a timeout of zero

  lemma {:induction false} PastDeadlineFires(t: Timer, last: int, ticks: seq<Tick>)
    requires t.timeout <= 0 && t.next <= last && AllPossible(t, last, ticks)
    ensures AllFire(t, last, ticks) && Run(t, last, ticks) == t
    decreases |ticks|
  {
    if ticks != [] { PastDeadlineFires(t, LastRead(ticks[0].clock), ticks[1..]); }
  }

  /**
   Every call of every run fires TIME, so that no socket is ever read, exactly when the actor starts
   with a timeout that is zero or negative but not -1.
   */
  lemma {:induction false} StarvesExactly(timeout: int, now: int)
    requires now < INT64_MAX
    ensures (forall ticks :: AllPossible(StartTimer(timeout, now), now, ticks)
                             ==> AllFire(StartTimer(timeout, now), now, ticks))
       <==> timeout <= 0 && timeout != -1
  {
    var t := StartTimer(timeout, now);
    if timeout <= 0 && timeout != -1 {
      forall ticks | AllPossible(t, now, ticks) ensures AllFire(t, now, ticks) {
        PastDeadlineFires(t, now, ticks);
      }
    } else {
      var k := Tick(Reads(now, now, now, if timeout > 0 then [now] else []), false);
      var ticks := [k];
      assert Possible(t, now, k);
      assert ticks[1..] == [];
      assert AllPossible(t, now, ticks) && Fired(t, now, ticks) == 0;
      assert !AllFire(t, now, ticks);
    }
  }

  /** After set_timeout the same happens exactly when the timeout is zero. */
  lemma {:induction false} SetStarvesExactly(timeout: int, now: int)
    requires now < INT64_MAX
    ensures (forall ticks :: AllPossible(SetTimeout(timeout, now), now, ticks)
                             ==> AllFire(SetTimeout(timeout, now), now, ticks))
       <==> timeout == 0
  {
    var t := SetTimeout(timeout, now);
    if timeout == 0 {
      forall ticks | AllPossible(t, now, ticks) ensures AllFire(t, now, ticks) {
        PastDeadlineFires(t, now, ticks);
      }
    } else {
      var k := Tick(Reads(now, now, now, if timeout > 0 then [now] else []), false);
      var ticks := [k];
      assert Possible(t, now, k);
      assert ticks[1..] == [];
      assert AllPossible(t, now, ticks) && Fired(t, now, ticks) == 0;
      assert !AllFire(t, now, ticks);
    }
  }

  // ---------------------------------------------------------------- a negative timeout

  /** The clock does not get to its end. */
  predicate BeforeEnd(ticks: seq<Tick>) {
    forall k :: k in ticks ==> k.clock.wake < INT64_MAX
  }

  lemma NextGrows(t: Timer, r: Reads)
    requires LoopReads(t, r.loop)
    ensures Advance(t, r).next >= t.next && Advance(t, r).timeout == t.timeout
  {
    if t.timeout > 0 { assert (|r.loop| - 1) * t.timeout >= 0; }
  }

  lemma {:induction false} FarAheadIsSilent(t: Timer, last: int, ticks: seq<Tick>)
    requires t.next >= INT64_MAX && AllPossible(t, last, ticks) && AlwaysReady(ticks) && BeforeEnd(ticks)
    ensures Fired(t, last, ticks) == 0
    decreases |ticks|
  {
    if ticks != [] {
      assert ticks[0] in ticks;
      NextGrows(t, ticks[0].clock);
      FarAheadIsSilent(Advance(t, ticks[0].clock), LastRead(ticks[0].clock), ticks[1..]);
    }
  }

  /** No call of any run in which a socket is ready and the clock stays below its end fires TIME. */
  ghost predicate Silent(t: Timer, now: int) {
    forall ticks :: AllPossible(t, now, ticks) && AlwaysReady(ticks) && BeforeEnd(ticks) ==> Fired(t, now, ticks) == 0
  }

  lemma {:induction false} DueTick(t: Timer, now: int) returns (ticks: seq<Tick>)
    requires now <= t.next < INT64_MAX
    ensures AllPossible(t, now, ticks) && AlwaysReady(ticks) && BeforeEnd(ticks) && Fired(t, now, ticks) == 1
  {
    var at := t.next;
    ticks := [Tick(Reads(at, at, at, if t.timeout > 0 then [at, at] else []), false)];
    assert ticks[1..] == [];
    assert Possible(t, now, ticks[0]);
  }

  lemma SilentExactly(t: Timer, now: int)
    requires now <= t.next
    ensures Silent(t, now) <==> t.next >= INT64_MAX
  {
    if t.next >= INT64_MAX {
      forall ticks | AllPossible(t, now, ticks) && AlwaysReady(ticks) && BeforeEnd(ticks)
        ensures Fired(t, now, ticks) == 0
      {
        FarAheadIsSilent(t, now, ticks);
      }
    } else {
      var ticks := DueTick(t, now);
      assert Fired(t, now, ticks) != 0;
    }
  }

  /** set_timeout silences the timer exactly for a negative timeout, or one that ends after the clock does. */
  lemma SetSilentExactly(timeout: int, now: int)
    requires now < INT64_MAX
    ensures Silent(SetTimeout(timeout, now), now) <==> timeout < 0 || now + timeout >= INT64_MAX
  {
    SilentExactly(SetTimeout(timeout, now), now);
  }

  /** start does so exactly for -1, or a timeout that ends after the clock does. */
  lemma StartSilentExactly(timeout: int, now: int)
    requires now < INT64_MAX
    ensures Silent(StartTimer(timeout, now), now) <==> timeout == -1 || now + timeout >= INT64_MAX
  {
    if timeout >= -1 {
      SilentExactly(StartTimer(timeout, now), now);
    } else {
      var t := StartTimer(timeout, now);
      var ticks := [Tick(Reads(now, now, now, []), false)];
      assert ticks[1..] == [];
      assert AllPossible(t, now, ticks) && Fired(t, now, ticks) == 1;
    }
  }

  /** While a socket is ready, the first call that fires is the first whose deadline check is a timeout after arming. */
  lemma FirstFires(timeout: int, now: int, k: Tick)
    requires !k.idle
    ensures timeout >= 0 ==> (Fires(SetTimeout(timeout, now), k) <==> k.clock.wake - now >= timeout)
    ensures timeout != -1 ==> (Fires(StartTimer(timeout, now), k) <==> k.clock.wake - now >= timeout)
  {
  }
}
