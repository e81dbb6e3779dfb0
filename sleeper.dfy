/**
 * The exponential backoff sleeper of internal/sleeper/sleeper.go: `Sleep`
 * waits for the current delay and doubles it, `Reset` restores the initial
 * delay. Delays are Go `time.Duration`s, signed 64-bit nanosecond counts, so
 * the doubling `sleepDuration += sleepDuration` wraps around like int64 does.
 * The wait itself is a real-time effect; the model records each requested
 * duration in the ghost history `waits` instead.
 */
module Sleeper {

  const TwoTo64: int := 0x1_0000_0000_0000_0000
  const MinInt64: int := -0x8000_0000_0000_0000
  const MaxInt64: int := 0x7FFF_FFFF_FFFF_FFFF

  /** A Go `time.Duration`. */
  type Duration = d: int | MinInt64 <= d <= MaxInt64

  /** Two's-complement wrap-around of an integer into the int64 range. */
  function Wrap64(x: int): (r: Duration)
    ensures MinInt64 <= x <= MaxInt64 ==> r == x
  {
    (x - MinInt64) % TwoTo64 + MinInt64
  }

  /** Euclidean division by 2^64 has one quotient and one remainder. */
  lemma DivModUnique(z: int, q: int, r: int)
    requires z == TwoTo64 * q + r && 0 <= r < TwoTo64
    ensures z / TwoTo64 == q && z % TwoTo64 == r
  {
  }

  /** Wrapping ignores multiples of 2^64. */
  lemma WrapShift(x: int, q: int)
    ensures Wrap64(x + TwoTo64 * q) == Wrap64(x)
  {
    var y := x - MinInt64;
    DivModUnique(y + TwoTo64 * q, y / TwoTo64 + q, y % TwoTo64);
  }

  /** Doubling in int64 and then wrapping equals wrapping the exact double. */
  lemma WrapDouble(x: int)
    ensures Wrap64(2 * Wrap64(x)) == Wrap64(2 * x)
  {
    var d := (x - MinInt64) / TwoTo64;
    assert Wrap64(x) == x - TwoTo64 * d;
    assert 2 * Wrap64(x) == 2 * x + TwoTo64 * (-2 * d);
    WrapShift(2 * x, -2 * d);
  }

  function Pow2(n: nat): (r: nat)
    ensures r >= 1
  {
    if n == 0 then 1 else 2 * Pow2(n - 1)
  }

  lemma {:induction false} Pow2Add(a: nat, b: nat)
    ensures Pow2(a + b) == Pow2(a) * Pow2(b)
  {
    if a > 0 {
      Pow2Add(a - 1, b);
      assert Pow2(a + b) == 2 * Pow2(a - 1 + b);
    }
  }

  lemma Pow2Square(n: nat, v: nat)
    requires Pow2(n) == v
    ensures Pow2(n + n) == v * v
  {
    Pow2Add(n, n);
  }

  lemma Pow2Of64()
    ensures Pow2(64) == TwoTo64
  {
    Pow2Square(1, 2);
    Pow2Square(2, 4);
    Pow2Square(4, 16);
    Pow2Square(8, 256);
    Pow2Square(16, 0x1_0000);
    Pow2Square(32, 0x1_0000_0000);
  }

  /** The delay after `n` doublings of `initial`, each done in int64 arithmetic. */
  function Backoff(initial: Duration, n: nat): Duration
  {
    if n == 0 then initial else Wrap64(2 * Backoff(initial, n - 1))
  }

  lemma MulDouble(a: int, p: int)
    ensures a * (2 * p) == 2 * (a * p)
  {
  }

  /** The doublings compose: the n-th delay is initial * 2^n, wrapped once into int64. */
  lemma {:induction false} BackoffClosedForm(initial: Duration, n: nat)
    ensures Backoff(initial, n) == Wrap64(initial * Pow2(n))
  {
    if n > 0 {
      var p := Pow2(n - 1);
      var x := initial * p;
      BackoffClosedForm(initial, n - 1);
      MulDouble(initial, p);
      WrapDouble(x);
    }
  }

  /** The delays waited for by the first `n` sleeps after a reset, in order. */
  function Schedule(initial: Duration, n: nat): (s: seq<Duration>)
    ensures |s| == n
  {
    if n == 0 then [] else Schedule(initial, n - 1) + [Backoff(initial, n - 1)]
  }

  lemma {:induction false} ScheduleAt(initial: Duration, n: nat, i: nat)
    requires i < n
    ensures Schedule(initial, n)[i] == Backoff(initial, i)
  {
    if i < n - 1 {
      ScheduleAt(initial, n - 1, i);
    }
  }

  lemma MulComm(x: int, y: int)
    ensures x * y == y * x
  {
  }

  lemma MulAssoc(x: int, y: int, z: int)
    ensures x * (y * z) == (x * y) * z
  {
  }

  lemma MulGrows(a: int, p: int)
    requires p >= 1
    ensures a >= 0 ==> a <= a * p
    ensures a < 0 ==> a * p <= a
  {
    assert a * p - a == a * (p - 1);
  }

  /** A delay below one that is still in the int64 range is in range too. */
  lemma InRangeBelow(initial: Duration, j: nat, m: nat)
    requires j <= m
    requires MinInt64 <= initial * Pow2(m) <= MaxInt64
    ensures MinInt64 <= initial * Pow2(j) <= MaxInt64
  {
    Pow2Add(j, m - j);
    var a := initial * Pow2(j);
    var p := Pow2(m - j);
    MulAssoc(initial, Pow2(j), p);
    MulGrows(a, p);
  }

  /**
   * While no delay leaves the int64 range, the waited delays after a reset
   * are initial, 2*initial, 4*initial, ...: the first is the initial delay
   * and each one is exactly twice the one before.
   */
  lemma ScheduleDoubles(initial: Duration, n: nat, i: nat)
    requires 0 < i < n
    requires MinInt64 <= initial * Pow2(n - 1) <= MaxInt64
    ensures Schedule(initial, n)[0] == initial
    ensures Schedule(initial, n)[i] as int == 2 * (Schedule(initial, n)[i - 1] as int)
    ensures Schedule(initial, n)[i] as int == initial * Pow2(i)
  {
    ScheduleAt(initial, n, 0);
    ScheduleAt(initial, n, i);
    ScheduleAt(initial, n, i - 1);
    BackoffClosedForm(initial, i);
    BackoffClosedForm(initial, i - 1);
    InRangeBelow(initial, i, n - 1);
    InRangeBelow(initial, i - 1, n - 1);
    MulDouble(initial, Pow2(i - 1));
  }

  /**
   * The doubling has no cap: after 64 sleeps without a reset the int64 delay
   * has wrapped around to zero, and it stays zero until the next reset.
   */
  lemma BackoffWrapsToZero(initial: Duration, n: nat)
    requires n >= 64
    ensures Backoff(initial, n) == 0
  {
    BackoffClosedForm(initial, n);
    Pow2Add(64, n - 64);
    Pow2Of64();
    var j := initial * Pow2(n - 64);
    MulAssoc(initial, TwoTo64, Pow2(n - 64));
    MulComm(initial, TwoTo64);
    assert initial * Pow2(n) == 0 + TwoTo64 * j;
    WrapShift(0, j);
  }

  /** The sleeper's state: its current delay, sleeps since the last reset, every delay waited for. */
  datatype SleeperState = SleeperState(sleepDuration: Duration, sinceReset: nat, waits: seq<Duration>)

  /**
   * The sleeper's invariant: the current delay is the backoff after
   * `sinceReset` doublings, and the waits since the last reset followed the
   * schedule.
   */
  ghost predicate Consistent(initial: Duration, s: SleeperState)
  {
    && s.sleepDuration == Backoff(initial, s.sinceReset)
    && s.sinceReset <= |s.waits|
    && s.waits[|s.waits| - s.sinceReset..] == Schedule(initial, s.sinceReset)
  }

  /** Sleep: wait for the current delay, then add the delay to itself in int64. */
  function AfterSleep(s: SleeperState): SleeperState
  {
    SleeperState(Wrap64(s.sleepDuration + s.sleepDuration), s.sinceReset + 1, s.waits + [s.sleepDuration])
  }

  /** The sleeper after `j` sleeps in a row, with no reset between them. */
  function Slept(s: SleeperState, j: nat): (r: SleeperState)
    ensures r.sinceReset == s.sinceReset + j
  {
    if j == 0 then s else AfterSleep(Slept(s, j - 1))
  }

  /** A sleep followed by `j` more is `j + 1` sleeps. */
  lemma {:induction false} SleptShift(s: SleeperState, j: nat)
    ensures Slept(AfterSleep(s), j) == Slept(s, j + 1)
  {
    if j > 0 {
      SleptShift(s, j - 1);
    }
  }

  /** Any run of sleeps keeps the sleeper consistent. */
  lemma {:induction false} SleptKeepsConsistent(initial: Duration, s: SleeperState, j: nat)
    requires Consistent(initial, s)
    ensures Consistent(initial, Slept(s, j))
  {
    if j > 0 {
      SleptKeepsConsistent(initial, s, j - 1);
      SleepKeepsConsistent(initial, Slept(s, j - 1));
    }
  }

  /** Reset: back to the initial delay; nothing waited for is forgotten. */
  function AfterReset(initial: Duration, s: SleeperState): SleeperState
  {
    SleeperState(initial, 0, s.waits)
  }

  /** A sleep keeps the invariant: it waits for the scheduled delay and moves on to the next one. */
  lemma SleepKeepsConsistent(initial: Duration, s: SleeperState)
    requires Consistent(initial, s)
    ensures Consistent(initial, AfterSleep(s))
    ensures AfterSleep(s).waits[|s.waits|] == Backoff(initial, s.sinceReset)
  {
    var t := AfterSleep(s);
    assert t.waits[|t.waits| - t.sinceReset..] == s.waits[|s.waits| - s.sinceReset..] + [s.sleepDuration];
  }

  /** A reset restores the invariant from any state, consistent or not. */
  lemma ResetKeepsConsistent(initial: Duration, s: SleeperState)
    ensures Consistent(initial, AfterReset(initial, s))
    ensures AfterReset(initial, s).sleepDuration == initial
  {
    var t := AfterReset(initial, s);
    assert t.waits[|t.waits|..] == [];
  }

  /** A second reset changes nothing, and a reset waits for nothing. */
  lemma ResetIdempotent(initial: Duration, s: SleeperState)
    ensures AfterReset(initial, AfterReset(initial, s)) == AfterReset(initial, s)
    ensures AfterReset(initial, s).waits == s.waits
  {
  }

  /** exponentialBackoffSleeper */
  class ExponentialBackoffSleeper {
    const initial: Duration
    var sleepDuration: Duration
    /** Sleeps since construction or the last reset. */
    ghost var sinceReset: nat
    /** Every duration handed to the clock, oldest first. */
    ghost var waits: seq<Duration>

    ghost function Model(): SleeperState
      reads this
    {
      SleeperState(sleepDuration, sinceReset, waits)
    }

    ghost predicate Valid()
      reads this
    {
      Consistent(initial, Model())
    }

    /** NewExponentialSleeper: never fails; the first delay is the initial one. */
    constructor (initial: Duration)
      ensures Valid()
      ensures this.initial == initial && Model() == SleeperState(initial, 0, [])
    {
      this.initial := initial;
      sleepDuration := initial;
      sinceReset := 0;
      waits := [];
    }

    /** Waits for the current delay, then doubles it. */
    method Sleep()
      modifies this
      ensures Model() == AfterSleep(old(Model()))
      ensures old(Valid()) ==> Valid()
    {
      ghost var before := Model();
      waits := waits + [sleepDuration];
      sleepDuration := Wrap64(sleepDuration + sleepDuration);
      sinceReset := sinceReset + 1;
      if Consistent(initial, before) {
        SleepKeepsConsistent(initial, before);
      }
    }

    /** Restores the initial delay, whatever happened before. */
    method Reset()
      modifies this
      ensures Model() == AfterReset(initial, old(Model()))
      ensures Valid()
    {
      ghost var before := Model();
      sleepDuration := initial;
      sinceReset := 0;
      ResetKeepsConsistent(initial, before);
    }
  }
}
