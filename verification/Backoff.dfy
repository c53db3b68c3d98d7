/** The exponential backoff of components/kvs_utils/src/backoff.c and the power it uses, of
    components/kvs_utils/src/math.c. Times are in units of 100 ns. */
module Backoff {

  const TWO_TO_THE_32 := 0x1_0000_0000
  const TWO_TO_THE_64 := 0x1_0000_0000_0000_0000

  function Pow(b: nat, n: nat): (r: nat) {
    if n == 0 then 1 else b * Pow(b, n - 1)
  }

  // ---------------------------------------------------------------- powers

  lemma {:induction false} PowAdd(b: nat, m: nat, n: nat)
    ensures Pow(b, m + n) == Pow(b, m) * Pow(b, n)
  {
    if m > 0 { PowAdd(b, m - 1, n); Associate(b, Pow(b, m - 1), Pow(b, n)); }
  }

  lemma Associate(a: nat, b: nat, c: nat)
    ensures (a * b) * c == a * (b * c)
  {}

  lemma {:induction false} PowSquare(b: nat, n: nat)
    ensures Pow(b * b, n) == Pow(b, 2 * n)
  {
    if n > 0 {
      PowSquare(b, n - 1);
      assert Pow(b, 2 * n) == b * Pow(b, 2 * n - 1) == b * (b * Pow(b, 2 * n - 2));
      Associate(b, b, Pow(b, 2 * n - 2));
    }
  }

  lemma {:induction false} PowMonotone(b: nat, b': nat, n: nat, n': nat)
    requires b <= b' && n <= n' && 0 < b'
    ensures Pow(b, n) <= Pow(b', n') && 0 < Pow(b', n')
    decreases n'
  {
    if n' > 0 {
      PowMonotone(b, b', if n > 0 then n - 1 else 0, n' - 1);
      MulMonotone(1, b', 1, Pow(b', n' - 1));
      if n > 0 {
        assert Pow(b, n) == b * Pow(b, n - 1) && Pow(b', n') == b' * Pow(b', n' - 1);
        hide Pow;
        MulMonotone(b, b', Pow(b, n - 1), Pow(b', n' - 1));
      }
    }
  }

  lemma MulMonotone(a: nat, a': nat, c: nat, c': nat)
    requires a <= a' && c <= c'
    ensures a * c <= a' * c'
  {}

  /** Equal modulo 2^64. */
  ghost predicate Same(a: int, b: int) { exists k: int :: Off(a, b, k) }

  ghost predicate Off(a: int, b: int, k: int) { a == b + k * TWO_TO_THE_64 }

  lemma SameMod(a: int)
    ensures Same(a % TWO_TO_THE_64, a)
  {
    assert Off(a % TWO_TO_THE_64, a, -(a / TWO_TO_THE_64));
  }

  lemma SameMul(a: int, b: int, c: int)
    requires Same(a, b)
    ensures Same(a * c, b * c)
  {
    var k :| Off(a, b, k);
    assert Off(a * c, b * c, k * c) by { Distribute(b, k, c); }
  }

  lemma Distribute(b: int, k: int, c: int)
    ensures (b + k * TWO_TO_THE_64) * c == b * c + (k * c) * TWO_TO_THE_64
  {}

  lemma SameTransitive(a: int, b: int, c: int)
    requires Same(a, b) && Same(b, c)
    ensures Same(a, c)
  {
    var k :| Off(a, b, k);
    var l :| Off(b, c, l);
    assert Off(a, c, k + l);
  }

  lemma SameSmall(a: int, b: int)
    requires Same(a, b) && 0 <= a < TWO_TO_THE_64 && 0 <= b < TWO_TO_THE_64
    ensures a == b
  {}

  lemma {:induction false} SamePow(a: nat, b: nat, n: nat)
    requires Same(a, b)
    ensures Same(Pow(a, n), Pow(b, n))
  {
    if n == 0 {
      assert Off(1, 1, 0);
    } else {
      SamePow(a, b, n - 1);
      SameMul(Pow(a, n - 1), Pow(b, n - 1), a);
      SameMul(a, b, Pow(b, n - 1));
      SameTransitive(Pow(a, n), Pow(b, n - 1) * a, Pow(b, n));
    }
  }

  /** The exponents computePower accepts. */
  predicate InReach(base: nat, exponent: nat) {
    (base <= 5 && exponent <= 27) || (base <= 100 && exponent <= 9) || (base <= 1000 && exponent <= 6)
  }

  lemma ReachFits(base: nat, exponent: nat)
    requires InReach(base, exponent)
    ensures Pow(base, exponent) < TWO_TO_THE_64
  {
    if base <= 5 && exponent <= 27 {
      PowMonotone(base, 5, exponent, 27);
      PowAdd(5, 9, 18);
      PowAdd(5, 9, 9);
      PowAdd(5, 4, 5);
      assert Pow(5, 4) == 625 && Pow(5, 5) == 5 * Pow(5, 4);
    } else if base <= 100 && exponent <= 9 {
      PowMonotone(base, 100, exponent, 9);
      PowAdd(100, 4, 5);
      assert Pow(100, 4) == 100_000_000 && Pow(100, 5) == 100 * Pow(100, 4);
    } else {
      PowMonotone(base, 1000, exponent, 6);
      PowAdd(1000, 3, 3);
      assert Pow(1000, 3) == 1_000_000_000;
    }
  }

  /** computePower: by squaring, in 64-bit arithmetic that wraps around. */
  method ComputePower(base: nat, exponent: nat) returns (ok: bool, result: nat)
    ensures ok <==> InReach(base, exponent)
    ensures ok ==> result == Pow(base, exponent)
  {
    ok, result := InReach(base, exponent), 0;
    if !ok { return; }
    if exponent == 0 { return true, 1; }
    if base == 0 { PowZero(exponent); return true, 0; }
    var b: nat, e: nat, res: nat := base, exponent, 1;
    assert Off(1 * Pow(base, exponent), Pow(base, exponent), 0);
    while e != 0
      invariant 0 <= res < TWO_TO_THE_64 && Same(res * Pow(b, e), Pow(base, exponent))
    {
      PowerStep(res, b, e);
      var res' := if e % 2 == 1 then (res * b) % TWO_TO_THE_64 else res;
      SameTransitive(res' * Pow((b * b) % TWO_TO_THE_64, e / 2), res * Pow(b, e), Pow(base, exponent));
      res, e, b := res', e / 2, (b * b) % TWO_TO_THE_64;
    }
    ReachFits(base, exponent);
    assert res * Pow(b, 0) == res;
    SameSmall(res, Pow(base, exponent));
    result := res;
  }

  lemma {:induction false} PowZero(n: nat)
    requires n > 0
    ensures Pow(0, n) == 0
  {}

  lemma SameProduct(a: int, a': int, c: int, c': int)
    requires Same(a, a') && Same(c, c')
    ensures Same(a * c, a' * c')
  {
    SameMul(a, a', c);
    SameMul(c, c', a');
    Commute(c, a');
    Commute(c', a');
    SameTransitive(a * c, a' * c, a' * c');
  }

  lemma Commute(a: int, b: int)
    ensures a * b == b * a
  {}

  /** One round of squaring changes the product by multiples of 2^64 only. */
  lemma PowerStep(res: nat, b: nat, e: nat)
    requires e != 0
    ensures var res' := if e % 2 == 1 then (res * b) % TWO_TO_THE_64 else res;
      Same(res' * Pow((b * b) % TWO_TO_THE_64, e / 2), res * Pow(b, e))
  {
    SameMod(b * b);
    SamePow((b * b) % TWO_TO_THE_64, b * b, e / 2);
    PowSquare(b, e / 2);
    SameMod(res * b);
    SameSelf(res);
    if e % 2 == 1 {
      OddStep((res * b) % TWO_TO_THE_64, res, b, Pow((b * b) % TWO_TO_THE_64, e / 2), e / 2);
      assert 2 * (e / 2) + 1 == e;
    } else {
      SameProduct(res, res, Pow((b * b) % TWO_TO_THE_64, e / 2), Pow(b, 2 * (e / 2)));
      assert 2 * (e / 2) == e;
    }
    hide Same, Pow;
  }

  lemma SameSelf(a: int)
    ensures Same(a, a)
  {
    assert Off(a, a, 0);
  }

  lemma OddStep(m: nat, res: nat, b: nat, p: nat, half: nat)
    requires Same(m, res * b) && Same(p, Pow(b, 2 * half))
    ensures Same(m * p, res * Pow(b, 2 * half + 1))
  {
    SameProduct(m, res * b, p, Pow(b, 2 * half));
    Associate(res, b, Pow(b, 2 * half));
    hide Same;
  }

  // ---------------------------------------------------------------- the wait times that are meant

  datatype JitterType = FullJitter | FixedJitter | NoJitter

  datatype Status = Success | InvalidArg | InvalidState | RetriesExhausted

  datatype Progress = NotStarted | InProgress | Terminated

  /** maxRetryCount is 0 for no limit. */
  datatype Config = Config(maxRetryCount: nat, maxWait: nat, factor: nat, minReset: nat, jitterType: JitterType, jitterFactor: nat)

  const INFINITE_RETRIES := 0
  const EXPONENTIAL_FACTOR := 2
  const UNITS_IN_A_MILLISECOND := 10_000

  /** validateExponentialBackoffConfig, on times in milliseconds. */
  predicate InRange(c: Config) {
    && 10_000 <= c.maxWait <= 25_000
    && 50 <= c.factor <= 1_000
    && 90_000 <= c.minReset <= 120_000
    && (c.jitterType.FixedJitter? ==> 50 <= c.jitterFactor <= 600)
  }

  /** normalizeExponentialBackoffConfig. */
  function Normalized(c: Config): Config {
    c.(maxWait := c.maxWait * UNITS_IN_A_MILLISECOND, factor := c.factor * UNITS_IN_A_MILLISECOND,
       minReset := c.minReset * UNITS_IN_A_MILLISECOND)
  }

  const DEFAULT := Config(INFINITE_RETRIES, 16_000, 1_000, 90_000, FullJitter, 0)

  /** A configuration as the retry state keeps it. */
  predicate Kept(c: Config) {
    && 100_000_000 <= c.maxWait <= 250_000_000
    && 500_000 <= c.factor <= 10_000_000
    && (c.jitterType.FixedJitter? ==> 50 <= c.jitterFactor <= 600)
  }

  /** The wait before jitter of retry n since the last reset. */
  function Base(c: Config, n: nat): nat {
    var curve := Pow(EXPONENTIAL_FACTOR, n) * c.factor;
    if curve < c.maxWait then curve else c.maxWait
  }

  /** One more than the largest jitter on a wait. */
  function JitterLimit(c: Config, wait: nat): nat {
    match c.jitterType
    case FullJitter => wait
    case FixedJitter => c.jitterFactor * UNITS_IN_A_MILLISECOND
    case NoJitter => 1
  }

  lemma PowPositive(n: nat)
    ensures Pow(EXPONENTIAL_FACTOR, n) >= 1
  {}

  /** The waits are positive and double until they reach the largest. */
  lemma BaseIs(c: Config, n: nat)
    requires Kept(c)
    ensures 0 < Base(c, n) <= c.maxWait
    ensures Base(c, n + 1) == if 2 * Base(c, n) < c.maxWait then 2 * Base(c, n) else c.maxWait
  {
    PowPositive(n);
    var p := Pow(EXPONENTIAL_FACTOR, n);
    MulMonotone(1, p, c.factor, c.factor);
    assert Pow(EXPONENTIAL_FACTOR, n + 1) == 2 * p;
    Associate(2, p, c.factor);
  }

  /** A jittered wait that reached the largest was followed by the largest anyway: the shortcut on the
      previous wait, jitter included, never changes the next one. */
  lemma ShortcutAgrees(c: Config, n: nat, last: nat)
    requires Kept(c) && Base(c, n) <= last < Base(c, n) + JitterLimit(c, Base(c, n)) && last >= c.maxWait
    ensures Base(c, n + 1) == c.maxWait
  {}

  /** Without the shortcut the power is within reach and the product far from overflowing. */
  lemma ProductFits(c: Config, n: nat, last: nat)
    requires Kept(c) && (n > 0 ==> Base(c, n - 1) <= last < c.maxWait)
    ensures n <= 9 && Pow(EXPONENTIAL_FACTOR, n) * c.factor < 2 * c.maxWait
  {
    if n == 0 {
      assert Pow(EXPONENTIAL_FACTOR, 0) * c.factor == c.factor;
    } else {
      var p := Pow(EXPONENTIAL_FACTOR, n - 1);
      assert Pow(EXPONENTIAL_FACTOR, n) == 2 * p;
      Associate(2, p, c.factor);
      if n > 9 {
        PowMonotone(EXPONENTIAL_FACTOR, EXPONENTIAL_FACTOR, 9, n - 1);
        PowAdd(2, 4, 5);
        assert Pow(2, 4) == 16 && Pow(2, 5) == 2 * Pow(2, 4);
        MulMonotone(512, p, 500_000, c.factor);
      }
    }
  }

  // ---------------------------------------------------------------- the retry state

  class RetryState {
    const config: Config
    var status: Progress
    var currentRetryCount: nat
    var lastRetrySystemTime: nat
    var lastRetryWaitTime: nat
    /** How many waits have been given since the last reset, without wrap-around. */
    ghost var retries: nat

    ghost predicate Valid()
      reads this
    {
      && Kept(config)
      && currentRetryCount == retries % TWO_TO_THE_32
      && (if retries == 0 then lastRetryWaitTime == 0
          else
            var wait := Base(config, retries - 1);
            wait <= lastRetryWaitTime < wait + JitterLimit(config, wait))
    }

    constructor (c: Config)
      requires Kept(c)
      ensures Valid() && config == c && retries == 0 && status == NotStarted
    {
      config := c;
      status, currentRetryCount, lastRetrySystemTime, lastRetryWaitTime := NotStarted, 0, 0, 0;
      retries := 0;
    }

    /** resetExponentialBackoffRetryState. */
    method Reset()
      requires Kept(config)
      modifies this
      ensures Valid() && retries == currentRetryCount == lastRetryWaitTime == lastRetrySystemTime == 0 && status == NotStarted
    {
      status, currentRetryCount, lastRetrySystemTime, lastRetryWaitTime := NotStarted, 0, 0, 0;
      retries := 0;
    }

    /** validateAndUpdateExponentialBackoffStatus. */
    method UpdateStatus() returns (ok: bool)
      modifies this`status
      ensures ok <==> !old(status).Terminated?
      ensures status == if ok then InProgress else old(status)
    {
      match status
      case NotStarted => status := InProgress; ok := true;
      case InProgress => ok := true;
      case Terminated => ok := false;
    }

    /** calculateWaitTime, in 64-bit arithmetic. */
    method CalculateWaitTime() returns (ok: bool, wait: nat)
      requires Valid() && (retries > 0 ==> lastRetryWaitTime < config.maxWait)
      ensures ok && wait == Pow(EXPONENTIAL_FACTOR, retries) * config.factor
    {
      ProductFits(config, retries, lastRetryWaitTime);
      var power;
      ok, power := ComputePower(EXPONENTIAL_FACTOR, currentRetryCount);
      wait := 0;
      if !ok { return; }
      wait := (power * config.factor) % TWO_TO_THE_64;
    }

    /** getRandomJitter. */
    method RandomJitter(wait: nat, rand: nat) returns (jitter: nat)
      requires Kept(config) && wait > 0
      ensures jitter == rand % JitterLimit(config, wait) < JitterLimit(config, wait)
    {
      match config.jitterType
      case FullJitter => jitter := rand % wait;
      case FixedJitter => jitter := rand % (config.jitterFactor * UNITS_IN_A_MILLISECOND);
      case NoJitter => jitter := 0;
    }

    /** getExponentialBackoffRetryStrategyWaitTime at time now, with rand from the random source. n is
        the number of waits given since the last reset, this call's own reset included. */
    method GetWaitTime(now: nat, rand: nat) returns (st: Status, wait: nat, ghost n: nat)
      requires Valid() && config.maxRetryCount < TWO_TO_THE_32
      modifies this
      ensures Valid()
      ensures old(status).Terminated? ==> st == InvalidState && status == Terminated && retries == old(retries)
      ensures !old(status).Terminated? && config.maxRetryCount != INFINITE_RETRIES && old(currentRetryCount) >= config.maxRetryCount ==>
        st == RetriesExhausted && retries == 0 && status == NotStarted
      ensures !old(status).Terminated? && (config.maxRetryCount == INFINITE_RETRIES || old(currentRetryCount) < config.maxRetryCount) ==>
        st == Success && status == InProgress && lastRetrySystemTime == now && retries == n + 1
      ensures n == if old(currentRetryCount) != 0 && now > old(lastRetrySystemTime) + config.minReset then 0 else old(retries)
      ensures st == Success ==> wait == JitteredWait(config, n, rand) == lastRetryWaitTime
    {
      hide Base, JitterLimit, JitteredWait;
      wait := 0;
      n := if currentRetryCount != 0 && now > lastRetrySystemTime + config.minReset then 0 else retries;
      var ok := UpdateStatus();
      if !ok { return InvalidState, 0, n; }
      if !(config.maxRetryCount == INFINITE_RETRIES || config.maxRetryCount > currentRetryCount) {
        Reset();
        return RetriesExhausted, 0, n;
      }
      if currentRetryCount != 0 && now > lastRetrySystemTime && now - lastRetrySystemTime > config.minReset {
        Reset();
        status := InProgress;
      }
      st, wait := NextWait(now, rand);
    }

    /** The rest of it, once the state has been checked and reset. */
    method NextWait(now: nat, rand: nat) returns (st: Status, wait: nat)
      requires Valid()
      modifies this`lastRetryWaitTime, this`lastRetrySystemTime, this`currentRetryCount, this`retries
      ensures Valid() && st == Success && lastRetrySystemTime == now && retries == old(retries) + 1
      ensures wait == JitteredWait(config, old(retries), rand) == lastRetryWaitTime
    {
      hide Base;
      if lastRetryWaitTime >= config.maxWait {
        wait := config.maxWait;
        ShortcutAgrees(config, retries - 1, lastRetryWaitTime);
      } else {
        var ok;
        ok, wait := CalculateWaitTime();
        st := InvalidArg;
        if !ok { return; }
        BaseUnfolds(config, retries);
        if wait > config.maxWait { wait := config.maxWait; }
      }
      BaseIs(config, retries);
      var jitter := RandomJitter(wait, rand);
      hide JitterLimit;
      wait := wait + jitter;
      lastRetryWaitTime := wait;
      lastRetrySystemTime := now;
      currentRetryCount := (currentRetryCount + 1) % TWO_TO_THE_32;
      WrapNext(retries);
      retries := retries + 1;
      st := Success;
    }
  }

  /** The wait of retry n with its jitter. */
  function JitteredWait(c: Config, n: nat, rand: nat): (wait: nat)
    requires Kept(c)
    ensures Base(c, n) <= wait < 2 * c.maxWait
  {
    BaseIs(c, n);
    Base(c, n) + rand % JitterLimit(c, Base(c, n))
  }

  /** The wait with full jitter is anything from its closed form to less than twice that, with fixed jitter
      anything up to less than the jitter factor in milliseconds more, and without jitter the closed form; and
      the random source can give any of them. */
  lemma JitterIs(c: Config, n: nat, wait: nat)
    requires Kept(c)
    ensures (exists rand: nat :: JitteredWait(c, n, rand) == wait) <==>
      Base(c, n) <= wait && match c.jitterType
        case FullJitter => wait < 2 * Base(c, n)
        case FixedJitter => wait < Base(c, n) + c.jitterFactor * 10_000
        case NoJitter => wait == Base(c, n)
  {
    BaseIs(c, n);
    var limit := JitterLimit(c, Base(c, n));
    assert limit > 0;
    if Base(c, n) <= wait < Base(c, n) + limit {
      hide Base, JitterLimit;
      SmallRemainder(wait - Base(c, n), limit);
      assert JitteredWait(c, n, wait - Base(c, n)) == wait;
    }
    if rand: nat :| JitteredWait(c, n, rand) == wait {
      assert rand % limit < limit;
    }
  }

  lemma SmallRemainder(a: nat, b: nat)
    requires a < b
    ensures a % b == a
  {}

  lemma WrapNext(n: nat)
    ensures (n % TWO_TO_THE_32 + 1) % TWO_TO_THE_32 == (n + 1) % TWO_TO_THE_32
  {}

  lemma BaseUnfolds(c: Config, n: nat)
    ensures Base(c, n) == var curve := Pow(EXPONENTIAL_FACTOR, n) * c.factor; if curve < c.maxWait then curve else c.maxWait
  {}

  /** exponentialBackoffRetryStrategyCreate: the default configuration without one, an error for one that
      is out of range. */
  method Create(c: Config, given: bool) returns (st: Status, r: RetryState?)
    ensures st == if given && !InRange(c) then InvalidArg else Success
    ensures st == Success ==> r != null && fresh(r) && r.Valid() && r.retries == 0
    ensures st == Success ==> r.config == Normalized(if given then c else DEFAULT)
  {
    if given && !InRange(c) { return InvalidArg, null; }
    r := new RetryState(Normalized(if given then c else DEFAULT));
    st := Success;
  }
}
