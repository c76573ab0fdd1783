/**
  The token bucket of middleware.go: lazy refill on each request, over reals.
 */
module TokenBucket {

  function Min(a: real, b: real): real {
    if a <= b then a else b
  }

  /** The configuration of a bucket; `capacity` is the burst size. */
  datatype Limits = Limits(capacity: int, rate: real)

  /** The mutable part of tokenBucket. */
  datatype Bucket = Bucket(tokens: real, last: real)

  function Full(l: Limits, now: real): Bucket {
    Bucket(l.capacity as real, now)
  }

  /** Tokens that arrive between two moments. */
  function Refill(l: Limits, from: real, to: real): real {
    (to - from) * l.rate
  }

  lemma RefillAdds(l: Limits, a: real, b: real, c: real)
    ensures Refill(l, a, b) + Refill(l, b, c) == Refill(l, a, c)
    ensures Refill(l, a, a) == 0.0
  {
    assert (b - a) * l.rate + (c - b) * l.rate == ((b - a) + (c - b)) * l.rate;
  }

  lemma RefillNotNegative(l: Limits, a: real, b: real)
    requires l.rate >= 0.0 && a <= b
    ensures Refill(l, a, b) >= 0.0
  {
  }

  function Refilled(l: Limits, b: Bucket, now: real): real {
    Min(b.tokens + Refill(l, b.last, now), l.capacity as real)
  }

  predicate Admits(l: Limits, b: Bucket, now: real) {
    Refilled(l, b, now) >= 1.0
  }

  function Taken(l: Limits, b: Bucket, now: real): Bucket {
    Bucket(Refilled(l, b, now) - if Admits(l, b, now) then 1.0 else 0.0, now)
  }

  class TokenBucket {
    const limits: Limits
    var tokens: real
    var last: real

    ghost function State(): Bucket
      reads this
    {
      Bucket(tokens, last)
    }

    constructor (limits: Limits, now: real)
      ensures this.limits == limits && State() == Full(limits, now)
      ensures tokens == limits.capacity as real && last == now
    {
      this.limits := limits;
      tokens := limits.capacity as real;
      last := now;
    }

    /** The critical section shared by GlobalRateLimiter and ipLimiter.allow. */
    method Take(now: real) returns (allowed: bool)
      modifies this
      ensures allowed == Admits(limits, old(State()), now)
      ensures State() == Taken(limits, old(State()), now)
      ensures var full := limits.capacity as real;
        var filled := old(tokens) + (now - old(last)) * limits.rate;
        var level := if filled > full then full else filled;
        allowed == (level >= 1.0) && tokens == (if allowed then level - 1.0 else level) && last == now
    {
      var delta := now - last;
      assert delta * limits.rate == Refill(limits, last, now);
      tokens := tokens + delta * limits.rate;
      if tokens > limits.capacity as real {
        tokens := limits.capacity as real;
      }
      last := now;
      allowed := tokens >= 1.0;
      if allowed {
        tokens := tokens - 1.0;
      }
    }
  }

  // ------------------------------------------------------------- whole traces

  /** The bucket created full at `start`, after the first `j` requests at `times`. */
  function After(l: Limits, start: real, times: seq<real>, j: nat): Bucket
    requires j <= |times|
  {
    if j == 0 then Full(l, start) else Taken(l, After(l, start, times, j - 1), times[j - 1])
  }

  /** Is request `j` admitted? */
  predicate Decision(l: Limits, start: real, times: seq<real>, j: nat)
    requires j < |times|
  {
    Admits(l, After(l, start, times, j), times[j])
  }

  /** The level seen by request `j`, after refill. */
  function Level(l: Limits, start: real, times: seq<real>, j: nat): real
    requires j < |times|
  {
    Refilled(l, After(l, start, times, j), times[j])
  }

  /** Number of requests admitted among `i`, ..., `j - 1`. */
  function Admitted(l: Limits, start: real, times: seq<real>, i: nat, j: nat): nat
    requires i <= j <= |times|
  {
    if i == j then 0 else Admitted(l, start, times, i, j - 1) + if Decision(l, start, times, j - 1) then 1 else 0
  }

  /** What the window opened by request `i` leaves for request `j`: burst plus refill minus admissions. */
  function Budget(l: Limits, start: real, times: seq<real>, i: nat, j: nat): real
    requires i <= j < |times|
  {
    l.capacity as real + Refill(l, times[i], times[j]) - Admitted(l, start, times, i, j) as real
  }

  /** The minimum of the budgets of all windows that end at request `j` and start no later than `i`. */
  function LeastBudget(l: Limits, start: real, times: seq<real>, i: nat, j: nat): (r: real)
    requires i <= j < |times|
    ensures forall k | 0 <= k <= i :: r <= Budget(l, start, times, k, j)
    ensures exists k | 0 <= k <= i :: r == Budget(l, start, times, k, j)
  {
    if i == 0 then Budget(l, start, times, 0, j)
    else Min(LeastBudget(l, start, times, i - 1, j), Budget(l, start, times, i, j))
  }

  lemma BudgetStep(l: Limits, start: real, times: seq<real>, i: nat, j: nat)
    requires i < j < |times|
    ensures Budget(l, start, times, i, j) == Budget(l, start, times, i, j - 1)
      - (if Decision(l, start, times, j - 1) then 1.0 else 0.0) + Refill(l, times[j - 1], times[j])
  {
    RefillAdds(l, times[i], times[j - 1], times[j]);
  }

  lemma {:induction false} LeastBudgetStep(l: Limits, start: real, times: seq<real>, i: nat, j: nat)
    requires i < j < |times|
    ensures LeastBudget(l, start, times, i, j) == LeastBudget(l, start, times, i, j - 1)
      - (if Decision(l, start, times, j - 1) then 1.0 else 0.0) + Refill(l, times[j - 1], times[j])
    decreases i
  {
    BudgetStep(l, start, times, i, j);
    if i > 0 {
      LeastBudgetStep(l, start, times, i - 1, j);
    }
  }

  ghost predicate ClockStartsBefore(start: real, times: seq<real>) {
    times != [] ==> start <= times[0]
  }

  /** From one request to the next, level and budgets move by the same amount: a refill less an admission. */
  lemma Advance(l: Limits, start: real, times: seq<real>, j: nat) returns (gain: real)
    requires 0 < j < |times|
    ensures Level(l, start, times, j) == Min(Level(l, start, times, j - 1) + gain, l.capacity as real)
    ensures LeastBudget(l, start, times, j - 1, j) == LeastBudget(l, start, times, j - 1, j - 1) + gain
  {
    gain := Refill(l, times[j - 1], times[j]) - if Decision(l, start, times, j - 1) then 1.0 else 0.0;
    LeastBudgetStep(l, start, times, j - 1, j);
  }

  lemma FirstLevelIsFull(l: Limits, start: real, times: seq<real>)
    requires l.rate >= 0.0 && times != [] && start <= times[0]
    ensures Level(l, start, times, 0) == l.capacity as real
  {
    RefillNotNegative(l, start, times[0]);
  }

  lemma OwnBudgetIsFull(l: Limits, start: real, times: seq<real>, j: nat)
    requires j < |times|
    ensures Budget(l, start, times, j, j) == l.capacity as real
  {
    RefillAdds(l, times[j], times[j], times[j]);
  }

  /** Exact closed form: the level seen by request `j` is the least budget over all windows ending there. */
  lemma {:induction false} LevelIsLeastBudget(l: Limits, start: real, times: seq<real>, j: nat)
    requires l.rate >= 0.0 && ClockStartsBefore(start, times) && j < |times|
    ensures Level(l, start, times, j) == LeastBudget(l, start, times, j, j)
    decreases j
  {
    OwnBudgetIsFull(l, start, times, j);
    if j == 0 {
      FirstLevelIsFull(l, start, times);
    } else {
      LevelIsLeastBudget(l, start, times, j - 1);
      var gain := Advance(l, start, times, j);
    }
  }

  /** Request `j` is admitted exactly when no window ending at it would exceed burst + rate * elapsed. */
  lemma AdmittedIffEveryWindowAllows(l: Limits, start: real, times: seq<real>, j: nat)
    requires l.rate >= 0.0 && ClockStartsBefore(start, times) && j < |times|
    ensures Decision(l, start, times, j) <==>
      forall i | 0 <= i <= j :: Admitted(l, start, times, i, j) as real + 1.0
                                <= l.capacity as real + Refill(l, times[i], times[j])
  {
    LevelIsLeastBudget(l, start, times, j);
    forall i | 0 <= i <= j
      ensures Budget(l, start, times, i, j) >= 1.0 <==>
        Admitted(l, start, times, i, j) as real + 1.0 <= l.capacity as real + Refill(l, times[i], times[j])
    {
    }
  }

  /** Any window of consecutive requests admits at most burst + rate * elapsed of them. */
  lemma {:induction false} WindowBound(l: Limits, start: real, times: seq<real>, i: nat, j: nat)
    requires l.rate >= 0.0 && ClockStartsBefore(start, times) && i <= j < |times|
    requires forall k | i < k < |times| :: times[k - 1] <= times[k]
    requires l.capacity >= 0
    ensures Admitted(l, start, times, i, j + 1) as real <= l.capacity as real + Refill(l, times[i], times[j])
    decreases j
  {
    if Decision(l, start, times, j) {
      AdmittedIffEveryWindowAllows(l, start, times, j);
    } else if i < j {
      WindowBound(l, start, times, i, j - 1);
      RefillAdds(l, times[i], times[j - 1], times[j]);
      RefillNotNegative(l, times[j - 1], times[j]);
    } else {
      RefillAdds(l, times[i], times[i], times[i]);
    }
  }

  /** With a clock that never runs back, the level stays between 0 and the burst size. */
  lemma {:induction false} TokensStayInRange(l: Limits, start: real, times: seq<real>, j: nat)
    requires l.rate >= 0.0 && l.capacity >= 0 && ClockStartsBefore(start, times) && j <= |times|
    requires forall k | 0 < k < |times| :: times[k - 1] <= times[k]
    ensures 0.0 <= After(l, start, times, j).tokens <= l.capacity as real
    decreases j
  {
    if j > 0 {
      TokensStayInRange(l, start, times, j - 1);
      var b := After(l, start, times, j - 1);
      assert b.last <= times[j - 1];
      RefillNotNegative(l, b.last, times[j - 1]);
    }
  }

  // ---------------------------------------------------------------- optimality

  /** Number of requests that some other policy admits among `i`, ..., `j - 1`. */
  function Granted(policy: seq<bool>, i: nat, j: nat): nat
    requires i <= j <= |policy|
  {
    if i == j then 0 else Granted(policy, i, j - 1) + if policy[j - 1] then 1 else 0
  }

  lemma {:induction false} GrantedSplits(policy: seq<bool>, i: nat, j: nat)
    requires i <= j <= |policy|
    ensures Granted(policy, 0, j) == Granted(policy, 0, i) + Granted(policy, i, j)
    decreases j
  {
    if i < j {
      GrantedSplits(policy, i, j - 1);
    }
  }

  lemma {:induction false} AdmittedSplits(l: Limits, start: real, times: seq<real>, i: nat, j: nat)
    requires i <= j <= |times|
    ensures Admitted(l, start, times, 0, j) == Admitted(l, start, times, 0, i) + Admitted(l, start, times, i, j)
    decreases j
  {
    if i < j {
      AdmittedSplits(l, start, times, i, j - 1);
    }
  }

  /** The policy keeps every window within burst + rate * elapsed. */
  ghost predicate Conforms(l: Limits, times: seq<real>, policy: seq<bool>) {
    |policy| == |times| &&
    forall i, j | 0 <= i <= j < |times| ::
      Granted(policy, i, j + 1) as real <= l.capacity as real + Refill(l, times[i], times[j])
  }

  /** The bucket is as generous as the bound allows: no policy that keeps it is ever ahead of the bucket. */
  lemma {:induction false} BucketIsOptimal(l: Limits, start: real, times: seq<real>, policy: seq<bool>, j: nat)
    requires l.rate >= 0.0 && ClockStartsBefore(start, times) && j <= |times|
    requires Conforms(l, times, policy)
    ensures Granted(policy, 0, j) <= Admitted(l, start, times, 0, j)
    decreases j
  {
    if j > 0 {
      BucketIsOptimal(l, start, times, policy, j - 1);
      if !Decision(l, start, times, j - 1) {
        var i := RejectionIsForced(l, start, times, policy, j - 1);
        BucketIsOptimal(l, start, times, policy, i);
        GrantedSplits(policy, i, j);
        AdmittedSplits(l, start, times, i, j - 1);
      }
    }
  }

  /** Behind every rejection is a window that no conforming policy could have used better. */
  lemma RejectionIsForced(l: Limits, start: real, times: seq<real>, policy: seq<bool>, j: nat) returns (i: nat)
    requires l.rate >= 0.0 && ClockStartsBefore(start, times) && j < |times|
    requires Conforms(l, times, policy) && !Decision(l, start, times, j)
    ensures i <= j && Granted(policy, i, j + 1) <= Admitted(l, start, times, i, j)
  {
    AdmittedIffEveryWindowAllows(l, start, times, j);
    i :| 0 <= i <= j && Admitted(l, start, times, i, j) as real + 1.0
                        > l.capacity as real + Refill(l, times[i], times[j]);
    assert Granted(policy, i, j + 1) as real <= l.capacity as real + Refill(l, times[i], times[j]);
  }
}
