/** broker/retry.go: the retry policy, its attempt counter and its waiting times. */
module Retry {
  import opened Basics

  /** The fields of a RetryPolicy object, as a value. */
  datatype Policy = Policy(currentAttempt: nat, maxAttempts: int, staticInterval: int, exponentialBase: int)

  /** The retry part of a node configuration message. */
  datatype RetryMessage = RetryMessage(maxAttempts: int, staticInterval: int, exponentialBase: int)

  function Pow(b: nat, k: nat): nat {
    if k == 0 then 1 else b * Pow(b, k - 1)
  }

  /** A power: its base at one, and sums of exponents become products. */
  lemma {:induction false} PowAdds(b: nat, m: nat, n: nat)
    ensures Pow(b, 1) == b && Pow(b, m + n) == Pow(b, m) * Pow(b, n)
  {
    if m > 0 {
      PowAdds(b, m - 1, n);
      assert Pow(b, m + n) == b * Pow(b, (m - 1) + n);
      assert b * (Pow(b, m - 1) * Pow(b, n)) == (b * Pow(b, m - 1)) * Pow(b, n);
    }
  }

  /** Rounding half away from zero, on non-negative reals. */
  function Round(x: real): int {
    (x + 0.5).Floor
  }

  ghost predicate Jitter(j: real) {
    0.0 <= j < 1000.0
  }

  function Wait(p: Policy, jitter: real): int {
    if p.currentAttempt >= p.maxAttempts then -1
    else if p.staticInterval > 0 then p.staticInterval * 1000
    else if p.exponentialBase > 0 then Round((Pow(p.exponentialBase, p.currentAttempt) * 1000) as real + jitter)
    else -1
  }

  /** The policy after one more call: the counter moves whenever the cap is not yet reached. */
  function Advance(p: Policy): Policy {
    if p.currentAttempt >= p.maxAttempts then p else p.(currentAttempt := p.currentAttempt + 1)
  }

  /** The policy that the server attaches to a node. */
  function PolicyFor(m: Option<RetryMessage>): Option<Policy> {
    if m.None? then None
    else if m.value.staticInterval > 0 then Some(Policy(0, m.value.maxAttempts, m.value.staticInterval, 0))
    else if m.value.exponentialBase > 0 then Some(Policy(0, m.value.maxAttempts, 0, m.value.exponentialBase))
    else None
  }

  /** A policy that PolicyFor can have built. */
  ghost predicate Usable(p: Policy) {
    p.staticInterval > 0 || p.exponentialBase > 0
  }

  /** How many failures a node may have and still be tried again. */
  function Budget(p: Option<Policy>): nat {
    if p.None? then 0 else Max(p.value.maxAttempts, 0)
  }

  class RetryPolicy {
    var currentAttempt: nat
    const maxAttempts: int
    const staticInterval: int
    const exponentialBackoffBase: int
    /** The node this policy belongs to, once it has one. */
    ghost var holder: Option<string>

    ghost function Value(): Policy
      reads this`currentAttempt
    {
      Policy(currentAttempt, maxAttempts, staticInterval, exponentialBackoffBase)
    }

    constructor Static(staticInterval: int, maxAttempts: int)
      ensures Value() == Policy(0, maxAttempts, staticInterval, 0) && holder == None
    {
      holder := None;
      this.maxAttempts := maxAttempts;
      this.staticInterval := staticInterval;
      exponentialBackoffBase := 0;
      currentAttempt := 0;
    }

    constructor Exponential(exponentialBackoffBase: int, maxAttempts: int)
      ensures Value() == Policy(0, maxAttempts, 0, exponentialBackoffBase) && holder == None
    {
      holder := None;
      this.maxAttempts := maxAttempts;
      this.exponentialBackoffBase := exponentialBackoffBase;
      staticInterval := 0;
      currentAttempt := 0;
    }

    method GetWaitIntervalMilliseconds(jitter: real) returns (wait: int)
      modifies this`currentAttempt
      ensures wait == Wait(old(Value()), jitter)
      ensures Value() == Advance(old(Value()))
    {
      if currentAttempt >= maxAttempts {
        return -1;
      }
      if staticInterval > 0 {
        wait := staticInterval * 1000;
      } else if exponentialBackoffBase > 0 {
        var waitSeconds := Power(exponentialBackoffBase, currentAttempt);
        wait := Round((waitSeconds * 1000) as real + jitter);
      } else {
        wait := -1;
      }
      // the deferred increment runs on every path below the cap
      currentAttempt := currentAttempt + 1;
    }
  }

  method Power(b: nat, k: nat) returns (r: nat)
    ensures r == Pow(b, k)
  {
    r := 1;
    for i := 0 to k
      invariant r == Pow(b, i)
    {
      r := b * r;
    }
  }

  // ---------------------------------------------------------------- attempts

  /** The policy after k failures have asked it for a waiting time. */
  function AfterCalls(p: Policy, k: nat): Policy {
    if k == 0 then p else Advance(AfterCalls(p, k - 1))
  }

  lemma {:induction false} AfterCallsCounts(p: Policy, k: nat)
    requires p.currentAttempt == 0
    ensures AfterCalls(p, k) == p.(currentAttempt := Min(k, Max(p.maxAttempts, 0)))
  {
    if k > 0 {
      AfterCallsCounts(p, k - 1);
    }
  }

  /** A usable policy below its cap always grants at least a second; at the cap it refuses. */
  lemma WaitGranted(p: Policy, jitter: real)
    requires Usable(p) && Jitter(jitter)
    ensures Wait(p, jitter) != -1 <==> p.currentAttempt < p.maxAttempts
    ensures Wait(p, jitter) != -1 ==> Wait(p, jitter) >= 1000
  {
    if p.currentAttempt < p.maxAttempts && p.staticInterval <= 0 {
      ExponentialWaitBounds(p, jitter);
      PowPositive(p.exponentialBase, p.currentAttempt);
    }
  }

  /** A usable policy grants a waiting time to exactly the first max(maxAttempts, 0) failures. */
  lemma RetriesExactlyTheBudget(p: Policy, k: nat, jitter: real)
    requires Usable(p) && p.currentAttempt == 0 && Jitter(jitter)
    ensures Wait(AfterCalls(p, k), jitter) != -1 <==> k < Budget(Some(p))
  {
    AfterCallsCounts(p, k);
    WaitGranted(AfterCalls(p, k), jitter);
  }

  // ---------------------------------------------------------------- exponential waits

  lemma {:induction false} PowPositive(b: nat, k: nat)
    requires b >= 1
    ensures Pow(b, k) >= 1
  {
    if k > 0 {
      PowPositive(b, k - 1);
    }
  }

  ghost predicate Backing(p: Policy) {
    p.currentAttempt < p.maxAttempts && p.staticInterval <= 0 && p.exponentialBase > 0
  }

  /** The k-th exponential wait is base^k seconds plus at most one second of jitter. */
  lemma ExponentialWaitBounds(p: Policy, jitter: real)
    requires Backing(p) && Jitter(jitter)
    ensures 1000 * Pow(p.exponentialBase, p.currentAttempt) <= Wait(p, jitter)
    ensures Wait(p, jitter) <= 1000 * Pow(p.exponentialBase, p.currentAttempt) + 1000
  {
  }

  /**
   * Successive waits never shrink, whatever the jitter, exactly when the base is at least two: with base one
   * the whole wait is one second plus jitter, and the jitter may shrink.
   */
  lemma WaitsNeverShrinkIffBaseAtLeastTwo(p: Policy)
    requires Backing(p) && Backing(Advance(p))
    ensures p.exponentialBase >= 2 <==>
      forall j0: real, j1: real | Jitter(j0) && Jitter(j1) :: Wait(p, j0) <= Wait(Advance(p), j1)
  {
    if p.exponentialBase >= 2 {
      forall j0: real, j1: real | Jitter(j0) && Jitter(j1)
        ensures Wait(p, j0) <= Wait(Advance(p), j1)
      {
        NextWaitIsLonger(p, j0, j1);
      }
    } else {
      PowOne(p.currentAttempt);
      PowOne(p.currentAttempt + 1);
      assert Jitter(900.0) && Jitter(0.0);
      assert Wait(p, 900.0) == 1900 && Wait(Advance(p), 0.0) == 1000;
    }
  }

  lemma NextWaitIsLonger(p: Policy, j0: real, j1: real)
    requires Backing(p) && Backing(Advance(p)) && p.exponentialBase >= 2
    requires Jitter(j0) && Jitter(j1)
    ensures Wait(p, j0) <= Wait(Advance(p), j1)
  {
    var b, k := p.exponentialBase, p.currentAttempt;
    PowPositive(b, k);
    ExponentialWaitBounds(p, j0);
    ExponentialWaitBounds(Advance(p), j1);
    Distribute(Pow(b, k), 2, b - 2);
    Scale(b - 2, Pow(b, k), Pow(b, k));
  }

  lemma {:induction false} PowOne(k: nat)
    ensures Pow(1, k) == 1
  {
    if k > 0 {
      PowOne(k - 1);
    }
  }

  /** The total of the first |jitters| waits of p. */
  function TotalWait(p: Policy, jitters: seq<real>): int {
    if jitters == [] then 0
    else TotalWait(p, jitters[..|jitters| - 1]) + Wait(AfterCalls(p, |jitters| - 1), jitters[|jitters| - 1])
  }

  /** Geometric bounds on the total time spent waiting before the n-th retry (cleared of the division). */
  lemma {:induction false} TotalWaitIsGeometric(p: Policy, jitters: seq<real>)
    requires p.currentAttempt == 0 && p.staticInterval <= 0 && p.exponentialBase > 0
    requires |jitters| <= p.maxAttempts
    requires forall i | 0 <= i < |jitters| :: Jitter(jitters[i])
    ensures 1000 * (Pow(p.exponentialBase, |jitters|) - 1) <= (p.exponentialBase - 1) * TotalWait(p, jitters)
    ensures (p.exponentialBase - 1) * TotalWait(p, jitters)
         <= 1000 * (Pow(p.exponentialBase, |jitters|) - 1) + 1000 * (p.exponentialBase - 1) * |jitters|
  {
    if jitters != [] {
      var n := |jitters| - 1;
      var b := p.exponentialBase;
      TotalWaitIsGeometric(p, jitters[..n]);
      AfterCallsCounts(p, n);
      var w := Wait(AfterCalls(p, n), jitters[n]);
      ExponentialWaitBounds(AfterCalls(p, n), jitters[n]);
      var t := TotalWait(p, jitters[..n]);
      GeometricStep(b, Pow(b, n), t, w, n);
      assert Pow(b, n + 1) == b * Pow(b, n);
    }
  }

  lemma GeometricStep(b: int, power: int, t: int, w: int, n: nat)
    requires b >= 1
    requires 1000 * (power - 1) <= (b - 1) * t <= 1000 * (power - 1) + 1000 * (b - 1) * n
    requires 1000 * power <= w <= 1000 * power + 1000
    ensures 1000 * (b * power - 1) <= (b - 1) * (t + w) <= 1000 * (b * power - 1) + 1000 * (b - 1) * (n + 1)
  {
    var c := b - 1;
    Distribute(c, t, w);
    Distribute(c, 1000 * power, w - 1000 * power);
    Distribute(1000 * c, n, 1);
    Scale(c, w - 1000 * power, 1000);
    assert c * (1000 * power) == 1000 * (b * power) - 1000 * power;
  }

  lemma Distribute(c: int, x: int, y: int)
    ensures c * (x + y) == c * x + c * y
  {
  }

  lemma Scale(c: int, x: int, hi: int)
    requires 0 <= c && 0 <= x <= hi
    ensures 0 <= c * x <= c * hi
  {
  }
}
