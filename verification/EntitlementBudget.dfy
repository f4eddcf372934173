/**
 The rate limit of one entitlement. The limiter counts under the reference as it was presented, while
 an entitlement may be presented in any letter case; so each spelling has a budget of its own.
 */
module EntitlementBudget {
  import opened Arithmetic
  import opened RateLimiting
  import opened IssuanceModel

  /** Instants at which each reference called. */
  type Calls = map<string, seq<int>>

  function HistoryOf(calls: Calls, reference: string): seq<int> {
    if reference in calls then calls[reference] else []
  }

  function Sum(f: string -> nat, xs: seq<string>): nat {
    if xs == [] then 0 else Sum(f, xs[..|xs| - 1]) + f(xs[|xs| - 1])
  }

  lemma {:induction false} SumAtMost(f: string -> nat, xs: seq<string>, m: nat)
    requires forall i :: 0 <= i < |xs| ==> f(xs[i]) <= m
    ensures Sum(f, xs) <= |xs| * m
  {
    if xs == [] {
    } else {
      SumAtMost(f, xs[..|xs| - 1], m);
      OneMore(|xs| - 1, m);
    }
  }

  lemma {:induction false} SumOfEqual(f: string -> nat, xs: seq<string>, m: nat)
    requires forall i :: 0 <= i < |xs| ==> f(xs[i]) == m
    ensures Sum(f, xs) == |xs| * m
  {
    if xs == [] {
    } else {
      SumOfEqual(f, xs[..|xs| - 1], m);
      OneMore(|xs| - 1, m);
    }
  }

  /** Calls let through under each spelling in the window after `start`. */
  function GrantedTo(max: nat, length: nat, calls: Calls, start: int): string -> nat {
    s => GrantedIn(HistoryOf(calls, s), start, start + length, length, max)
  }

  /** Calls let through in the window after `start`, over all spellings of one id. */
  function GrantedUnder(env: Env, calls: Calls, spellings: seq<string>, start: int): nat {
    Sum(GrantedTo(env.rateMax, env.rateWindow, calls, start), spellings)
  }

  ghost predicate ClocksOk(calls: Calls, spellings: seq<string>) {
    forall i :: 0 <= i < |spellings| ==> ClockOk(HistoryOf(calls, spellings[i]))
  }

  /** Over any number of spellings, a window holds at most one maximum for each. */
  lemma BudgetPerSpelling(env: Env, calls: Calls, spellings: seq<string>, start: int)
    requires env.rateWindow > 0 && ClocksOk(calls, spellings)
    ensures GrantedUnder(env, calls, spellings, start) <= |spellings| * env.rateMax
  {
    var f := GrantedTo(env.rateMax, env.rateWindow, calls, start);
    forall i | 0 <= i < |spellings| ensures f(spellings[i]) <= env.rateMax {
      EveryWindowHoldsAtMostMax(HistoryOf(calls, spellings[i]), start, env.rateWindow, env.rateMax);
    }
    SumAtMost(f, spellings, env.rateMax);
  }

  /** `n` calls at the instant zero. */
  function Burst(n: nat): (h: seq<int>)
    ensures |h| == n && ClockOk(h)
  {
    seq(n, i => 0)
  }

  /** A burst of as many calls as the maximum is let through. */
  lemma {:induction false} BurstIsGranted(n: nat, length: nat, max: nat)
    requires n <= max && length > 0
    ensures GrantedIn(Burst(n), -1, length - 1, length, max) == n
  {
    if n == 0 {
    } else {
      assert Burst(n)[..n - 1] == Burst(n - 1);
      BurstIsGranted(n - 1, length, max);
      FewCallsAreAllowed(Burst(n - 1), 0, length, max);
    }
  }

  /** Each spelling makes a burst. */
  function Bursts(spellings: seq<string>, max: nat): Calls {
    map s | s in spellings :: Burst(max)
  }

  lemma BurstsAreGranted(env: Env, all: seq<string>)
    requires env.rateWindow > 0
    ensures GrantedUnder(env, Bursts(all, env.rateMax), all, -1) == |all| * env.rateMax
  {
    var calls := Bursts(all, env.rateMax);
    var f := GrantedTo(env.rateMax, env.rateWindow, calls, -1);
    forall i | 0 <= i < |all| ensures f(all[i]) == env.rateMax {
      BurstIsGranted(env.rateMax, env.rateWindow, env.rateMax);
    }
    SumOfEqual(f, all, env.rateMax);
  }

  /** The entitlement as a whole keeps to the maximum, whenever and however it calls. */
  ghost predicate KeepsToOneBudget(env: Env, spellings: seq<string>) {
    forall calls: Calls, start: int :: ClocksOk(calls, spellings) ==>
      GrantedUnder(env, calls, spellings, start) <= env.rateMax
  }

  /**
   An entitlement is held to the maximum if and only if it is presented in a single spelling; with
   `n` of them it can make `n` times as many calls at once.
   */
  lemma OneBudgetIffOneSpelling(env: Env, spellings: seq<string>)
    requires env.rateWindow > 0 && env.rateMax > 0
    ensures KeepsToOneBudget(env, spellings) <==> |spellings| <= 1
    ensures GrantedUnder(env, Bursts(spellings, env.rateMax), spellings, -1) == |spellings| * env.rateMax
  {
    BurstsAreGranted(env, spellings);
    if |spellings| <= 1 {
      forall calls: Calls, start: int | ClocksOk(calls, spellings)
        ensures GrantedUnder(env, calls, spellings, start) <= env.rateMax
      {
        BudgetPerSpelling(env, calls, spellings, start);
        assert |spellings| * env.rateMax <= env.rateMax;
      }
    } else {
      MulLower(|spellings| - 1, env.rateMax);
      OneMore(|spellings| - 1, env.rateMax);
      assert ClocksOk(Bursts(spellings, env.rateMax), spellings);
    }
  }

  /** Two spellings of one id are two references to the limiter: a call of one is not counted for the other. */
  lemma SpellingsAreCountedApart(env: Env, w: World, r: nat, now: int, other: string)
    requires r < |w.requests| && w.requests[r].phase.Authorized? && other != w.requests[r].grant.reference
    ensures CallsOf(Apply(env, w, CheckRate(r, now)), other) == CallsOf(w, other)
    ensures CallsOf(Apply(env, w, CheckRate(r, now)), w.requests[r].grant.reference)
            == CallsOf(w, w.requests[r].grant.reference) + [now]
  {
  }
}
