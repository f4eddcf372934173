/** The sliding-window limiter: a trimmed, expiring set that must agree with the full history. */
module RateLimiting {
  import opened Common

  /** A stored set of request timestamps and the instant at which the whole key expires. */
  datatype Window = Window(scores: seq<int>, expireAt: int)

  /** The set after removal of every score from zero up to the cutoff. */
  function Trim(scores: seq<int>, cutoff: int): seq<int> {
    if scores == [] then []
    else
      var last := scores[|scores| - 1];
      Trim(scores[..|scores| - 1], cutoff) + (if 0 <= last <= cutoff then [] else [last])
  }

  /** One call's transaction: expire, trim, add, and renew the expiry. */
  function Touch(stored: Option<Window>, now: int, length: nat): Window {
    var live := if stored.Some? && now <= stored.value.expireAt then stored.value.scores else [];
    Window(Trim(live, now - length) + [now], now + length)
  }

  /** The stored window after a whole history of calls for one reference. */
  function After(history: seq<int>, length: nat): Option<Window> {
    if history == [] then None
    else Some(Touch(After(history[..|history| - 1], length), history[|history| - 1], length))
  }

  /** Whether a call at `now` after `history` is within budget. */
  predicate Allows(history: seq<int>, now: int, length: nat, max: nat) {
    |Touch(After(history, length), now, length).scores| <= max
  }

  // ----- the simple specification -----

  /** How many requests of the history fall in the interval from `lo` (excluded) to `hi`. */
  function CountIn(history: seq<int>, lo: int, hi: int): nat {
    if history == [] then 0
    else
      var last := history[|history| - 1];
      CountIn(history[..|history| - 1], lo, hi) + (if lo < last <= hi then 1 else 0)
  }

  /** Timestamps are those of a clock that never runs backwards. */
  ghost predicate ClockOk(history: seq<int>) {
    && (forall i :: 0 <= i < |history| ==> 0 <= history[i])
    && (forall i, j :: 0 <= i < j < |history| ==> history[i] <= history[j])
  }

  lemma {:induction false} TrimTwice(scores: seq<int>, a: int, b: int)
    requires a <= b && forall i :: 0 <= i < |scores| ==> 0 <= scores[i]
    ensures Trim(Trim(scores, a), b) == Trim(scores, b)
  {
    if scores == [] {
    } else {
      var init, last := scores[..|scores| - 1], scores[|scores| - 1];
      TrimTwice(init, a, b);
      if 0 <= last <= a {
        assert Trim(scores, a) == Trim(init, a);
      } else {
        assert (Trim(init, a) + [last])[..|Trim(init, a)|] == Trim(init, a);
      }
    }
  }

  lemma {:induction false} TrimAll(scores: seq<int>, cutoff: int)
    requires forall i :: 0 <= i < |scores| ==> 0 <= scores[i] <= cutoff
    ensures Trim(scores, cutoff) == []
  {
    if scores == [] {
    } else {
      TrimAll(scores[..|scores| - 1], cutoff);
    }
  }

  lemma AfterAppend(history: seq<int>, now: int, length: nat)
    ensures After(history + [now], length) == Some(Touch(After(history, length), now, length))
  {
    assert (history + [now])[..|history|] == history;
  }

  /** One more call, on a stored set that is the recent history: expiry and trimming both cut off
      exactly what has left the window. */
  lemma TouchStep(older: seq<int>, previous: int, now: int, length: nat)
    requires 0 <= previous <= now && forall i :: 0 <= i < |older| ==> 0 <= older[i] <= previous
    ensures Touch(Some(Window(Trim(older, previous - length) + [previous], previous + length)), now, length).scores
            == Trim(older + [previous], now - length) + [now]
  {
    if now <= previous + length {
      TrimAppend(older, previous, previous - length, now - length);
    } else {
      TrimAll(older + [previous], now - length);
    }
  }

  /** The stored set is the full history with only the scores out of the window cut off. */
  lemma {:induction false} StoredIsRecentHistory(history: seq<int>, now: int, length: nat)
    requires ClockOk(history + [now])
    ensures Touch(After(history, length), now, length).scores == Trim(history, now - length) + [now]
  {
    if history == [] {
    } else {
      var older, previous := history[..|history| - 1], history[|history| - 1];
      assert history == older + [previous];
      ClockPrefix(history, now);
      StoredIsRecentHistory(older, previous, length);
      AfterAppend(older, previous, length);
      TouchStep(older, previous, now, length);
    }
  }

  lemma ClockPrefix(history: seq<int>, now: int)
    requires ClockOk(history + [now])
    ensures ClockOk(history)
    ensures forall i :: 0 <= i < |history| ==> 0 <= history[i] <= now
    ensures forall i :: 0 <= i < |history| ==> history[i] <= history[|history| - 1]
  {
    var all := history + [now];
    assert forall i :: 0 <= i < |history| ==> all[i] == history[i] && all[i] <= all[|history|];
  }

  lemma TrimAppend(older: seq<int>, previous: int, a: int, b: int)
    requires a <= b && 0 <= previous && forall i :: 0 <= i < |older| ==> 0 <= older[i]
    ensures Trim(Trim(older, a) + [previous], b) == Trim(older + [previous], b)
  {
    TrimTwice(older, a, b);
    assert (Trim(older, a) + [previous])[..|Trim(older, a)|] == Trim(older, a);
    assert (older + [previous])[..|older|] == older;
  }

  lemma {:induction false} TrimCounts(history: seq<int>, lo: int, hi: int)
    requires forall i :: 0 <= i < |history| ==> 0 <= history[i] <= hi
    ensures |Trim(history, lo)| == CountIn(history, lo, hi)
  {
    if history == [] {
    } else {
      TrimCounts(history[..|history| - 1], lo, hi);
    }
  }

  /**
   The limiter agrees with the full history: a call at `now` is allowed exactly when all calls for
   the reference in the window ending now, blocked ones and this one included, number at most the
   maximum.
   */
  lemma AllowsIffHistoryDoes(history: seq<int>, now: int, length: nat, max: nat)
    requires length > 0 && ClockOk(history + [now])
    ensures Allows(history, now, length, max) <==> CountIn(history + [now], now - length, now) <= max
  {
    ClockPrefix(history, now);
    StoredIsRecentHistory(history, now, length);
    TrimCounts(history, now - length, now);
    assert (history + [now])[..|history|] == history;
  }

  /** Trimming looks at one score at a time: those from zero up to the cutoff go, the others stay in order. */
  lemma {:induction false} TrimIsOneByOne(a: seq<int>, b: seq<int>, cutoff: int)
    ensures Trim(a + b, cutoff) == Trim(a, cutoff) + Trim(b, cutoff)
    ensures |b| == 1 ==> Trim(b, cutoff) == if 0 <= b[0] <= cutoff then [] else b
  {
    if b == [] {
      assert a + b == a;
    } else {
      assert (a + b)[..|a + b| - 1] == a + b[..|b| - 1];
      TrimIsOneByOne(a, b[..|b| - 1], cutoff);
    }
  }

  lemma {:induction false} TrimShortens(scores: seq<int>, cutoff: int)
    ensures |Trim(scores, cutoff)| <= |scores|
  {
    if scores == [] {
    } else {
      TrimShortens(scores[..|scores| - 1], cutoff);
    }
  }

  lemma TouchIsShort(stored: Option<Window>, now: int, length: nat, n: nat)
    requires stored.Some? ==> |stored.value.scores| <= n
    ensures |Touch(stored, now, length).scores| <= n + 1
  {
    if stored.Some? {
      TrimShortens(stored.value.scores, now - length);
    }
  }

  lemma {:induction false} StoredIsShort(history: seq<int>, length: nat)
    ensures After(history, length).Some? ==> |After(history, length).value.scores| <= |history|
  {
    if history == [] {
    } else {
      var n := |history| - 1;
      StoredIsShort(history[..n], length);
      TouchIsShort(After(history[..n], length), history[n], length, n);
    }
  }

  /** While a reference has called less often than the maximum in all, it is let through. */
  lemma FewCallsAreAllowed(history: seq<int>, now: int, length: nat, max: nat)
    requires |history| < max
    ensures Allows(history, now, length, max)
  {
    StoredIsShort(history, length);
    TouchIsShort(After(history, length), now, length, |history|);
  }

  // ----- what the limit means for a caller -----

  /** Whether request `i` of the history was let through. */
  predicate Granted(history: seq<int>, i: nat, length: nat, max: nat)
    requires i < |history|
  {
    Allows(history[..i], history[i], length, max)
  }

  /** How many granted requests fall in an interval. */
  function GrantedIn(history: seq<int>, lo: int, hi: int, length: nat, max: nat): nat {
    if history == [] then 0
    else
      var n := |history| - 1;
      GrantedIn(history[..n], lo, hi, length, max) +
      (if lo < history[n] <= hi && Granted(history, n, length, max) then 1 else 0)
  }

  lemma {:induction false} GrantedAtMostAll(history: seq<int>, lo: int, hi: int, length: nat, max: nat)
    ensures GrantedIn(history, lo, hi, length, max) <= CountIn(history, lo, hi)
  {
    if history == [] {
    } else {
      GrantedAtMostAll(history[..|history| - 1], lo, hi, length, max);
    }
  }

  lemma {:induction false} CountMonotone(history: seq<int>, lo: int, hi: int, t: int, lo': int)
    requires lo' <= lo && forall i :: 0 <= i < |history| ==> history[i] <= t
    ensures CountIn(history, lo, hi) <= CountIn(history, lo', t)
  {
    if history == [] {
    } else {
      CountMonotone(history[..|history| - 1], lo, hi, t, lo');
    }
  }

  /** No interval of the window's length, wherever it starts, holds more than the maximum of granted
      requests: the budget cannot be spent twice across a seam. */
  lemma {:induction false} EveryWindowHoldsAtMostMax(history: seq<int>, start: int, length: nat, max: nat)
    requires length > 0 && ClockOk(history)
    ensures GrantedIn(history, start, start + length, length, max) <= max
  {
    if history == [] {
    } else {
      var n := |history| - 1;
      var t := history[n];
      if start < t <= start + length && Granted(history, n, length, max) {
        assert history == history[..n] + [t];
        AllowsIffHistoryDoes(history[..n], t, length, max);
        GrantedAtMostAll(history, start, start + length, length, max);
        CountMonotone(history, start, start + length, t, t - length);
      } else {
        EveryWindowHoldsAtMostMax(history[..n], start, length, max);
      }
    }
  }

  /** The decision taken on the stored set is the one the history calls for. */
  lemma DecisionIsRight(stored: Option<Window>, history: seq<int>, now: int, length: nat, max: nat)
    requires length > 0 && stored == After(history, length)
    ensures After(history + [now], length) == Some(Touch(stored, now, length))
    ensures ClockOk(history + [now]) ==>
              (|Touch(stored, now, length).scores| <= max <==> CountIn(history + [now], now - length, now) <= max)
  {
    AfterAppend(history, now, length);
    if ClockOk(history + [now]) {
      AllowsIffHistoryDoes(history, now, length, max);
    }
  }

  // ----- the service -----

  class RateLimiter {
    const max: nat
    const length: nat
    var sets: map<string, Window>
    ghost var histories: map<string, seq<int>>

    ghost function History(reference: string): seq<int>
      reads this
    {
      if reference in histories then histories[reference] else []
    }

    function Stored(reference: string): Option<Window>
      reads this
    {
      if reference in sets then Some(sets[reference]) else None
    }

    /** Every stored set is the one its reference's history leaves. */
    ghost predicate Valid()
      reads this
    {
      length > 0 && forall r: string :: Stored(r) == After(History(r), length)
    }

    constructor (max: nat, length: nat)
      requires length > 0
      ensures Valid() && this.max == max && this.length == length
      ensures forall r: string :: History(r) == []
    {
      this.max, this.length := max, length;
      sets, histories := map[], map[];
    }

    /** Counts the request, blocked or not, and says whether it is within budget. */
    method Allow(reference: string, now: int) returns (allowed: bool)
      requires Valid()
      modifies this
      ensures Valid()
      ensures History(reference) == old(History(reference)) + [now]
      ensures reference in sets && (allowed <==> |sets[reference].scores| <= max)
      ensures forall r: string :: r != reference ==> History(r) == old(History(r)) && Stored(r) == old(Stored(r))
      ensures ClockOk(History(reference)) ==>
                (allowed <==> CountIn(History(reference), now - length, now) <= max)
    {
      var touched := Touched(reference, now);
      allowed := |touched.scores| <= max;
      ghost var before := History(reference);
      DecisionIsRight(Stored(reference), before, now, length, max);
      Store(reference, touched, before + [now]);
    }

    /** The transaction's commands in order: expiry, removal by score, addition. */
    method Touched(reference: string, now: int) returns (window: Window)
      ensures window == Touch(Stored(reference), now, length)
      ensures window.expireAt == now + length
      ensures window.scores ==
              (if reference in sets && now <= sets[reference].expireAt then Trim(sets[reference].scores, now - length) else [])
              + [now]
    {
      var live: seq<int> := [];
      if reference in sets && now <= sets[reference].expireAt {
        live := sets[reference].scores;
      }
      window := Window(Trim(live, now - length) + [now], now + length);
    }

    method Store(reference: string, window: Window, ghost history: seq<int>)
      requires Valid() && Some(window) == After(history, length)
      modifies this
      ensures Valid() && History(reference) == history && sets == old(sets)[reference := window]
      ensures forall r: string :: r != reference ==> History(r) == old(History(r)) && Stored(r) == old(Stored(r))
    {
      sets := sets[reference := window];
      histories := histories[reference := history];
      forall r: string ensures Stored(r) == After(History(r), length) {
        assert r != reference ==> Stored(r) == old(Stored(r)) && History(r) == old(History(r));
      }
    }
  }
}
