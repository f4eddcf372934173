/** What every run of the issuance protocol guarantees: exactly-once accounting, replays, drips. */
module IssuanceTheorems {
  import opened Common
  import opened Fingerprint
  import opened KeyringModel
  import opened BundleRequestValidation
  import opened IssuanceModel
  import opened IssuanceInvariant

  // ----- deliveries -----

  lemma CoverIsUnique(env: Env, w: World, d: Delivery, a: nat, b: nat)
    requires CommitsOk(env, w) && ClaimsOk(env, w) && Covers(w, d, a) && Covers(w, d, b)
    ensures a == b
  {
    if d.key.Some? {
      assert w.claims[(d.reference, d.key.value)] == a;
      assert w.claims[(d.reference, d.key.value)] == b;
    }
  }

  /** Commit `c` accounts for delivery `d`, and issued the very epoch, blanks and response delivered. */
  ghost predicate Backs(w: World, d: Delivery, c: nat) {
    Covers(w, d, c) && SameRequest(w.commits[c].order, d.order) && w.commits[c].response == d.response
  }

  /** No order that passes the checks of a run passes for a different one. */
  ghost predicate NoCollisions(steps: seq<Step>) {
    forall a, b :: a in OrdersOf(steps) && b in OrdersOf(steps) ==> !PassesFor(a, b)
  }

  /** Enough for that: any two orders have one size, or the one with fewer blanks names an epoch
      without NUL. */
  lemma SafeOrdersDoNotCollide(steps: seq<Step>)
    requires forall a, b :: a in OrdersOf(steps) && b in OrdersOf(steps) && |a.blanks| < |b.blanks| ==> NulFree(a.epoch)
    ensures NoCollisions(steps)
  {
    forall a, b | a in OrdersOf(steps) && b in OrdersOf(steps) ensures !PassesFor(a, b) {
      PassedIsOk(steps, a);
      PassedIsOk(steps, b);
      HashInputIsInjective("", a.epoch, a.blanks, b.epoch, b.blanks);
    }
  }

  /** A commit that vouches for a delivery backs it, if their orders do not collide. */
  lemma VouchingBacks(env: Env, w: World, d: Delivery, c: nat)
    requires CommitsOk(env, w) && HashInjective(env) && Vouches(env, w, d, c)
    requires !PassesFor(d.order, w.commits[c].order)
    ensures Backs(w, d, c)
  {
    var o, p := d.order, w.commits[c].order;
    InputsEqualIff(d.reference, p.epoch, p.blanks, o.epoch, o.blanks);
    if Swallows(p.epoch, p.blanks, o.epoch, o.blanks) {
      SwallowingHoldsNul(p.epoch, p.blanks, o.epoch, o.blanks);
    }
    assert SignBundle(env, o) == SignBundle(env, p);
  }

  /**
   Nothing is delivered uncounted. Whatever interleaving led to a delivery, exactly one committed
   transaction accounts for it: the one that claimed its (reference, key), or, without a key, its
   own. That commit has the delivered epoch, blanks and response, and one ledger row. For colliding
   orders this fails; see `IssuanceRuns.CollidingRetryIsUncounted`.
   */
  lemma EveryDeliveryIsCoveredOnce(env: Env, worlds: seq<World>, steps: seq<Step>, i: nat, d: Delivery)
    returns (c: nat)
    requires Run(env, worlds, steps) && HashInjective(env) && NoCollisions(steps)
    requires i < |worlds| && d in worlds[i].deliveries
    ensures Backs(worlds[i], d, c)
    ensures forall b: nat :: Covers(worlds[i], d, b) ==> b == c
    ensures d.response == SignBundle(env, d.order)
    ensures |worlds[i].db.ledger| == |worlds[i].commits|
    ensures worlds[i].db.ledger[c] == LedgerRow(d.reference, d.order.epoch, 1)
  {
    RunKeeps(env, worlds, steps, i);
    RunUses(env, worlds, steps, i);
    var w := worlds[i];
    c :| Vouches(env, w, d, c);
    VouchingBacks(env, w, d, c);
    forall b: nat | Covers(w, d, b) ensures b == c {
      CoverIsUnique(env, w, d, b, c);
    }
  }

  /** One reference and one non-empty key commit at most once, and one request commits at most once. */
  lemma KeysCommitOnce(env: Env, worlds: seq<World>, steps: seq<Step>, i: nat, a: nat, b: nat)
    requires Run(env, worlds, steps) && i < |worlds|
    requires a < |worlds[i].commits| && b < |worlds[i].commits|
    requires var x, y := worlds[i].commits[a], worlds[i].commits[b];
             || (x.reference == y.reference && x.key == y.key && x.key.Some?)
             || x.request == y.request
    ensures a == b
  {
    RunKeeps(env, worlds, steps, i);
    var w := worlds[i];
    if w.commits[a].key.Some? {
      assert w.claims[(w.commits[a].reference, w.commits[a].key.value)] == a;
    }
  }

  /** Every answer under one reference and key is the same answer, for the same epoch and blanks. */
  lemma ReplaysEqualTheOriginal(env: Env, worlds: seq<World>, steps: seq<Step>, i: nat, d: Delivery, f: Delivery)
    requires Run(env, worlds, steps) && HashInjective(env) && NoCollisions(steps) && i < |worlds|
    requires d in worlds[i].deliveries && f in worlds[i].deliveries
    requires d.reference == f.reference && d.key == f.key && d.key.Some?
    ensures d.response == f.response
    ensures d.order.epoch == f.order.epoch && d.order.blanks == f.order.blanks
  {
    var a := EveryDeliveryIsCoveredOnce(env, worlds, steps, i, d);
    var b := EveryDeliveryIsCoveredOnce(env, worlds, steps, i, f);
    assert Covers(worlds[i], d, b);
  }

  /** A request whose key is taken changes no row: not the ledger, not the counters, not the schedule. */
  lemma ReplayChangesNoRow(env: Env, w: World, r: nat, now: int)
    requires ClaimsOk(env, w) && r < |w.requests| && w.requests[r].phase.Signed?
    requires EffectiveKey(w.requests[r].key).Some?
    requires (w.requests[r].grant.reference, EffectiveKey(w.requests[r].key).value) in w.db.idempotency
    ensures var t := Apply(env, w, Record(r, now));
      t.db == w.db && t.commits == w.commits &&
      t.requests[r].phase.KeyTaken? && Apply(env, t, CheckReplay(r)).db == w.db
  {
  }

  // ----- checks -----

  /** Some check of request `r` among the first `n` steps has let the order pass. */
  ghost predicate PassedBy(steps: seq<Step>, n: nat, r: nat, o: Order) {
    exists k :: 0 <= k < n && k < |steps| && steps[k].CheckOrder? && steps[k].request == r &&
                Verdict(steps[k].check) == Success(o)
  }

  /**
   Nothing is signed, recorded or delivered that was not checked: the request's own check found the
   body well formed and the epoch inside its window, under the replica's keyring and at its instant.
   */
  lemma EveryCommitWasChecked(env: Env, worlds: seq<World>, steps: seq<Step>, i: nat, c: nat) returns (k: nat)
    requires Run(env, worlds, steps) && i < |worlds| && c < |worlds[i].commits|
    ensures k < i && steps[k].CheckOrder? && steps[k].request == worlds[i].commits[c].request
    ensures var check, o := steps[k].check, worlds[i].commits[c].order;
      && Validate(check.body, check.bundleSize, check.blankSize) == Success(BundleRequest(o.epoch, o.blanks))
      && o.bundleSize == check.bundleSize
      && UsableEpoch(check.keyring, o.epoch, check.at).Some?
  {
    var ok := (r: nat, o: Order) => PassedBy(steps, i, r, o);
    RunTraced(env, worlds, steps, i, ok);
    var x := worlds[i].commits[c];
    assert ok(x.request, x.order);
    k :| 0 <= k < i && steps[k].CheckOrder? && steps[k].request == x.request && Verdict(steps[k].check) == Success(x.order);
  }

  // ----- drips -----

  lemma {:induction false} SpacedSpan(starts: seq<int>, interval: nat, a: nat, b: nat)
    requires Spaced(starts, interval) && a <= b < |starts|
    ensures starts[b] - starts[a] >= (b - a) * interval
  {
    if a == b {
    } else {
      SpacedSpan(starts, interval, a, b - 1);
      assert starts[b - 1] + interval <= starts[b];
      assert (b - a) * interval == (b - 1 - a) * interval + interval;
    }
  }

  /**
   The drips of one entitlement, in whatever spelling its id was presented and however many pickups
   raced, are at least its interval apart, so `n` of them span at least `n - 1` intervals; the row
   counts exactly the commits that consumed it, and falls due again an interval after the last of them.
   */
  lemma DripsAreSpaced(env: Env, worlds: seq<World>, steps: seq<Step>, i: nat, e: string, a: nat, b: nat)
    requires Run(env, worlds, steps) && i < |worlds| && e in worlds[i].db.entitlements
    ensures var w := worlds[i];
      var row, starts := w.db.entitlements[e], DripStarts(w.commits, e);
      && row.dripsIssued == |starts|
      && (a <= b < |starts| ==> starts[b] - starts[a] >= (b - a) * row.interval)
      && (starts != [] ==> row.nextDripAt == starts[|starts| - 1] + row.interval)
  {
    RunKeeps(env, worlds, steps, i);
    var w := worlds[i];
    assert DripsOk(w, e);
    if a <= b < |DripStarts(w.commits, e)| {
      SpacedSpan(DripStarts(w.commits, e), w.db.entitlements[e].interval, a, b);
    }
  }

  /** Letter case makes no second schedule: spellings of one id draw on one row. */
  lemma SpellingsShareOneRow(env: Env, worlds: seq<World>, steps: seq<Step>, i: nat, c: nat)
    requires Run(env, worlds, steps) && i < |worlds| && c < |worlds[i].commits|
    requires worlds[i].commits[c].request < |worlds[i].requests|
    requires worlds[i].requests[worlds[i].commits[c].request].grant.consume.Drip?
    ensures var w := worlds[i];
      var id := w.requests[w.commits[c].request].grant.consume.entitlement;
      w.commits[c].drip == Some(Canonical(id)) && Canonical(Canonical(id)) == Canonical(id)
  {
    RunKeeps(env, worlds, steps, i);
  }

  /** One receipt never buys two schedules. */
  lemma OneEntitlementPerReceipt(env: Env, worlds: seq<World>, steps: seq<Step>, i: nat, a: string, b: string)
    requires Run(env, worlds, steps) && i < |worlds|
    requires a in worlds[i].db.entitlements && b in worlds[i].db.entitlements
    requires worlds[i].db.entitlements[a].receiptHash == worlds[i].db.entitlements[b].receiptHash
    ensures a == b
  {
    RunKeeps(env, worlds, steps, i);
  }

  // ----- counters -----

  /** Sum over an epoch's commits of signatures produced beyond the given bundle size. */
  function DriftOf(commits: seq<Commit>, e: string, size: nat): int {
    if commits == [] then 0
    else
      var c := commits[|commits| - 1];
      DriftOf(commits[..|commits| - 1], e, size) + (if c.order.epoch == e then |c.response.signatures| - size else 0)
  }

  lemma {:induction false} DriftIsTheDifference(commits: seq<Commit>, e: string, size: nat)
    ensures DriftOf(commits, e, size) == SignaturesOf(commits, e) - BundlesOf(commits, e) * size
  {
    if commits == [] {
    } else {
      DriftIsTheDifference(commits[..|commits| - 1], e, size);
      var n := BundlesOf(commits[..|commits| - 1], e);
      assert (n + 1) * size == n * size + size;
    }
  }

  /** Every commit and injection of epoch `e` was counted with bundle size `k`. */
  ghost predicate ConstantSize(w: World, e: string, k: nat) {
    && (forall i :: 0 <= i < |w.commits| && w.commits[i].order.epoch == e ==> w.commits[i].order.bundleSize == k)
    && (forall i :: 0 <= i < |w.injections| && w.injections[i].epoch == e ==> w.injections[i].bundleSize == k)
  }

  lemma {:induction false} NoDriftAtConstantSize(commits: seq<Commit>, e: string, k: nat)
    requires forall i :: 0 <= i < |commits| && commits[i].order.epoch == e ==> |commits[i].response.signatures| == k
    ensures DriftOf(commits, e, k) == 0
  {
    if commits == [] {
    } else {
      NoDriftAtConstantSize(commits[..|commits| - 1], e, k);
    }
  }

  /**
   The counters are exact. An epoch with a commit has a row; the row's bundles are the epoch's
   commits; its signatures exceed bundles times the recorded size by the drift of those commits
   plus what was injected; and at a constant bundle size the drift is nil.
   */
  lemma CountersAreExact(env: Env, worlds: seq<World>, steps: seq<Step>, i: nat, e: string)
    requires Run(env, worlds, steps) && i < |worlds|
    ensures var w := worlds[i];
      && (BundlesOf(w.commits, e) > 0 ==> e in w.db.counters)
      && (e in w.db.counters ==>
            var row := w.db.counters[e];
            && row.bundlesPaid == BundlesOf(w.commits, e)
            && row.signaturesIssued - row.bundlesPaid * row.bundleSize
               == DriftOf(w.commits, e, row.bundleSize) + InjectedOf(w.injections, e))
      && (forall k :: e in w.db.counters && ConstantSize(w, e, k) ==>
            w.db.counters[e].bundleSize == k && DriftOf(w.commits, e, k) == 0)
  {
    RunKeeps(env, worlds, steps, i);
    var w := worlds[i];
    assert CounterOk(w, e) && SizeOk(w, e);
    if e in w.db.counters {
      DriftIsTheDifference(w.commits, e, w.db.counters[e].bundleSize);
      forall k | ConstantSize(w, e, k)
        ensures w.db.counters[e].bundleSize == k && DriftOf(w.commits, e, k) == 0
      {
        NoDriftAtConstantSize(w.commits, e, k);
      }
    }
  }

  // ----- the recorded bundle size -----

  /** The bundle size with which `step`, taken in world `w`, counts something for epoch `e`. */
  ghost predicate CountsWith(w: World, step: Step, e: string, size: nat) {
    match step
    case Record(r, _) =>
      r < |w.requests| && w.requests[r].phase.Signed? &&
      w.requests[r].phase.order.epoch == e && w.requests[r].phase.order.bundleSize == size
    case Inject(x) => x.epoch == e && x.bundleSize == size
    case _ => false
  }

  /** A row appears with the size that the step counts with, and keeps it from then on. */
  ghost predicate SizeKept(w: World, step: Step, t: World, e: string) {
    if e in w.db.counters then e in t.db.counters && t.db.counters[e].bundleSize == w.db.counters[e].bundleSize
    else e in t.db.counters ==> CountsWith(w, step, e, t.db.counters[e].bundleSize)
  }

  lemma RecordSize(env: Env, w: World, r: nat, now: int, e: string)
    requires r < |w.requests| && w.requests[r].phase.Signed?
    ensures SizeKept(w, Record(r, now), RecordRequest(env, w, r, now), e)
  {
    var q := w.requests[r];
    var tx := RecordTx(env, w.db, q.grant, EffectiveKey(q.key), q.phase.order, q.phase.response, now);
    if tx.Commits? {
      assert RecordRequest(env, w, r, now).db == tx.db;
      assert tx.db.counters == RecordSignaturesIssued(
        RecordBundlePaid(w.db.counters, q.phase.order.epoch, q.phase.order.bundleSize),
        q.phase.order.epoch, |q.phase.response.signatures|, q.phase.order.bundleSize);
    } else {
      assert RecordRequest(env, w, r, now).db == w.db;
    }
  }

  lemma StepSize(env: Env, w: World, step: Step, e: string)
    requires Enabled(w, step)
    ensures SizeKept(w, step, Apply(env, w, step), e)
  {
    match step
    case Register(_, _, _, _) =>
    case Record(r, now) => RecordSize(env, w, r, now, e);
    case Inject(_) =>
    case _ => AccountsUntouched(env, w, step);
  }

  /** The recorded size is that of the first step that counted anything for the epoch. */
  lemma SizeIsTheFirstCounted(env: Env, worlds: seq<World>, steps: seq<Step>, i: nat, e: string) returns (first: nat)
    requires Run(env, worlds, steps) && i < |worlds| && e in worlds[i].db.counters
    ensures first < i && CountsWith(worlds[first], steps[first], e, worlds[i].db.counters[e].bundleSize)
    ensures forall k :: 0 <= k < |worlds| ==> (e in worlds[k].db.counters <==> first < k)
    ensures forall k :: first < k < |worlds| ==> worlds[k].db.counters[e].bundleSize == worlds[i].db.counters[e].bundleSize
  {
    forall k | 0 <= k < |steps| ensures SizeKept(worlds[k], steps[k], worlds[k + 1], e) {
      StepSize(env, worlds[k], steps[k], e);
    }
    first := FirstCounted(worlds, steps, i, e);
    forall k | first < k < |worlds|
      ensures e in worlds[k].db.counters && worlds[k].db.counters[e].bundleSize == worlds[first + 1].db.counters[e].bundleSize
    {
      SizeStays(worlds, steps, first + 1, k, e);
    }
    forall k | 0 <= k <= first ensures e !in worlds[k].db.counters {
      if e in worlds[k].db.counters {
        SizeStays(worlds, steps, k, first, e);
      }
    }
  }

  lemma {:induction false} FirstCounted(worlds: seq<World>, steps: seq<Step>, i: nat, e: string) returns (first: nat)
    requires |worlds| == |steps| + 1 && i < |worlds| && e in worlds[i].db.counters && e !in worlds[0].db.counters
    requires forall k :: 0 <= k < |steps| ==> SizeKept(worlds[k], steps[k], worlds[k + 1], e)
    ensures first < i && e !in worlds[first].db.counters && e in worlds[first + 1].db.counters
    ensures CountsWith(worlds[first], steps[first], e, worlds[first + 1].db.counters[e].bundleSize)
  {
    assert SizeKept(worlds[i - 1], steps[i - 1], worlds[i - 1 + 1], e);
    if e in worlds[i - 1].db.counters {
      first := FirstCounted(worlds, steps, i - 1, e);
    } else {
      first := i - 1;
    }
  }

  lemma {:induction false} SizeStays(worlds: seq<World>, steps: seq<Step>, i: nat, j: nat, e: string)
    requires |worlds| == |steps| + 1 && i <= j < |worlds| && e in worlds[i].db.counters
    requires forall k :: 0 <= k < |steps| ==> SizeKept(worlds[k], steps[k], worlds[k + 1], e)
    ensures e in worlds[j].db.counters && worlds[j].db.counters[e].bundleSize == worlds[i].db.counters[e].bundleSize
  {
    if i == j {
    } else {
      SizeStays(worlds, steps, i, j - 1, e);
      assert SizeKept(worlds[j - 1], steps[j - 1], worlds[j - 1 + 1], e);
    }
  }

  // ----- history only grows -----

  predicate Grows(w: World, t: World) {
    w.commits <= t.commits && w.deliveries <= t.deliveries && w.injections <= t.injections
  }

  lemma StepGrows(env: Env, w: World, step: Step)
    requires Enabled(w, step)
    ensures Grows(w, Apply(env, w, step))
  {
  }

  lemma RunGrows(env: Env, worlds: seq<World>, steps: seq<Step>, i: nat, j: nat)
    requires Steps(env, worlds, steps) && i <= j < |worlds|
    ensures Grows(worlds[i], worlds[j])
  {
    forall k | 0 <= k < |worlds| - 1 ensures Grows(worlds[k], worlds[k + 1]) {
      StepGrows(env, worlds[k], steps[k]);
    }
    GrowsAll(worlds, i, j);
  }

  lemma {:induction false} GrowsAll(worlds: seq<World>, i: nat, j: nat)
    requires forall k :: 0 <= k < |worlds| - 1 ==> Grows(worlds[k], worlds[k + 1])
    requires i <= j < |worlds|
    ensures Grows(worlds[i], worlds[j])
  {
    if i == j {
    } else {
      GrowsAll(worlds, i, j - 1);
      assert Grows(worlds[j - 1], worlds[j - 1 + 1]);
    }
  }
}
