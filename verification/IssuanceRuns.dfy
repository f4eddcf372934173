/**
 Runs of the issuance protocol written out: a retry that gets its credentials back, and the runs in
 which a promise fails, each for every input that meets the failing condition.
 */
module IssuanceRuns {
  import opened Common
  import opened Base64
  import opened Fingerprint
  import opened KeyringModel
  import opened BundleRequestValidation
  import opened IssuanceModel
  import opened IssuanceInvariant
  import opened IssuanceTheorems
  import opened IssuanceRetries

  /** Where the steps lead when taken in turn, if each is enabled when its turn comes. */
  ghost function Play(env: Env, w: World, steps: seq<Step>): Option<World>
    decreases |steps|
  {
    if steps == [] then Some(w)
    else if Enabled(w, steps[0]) then Play(env, Apply(env, w, steps[0]), steps[1..])
    else None
  }

  lemma OneStep(env: Env, w: World, step: Step)
    requires Enabled(w, step)
    ensures Play(env, w, [step]) == Some(Apply(env, w, step))
  {
    assert [step][1..] == [];
  }

  lemma {:induction false} Join(env: Env, w: World, a: seq<Step>, t: World, b: seq<Step>, u: World)
    requires Play(env, w, a) == Some(t) && Play(env, t, b) == Some(u)
    ensures Play(env, w, a + b) == Some(u)
    decreases |a|
  {
    if a == [] {
      assert a + b == b;
    } else {
      assert (a + b)[1..] == a[1..] + b;
      Join(env, Apply(env, w, a[0]), a[1..], t, b, u);
    }
  }

  /** Playing steps is taking a piece of a run. */
  lemma {:induction false} PlayIsSteps(env: Env, w: World, steps: seq<Step>) returns (worlds: seq<World>)
    requires Play(env, w, steps).Some?
    ensures Steps(env, worlds, steps) && worlds[0] == w && Some(worlds[|steps|]) == Play(env, w, steps)
    decreases |steps|
  {
    if steps == [] {
      worlds := [w];
    } else {
      var rest := PlayIsSteps(env, Apply(env, w, steps[0]), steps[1..]);
      worlds := [w] + rest;
      forall i | 0 <= i < |steps| ensures Enabled(worlds[i], steps[i]) && worlds[i + 1] == Apply(env, worlds[i], steps[i]) {
        if i > 0 {
          assert worlds[i] == rest[i - 1] && worlds[i + 1] == rest[i] && steps[1..][i - 1] == steps[i];
        }
      }
    }
  }

  /** One more step after those that led to `s`. */
  lemma Then(env: Env, w: World, steps: seq<Step>, s: World, step: Step)
    requires Play(env, w, steps) == Some(s) && Enabled(s, step)
    ensures Play(env, w, steps + [step]) == Some(Apply(env, s, step))
  {
    OneStep(env, s, step);
    Join(env, w, steps, s, [step], Apply(env, s, step));
  }

  // ----- the part of a request that rails share -----

  /** Counting the call, checking the request and signing it. */
  function IssueSteps(r: nat, now: int, check: Check, o: Order): seq<Step> {
    [CheckRate(r, now)] + [CheckOrder(r, check)] + [SignOrder(r, o)]
  }

  /** From `w` to `t` request `r` has come as far as `phase`, and its call at `now` was counted. */
  ghost predicate Advanced(w: World, t: World, r: nat, phase: Phase, now: int)
    requires r < |w.requests|
  {
    var q := w.requests[r];
    t == w.(requests := w.requests[r := q.(phase := phase)],
            calls := w.calls[q.grant.reference := CallsOf(w, q.grant.reference) + [now]])
  }

  lemma CallIsCounted(env: Env, w: World, r: nat, now: int) returns (t: World)
    requires r < |w.requests| && w.requests[r].phase.Authorized?
    ensures Play(env, w, [CheckRate(r, now)]) == Some(t)
    ensures var budget := WithinBudget(env, w, w.requests[r].grant.reference, now);
      Advanced(w, t, r, if budget then Admitted else Failed("RATE_LIMITED"), now)
  {
    OneStep(env, w, CheckRate(r, now));
    t := Apply(env, w, CheckRate(r, now));
  }

  lemma OrderIsChecked(env: Env, w: World, r: nat, now: int, check: Check) returns (t: World)
    requires r < |w.requests| && w.requests[r].phase.Authorized?
    requires WithinBudget(env, w, w.requests[r].grant.reference, now)
    ensures Play(env, w, [CheckRate(r, now)] + [CheckOrder(r, check)]) == Some(t)
    ensures Advanced(w, t, r, if Verdict(check).Success? then Checked(Verdict(check).value) else Failed(Verdict(check).error), now)
  {
    var counted := CallIsCounted(env, w, r, now);
    Then(env, w, [CheckRate(r, now)], counted, CheckOrder(r, check));
    t := Apply(env, counted, CheckOrder(r, check));
    assert t.requests == w.requests[r := t.requests[r]];
  }

  lemma IssueIsSigned(env: Env, w: World, r: nat, now: int, check: Check, o: Order) returns (t: World)
    requires r < |w.requests| && w.requests[r].phase.Authorized? && Verdict(check) == Success(o)
    requires WithinBudget(env, w, w.requests[r].grant.reference, now)
    ensures Play(env, w, IssueSteps(r, now, check, o)) == Some(t)
    ensures Advanced(w, t, r, Signed(o, SignBundle(env, o)), now)
  {
    var checked := OrderIsChecked(env, w, r, now, check);
    Then(env, w, [CheckRate(r, now)] + [CheckOrder(r, check)], checked, SignOrder(r, o));
    t := Apply(env, checked, SignOrder(r, o));
    assert t.requests == w.requests[r := t.requests[r]];
  }

  // ----- retries -----

  /** Something was committed under this reference and key. */
  ghost predicate IssuedUnder(w: World, reference: string, key: Option<string>) {
    key.Some? && exists b :: 0 <= b < |w.commits| && w.commits[b].reference == reference && w.commits[b].key == key
  }

  lemma ClaimedIffIssued(env: Env, w: World, reference: string, key: string)
    requires ClaimsOk(env, w)
    ensures (reference, key) in w.db.idempotency <==> IssuedUnder(w, reference, Some(key))
  {
    if (reference, key) in w.claims {
      assert w.commits[w.claims[(reference, key)]].key == Some(key);
    }
  }

  /**
   A pickup before its drip is due is let through exactly when something was committed under its key
   and the very spelling of the id it presents; the schedule ignores letter case, the idempotency key
   does not.
   */
  lemma EarlyRetryNeedsTheSameSpelling(env: Env, w: World, p: string, key: Option<string>, now: int)
    requires IssuanceOk(env, w) && IsUuid(p)
    requires Canonical(p) in w.db.entitlements && now < w.db.entitlements[Canonical(p)].nextDripAt
    ensures var read := Apply(env, w, Pickup(Some(p), key, now));
      && Enabled(read, CheckDue(|w.requests|))
      && Apply(env, read, CheckDue(|w.requests|)).requests[|w.requests|].phase ==
         if IssuedUnder(w, p, key) then Authorized else Failed("NOT_DUE")
  {
    if key.Some? {
      ClaimedIffIssued(env, w, p, key.value);
    }
  }

  /** Commit `c` was made by a keyed pickup of a registered entitlement. */
  ghost predicate Retryable(env: Env, db: Db, c: Commit) {
    && Standing(env, db, c) && EffectiveKey(c.key) == c.key
    && IsUuid(c.reference) && Canonical(c.reference) in db.entitlements
  }

  lemma PickupsAreRetryable(env: Env, w: World, b: nat)
    requires IssuanceOk(env, w) && b < |w.commits| && w.commits[b].drip.Some? && w.commits[b].key.Some?
    ensures Retryable(env, w.db, w.commits[b])
  {
    assert RequestOk(env, w, w.commits[b].request);
    CommitStands(env, w, b);
  }

  /** A request with `c`'s reference and key was added; no row has changed. */
  ghost predicate Retrying(w: World, t: World, c: Commit, phase: Phase) {
    && t.db == w.db && t.commits == w.commits && t.deliveries == w.deliveries
    && |t.requests| == |w.requests| + 1
    && var q := t.requests[|w.requests|]; q.grant.reference == c.reference && q.key == c.key && q.phase == phase
  }

  /** The retry reads the schedule and passes it, due or not. */
  lemma RetryIsAuthorized(env: Env, w: World, c: Commit, now: int) returns (t: World)
    requires Retryable(env, w.db, c)
    ensures Play(env, w, [Pickup(Some(c.reference), c.key, now)] + [CheckDue(|w.requests|)]) == Some(t)
    ensures Retrying(w, t, c, Authorized) && t.calls == w.calls
  {
    var pickup := Pickup(Some(c.reference), c.key, now);
    OneStep(env, w, pickup);
    var read := Apply(env, w, pickup);
    assert Retrying(w, read, c, Scheduled(w.db.entitlements[Canonical(c.reference)].nextDripAt <= now));
    Then(env, w, [pickup], read, CheckDue(|w.requests|));
    t := Apply(env, read, CheckDue(|w.requests|));
  }

  lemma AnswerPlays(env: Env, w: World, s: World, c: Commit, o: Order, later: int) returns (t: World)
    requires Standing(env, w.db, c) && EffectiveKey(c.key) == c.key && Matches(env, o, c)
    requires Retrying(w, s, c, Signed(o, SignBundle(env, o)))
    ensures Play(env, s, [Record(|w.requests|, later)] + [CheckReplay(|w.requests|)]) == Some(t)
    ensures t.db == w.db && t.commits == w.commits
    ensures |t.requests| == |w.requests| + 1 && t.requests[|w.requests|].phase == Delivered(o, SignBundle(env, o))
    ensures t.deliveries == w.deliveries + [Delivery(|w.requests|, c.reference, c.key, o, SignBundle(env, o))]
  {
    var r := |w.requests|;
    OneStep(env, s, Record(r, later));
    RecordMoves(env, s, r, later, c);
    var taken := Apply(env, s, Record(r, later));
    Then(env, s, [Record(r, later)], taken, CheckReplay(r));
    t := Apply(env, taken, CheckReplay(r));
  }

  /** The steps of a pickup that repeats one already issued. */
  function RetryOf(r: nat, c: Commit, check: Check, o: Order, now: int, later: int): seq<Step> {
    [Pickup(Some(c.reference), c.key, now)] + [CheckDue(r)] + IssueSteps(r, now, check, o) +
    ([Record(r, later)] + [CheckReplay(r)])
  }

  /** The retry has been answered with the response of commit `c`, and no row has changed. */
  ghost predicate GotBack(w: World, t: World, c: Commit, o: Order) {
    && t.db == w.db && t.commits == w.commits && |t.requests| == |w.requests| + 1
    && t.requests[|w.requests|].phase == Delivered(o, c.response)
    && t.deliveries == w.deliveries + [Delivery(|w.requests|, c.reference, c.key, o, c.response)]
  }

  lemma RetryPlays(env: Env, w: World, c: Commit, check: Check, o: Order, now: int, later: int) returns (t: World)
    requires Retryable(env, w.db, c) && c.response == SignBundle(env, c.order)
    requires WithinBudget(env, w, c.reference, now) && Verdict(check) == Success(o) && SameRequest(o, c.order)
    ensures Play(env, w, RetryOf(|w.requests|, c, check, o, now, later)) == Some(t) && GotBack(w, t, c, o)
  {
    var r := |w.requests|;
    var first := [Pickup(Some(c.reference), c.key, now)] + [CheckDue(r)];
    var ready := RetryIsAuthorized(env, w, c, now);
    var signed := IssueIsSigned(env, ready, r, now, check, o);
    Join(env, w, first, ready, IssueSteps(r, now, check, o), signed);
    t := AnswerPlays(env, w, signed, c, o, later);
    Join(env, w, first + IssueSteps(r, now, check, o), signed, [Record(r, later)] + [CheckReplay(r)], t);
    assert SignBundle(env, o) == SignBundle(env, c.order);
  }

  /**
   A client that lost its response can get it back: in any state of the protocol a pickup that repeats
   the reference, key, epoch and blanks of a committed one, while within its budget and under an epoch
   that is still usable, is answered with the very response of that commit, due or not, and no row
   changes.
   */
  lemma RetryGetsItsCredentialsBack(env: Env, w: World, b: nat, check: Check, o: Order, now: int, later: int)
    returns (worlds: seq<World>)
    requires IssuanceOk(env, w) && b < |w.commits| && w.commits[b].drip.Some? && w.commits[b].key.Some?
    requires WithinBudget(env, w, w.commits[b].reference, now)
    requires Verdict(check) == Success(o) && SameRequest(o, w.commits[b].order)
    ensures Steps(env, worlds, RetryOf(|w.requests|, w.commits[b], check, o, now, later))
    ensures worlds[0] == w && GotBack(w, worlds[|worlds| - 1], w.commits[b], o)
  {
    PickupsAreRetryable(env, w, b);
    CommitStands(env, w, b);
    var t := RetryPlays(env, w, w.commits[b], check, o, now, later);
    worlds := PlayIsSteps(env, w, RetryOf(|w.requests|, w.commits[b], check, o, now, later));
  }

  // ----- a first pickup -----

  /** Entitlement `p` is registered and its first pickup, under key `k`, has come as far as `phase`. */
  ghost predicate PickingUp(w: World, p: string, k: string, interval: nat, phase: Phase) {
    && w.requests == [Request(Grant(p, Drip(p, interval)), Some(k), phase)]
    && w.db.entitlements == map[p := Entitlement("receipt", interval, 0, 0)]
    && w.db.idempotency == map[] && w.deliveries == []
  }

  lemma FirstPickup(env: Env, p: string, k: string, interval: nat) returns (t: World, steps: seq<Step>)
    requires IsUuid(p) && Canonical(p) == p
    ensures Play(env, START, steps) == Some(t) && PickingUp(t, p, k, interval, Authorized) && CallsOf(t, p) == []
    ensures OrdersOf(steps) == {}
  {
    var register, pickup := Register(p, "receipt", interval, 0), Pickup(Some(p), Some(k), 0);
    OneStep(env, START, register);
    var registered := Apply(env, START, register);
    assert registered.db.entitlements == map[p := Entitlement("receipt", interval, 0, 0)];
    Then(env, START, [register], registered, pickup);
    var read := Apply(env, registered, pickup);
    assert PickingUp(read, p, k, interval, Scheduled(true));
    Then(env, START, [register] + [pickup], read, CheckDue(0));
    t, steps := Apply(env, read, CheckDue(0)), [register] + [pickup] + [CheckDue(0)];
  }

  /** The first drip of entitlement `p` was committed under key `k`, and its response was not delivered. */
  ghost predicate FirstDripIssued(env: Env, w: World, p: string, k: string, o: Order, interval: nat) {
    && |w.requests| == 1
    && w.requests[0].key == Some(k)
    && w.requests[0].grant == Grant(p, Drip(p, interval))
    && w.requests[0].phase.Recorded? && w.requests[0].phase.order == o
    && w.db.entitlements == map[p := Entitlement("receipt", interval, interval, 1)]
    && w.db.idempotency == map[(p, k) := FingerprintOf(env, p, o)]
    && w.deliveries == [] && CallsOf(w, p) == [0]
  }

  lemma UuidIsNulFree(p: string)
    requires IsUuid(p)
    ensures NulFree(p)
  {
  }

  lemma PickupCommits(env: Env, w: World, p: string, k: string, o: Order, interval: nat) returns (t: World)
    requires PickingUp(w, p, k, interval, Signed(o, SignBundle(env, o))) && CallsOf(w, p) == [0]
    requires IsUuid(p) && Canonical(p) == p && k != "" && NulFree(k) && NulFree(o.epoch)
    ensures Play(env, w, [Record(0, 0)]) == Some(t) && FirstDripIssued(env, t, p, k, o, interval)
  {
    UuidIsNulFree(p);
    OneStep(env, w, Record(0, 0));
    t := Apply(env, w, Record(0, 0));
  }

  lemma FirstDrip(env: Env, p: string, k: string, check: Check, o: Order, interval: nat) returns (t: World, steps: seq<Step>)
    requires IsUuid(p) && Canonical(p) == p && k != "" && NulFree(k) && NulFree(o.epoch)
    requires Verdict(check) == Success(o) && env.rateMax >= 1
    ensures Play(env, START, steps) == Some(t) && FirstDripIssued(env, t, p, k, o, interval)
  {
    var ready;
    ready, steps := FirstPickup(env, p, k, interval);
    Limits.FewCallsAreAllowed([], 0, env.rateWindow, env.rateMax);
    var signed := IssueIsSigned(env, ready, 0, 0, check, o);
    Join(env, START, steps, ready, IssueSteps(0, 0, check, o), signed);
    steps := steps + IssueSteps(0, 0, check, o);
    t := PickupCommits(env, signed, p, k, o, interval);
    Join(env, START, steps, signed, [Record(0, 0)], t);
    steps := steps + [Record(0, 0)];
  }

  // ----- a retry in another spelling -----

  /** Two spellings of one id do exist. */
  lemma SpellingsExist() returns (p: string, q: string)
    ensures IsUuid(p) && IsUuid(q) && p != q && Canonical(q) == Canonical(p) == p
  {
    p := "00000000-0000-4000-8000-00000000000a";
    q := p[35 := 'A'];
    assert p[35] != q[35];
    assert Canonical(p) == p;
    assert Canonical(q) == p;
  }

  /**
   The promise that a retry gets its credentials back is broken in an actual run: the client picks
   up its first drip, retries early under the same key with the id in another spelling, and is told
   that nothing is due.
   */
  lemma RespelledRetryIsRefused(env: Env, p: string, q: string, k: string, check: Check, o: Order, interval: nat)
    returns (worlds: seq<World>, steps: seq<Step>)
    requires IsUuid(p) && IsUuid(q) && p != q && Canonical(q) == Canonical(p) == p
    requires k != "" && NulFree(k) && NulFree(o.epoch) && interval > 0
    requires Verdict(check) == Success(o) && env.rateMax >= 1
    ensures Run(env, worlds, steps)
    ensures var w := worlds[|steps|];
      && |w.requests| == 2
      && w.requests[1].key == w.requests[0].key == Some(k)
      && (p, k) in w.db.idempotency
      && w.requests[1].phase == Failed("NOT_DUE")
  {
    var issued, drip := FirstDrip(env, p, k, check, o, interval);
    Then(env, START, drip, issued, Pickup(Some(q), Some(k), 0));
    var read := Apply(env, issued, Pickup(Some(q), Some(k), 0));
    assert read.requests[1] == Request(Grant(q, Drip(q, interval)), Some(k), Scheduled(false));
    Then(env, START, drip + [Pickup(Some(q), Some(k), 0)], read, CheckDue(1));
    steps := drip + [Pickup(Some(q), Some(k), 0)] + [CheckDue(1)];
    worlds := PlayIsSteps(env, START, steps);
  }

  // ----- a retry that is refused at the door -----

  /** The client repeated everything and was refused, although its drip is spent and it has seen nothing. */
  ghost predicate LostForNow(w: World, p: string, k: string, code: string) {
    && |w.requests| == 2 && w.requests[1].grant == w.requests[0].grant && w.requests[1].key == w.requests[0].key == Some(k)
    && w.requests[1].phase == Failed(code)
    && p in w.db.entitlements && w.db.entitlements[p].dripsIssued == 1
    && w.deliveries == []
  }

  /** The retry up to its authorization, in the same spelling and under the same key. */
  lemma RetryComesBack(env: Env, w: World, p: string, k: string, o: Order, interval: nat, now: int) returns (t: World)
    requires FirstDripIssued(env, w, p, k, o, interval) && IsUuid(p) && Canonical(p) == p
    ensures Play(env, w, [Pickup(Some(p), Some(k), now)] + [CheckDue(1)]) == Some(t)
    ensures t == w.(requests := w.requests + [Request(Grant(p, Drip(p, interval)), Some(k), Authorized)])
  {
    var pickup := Pickup(Some(p), Some(k), now);
    OneStep(env, w, pickup);
    var read := Apply(env, w, pickup);
    Then(env, w, [pickup], read, CheckDue(1));
    t := Apply(env, read, CheckDue(1));
    assert t.requests == w.requests + [Request(Grant(p, Drip(p, interval)), Some(k), Authorized)];
  }

  /**
   Repeating spelling, key and body is not enough: once the epoch's window has closed, the retry is
   refused before its key is looked at. The drip is spent and the client has nothing.
   */
  lemma ExpiredRetryIsRefused(env: Env, p: string, k: string, check: Check, o: Order, interval: nat, late: Check, now: int)
    returns (worlds: seq<World>, steps: seq<Step>)
    requires IsUuid(p) && Canonical(p) == p && k != "" && NulFree(k) && NulFree(o.epoch)
    requires Verdict(check) == Success(o) && env.rateMax >= 2
    requires late.body == check.body && late.bundleSize == check.bundleSize && late.blankSize == check.blankSize
    requires UsableEpoch(late.keyring, o.epoch, late.at).None?
    ensures Run(env, worlds, steps) && LostForNow(worlds[|steps|], p, k, "WRONG_EPOCH")
  {
    var issued, drip := FirstDrip(env, p, k, check, o, interval);
    var back := RetryComesBack(env, issued, p, k, o, interval, now);
    Join(env, START, drip, issued, [Pickup(Some(p), Some(k), now)] + [CheckDue(1)], back);
    Limits.FewCallsAreAllowed([0], now, env.rateWindow, env.rateMax);
    assert Verdict(late) == Failure("WRONG_EPOCH");
    var refused := OrderIsChecked(env, back, 1, now, late);
    var most := drip + ([Pickup(Some(p), Some(k), now)] + [CheckDue(1)]);
    Join(env, START, most, back, [CheckRate(1, now)] + [CheckOrder(1, late)], refused);
    steps := most + ([CheckRate(1, now)] + [CheckOrder(1, late)]);
    worlds := PlayIsSteps(env, START, steps);
  }

  /** The same happens to a retry over its budget: here to the second call of a reference that may make one. */
  lemma LimitedRetryIsRefused(env: Env, p: string, k: string, check: Check, o: Order, interval: nat)
    returns (worlds: seq<World>, steps: seq<Step>)
    requires IsUuid(p) && Canonical(p) == p && k != "" && NulFree(k) && NulFree(o.epoch)
    requires Verdict(check) == Success(o) && env.rateMax == 1 && env.rateWindow > 0
    ensures Run(env, worlds, steps) && LostForNow(worlds[|steps|], p, k, "RATE_LIMITED")
  {
    var issued, drip := FirstDrip(env, p, k, check, o, interval);
    var back := RetryComesBack(env, issued, p, k, o, interval, 0);
    Join(env, START, drip, issued, [Pickup(Some(p), Some(k), 0)] + [CheckDue(1)], back);
    SecondCallIsBlocked(env.rateWindow);
    var refused := CallIsCounted(env, back, 1, 0);
    var most := drip + ([Pickup(Some(p), Some(k), 0)] + [CheckDue(1)]);
    Join(env, START, most, back, [CheckRate(1, 0)], refused);
    steps := most + [CheckRate(1, 0)];
    worlds := PlayIsSteps(env, START, steps);
  }

  lemma SecondCallIsBlocked(length: nat)
    requires length > 0
    ensures !Limits.Allows([0], 0, length, 1)
  {
    assert [0, 0] == [0] + [0] && [0, 0][..1] == [0] && [0][..0] == [];
    Limits.AllowsIffHistoryDoes([0], 0, length, 1);
    assert Limits.CountIn([0], 0 - length, 0) == 1;
    assert Limits.CountIn([0, 0], 0 - length, 0) == 2;
  }

  // ----- colliding orders -----

  /** One purchase made, signed, recorded and delivered under reference and key. */
  ghost predicate FirstSold(env: Env, w: World, reference: string, k: string, b: Order) {
    && |w.requests| == 1 && |w.commits| == 1 && |w.db.ledger| == 1
    && w.commits[0].order == b
    && w.deliveries == [Delivery(0, reference, Some(k), b, SignBundle(env, b))]
    && w.db.idempotency == map[(reference, k) := FingerprintOf(env, reference, b)]
    && w.db.counters.Keys == {b.epoch} && CallsOf(w, reference) == [0]
  }

  /** The steps of one purchase up to its record, and one more. */
  function Sale(r: nat, reference: string, k: string, check: Check, o: Order, last: Step): seq<Step> {
    [Purchase(reference, Some(k))] + IssueSteps(r, 0, check, o) + [Record(r, 0)] + [last]
  }

  lemma JoinSale(env: Env, w: World, signed: World, t: World,
                 r: nat, reference: string, k: string, check: Check, o: Order, last: Step)
    requires Play(env, w, [Purchase(reference, Some(k))] + IssueSteps(r, 0, check, o)) == Some(signed)
    requires Play(env, signed, [Record(r, 0)] + [last]) == Some(t)
    ensures Play(env, w, Sale(r, reference, k, check, o, last)) == Some(t)
  {
    var steps := [Purchase(reference, Some(k))] + IssueSteps(r, 0, check, o);
    Join(env, w, steps, signed, [Record(r, 0)] + [last], t);
    assert steps + ([Record(r, 0)] + [last]) == Sale(r, reference, k, check, o, last);
  }

  /** A purchase up to the signed order, whatever went before. */
  lemma SaleIsSigned(env: Env, w: World, reference: string, k: string, check: Check, o: Order) returns (t: World)
    requires Verdict(check) == Success(o) && WithinBudget(env, w, reference, 0)
    ensures Play(env, w, [Purchase(reference, Some(k))] + IssueSteps(|w.requests|, 0, check, o)) == Some(t)
    ensures t == w.(requests := w.requests + [Request(Grant(reference, Nothing), Some(k), Signed(o, SignBundle(env, o)))],
                    calls := w.calls[reference := CallsOf(w, reference) + [0]])
  {
    var r := |w.requests|;
    OneStep(env, w, Purchase(reference, Some(k)));
    var bought := Apply(env, w, Purchase(reference, Some(k)));
    t := IssueIsSigned(env, bought, r, 0, check, o);
    Join(env, w, [Purchase(reference, Some(k))], bought, IssueSteps(r, 0, check, o), t);
    assert t.requests == w.requests + [Request(Grant(reference, Nothing), Some(k), Signed(o, SignBundle(env, o)))];
  }

  /** The first purchase of all is recorded and delivered. */
  lemma SaleIsRecorded(env: Env, w: World, reference: string, k: string, b: Order) returns (t: World)
    requires w == START.(requests := [Request(Grant(reference, Nothing), Some(k), Signed(b, SignBundle(env, b)))],
                         calls := w.calls) && CallsOf(w, reference) == [0]
    requires k != "" && NulFree(k) && NulFree(reference) && NulFree(b.epoch)
    ensures Play(env, w, [Record(0, 0)] + [Deliver(0)]) == Some(t) && FirstSold(env, t, reference, k, b)
  {
    OneStep(env, w, Record(0, 0));
    var recorded := Apply(env, w, Record(0, 0));
    assert recorded.requests[0].phase == Recorded(b, SignBundle(env, b), 0);
    Then(env, w, [Record(0, 0)], recorded, Deliver(0));
    t := Apply(env, recorded, Deliver(0));
  }

  lemma FirstSale(env: Env, reference: string, k: string, check: Check, b: Order) returns (t: World)
    requires Verdict(check) == Success(b) && k != "" && NulFree(k) && NulFree(reference) && NulFree(b.epoch)
    requires env.rateMax >= 1
    ensures Play(env, START, Sale(0, reference, k, check, b, Deliver(0))) == Some(t) && FirstSold(env, t, reference, k, b)
  {
    Limits.FewCallsAreAllowed([], 0, env.rateWindow, env.rateMax);
    var signed := SaleIsSigned(env, START, reference, k, check, b);
    assert signed.requests == [Request(Grant(reference, Nothing), Some(k), Signed(b, SignBundle(env, b)))];
    assert CallsOf(signed, reference) == [0];
    t := SaleIsRecorded(env, signed, reference, k, b);
    JoinSale(env, START, signed, t, 0, reference, k, check, b, Deliver(0));
  }

  /** A purchase whose key was claimed by an order of the same fingerprint is answered as its replay. */
  lemma SaleIsReplayed(env: Env, w: World, r: nat, reference: string, k: string, a: Order) returns (t: World)
    requires r < |w.requests|
    requires w.requests[r] == Request(Grant(reference, Nothing), Some(k), Signed(a, SignBundle(env, a)))
    requires k != "" && NulFree(k) && NulFree(reference)
    requires (reference, k) in w.db.idempotency && w.db.idempotency[(reference, k)] == FingerprintOf(env, reference, a)
    ensures Play(env, w, [Record(r, 0)] + [CheckReplay(r)]) == Some(t)
    ensures t.db == w.db && t.commits == w.commits
    ensures t.deliveries == w.deliveries + [Delivery(r, reference, Some(k), a, SignBundle(env, a))]
  {
    OneStep(env, w, Record(r, 0));
    var taken := Apply(env, w, Record(r, 0));
    assert taken == SetPhase(w, r, KeyTaken(a, SignBundle(env, a)));
    Then(env, w, [Record(r, 0)], taken, CheckReplay(r));
    t := Apply(env, taken, CheckReplay(r));
  }

  /** The second purchase, of an order with the first one's fingerprint. */
  lemma SecondSale(env: Env, w: World, reference: string, k: string, check: Check, a: Order, b: Order) returns (t: World)
    requires FirstSold(env, w, reference, k, b) && Verdict(check) == Success(a) && k != ""
    requires NulFree(k) && NulFree(reference) && env.rateMax >= 2
    requires FingerprintOf(env, reference, a) == FingerprintOf(env, reference, b)
    ensures Play(env, w, Sale(1, reference, k, check, a, CheckReplay(1))) == Some(t)
    ensures t.db == w.db && t.commits == w.commits
    ensures t.deliveries == w.deliveries + [Delivery(1, reference, Some(k), a, SignBundle(env, a))]
  {
    Limits.FewCallsAreAllowed([0], 0, env.rateWindow, env.rateMax);
    var signed := SaleIsSigned(env, w, reference, k, check, a);
    t := SaleIsReplayed(env, signed, 1, reference, k, a);
    JoinSale(env, w, signed, t, 1, reference, k, check, a, CheckReplay(1));
  }

  /** The second delivery, of order `a`, is one that nothing accounts for. */
  ghost predicate Uncounted(env: Env, w: World, reference: string, k: string, a: Order) {
    && |w.deliveries| == 2 && |w.commits| == |w.db.ledger| == 1
    && w.deliveries[1] == Delivery(1, reference, Some(k), a, SignBundle(env, a))
    && a.epoch !in w.db.counters
    && forall c: nat :: !Backs(w, w.deliveries[1], c)
  }

  lemma PassingHashesAlike(env: Env, reference: string, ca: Check, a: Order, cb: Check, b: Order)
    requires Verdict(ca) == Success(a) && Verdict(cb) == Success(b) && PassesFor(a, b)
    ensures FingerprintOf(env, reference, a) == FingerprintOf(env, reference, b) && a.epoch != b.epoch
  {
    VerdictIsOk(ca);
    VerdictIsOk(cb);
    InputsEqualIff(reference, a.epoch, a.blanks, b.epoch, b.blanks);
    SwallowingHoldsNul(a.epoch, a.blanks, b.epoch, b.blanks);
  }

  lemma OtherEpochIsUncounted(env: Env, w: World, t: World, reference: string, k: string, a: Order, b: Order)
    requires FirstSold(env, w, reference, k, b) && a.epoch != b.epoch && t.db == w.db && t.commits == w.commits
    requires t.deliveries == w.deliveries + [Delivery(1, reference, Some(k), a, SignBundle(env, a))]
    ensures Uncounted(env, t, reference, k, a)
  {
  }

  lemma BothSales(env: Env, reference: string, k: string, ca: Check, a: Order, cb: Check, b: Order) returns (t: World)
    requires Verdict(ca) == Success(a) && Verdict(cb) == Success(b) && PassesFor(a, b)
    requires k != "" && NulFree(k) && NulFree(reference) && env.rateMax >= 2
    ensures Play(env, START, Sale(0, reference, k, cb, b, Deliver(0)) + Sale(1, reference, k, ca, a, CheckReplay(1))) == Some(t)
    ensures Uncounted(env, t, reference, k, a)
  {
    PassingHashesAlike(env, reference, ca, a, cb, b);
    var sold := FirstSale(env, reference, k, cb, b);
    t := SecondSale(env, sold, reference, k, ca, a, b);
    OtherEpochIsUncounted(env, sold, t, reference, k, a, b);
    Join(env, START, Sale(0, reference, k, cb, b, Deliver(0)), sold, Sale(1, reference, k, ca, a, CheckReplay(1)), t);
  }

  /**
   The collision condition is exact. Whenever one order that passes its checks passes for another,
   there is a run that works on these two alone and in which the first is delivered as a replay of
   the second: two deliveries, one commit, one ledger row, nothing counted for the first one's epoch,
   and no commit that backs it.
   */
  lemma CollidingRetryIsUncounted(env: Env, reference: string, k: string, ca: Check, a: Order, cb: Check, b: Order)
    returns (worlds: seq<World>, steps: seq<Step>)
    requires Verdict(ca) == Success(a) && Verdict(cb) == Success(b) && PassesFor(a, b)
    requires k != "" && NulFree(k) && NulFree(reference) && env.rateMax >= 2
    ensures Run(env, worlds, steps) && OrdersOf(steps) == {a, b}
    ensures Uncounted(env, worlds[|steps|], reference, k, a)
  {
    var first, second := Sale(0, reference, k, cb, b, Deliver(0)), Sale(1, reference, k, ca, a, CheckReplay(1));
    var t := BothSales(env, reference, k, ca, a, cb, b);
    steps := first + second;
    worlds := PlayIsSteps(env, START, steps);
    OrdersAdd(first, second);
    SaleOrders(0, reference, k, cb, b, Deliver(0));
    SaleOrders(1, reference, k, ca, a, CheckReplay(1));
  }

  /**
   Nothing in the checks of requests and keyrings prevents it: any non-empty epoch id, NULs included,
   and any well-formed blanks pass under a keyring that parses.
   */
  lemma AnyEpochPasses(epoch: string, blanks: seq<string>, size: nat) returns (check: Check)
    requires epoch != "" && forall i :: 0 <= i < |blanks| ==> EncodesBytes(blanks[i], size)
    ensures Verdict(check) == Success(Order(epoch, blanks, |blanks|))
    ensures ParseKeyring(check.keyring).Success?
  {
    var items := seq(|blanks|, i requires 0 <= i < |blanks| => JString(blanks[i]));
    var body := JObject(map["epoch" := JString(epoch), "blinded_blanks" := JArray(items)]);
    AcceptsExactlyWellFormedRequests(body, |blanks|, size);
    assert Validate(body, |blanks|, size).value.blanks == blanks;
    var keyring := OneEpoch(epoch);
    check := Check(body, |blanks|, size, keyring, 0);
  }

  lemma OneEpoch(epoch: string) returns (k: Keyring)
    requires epoch != ""
    ensures ParseKeyring(k).Success? && UsableEpoch(k, epoch, 0).Some?
  {
    var entry := EpochEntry(Document(epoch, 0, 1, SUITE, Encode([0])), "signature", "key");
    k := Keyring(epoch, Encode([0]), [entry]);
    AcceptsExactlyCanonicalEncodings(Encode([0]), [0]);
    assert Ids(k.epochs) == [epoch];
    assert Ids(k.epochs)[0] == epoch;
    ParsesExactlyGoodStructure(k);
  }

  lemma SaleOrders(r: nat, reference: string, k: string, check: Check, o: Order, last: Step)
    requires !last.CheckOrder? && Verdict(check) == Success(o)
    ensures OrdersOf(Sale(r, reference, k, check, o, last)) == {o}
  {
    assert Sale(r, reference, k, check, o, last)[2] == CheckOrder(r, check);
  }

  lemma OrdersAdd(a: seq<Step>, b: seq<Step>)
    ensures OrdersOf(a + b) == OrdersOf(a) + OrdersOf(b)
  {
    var all := a + b;
    forall o | o in OrdersOf(a) + OrdersOf(b) ensures o in OrdersOf(all) {
      if o in OrdersOf(a) {
        var i :| 0 <= i < |a| && a[i].CheckOrder? && Verdict(a[i].check) == Success(o);
        assert all[i] == a[i];
      } else {
        var i :| 0 <= i < |b| && b[i].CheckOrder? && Verdict(b[i].check) == Success(o);
        assert all[|a| + i] == b[i];
      }
    }
  }
}
