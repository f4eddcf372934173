/** What every step of the issuance protocol keeps. */
module IssuanceInvariant {
  import opened Common
  import opened Fingerprint
  import opened BundleRequestValidation
  import opened IssuanceModel

  // ----- sums over the history -----

  /** Bundles committed for an epoch. */
  function BundlesOf(commits: seq<Commit>, epoch: string): nat {
    if commits == [] then 0
    else BundlesOf(commits[..|commits| - 1], epoch) + (if commits[|commits| - 1].order.epoch == epoch then 1 else 0)
  }

  /** Signatures those commits produced. */
  function SignaturesOf(commits: seq<Commit>, epoch: string): nat {
    if commits == [] then 0
    else
      var c := commits[|commits| - 1];
      SignaturesOf(commits[..|commits| - 1], epoch) + (if c.order.epoch == epoch then |c.response.signatures| else 0)
  }

  /** Signatures injected for an epoch. */
  function InjectedOf(injections: seq<Injection>, epoch: string): nat {
    if injections == [] then 0
    else
      var x := injections[|injections| - 1];
      InjectedOf(injections[..|injections| - 1], epoch) + (if x.epoch == epoch then x.signatures else 0)
  }

  /** Start timestamps of the commits that consumed a drip of entitlement `e`, in commit order. */
  function DripStarts(commits: seq<Commit>, e: string): seq<int> {
    if commits == [] then []
    else
      var c := commits[|commits| - 1];
      DripStarts(commits[..|commits| - 1], e) + (if c.drip == Some(e) then [c.start] else [])
  }

  ghost predicate Spaced(starts: seq<int>, interval: nat) {
    forall i :: 0 <= i < |starts| - 1 ==> starts[i] + interval <= starts[i + 1]
  }

  // ----- the invariant -----

  ghost predicate LedgerOk(w: World) {
    && |w.db.ledger| == |w.commits|
    && forall i :: 0 <= i < |w.commits| ==>
         w.db.ledger[i] == LedgerRow(w.commits[i].reference, w.commits[i].order.epoch, 1)
  }

  ghost predicate CommitsOk(env: Env, w: World) {
    && (forall i :: 0 <= i < |w.commits| ==>
          && OrderOk(w.commits[i].order) && NulFree(w.commits[i].order.epoch)
          && w.commits[i].response == SignBundle(env, w.commits[i].order)
          && w.commits[i].request < |w.requests|
          && Past(w.requests[w.commits[i].request].phase)
          && w.requests[w.commits[i].request].grant.reference == w.commits[i].reference
          && EffectiveKey(w.requests[w.commits[i].request].key) == w.commits[i].key
          && DripOf(w.requests[w.commits[i].request].grant) == w.commits[i].drip)
    && (forall i, j | 0 <= i < |w.commits| && 0 <= j < |w.commits| ::
          w.commits[i].request == w.commits[j].request ==> i == j)
  }

  /** Phases a request can be in once its transaction has committed. */
  predicate Past(p: Phase) {
    p.Recorded? || p.Delivered? || p.Failed?
  }

  ghost predicate ClaimsOk(env: Env, w: World) {
    && w.claims.Keys == w.db.idempotency.Keys
    && (forall c :: c in w.claims ==>
          && NulFree(c.0) && NulFree(c.1)
          && w.claims[c] < |w.commits|
          && w.commits[w.claims[c]].reference == c.0
          && w.commits[w.claims[c]].key == Some(c.1)
          && w.db.idempotency[c] == FingerprintOf(env, c.0, w.commits[w.claims[c]].order))
    && (forall i :: 0 <= i < |w.commits| && w.commits[i].key.Some? ==>
          && (w.commits[i].reference, w.commits[i].key.value) in w.claims
          && w.claims[(w.commits[i].reference, w.commits[i].key.value)] == i)
  }

  ghost predicate RequestOk(env: Env, w: World, r: nat)
    requires r < |w.requests|
  {
    var q := w.requests[r];
    && (q.grant.consume.Drip? ==>
          && q.grant.reference == q.grant.consume.entitlement && IsUuid(q.grant.reference)
          && Canonical(q.grant.consume.entitlement) in w.db.entitlements
          && w.db.entitlements[Canonical(q.grant.consume.entitlement)].interval == q.grant.consume.interval)
    && match q.phase
       case Checked(o) => OrderOk(o)
       case Signed(o, response) => OrderOk(o) && response == SignBundle(env, o)
       case Recorded(o, response, c) =>
         && OrderOk(o) && response == SignBundle(env, o)
         && c < |w.commits| && w.commits[c].request == r && w.commits[c].order == o
       case KeyTaken(o, response) =>
         && OrderOk(o) && response == SignBundle(env, o)
         && EffectiveKey(q.key).Some? && (q.grant.reference, EffectiveKey(q.key).value) in w.claims
       case _ => true
  }

  /** Commit `c` is the one that accounts for delivery `d`. */
  ghost predicate Covers(w: World, d: Delivery, c: nat) {
    && c < |w.commits|
    && w.commits[c].reference == d.reference
    && w.commits[c].key == d.key
    && (d.key.None? ==> w.commits[c].request == d.request)
  }

  /** ... and its key was claimed by a request with the fingerprint of the delivered one. */
  ghost predicate Vouches(env: Env, w: World, d: Delivery, c: nat) {
    && Covers(w, d, c)
    && OrderOk(d.order) && d.response == SignBundle(env, d.order)
    && (if d.key.Some? then FingerprintOf(env, d.reference, w.commits[c].order) == FingerprintOf(env, d.reference, d.order)
        else w.commits[c].order == d.order)
  }

  ghost predicate DeliveriesOk(env: Env, w: World) {
    forall d :: d in w.deliveries ==> exists c: nat :: Vouches(env, w, d, c)
  }

  ghost predicate CounterOk(w: World, epoch: string) {
    if epoch in w.db.counters then
      && w.db.counters[epoch].bundlesPaid == BundlesOf(w.commits, epoch)
      && w.db.counters[epoch].signaturesIssued == SignaturesOf(w.commits, epoch) + InjectedOf(w.injections, epoch)
    else BundlesOf(w.commits, epoch) == 0 && SignaturesOf(w.commits, epoch) == 0 && InjectedOf(w.injections, epoch) == 0
  }

  /** A counter row's bundle size is one that some commit or injection of that epoch was counted with. */
  ghost predicate SizeOk(w: World, e: string) {
    e in w.db.counters ==>
      || (exists i :: 0 <= i < |w.commits| && w.commits[i].order.epoch == e &&
                      w.commits[i].order.bundleSize == w.db.counters[e].bundleSize)
      || (exists i :: 0 <= i < |w.injections| && w.injections[i].epoch == e &&
                      w.injections[i].bundleSize == w.db.counters[e].bundleSize)
  }

  ghost predicate DripsOk(w: World, e: string) {
    var starts := DripStarts(w.commits, e);
    if e in w.db.entitlements then
      var row := w.db.entitlements[e];
      && row.dripsIssued == |starts|
      && Spaced(starts, row.interval)
      && (starts != [] ==> row.nextDripAt == starts[|starts| - 1] + row.interval)
    else starts == []
  }

  ghost predicate ReceiptsOk(w: World) {
    forall a, b | a in w.db.entitlements && b in w.db.entitlements ::
      w.db.entitlements[a].receiptHash == w.db.entitlements[b].receiptHash ==> a == b
  }

  ghost predicate IssuanceOk(env: Env, w: World) {
    && LedgerOk(w) && CommitsOk(env, w) && ClaimsOk(env, w)
    && (forall r :: 0 <= r < |w.requests| ==> RequestOk(env, w, r))
    && DeliveriesOk(env, w)
  }

  ghost predicate AccountsOk(w: World) {
    && (forall e: string :: CounterOk(w, e))
    && (forall e: string :: SizeOk(w, e))
    && (forall e: string :: DripsOk(w, e))
    && ReceiptsOk(w)
  }

  ghost predicate Inv(env: Env, w: World) {
    IssuanceOk(env, w) && AccountsOk(w)
  }

  /** The request hash never maps two inputs to one value. */
  ghost predicate HashInjective(env: Env) {
    forall a, b :: env.sha256(a) == env.sha256(b) ==> a == b
  }

  // ----- steps that leave the database alone -----

  lemma InitKeeps(env: Env)
    ensures Inv(env, START)
  {
  }

  lemma DeliveriesFrame(env: Env, w: World, t: World)
    requires DeliveriesOk(env, w) && w.commits <= t.commits && t.deliveries == w.deliveries
    ensures DeliveriesOk(env, t)
  {
    forall d | d in t.deliveries ensures exists c: nat :: Vouches(env, t, d, c) {
      var c: nat :| Vouches(env, w, d, c);
      assert Vouches(env, t, d, c);
    }
  }

  lemma PhaseKeeps(env: Env, w: World, r: nat, phase: Phase)
    requires IssuanceOk(env, w) && r < |w.requests|
    requires phase.Failed? || phase.Authorized? || phase.Admitted? ||
             (phase.Checked? && OrderOk(phase.order)) ||
             (phase.Signed? && OrderOk(phase.order) && phase.response == SignBundle(env, phase.order)) ||
             (phase.KeyTaken? && OrderOk(phase.order) && phase.response == SignBundle(env, phase.order) &&
              EffectiveKey(w.requests[r].key).Some? &&
              (w.requests[r].grant.reference, EffectiveKey(w.requests[r].key).value) in w.claims)
    requires !Past(phase) ==> !Past(w.requests[r].phase)
    ensures IssuanceOk(env, SetPhase(w, r, phase))
  {
    var t := SetPhase(w, r, phase);
    forall q | 0 <= q < |t.requests| ensures RequestOk(env, t, q) {
      assert RequestOk(env, w, q);
    }
    DeliveriesFrame(env, w, t);
  }

  lemma CountCallKeeps(env: Env, w: World, r: nat, now: int)
    requires IssuanceOk(env, w) && r < |w.requests| && w.requests[r].phase.Authorized?
    ensures IssuanceOk(env, CountCall(env, w, r, now))
  {
    var t := CountCall(env, w, r, now);
    PhaseKeeps(env, w, r, t.requests[r].phase);
    CallsFrame(env, SetPhase(w, r, t.requests[r].phase), t.calls);
  }

  lemma CallsFrame(env: Env, w: World, calls: map<string, seq<int>>)
    requires IssuanceOk(env, w)
    ensures IssuanceOk(env, w.(calls := calls))
  {
    var t := w.(calls := calls);
    forall r | 0 <= r < |t.requests| ensures RequestOk(env, t, r) { assert RequestOk(env, w, r); }
    DeliveriesFrame(env, w, t);
  }

  /** An order that passed its checks has the configured number of blanks, without NULs. */
  lemma VerdictIsOk(c: Check)
    requires Verdict(c).Success?
    ensures OrderOk(Verdict(c).value)
  {
    AcceptedRequestIsWellFormed(c.body, c.bundleSize, c.blankSize);
  }

  lemma CheckKeeps(env: Env, w: World, r: nat, check: Check)
    requires IssuanceOk(env, w) && Enabled(w, CheckOrder(r, check))
    ensures IssuanceOk(env, Apply(env, w, CheckOrder(r, check)))
  {
    if Verdict(check).Success? {
      VerdictIsOk(check);
      PhaseKeeps(env, w, r, Checked(Verdict(check).value));
    } else {
      PhaseKeeps(env, w, r, Failed(Verdict(check).error));
    }
  }

  lemma AddRequestKeeps(env: Env, w: World, q: Request)
    requires IssuanceOk(env, w)
    requires q.phase.Authorized? || q.phase.Scheduled? || q.phase.Failed?
    requires q.grant.consume.Drip? ==>
               && q.grant.reference == q.grant.consume.entitlement && IsUuid(q.grant.reference)
               && Canonical(q.grant.consume.entitlement) in w.db.entitlements
               && w.db.entitlements[Canonical(q.grant.consume.entitlement)].interval == q.grant.consume.interval
    ensures IssuanceOk(env, AddRequest(w, q))
  {
    var t := AddRequest(w, q);
    forall r | 0 <= r < |t.requests| ensures RequestOk(env, t, r) {
      if r < |w.requests| {
        assert RequestOk(env, w, r);
      }
    }
    DeliveriesFrame(env, w, t);
  }

  lemma DeliveryAdded(env: Env, w: World, t: World, d: Delivery, c: nat)
    requires DeliveriesOk(env, w) && Vouches(env, w, d, c)
    requires t.commits == w.commits && t.deliveries == w.deliveries + [d]
    ensures DeliveriesOk(env, t)
  {
    forall x | x in t.deliveries ensures exists b: nat :: Vouches(env, t, x, b) {
      if x in w.deliveries {
        var b: nat :| Vouches(env, w, x, b);
        assert Vouches(env, t, x, b);
      } else {
        assert Vouches(env, t, x, c);
      }
    }
  }

  /** A delivery that a commit vouches for. */
  lemma DeliverKeeps(env: Env, w: World, r: nat, o: Order, response: Response, c: nat)
    requires IssuanceOk(env, w) && r < |w.requests|
    requires Vouches(env, w, Delivery(r, w.requests[r].grant.reference, EffectiveKey(w.requests[r].key), o, response), c)
    requires w.requests[r].phase.Recorded? || w.requests[r].phase.KeyTaken?
    ensures IssuanceOk(env, DeliverTo(w, r, o, response))
  {
    var t := DeliverTo(w, r, o, response);
    DeliveryAdded(env, w, t, t.deliveries[|w.deliveries|], c);
    forall q | 0 <= q < |t.requests| ensures RequestOk(env, t, q) {
      assert RequestOk(env, w, q);
    }
  }

  /** A replay that passes the fingerprint check is vouched for by the commit that claimed its key. */
  lemma ReplayKeeps(env: Env, w: World, r: nat)
    requires IssuanceOk(env, w)
    requires r < |w.requests| && w.requests[r].phase.KeyTaken?
    ensures IssuanceOk(env, AnswerReplay(env, w, r))
  {
    var q := w.requests[r];
    assert RequestOk(env, w, r);
    var key, o := EffectiveKey(q.key), q.phase.order;
    var c := w.claims[(q.grant.reference, key.value)];
    if w.db.idempotency[(q.grant.reference, key.value)] == FingerprintOf(env, q.grant.reference, o) {
      DeliverKeeps(env, w, r, o, q.phase.response, c);
    } else {
      PhaseKeeps(env, w, r, Failed("IDEMPOTENCY_CONFLICT"));
    }
  }

  lemma OwnDeliveryKeeps(env: Env, w: World, r: nat)
    requires IssuanceOk(env, w) && r < |w.requests| && w.requests[r].phase.Recorded?
    ensures IssuanceOk(env, DeliverTo(w, r, w.requests[r].phase.order, w.requests[r].phase.response))
  {
    var p := w.requests[r].phase;
    assert RequestOk(env, w, r);
    DeliverKeeps(env, w, r, p.order, p.response, p.commit);
  }

  // ----- the committing transaction -----

  predicate WillCommit(env: Env, w: World, r: nat, now: int) {
    r < |w.requests| && w.requests[r].phase.Signed? &&
    RecordTx(env, w.db, w.requests[r].grant, EffectiveKey(w.requests[r].key),
             w.requests[r].phase.order, w.requests[r].phase.response, now).Commits?
  }

  /** Entitlement rows stay, and keep their interval and receipt. */
  ghost predicate RowsKept(a: map<string, Entitlement>, b: map<string, Entitlement>) {
    forall e :: e in a ==> e in b && b[e].interval == a[e].interval && b[e].receiptHash == a[e].receiptHash
  }

  /** What a committing transaction does to everything but the counters. */
  ghost predicate CommitShape(env: Env, w: World, r: nat, now: int, t: World)
    requires r < |w.requests| && w.requests[r].phase.Signed?
  {
    var q := w.requests[r];
    var key, o := EffectiveKey(q.key), q.phase.order;
    && t.commits == w.commits + [CommitOf(w, r, now)]
    && t.requests == w.requests[r := q.(phase := Recorded(o, q.phase.response, |w.commits|))]
    && t.deliveries == w.deliveries
    && t.injections == w.injections
    && NulFree(o.epoch)
    && t.db.ledger == w.db.ledger + [LedgerRow(q.grant.reference, o.epoch, 1)]
    && (key.Some? ==>
          && (q.grant.reference, key.value) !in w.db.idempotency
          && NulFree(q.grant.reference) && NulFree(key.value)
          && t.db.idempotency == w.db.idempotency[(q.grant.reference, key.value) := FingerprintOf(env, q.grant.reference, o)]
          && t.claims == w.claims[(q.grant.reference, key.value) := |w.commits|])
    && (key.None? ==> t.db.idempotency == w.db.idempotency && t.claims == w.claims)
    && RowsKept(w.db.entitlements, t.db.entitlements)
  }

  lemma CommitHasShape(env: Env, w: World, r: nat, now: int)
    requires WillCommit(env, w, r, now)
    ensures CommitShape(env, w, r, now, RecordRequest(env, w, r, now))
  {
  }

  lemma CommitClaims(env: Env, w: World, r: nat, now: int, t: World)
    requires ClaimsOk(env, w) && r < |w.requests| && w.requests[r].phase.Signed?
    requires CommitShape(env, w, r, now, t)
    ensures ClaimsOk(env, t)
  {
    assert forall i :: 0 <= i < |w.commits| ==> t.commits[i] == w.commits[i];
    var q := w.requests[r];
    var key := EffectiveKey(q.key);
    if key.Some? {
      var claim := (q.grant.reference, key.value);
      assert t.claims.Keys == t.db.idempotency.Keys;
      assert t.commits[t.claims[claim]] == CommitOf(w, r, now);
    }
  }

  lemma CommitCommits(env: Env, w: World, r: nat, now: int, t: World)
    requires CommitsOk(env, w) && r < |w.requests| && RequestOk(env, w, r) && w.requests[r].phase.Signed?
    requires CommitShape(env, w, r, now, t)
    ensures CommitsOk(env, t)
  {
    assert forall i :: 0 <= i < |w.commits| ==> t.commits[i] == w.commits[i];
    assert forall i :: 0 <= i < |w.commits| ==> w.commits[i].request != r;
  }

  lemma CommitIssuance(env: Env, w: World, r: nat, now: int)
    requires IssuanceOk(env, w) && WillCommit(env, w, r, now)
    ensures IssuanceOk(env, RecordRequest(env, w, r, now))
  {
    var t := RecordRequest(env, w, r, now);
    CommitHasShape(env, w, r, now);
    assert RequestOk(env, w, r);
    CommitClaims(env, w, r, now, t);
    CommitCommits(env, w, r, now, t);
    forall p | 0 <= p < |t.requests| ensures RequestOk(env, t, p) {
      assert RequestOk(env, w, p);
    }
    DeliveriesFrame(env, w, t);
  }

  lemma RecordIssuance(env: Env, w: World, r: nat, now: int)
    requires IssuanceOk(env, w) && r < |w.requests| && w.requests[r].phase.Signed?
    ensures IssuanceOk(env, RecordRequest(env, w, r, now))
  {
    if WillCommit(env, w, r, now) {
      CommitIssuance(env, w, r, now);
    } else {
      assert RequestOk(env, w, r);
      RollBackKeeps(env, w, r, now);
    }
  }

  lemma RollBackKeeps(env: Env, w: World, r: nat, now: int)
    requires IssuanceOk(env, w) && r < |w.requests| && w.requests[r].phase.Signed? && RequestOk(env, w, r)
    requires !WillCommit(env, w, r, now)
    ensures IssuanceOk(env, RecordRequest(env, w, r, now))
  {
    var t := RecordRequest(env, w, r, now);
    RollBackPhase(env, w, r, now);
    PhaseKeeps(env, w, r, t.requests[r].phase);
  }

  /** A transaction that does not commit only moves its request. */
  lemma RollBackPhase(env: Env, w: World, r: nat, now: int)
    requires r < |w.requests| && w.requests[r].phase.Signed? && !WillCommit(env, w, r, now)
    ensures var q, t := w.requests[r], RecordRequest(env, w, r, now);
      && t == SetPhase(w, r, t.requests[r].phase)
      && (t.requests[r].phase.Failed? ||
          (t.requests[r].phase == KeyTaken(q.phase.order, q.phase.response) && EffectiveKey(q.key).Some? &&
           (q.grant.reference, EffectiveKey(q.key).value) in w.db.idempotency))
  {
  }

  // ----- accounts -----

  /** Nothing the accounts depend on has changed. */
  lemma AccountsFrame(w: World, t: World)
    requires AccountsOk(w)
    requires t.commits == w.commits && t.injections == w.injections
    requires t.db.counters == w.db.counters && t.db.entitlements == w.db.entitlements
    ensures AccountsOk(t)
  {
    forall e: string ensures CounterOk(t, e) && SizeOk(t, e) { assert CounterOk(w, e) && SizeOk(w, e); }
    forall e: string ensures DripsOk(t, e) { assert DripsOk(w, e); }
  }

  lemma HistoryAppend(commits: seq<Commit>, c: Commit, e: string)
    ensures BundlesOf(commits + [c], e) == BundlesOf(commits, e) + (if c.order.epoch == e then 1 else 0)
    ensures SignaturesOf(commits + [c], e) ==
            SignaturesOf(commits, e) + (if c.order.epoch == e then |c.response.signatures| else 0)
    ensures DripStarts(commits + [c], e) == DripStarts(commits, e) + (if c.drip == Some(e) then [c.start] else [])
  {
    assert (commits + [c])[..|commits|] == commits;
  }

  lemma CommitCounters(env: Env, w: World, r: nat, now: int, e: string)
    requires WillCommit(env, w, r, now) && CounterOk(w, e)
    ensures CounterOk(RecordRequest(env, w, r, now), e)
  {
    HistoryAppend(w.commits, CommitOf(w, r, now), e);
  }

  lemma CommitDrips(env: Env, w: World, r: nat, now: int, e: string)
    requires WillCommit(env, w, r, now) && DripsOk(w, e) && RequestOk(env, w, r)
    ensures DripsOk(RecordRequest(env, w, r, now), e)
  {
    var t, c := RecordRequest(env, w, r, now), CommitOf(w, r, now);
    HistoryAppend(w.commits, c, e);
    CommitMovesRow(env, w, r, now, e);
    if c.drip == Some(e) {
      SpacedAppend(DripStarts(w.commits, e), w.db.entitlements[e].interval, now);
    }
  }

  lemma SpacedAppend(starts: seq<int>, interval: nat, now: int)
    requires Spaced(starts, interval) && (starts != [] ==> starts[|starts| - 1] + interval <= now)
    ensures Spaced(starts + [now], interval)
  {
  }

  /** A commit advances the row its grant draws on, which was due, and no other. */
  lemma CommitMovesRow(env: Env, w: World, r: nat, now: int, e: string)
    requires WillCommit(env, w, r, now) && RequestOk(env, w, r)
    ensures var a, b := w.db.entitlements, RecordRequest(env, w, r, now).db.entitlements;
      if CommitOf(w, r, now).drip == Some(e) then
        && e in a && a[e].nextDripAt <= now
        && e in b && b[e] == a[e].(nextDripAt := now + a[e].interval, dripsIssued := a[e].dripsIssued + 1)
      else (e in a <==> e in b) && (e in a ==> b[e] == a[e])
  {
  }

  lemma CommitAccounts(env: Env, w: World, r: nat, now: int)
    requires AccountsOk(w) && WillCommit(env, w, r, now) && RequestOk(env, w, r)
    ensures AccountsOk(RecordRequest(env, w, r, now))
  {
    forall e: string ensures CounterOk(RecordRequest(env, w, r, now), e) {
      assert CounterOk(w, e);
      CommitCounters(env, w, r, now, e);
    }
    forall e: string ensures SizeOk(RecordRequest(env, w, r, now), e) {
      assert SizeOk(w, e);
      CommitSize(env, w, r, now, e);
    }
    forall e: string ensures DripsOk(RecordRequest(env, w, r, now), e) {
      assert DripsOk(w, e);
      CommitDrips(env, w, r, now, e);
    }
    CommitHasShape(env, w, r, now);
    CommitKeys(env, w, r, now);
  }

  lemma CommitKeys(env: Env, w: World, r: nat, now: int)
    requires WillCommit(env, w, r, now)
    ensures RecordRequest(env, w, r, now).db.entitlements.Keys == w.db.entitlements.Keys
  {
  }

  lemma InjectSize(w: World, x: Injection, t: World, e: string)
    requires SizeOk(w, e) && t.commits == w.commits && t.injections == w.injections + [x]
    requires t.db.counters == RecordSignaturesIssued(w.db.counters, x.epoch, x.signatures, x.bundleSize)
    ensures SizeOk(t, e)
  {
    if e in w.db.counters {
      assert forall i :: 0 <= i < |w.injections| ==> t.injections[i] == w.injections[i];
    } else if e == x.epoch {
      assert t.injections[|w.injections|] == x;
    }
  }

  lemma CommitSize(env: Env, w: World, r: nat, now: int, e: string)
    requires WillCommit(env, w, r, now) && SizeOk(w, e)
    ensures SizeOk(RecordRequest(env, w, r, now), e)
  {
    var t := RecordRequest(env, w, r, now);
    assert forall i :: 0 <= i < |w.commits| ==> t.commits[i] == w.commits[i];
    assert t.commits[|w.commits|] == CommitOf(w, r, now);
  }

  lemma InjectAccounts(w: World, x: Injection, t: World)
    requires AccountsOk(w)
    requires t == w.(db := w.db.(counters := RecordSignaturesIssued(w.db.counters, x.epoch, x.signatures, x.bundleSize)),
                     injections := w.injections + [x])
    ensures AccountsOk(t)
  {
    assert (w.injections + [x])[..|w.injections|] == w.injections;
    forall e: string ensures CounterOk(t, e) {
      assert CounterOk(w, e);
    }
    forall e: string ensures SizeOk(t, e) {
      assert SizeOk(w, e);
      InjectSize(w, x, t, e);
    }
    forall e: string ensures DripsOk(t, e) { assert DripsOk(w, e); }
  }

  lemma RegisterAccounts(w: World, id: string, hash: string, interval: nat, now: int)
    requires AccountsOk(w)
    ensures AccountsOk(w.(db := w.db.(entitlements := RegisterRow(w.db.entitlements, id, hash, interval, now))))
  {
    var t := w.(db := w.db.(entitlements := RegisterRow(w.db.entitlements, id, hash, interval, now)));
    forall e: string ensures CounterOk(t, e) && SizeOk(t, e) { assert CounterOk(w, e) && SizeOk(w, e); }
    forall e: string ensures DripsOk(t, e) { assert DripsOk(w, e); }
  }

  lemma RegisterIssuance(env: Env, w: World, id: string, hash: string, interval: nat, now: int)
    requires IssuanceOk(env, w)
    ensures IssuanceOk(env, w.(db := w.db.(entitlements := RegisterRow(w.db.entitlements, id, hash, interval, now))))
  {
    var t := w.(db := w.db.(entitlements := RegisterRow(w.db.entitlements, id, hash, interval, now)));
    forall r | 0 <= r < |t.requests| ensures RequestOk(env, t, r) { assert RequestOk(env, w, r); }
    DeliveriesFrame(env, w, t);
  }

  lemma InjectIssuance(env: Env, w: World, counters: map<string, Counter>, injections: seq<Injection>)
    requires IssuanceOk(env, w)
    ensures IssuanceOk(env, w.(db := w.db.(counters := counters), injections := injections))
  {
    var t := w.(db := w.db.(counters := counters), injections := injections);
    forall r | 0 <= r < |t.requests| ensures RequestOk(env, t, r) { assert RequestOk(env, w, r); }
    DeliveriesFrame(env, w, t);
  }

  // ----- every step, every run -----

  /** The steps up to the signed bundle. */
  predicate IsAdmission(step: Step) {
    step.CheckDue? || step.CheckRate? || step.CheckOrder? || step.SignOrder? || step.SignFails?
  }

  lemma AdmissionKeeps(env: Env, w: World, step: Step)
    requires IssuanceOk(env, w) && Enabled(w, step) && IsAdmission(step)
    ensures IssuanceOk(env, Apply(env, w, step))
  {
    match step
    case CheckDue(r) => PhaseKeeps(env, w, r, DueOrReplay(w, r).requests[r].phase);
    case CheckRate(r, now) => CountCallKeeps(env, w, r, now);
    case CheckOrder(r, check) => CheckKeeps(env, w, r, check);
    case SignOrder(r, o) =>
      assert RequestOk(env, w, r);
      PhaseKeeps(env, w, r, Signed(o, SignBundle(env, o)));
    case SignFails(r, code) => PhaseKeeps(env, w, r, Failed(code));
  }

  lemma StepIssuance(env: Env, w: World, step: Step)
    requires IssuanceOk(env, w) && Enabled(w, step)
    ensures IssuanceOk(env, Apply(env, w, step))
  {
    match step
    case Register(id, hash, interval, now) => RegisterIssuance(env, w, id, hash, interval, now);
    case Purchase(reference, key) => AddRequestKeeps(env, w, Request(Grant(reference, Nothing), key, Authorized));
    case Pickup(presented, key, now) => PickupKeeps(env, w, presented, key, now);
    case Record(r, now) => RecordIssuance(env, w, r, now);
    case RollBack(r, code) => PhaseKeeps(env, w, r, Failed(code));
    case Deliver(r) => OwnDeliveryKeeps(env, w, r);
    case CheckReplay(r) => ReplayKeeps(env, w, r);
    case Crash(r) => PhaseKeeps(env, w, r, Failed("crash"));
    case Inject(x) => InjectIssuance(env, w, Apply(env, w, step).db.counters, Apply(env, w, step).injections);
    case _ => AdmissionKeeps(env, w, step);
  }

  lemma PickupKeeps(env: Env, w: World, presented: Option<string>, key: Option<string>, now: int)
    requires IssuanceOk(env, w)
    ensures IssuanceOk(env, ReadSchedule(w, presented, key, now))
  {
    AddRequestKeeps(env, w, ReadSchedule(w, presented, key, now).requests[|w.requests|]);
  }

  lemma RecordAccounts(env: Env, w: World, r: nat, now: int)
    requires AccountsOk(w) && r < |w.requests| && w.requests[r].phase.Signed? && RequestOk(env, w, r)
    ensures AccountsOk(RecordRequest(env, w, r, now))
  {
    if WillCommit(env, w, r, now) {
      CommitAccounts(env, w, r, now);
    } else {
      RecordRollsBack(env, w, r, now);
      AccountsFrame(w, RecordRequest(env, w, r, now));
    }
  }

  lemma RecordRollsBack(env: Env, w: World, r: nat, now: int)
    requires r < |w.requests| && w.requests[r].phase.Signed? && !WillCommit(env, w, r, now)
    ensures var t := RecordRequest(env, w, r, now);
      t.db == w.db && t.commits == w.commits && t.injections == w.injections
  {
  }

  lemma StepAccounts(env: Env, w: World, step: Step)
    requires AccountsOk(w) && Enabled(w, step)
    requires step.Record? ==> RequestOk(env, w, step.request)
    ensures AccountsOk(Apply(env, w, step))
  {
    match step
    case Register(id, hash, interval, now) => RegisterAccounts(w, id, hash, interval, now);
    case Record(r, now) => RecordAccounts(env, w, r, now);
    case Inject(x) => InjectAccounts(w, x, Apply(env, w, step));
    case _ => OtherAccounts(env, w, step);
  }

  lemma OtherAccounts(env: Env, w: World, step: Step)
    requires AccountsOk(w) && Enabled(w, step) && !step.Register? && !step.Record? && !step.Inject?
    ensures AccountsOk(Apply(env, w, step))
  {
    AccountsUntouched(env, w, step);
    AccountsFrame(w, Apply(env, w, step));
  }

  /** Only registering, recording and injecting write to what is accounted for. */
  lemma AccountsUntouched(env: Env, w: World, step: Step)
    requires Enabled(w, step) && !step.Register? && !step.Record? && !step.Inject?
    ensures var t := Apply(env, w, step);
      t.commits == w.commits && t.injections == w.injections && t.db == w.db
  {
    match step
    case Purchase(_, _) =>
    case Pickup(_, _, _) =>
    case CheckDue(_) =>
    case CheckRate(_, _) =>
    case CheckOrder(_, _) =>
    case SignOrder(_, _) =>
    case SignFails(_, _) =>
    case RollBack(_, _) =>
    case Deliver(_) =>
    case CheckReplay(_) =>
    case Crash(_) =>
  }

  lemma {:induction false} RunKeeps(env: Env, worlds: seq<World>, steps: seq<Step>, i: nat)
    requires Run(env, worlds, steps) && i < |worlds|
    ensures Inv(env, worlds[i])
  {
    if i == 0 {
      InitKeeps(env);
    } else {
      RunKeeps(env, worlds, steps, i - 1);
      StepIssuance(env, worlds[i - 1], steps[i - 1]);
      StepAccounts(env, worlds[i - 1], steps[i - 1]);
    }
  }

  // ----- which orders a run works on -----

  predicate Carries(p: Phase) {
    p.Checked? || p.Signed? || p.Recorded? || p.KeyTaken? || p.Delivered?
  }

  /** Every order in the world is `ok` for the request it belongs to. */
  ghost predicate Traced(w: World, ok: (nat, Order) -> bool) {
    && (forall r :: 0 <= r < |w.requests| && Carries(w.requests[r].phase) ==> ok(r, w.requests[r].phase.order))
    && (forall c :: 0 <= c < |w.commits| ==> ok(w.commits[c].request, w.commits[c].order))
    && (forall d :: 0 <= d < |w.deliveries| ==> ok(w.deliveries[d].request, w.deliveries[d].order))
  }

  lemma PhaseTraced(w: World, r: nat, phase: Phase, ok: (nat, Order) -> bool)
    requires Traced(w, ok) && r < |w.requests| && (Carries(phase) ==> ok(r, phase.order))
    ensures Traced(SetPhase(w, r, phase), ok)
  {
  }

  lemma DeliverTraced(w: World, r: nat, o: Order, response: Response, ok: (nat, Order) -> bool)
    requires Traced(w, ok) && r < |w.requests| && ok(r, o)
    ensures Traced(DeliverTo(w, r, o, response), ok)
  {
    PhaseTraced(w, r, Delivered(o, response), ok);
  }

  lemma RecordTraced(env: Env, w: World, r: nat, now: int, ok: (nat, Order) -> bool)
    requires Traced(w, ok) && r < |w.requests| && w.requests[r].phase.Signed?
    ensures Traced(RecordRequest(env, w, r, now), ok)
  {
    var q := w.requests[r];
    match RecordTx(env, w.db, q.grant, EffectiveKey(q.key), q.phase.order, q.phase.response, now)
    case KeyClaimed => PhaseTraced(w, r, KeyTaken(q.phase.order, q.phase.response), ok);
    case NotDue => PhaseTraced(w, r, Failed("NOT_DUE"), ok);
    case BadText => PhaseTraced(w, r, Failed("DATABASE"), ok);
    case Commits(_) => PhaseTraced(w, r, Recorded(q.phase.order, q.phase.response, |w.commits|), ok);
  }

  lemma AdmissionTraced(env: Env, w: World, step: Step, ok: (nat, Order) -> bool)
    requires Traced(w, ok) && Enabled(w, step) && IsAdmission(step)
    requires step.CheckOrder? && Verdict(step.check).Success? ==> ok(step.request, Verdict(step.check).value)
    ensures Traced(Apply(env, w, step), ok)
  {
    match step
    case CheckDue(r) => PhaseTraced(w, r, DueOrReplay(w, r).requests[r].phase, ok);
    case CheckRate(r, now) => PhaseTraced(w, r, CountCall(env, w, r, now).requests[r].phase, ok);
    case CheckOrder(r, check) => PhaseTraced(w, r, Apply(env, w, step).requests[r].phase, ok);
    case SignOrder(r, o) => PhaseTraced(w, r, Signed(o, SignBundle(env, o)), ok);
    case SignFails(r, code) => PhaseTraced(w, r, Failed(code), ok);
  }

  lemma StepTraced(env: Env, w: World, step: Step, ok: (nat, Order) -> bool)
    requires Traced(w, ok) && Enabled(w, step)
    requires step.CheckOrder? && Verdict(step.check).Success? ==> ok(step.request, Verdict(step.check).value)
    ensures Traced(Apply(env, w, step), ok)
  {
    match step
    case Register(_, _, _, _) =>
    case Purchase(_, _) =>
    case Pickup(_, _, _) =>
    case Record(r, now) => RecordTraced(env, w, r, now, ok);
    case RollBack(r, code) => PhaseTraced(w, r, Failed(code), ok);
    case Deliver(r) => DeliverTraced(w, r, w.requests[r].phase.order, w.requests[r].phase.response, ok);
    case CheckReplay(r) =>
      DeliverTraced(w, r, w.requests[r].phase.order, w.requests[r].phase.response, ok);
      PhaseTraced(w, r, Failed("IDEMPOTENCY_CONFLICT"), ok);
    case Crash(r) => PhaseTraced(w, r, Failed("crash"), ok);
    case Inject(_) =>
    case _ => AdmissionTraced(env, w, step, ok);
  }

  /** What is `ok` whenever it passes a check is `ok` all along. */
  lemma {:induction false} RunTraced(env: Env, worlds: seq<World>, steps: seq<Step>, i: nat, ok: (nat, Order) -> bool)
    requires Run(env, worlds, steps) && i < |worlds|
    requires forall k :: 0 <= k < i && steps[k].CheckOrder? && Verdict(steps[k].check).Success? ==>
               ok(steps[k].request, Verdict(steps[k].check).value)
    ensures Traced(worlds[i], ok)
  {
    if i == 0 {
    } else {
      RunTraced(env, worlds, steps, i - 1, ok);
      StepTraced(env, worlds[i - 1], steps[i - 1], ok);
    }
  }

  /** The orders that pass the checks of a run. */
  function OrdersOf(steps: seq<Step>): set<Order> {
    set i | 0 <= i < |steps| && steps[i].CheckOrder? && Verdict(steps[i].check).Success? :: Verdict(steps[i].check).value
  }

  lemma PassedIsOk(steps: seq<Step>, o: Order)
    requires o in OrdersOf(steps)
    ensures OrderOk(o)
  {
    var k :| 0 <= k < |steps| && steps[k].CheckOrder? && Verdict(steps[k].check) == Success(o);
    VerdictIsOk(steps[k].check);
  }

  /** Every order in a run is one that passed its checks. */
  ghost predicate Uses(w: World, orders: set<Order>) {
    Traced(w, (r, o) => o in orders)
  }

  lemma RunUses(env: Env, worlds: seq<World>, steps: seq<Step>, i: nat)
    requires Run(env, worlds, steps) && i < |worlds|
    ensures Uses(worlds[i], OrdersOf(steps))
  {
    RunTraced(env, worlds, steps, i, (r, o) => o in OrdersOf(steps));
  }
}
