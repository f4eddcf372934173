/**
 Retries under every interleaving: a request that repeats the reference and idempotency key of a
 committed one never commits again, and whether it is answered is decided by the guards it meets.
 */
module IssuanceRetries {
  import opened Fingerprint
  import opened IssuanceModel
  import opened IssuanceInvariant
  import opened IssuanceTheorems

  /** The claim that commit `c` made is in the database. */
  predicate Standing(env: Env, db: Db, c: Commit) {
    && c.key.Some? && NulFree(c.reference) && NulFree(c.key.value)
    && (c.reference, c.key.value) in db.idempotency
    && db.idempotency[(c.reference, c.key.value)] == FingerprintOf(env, c.reference, c.order)
  }

  /** The request names the reference and key of commit `c`. */
  predicate Repeats(q: Request, c: Commit) {
    c.key.Some? && q.grant.reference == c.reference && EffectiveKey(q.key) == c.key
  }

  /** The order hashes to the fingerprint that commit `c` has left. */
  predicate Matches(env: Env, o: Order, c: Commit) {
    FingerprintOf(env, c.reference, o) == FingerprintOf(env, c.reference, c.order)
  }

  /** Where a retry can be: on its way, answered with what it would have been signed anyway, or refused. */
  predicate OnTrack(env: Env, q: Request, c: Commit) {
    && Repeats(q, c)
    && match q.phase
       case Signed(o, response) => response == SignBundle(env, o)
       case KeyTaken(o, response) => response == SignBundle(env, o)
       case Delivered(o, response) => Matches(env, o, c) && response == SignBundle(env, o)
       case Recorded(_, _, _) => false
       case _ => true
  }

  /**
   The step ends request `r` without an answer: it is over its budget, its body is malformed or its
   epoch is not usable, it asks for something other than `c` issued, or signing, the database or the
   process fails.
   */
  predicate Refuses(env: Env, w: World, step: Step, r: nat, c: Commit)
    requires r < |w.requests|
  {
    match step
    case CheckRate(q, now) => q == r && !WithinBudget(env, w, c.reference, now)
    case CheckOrder(q, check) => q == r && Verdict(check).Failure?
    case CheckReplay(q) => q == r && w.requests[r].phase.KeyTaken? && !Matches(env, w.requests[r].phase.order, c)
    case SignFails(q, _) => q == r
    case RollBack(q, _) => q == r
    case Crash(q) => q == r
    case _ => false
  }

  // ----- one step -----

  /** No step takes a claim away. */
  lemma ClaimStands(env: Env, w: World, step: Step, c: Commit)
    requires Standing(env, w.db, c) && Enabled(w, step)
    ensures Standing(env, Apply(env, w, step).db, c)
  {
    match step
    case Register(_, _, _, _) =>
    case Record(r, now) => RecordStands(env, w, r, now, c);
    case Inject(_) =>
    case _ => AccountsUntouched(env, w, step);
  }

  lemma RecordStands(env: Env, w: World, r: nat, now: int, c: Commit)
    requires Standing(env, w.db, c) && r < |w.requests| && w.requests[r].phase.Signed?
    ensures Standing(env, RecordRequest(env, w, r, now).db, c)
  {
    if WillCommit(env, w, r, now) {
      CommitHasShape(env, w, r, now);
    } else {
      RecordRollsBack(env, w, r, now);
    }
  }

  /** The request that a step moves, if it moves one. */
  predicate Moves(step: Step, r: nat) {
    match step
    case Register(_, _, _, _) => false
    case Purchase(_, _) => false
    case Pickup(_, _, _) => false
    case Inject(_) => false
    case _ => step.request == r
  }

  /** Steps of other requests leave a request as it is. */
  lemma OthersStay(env: Env, w: World, step: Step, r: nat)
    requires Enabled(w, step) && r < |w.requests| && !Moves(step, r)
    ensures |Apply(env, w, step).requests| >= |w.requests| && Apply(env, w, step).requests[r] == w.requests[r]
  {
    match step
    case Register(_, _, _, _) =>
    case Purchase(_, _) =>
    case Pickup(_, _, _) =>
    case CheckDue(_) =>
    case CheckRate(_, _) =>
    case CheckOrder(_, _) =>
    case SignOrder(_, _) =>
    case SignFails(_, _) =>
    case Record(_, _) =>
    case RollBack(_, _) =>
    case Deliver(_) =>
    case CheckReplay(_) =>
    case Crash(_) =>
    case Inject(_) =>
  }

  /** How one of its own steps moves a retry: on, unless it refuses it. */
  ghost predicate MovedOn(env: Env, q: Request, t: Request, refused: bool, c: Commit) {
    && OnTrack(env, t, c)
    && (refused ==> t.phase.Failed?)
    && (!refused && !q.phase.Failed? ==> !t.phase.Failed?)
    && (q.phase.Failed? ==> t.phase.Failed?)
  }

  lemma AdmissionMoves(env: Env, w: World, step: Step, r: nat, c: Commit)
    requires Standing(env, w.db, c) && Enabled(w, step) && IsAdmission(step) && step.request == r
    requires OnTrack(env, w.requests[r], c)
    ensures MovedOn(env, w.requests[r], Apply(env, w, step).requests[r], Refuses(env, w, step, r, c), c)
  {
    match step
    case CheckDue(_) =>
    case CheckRate(_, _) =>
    case CheckOrder(_, _) =>
    case SignOrder(_, _) =>
    case SignFails(_, _) =>
  }

  lemma RecordMoves(env: Env, w: World, r: nat, now: int, c: Commit)
    requires Standing(env, w.db, c) && r < |w.requests| && w.requests[r].phase.Signed?
    requires OnTrack(env, w.requests[r], c)
    ensures RecordRequest(env, w, r, now) == SetPhase(w, r, KeyTaken(w.requests[r].phase.order, w.requests[r].phase.response))
  {
    var q := w.requests[r];
    assert RecordTx(env, w.db, q.grant, EffectiveKey(q.key), q.phase.order, q.phase.response, now) == KeyClaimed;
  }

  lemma OwnStepMoves(env: Env, w: World, step: Step, r: nat, c: Commit)
    requires Standing(env, w.db, c) && Enabled(w, step) && r < |w.requests| && Moves(step, r)
    requires OnTrack(env, w.requests[r], c)
    ensures |Apply(env, w, step).requests| == |w.requests|
    ensures MovedOn(env, w.requests[r], Apply(env, w, step).requests[r], Refuses(env, w, step, r, c), c)
  {
    match step
    case Record(_, now) => RecordMoves(env, w, r, now, c);
    case RollBack(_, _) =>
    case Deliver(_) =>
    case CheckReplay(_) =>
    case Crash(_) =>
    case _ => AdmissionMoves(env, w, step, r, c);
  }

  lemma RetryStep(env: Env, w: World, step: Step, r: nat, c: Commit)
    requires Standing(env, w.db, c) && Enabled(w, step) && r < |w.requests| && OnTrack(env, w.requests[r], c)
    ensures Standing(env, Apply(env, w, step).db, c) && r < |Apply(env, w, step).requests|
    ensures MovedOn(env, w.requests[r], Apply(env, w, step).requests[r], Refuses(env, w, step, r, c), c)
  {
    ClaimStands(env, w, step, c);
    if Moves(step, r) {
      OwnStepMoves(env, w, step, r, c);
    } else {
      OthersStay(env, w, step, r);
    }
  }

  // ----- every run -----

  /** Between `i` and `j` some step has refused request `r`. */
  ghost predicate RefusedBetween(env: Env, worlds: seq<World>, steps: seq<Step>, i: nat, j: nat, r: nat, c: Commit) {
    exists k :: i <= k < j && k < |steps| && k < |worlds| && r < |worlds[k].requests| &&
                Refuses(env, worlds[k], steps[k], r, c)
  }

  /** The retry after some steps: on its track, and failed exactly if a step has refused it. */
  ghost predicate Tracked(env: Env, worlds: seq<World>, steps: seq<Step>, i: nat, j: nat, r: nat, c: Commit)
    requires j < |worlds|
  {
    && Standing(env, worlds[j].db, c) && r < |worlds[j].requests| && OnTrack(env, worlds[j].requests[r], c)
    && (worlds[j].requests[r].phase.Failed? <==> RefusedBetween(env, worlds, steps, i, j, r, c))
  }

  lemma TrackedStep(env: Env, worlds: seq<World>, steps: seq<Step>, i: nat, j: nat, r: nat, c: Commit)
    requires i <= j < |steps| && |worlds| == |steps| + 1 && Tracked(env, worlds, steps, i, j, r, c)
    requires Standing(env, worlds[j + 1].db, c) && r < |worlds[j + 1].requests|
    requires MovedOn(env, worlds[j].requests[r], worlds[j + 1].requests[r], Refuses(env, worlds[j], steps[j], r, c), c)
    ensures Tracked(env, worlds, steps, i, j + 1, r, c)
  {
    if RefusedBetween(env, worlds, steps, i, j, r, c) {
      var k :| i <= k < j && r < |worlds[k].requests| && Refuses(env, worlds[k], steps[k], r, c);
      assert i <= k < j + 1 && Refuses(env, worlds[k], steps[k], r, c);
    }
    if RefusedBetween(env, worlds, steps, i, j + 1, r, c) {
      var k :| i <= k < j + 1 && r < |worlds[k].requests| && Refuses(env, worlds[k], steps[k], r, c);
      assert k == j || RefusedBetween(env, worlds, steps, i, j, r, c);
    }
  }

  lemma {:induction false} RetryIsTracked(env: Env, worlds: seq<World>, steps: seq<Step>, i: nat, j: nat, r: nat, c: Commit)
    requires Run(env, worlds, steps) && i <= j < |worlds|
    requires Standing(env, worlds[i].db, c) && r < |worlds[i].requests|
    requires OnTrack(env, worlds[i].requests[r], c) && !worlds[i].requests[r].phase.Failed?
    ensures Tracked(env, worlds, steps, i, j, r, c)
  {
    if i == j {
    } else {
      RetryIsTracked(env, worlds, steps, i, j - 1, r, c);
      RetryStep(env, worlds[j - 1], steps[j - 1], r, c);
      TrackedStep(env, worlds, steps, i, j - 1, r, c);
    }
  }

  lemma CommitStands(env: Env, w: World, b: nat)
    requires CommitsOk(env, w) && ClaimsOk(env, w) && b < |w.commits| && w.commits[b].key.Some?
    ensures Standing(env, w.db, w.commits[b])
    ensures w.commits[b].response == SignBundle(env, w.commits[b].order) && OrderOk(w.commits[b].order)
    ensures NulFree(w.commits[b].order.epoch)
  {
    assert w.claims[(w.commits[b].reference, w.commits[b].key.value)] == b;
  }

  /** An order that matches a commit's fingerprint is the same request, unless it passes for another. */
  lemma MatchIsSame(env: Env, o: Order, c: Commit)
    requires HashInjective(env) && OrderOk(o) && OrderOk(c.order) && NulFree(c.order.epoch) && !PassesFor(o, c.order)
    ensures Matches(env, o, c) <==> SameRequest(o, c.order)
    ensures SameRequest(o, c.order) ==> SignBundle(env, o) == SignBundle(env, c.order)
  {
    InputsEqualIff(c.reference, o.epoch, o.blanks, c.order.epoch, c.order.blanks);
    if Swallows(c.order.epoch, c.order.blanks, o.epoch, o.blanks) {
      SwallowingHoldsNul(c.order.epoch, c.order.blanks, o.epoch, o.blanks);
    }
  }

  /**
   Whatever else goes on, a request with the reference and key of commit `c` that is still on its way
   when `c` is there, however far it has come, never commits. Once it has come to an end it was answered if and only if none of its steps refused it:
   it was within budget, well formed, under a usable epoch, asked for what `c` issued, and nothing
   broke down. In particular it is never told that nothing is due. While no order passes for
   another, the answer is `c`'s own response, for `c`'s own epoch and blanks.
   */
  lemma RetryIsAnsweredUnlessRefused(env: Env, worlds: seq<World>, steps: seq<Step>, i: nat, j: nat, r: nat, b: nat)
    requires Run(env, worlds, steps) && i <= j < |worlds| && r < |worlds[i].requests| && b < |worlds[i].commits|
    requires Repeats(worlds[i].requests[r], worlds[i].commits[b])
    requires !Past(worlds[i].requests[r].phase)
    ensures r < |worlds[j].requests| && !worlds[j].requests[r].phase.Recorded?
    ensures forall x :: 0 <= x < |worlds[j].commits| ==> worlds[j].commits[x].request != r
    ensures var c, phase := worlds[i].commits[b], worlds[j].requests[r].phase;
      && (phase.Failed? <==> RefusedBetween(env, worlds, steps, i, j, r, c))
      && (phase.Delivered? || phase.Failed? ==>
            (phase.Delivered? <==> !RefusedBetween(env, worlds, steps, i, j, r, c)))
      && (phase.Delivered? && HashInjective(env) && NoCollisions(steps) ==>
            phase.response == c.response && SameRequest(phase.order, c.order))
  {
    var c := worlds[i].commits[b];
    RunKeeps(env, worlds, steps, i);
    CommitStands(env, worlds[i], b);
    assert RequestOk(env, worlds[i], r);
    RetryIsTracked(env, worlds, steps, i, j, r, c);
    NeverCommits(env, worlds, steps, i, j, r, c);
    if worlds[j].requests[r].phase.Delivered? && HashInjective(env) && NoCollisions(steps) {
      AnswerIsTheOriginal(env, worlds, steps, i, j, r, b);
    }
  }

  lemma AnswerIsTheOriginal(env: Env, worlds: seq<World>, steps: seq<Step>, i: nat, j: nat, r: nat, b: nat)
    requires Run(env, worlds, steps) && i < |worlds| && j < |worlds| && r < |worlds[j].requests| && b < |worlds[i].commits|
    requires HashInjective(env) && NoCollisions(steps) && worlds[i].commits[b].key.Some?
    requires worlds[j].requests[r].phase.Delivered? && OnTrack(env, worlds[j].requests[r], worlds[i].commits[b])
    ensures worlds[j].requests[r].phase.response == worlds[i].commits[b].response
    ensures SameRequest(worlds[j].requests[r].phase.order, worlds[i].commits[b].order)
  {
    var o, c := worlds[j].requests[r].phase.order, worlds[i].commits[b];
    CommitIsSigned(env, worlds, steps, i, b);
    OrderPassed(env, worlds, steps, j, r);
    CommitPassed(env, worlds, steps, i, b);
    MatchIsSame(env, o, c);
  }

  lemma CommitIsSigned(env: Env, worlds: seq<World>, steps: seq<Step>, i: nat, b: nat)
    requires Run(env, worlds, steps) && i < |worlds| && b < |worlds[i].commits|
    ensures var c := worlds[i].commits[b];
      OrderOk(c.order) && NulFree(c.order.epoch) && c.response == SignBundle(env, c.order)
  {
    RunKeeps(env, worlds, steps, i);
  }

  lemma CommitPassed(env: Env, worlds: seq<World>, steps: seq<Step>, i: nat, b: nat)
    requires Run(env, worlds, steps) && i < |worlds| && b < |worlds[i].commits|
    ensures worlds[i].commits[b].order in OrdersOf(steps)
  {
    RunUses(env, worlds, steps, i);
  }

  /** An order carried by a request has passed a check. */
  lemma OrderPassed(env: Env, worlds: seq<World>, steps: seq<Step>, j: nat, r: nat)
    requires Run(env, worlds, steps) && j < |worlds| && r < |worlds[j].requests| && Carries(worlds[j].requests[r].phase)
    ensures worlds[j].requests[r].phase.order in OrdersOf(steps) && OrderOk(worlds[j].requests[r].phase.order)
  {
    RunUses(env, worlds, steps, j);
    PassedIsOk(steps, worlds[j].requests[r].phase.order);
  }

  /** No commit is made by the retry. */
  lemma {:induction false} NeverCommits(env: Env, worlds: seq<World>, steps: seq<Step>, i: nat, j: nat, r: nat, c: Commit)
    requires Run(env, worlds, steps) && i <= j < |worlds|
    requires Standing(env, worlds[i].db, c) && r < |worlds[i].requests|
    requires OnTrack(env, worlds[i].requests[r], c) && !Past(worlds[i].requests[r].phase)
    ensures forall x :: 0 <= x < |worlds[j].commits| ==> worlds[j].commits[x].request != r
  {
    if i == j {
      RunKeeps(env, worlds, steps, i);
    } else {
      NeverCommits(env, worlds, steps, i, j - 1, r, c);
      RetryIsTracked(env, worlds, steps, i, j - 1, r, c);
      NoCommitBy(env, worlds[j - 1], steps[j - 1], r, c);
    }
  }

  lemma NoCommitBy(env: Env, w: World, step: Step, r: nat, c: Commit)
    requires Standing(env, w.db, c) && Enabled(w, step) && r < |w.requests| && OnTrack(env, w.requests[r], c)
    requires forall x :: 0 <= x < |w.commits| ==> w.commits[x].request != r
    ensures forall x :: 0 <= x < |Apply(env, w, step).commits| ==> Apply(env, w, step).commits[x].request != r
  {
    match step
    case Register(_, _, _, _) =>
    case Inject(_) =>
    case Record(q, now) =>
      if q == r {
        RecordMoves(env, w, r, now, c);
      } else if WillCommit(env, w, q, now) {
        CommitHasShape(env, w, q, now);
      } else {
        RecordRollsBack(env, w, q, now);
      }
    case _ => AccountsUntouched(env, w, step);
  }
}
