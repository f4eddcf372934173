/**
 The pool never deadlocks. From every reachable running state a waiting request can be brought to a
 slot by steps the main process takes by itself, two at most for each place in the queue: dispatching
 what was handed out, letting an armed timer fire, and running a `finally` block. No worker has to
 answer.
 */
module SignerPoolProgress {
  import opened SignerPoolModel
  import opened SignerPoolInvariant
  import opened SignerPoolTheorems

  predicate OwnStep(step: Step) {
    step.DispatchTask? || step.TimerFires? || step.FinishTask?
  }

  predicate Running(s: Pool) {
    s.started && !s.shuttingDown
  }

  /** The head of the queue has been handed a slot and everyone else moved up one place. */
  ghost predicate HeadServed(s: Pool, t: Pool)
    requires s.waiting != []
  {
    && Running(t)
    && t.waiting == s.waiting[1..]
    && s.waiting[0] < |t.tasks| && t.tasks[s.waiting[0]].phase.Handed?
  }

  lemma TimeoutServes(suite: Suite, s: Pool, q: RequestId)
    requires Sound(suite, s, {}) && TimerArmed(s, q) && Alive(s, s.tasks[q].phase.slot)
    requires Running(s) && s.waiting != []
    ensures HeadServed(s, Timeout(s, q))
  {
    var o := Rejected("blind signing timed out");
    var settled := Settle(s, s.tasks[q].phase.id, o);
    SettleKeeps(suite, s, s.tasks[q].phase.id, o);
    RetireQueue(suite, settled, s.tasks[q].phase.slot, "timed out");
    RetireKeeps(suite, settled, s.tasks[q].phase.slot, "timed out");
    SecondStepServes(s, settled, Timeout(s, q));
  }

  lemma SecondStepServes(s: Pool, t: Pool, u: Pool)
    requires s.waiting != [] && t.waiting == s.waiting && Running(u)
    requires QueueMoves(t, u) && u.waiting == t.waiting[1..]
    ensures HeadServed(s, u)
  {
    assert |u.waiting| < |s.waiting|;
  }

  lemma FinishServes(s: Pool, q: RequestId)
    requires QueueOk(s) && q < |s.tasks| && s.tasks[q].phase.Settled? && Alive(s, s.tasks[q].phase.slot)
    requires Running(s) && s.waiting != []
    ensures HeadServed(s, Finish(s, q))
  {
    assert IsQueued(s, s.waiting[0]);
  }

  /** A request that was just handed a live slot, dispatched and timed out, frees it. */
  lemma HandedServes(n: nat, suite: Suite, s: Pool, q: RequestId)
    requires Inv(n, suite, s) && Running(s) && s.waiting != []
    requires q < |s.tasks| && s.tasks[q].phase.Handed? && Alive(s, s.tasks[q].phase.slot)
    ensures TimerArmed(Dispatch(s, q), q)
    ensures HeadServed(s, Timeout(Dispatch(s, q), q)) && Inv(n, suite, Timeout(Dispatch(s, q), q))
  {
    DispatchKeeps(n, suite, s, q);
    TimeoutKeeps(n, suite, Dispatch(s, q), q);
    TimeoutServes(suite, Dispatch(s, q), q);
  }

  /** While somebody waits, every slot of the pool is held, so its holder can be made to give it up. */
  lemma SomeHolder(n: nat, suite: Suite, s: Pool) returns (q: RequestId)
    requires Inv(n, suite, s) && n >= 1 && Running(s) && s.waiting != []
    ensures q < |s.tasks|
    ensures s.tasks[q].phase.Handed? || s.tasks[q].phase.InFlight? || s.tasks[q].phase.Settled?
    ensures Alive(s, s.tasks[q].phase.slot)
  {
    var x := s.slots[0];
    assert x in s.slots;
    assert s.idle == [];
    q :| Holds(s, q, x);
  }

  /** A piece of a run, of one or two own steps, that serves the head of the queue. */
  ghost predicate Serves(n: nat, suite: Suite, s: Pool, states: seq<Pool>, steps: seq<Step>) {
    && s.waiting != [] && Steps(n, suite, states, steps) && states[0] == s
    && (forall i :: 0 <= i < |steps| ==> OwnStep(steps[i]))
    && 1 <= |steps| <= 2
    && HeadServed(s, states[|steps|]) && Inv(n, suite, states[|steps|])
  }

  lemma OneServes(n: nat, suite: Suite, s: Pool, step: Step) returns (states: seq<Pool>, steps: seq<Step>)
    requires Enabled(s, step) && OwnStep(step) && s.waiting != []
    requires HeadServed(s, Apply(n, suite, s, step)) && Inv(n, suite, Apply(n, suite, s, step))
    ensures Serves(n, suite, s, states, steps)
  {
    states, steps := OneStep(n, suite, s, step);
  }

  lemma TwoServe(n: nat, suite: Suite, s: Pool, q: RequestId) returns (states: seq<Pool>, steps: seq<Step>)
    requires Inv(n, suite, s) && Running(s) && s.waiting != []
    requires q < |s.tasks| && s.tasks[q].phase.Handed? && Alive(s, s.tasks[q].phase.slot)
    ensures Serves(n, suite, s, states, steps)
  {
    HandedServes(n, suite, s, q);
    var first, dispatch := OneStep(n, suite, s, DispatchTask(q));
    var second, timer := OneStep(n, suite, Dispatch(s, q), TimerFires(q));
    JoinSteps(n, suite, first, dispatch, second, timer);
    states, steps := first + second[1..], dispatch + timer;
  }

  /** The head of the queue can be served in at most two own steps. */
  lemma HeadCanBeServed(n: nat, suite: Suite, s: Pool) returns (states: seq<Pool>, steps: seq<Step>)
    requires Inv(n, suite, s) && n >= 1 && Running(s) && s.waiting != []
    ensures Serves(n, suite, s, states, steps)
  {
    var q := SomeHolder(n, suite, s);
    if s.tasks[q].phase.Settled? {
      FinishKeeps(n, suite, s, q);
      FinishServes(s, q);
      states, steps := OneServes(n, suite, s, FinishTask(q));
    } else if s.tasks[q].phase.InFlight? {
      TimeoutKeeps(n, suite, s, q);
      TimeoutServes(suite, s, q);
      states, steps := OneServes(n, suite, s, TimerFires(q));
    } else {
      states, steps := TwoServe(n, suite, s, q);
    }
  }

  lemma OneStep(n: nat, suite: Suite, s: Pool, step: Step) returns (states: seq<Pool>, steps: seq<Step>)
    requires Enabled(s, step)
    ensures Steps(n, suite, states, steps)
    ensures steps == [step] && states == [s, Apply(n, suite, s, step)]
  {
    states, steps := [s, Apply(n, suite, s, step)], [step];
  }

  lemma JoinSteps(n: nat, suite: Suite, a: seq<Pool>, b: seq<Step>, c: seq<Pool>, d: seq<Step>)
    requires Steps(n, suite, a, b) && Steps(n, suite, c, d) && a[|b|] == c[0]
    ensures Steps(n, suite, a + c[1..], b + d)
  {
    var states, steps := a + c[1..], b + d;
    forall i | 0 <= i < |steps|
      ensures Enabled(states[i], steps[i]) && states[i + 1] == Apply(n, suite, states[i], steps[i])
    {
      if i < |b| {
        assert states[i] == a[i] && states[i + 1] == a[i + 1] && steps[i] == b[i];
      } else {
        assert states[i] == c[i - |b|] && states[i + 1] == c[i - |b| + 1] && steps[i] == d[i - |b|];
      }
    }
  }

  /** The waiter at position `p` can be brought to a slot in at most `2 * (p + 1)` own steps. */
  lemma {:induction false} WaiterCanBeServed(n: nat, suite: Suite, s: Pool, p: nat)
    returns (states: seq<Pool>, steps: seq<Step>)
    requires Inv(n, suite, s) && n >= 1 && Running(s) && p < |s.waiting|
    ensures Steps(n, suite, states, steps) && states[0] == s
    ensures forall i :: 0 <= i < |steps| ==> OwnStep(steps[i])
    ensures |steps| <= 2 * (p + 1)
    ensures s.waiting[p] < |states[|steps|].tasks| && states[|steps|].tasks[s.waiting[p]].phase.Handed?
    decreases p
  {
    states, steps := HeadCanBeServed(n, suite, s);
    if p == 0 {
    } else {
      var t := states[|steps|];
      assert t.waiting[p - 1] == s.waiting[p];
      var more, moreSteps := WaiterCanBeServed(n, suite, t, p - 1);
      JoinSteps(n, suite, states, steps, more, moreSteps);
      states, steps := states + more[1..], steps + moreSteps;
    }
  }

  /** No reachable state of a running pool leaves a waiter stranded. */
  lemma NoDeadlock(n: nat, suite: Suite, material: Material, states: seq<Pool>, steps: seq<Step>, i: nat, p: nat)
    returns (later: seq<Pool>, own: seq<Step>)
    requires Run(n, suite, material, states, steps) && i < |states|
    requires Running(states[i]) && p < |states[i].waiting|
    ensures Steps(n, suite, later, own) && later[0] == states[i]
    ensures forall k :: 0 <= k < |own| ==> OwnStep(own[k])
    ensures |own| <= 2 * (p + 1)
    ensures states[i].waiting[p] < |later[|own|].tasks| && later[|own|].tasks[states[i].waiting[p]].phase.Handed?
  {
    RunKeeps(n, suite, material, states, steps, i);
    later, own := WaiterCanBeServed(n, suite, states[i], p);
  }
}
