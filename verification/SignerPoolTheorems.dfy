/** What every run of the signing pool guarantees. */
module SignerPoolTheorems {
  import opened Common
  import opened SignerPoolModel
  import opened SignerPoolInvariant

  // ----- slots -----

  predicate IsHanded(s: Pool, x: SlotId) {
    exists r :: 0 <= r < |s.tasks| && s.tasks[r].phase == Handed(x)
  }

  predicate IsPending(s: Pool, x: SlotId) {
    exists id :: id in s.pending && s.pending[id].slot == x
  }

  predicate AwaitsRelease(s: Pool, x: SlotId) {
    exists r :: 0 <= r < |s.tasks| && s.tasks[r].phase.Settled? && s.tasks[r].phase.slot == x
  }

  predicate ExactlyOne(a: bool, b: bool, c: bool, d: bool) {
    (if a then 1 else 0) + (if b then 1 else 0) + (if c then 1 else 0) + (if d then 1 else 0) == 1
  }

  /** A pending entry and the request it belongs to hold the same slot. */
  lemma PendingHolds(s: Pool, x: SlotId)
    requires PendingOk(s)
    ensures IsPending(s, x) <==>
            exists r :: 0 <= r < |s.tasks| && s.tasks[r].phase.InFlight? && s.tasks[r].phase.slot == x
  {
    if IsPending(s, x) {
      var id :| id in s.pending && s.pending[id].slot == x;
      assert s.tasks[s.pending[id].request].phase == InFlight(x, id);
    }
    if r :| 0 <= r < |s.tasks| && s.tasks[r].phase.InFlight? && s.tasks[r].phase.slot == x {
      assert s.pending[s.tasks[r].phase.id].slot == x;
    }
  }

  /**
   In every state of every run each live slot is in exactly one condition, and in it once: listed
   idle once, handed to one request, pending under one id, or settled by one request that has yet
   to release it. Dead slots are neither listed nor idle.
   */
  lemma SlotHasOneCondition(n: nat, suite: Suite, material: Material,
                            states: seq<Pool>, steps: seq<Step>, i: nat, x: SlotId)
    requires Run(n, suite, material, states, steps) && i < |states|
    ensures var s := states[i];
      && (Alive(s, x) ==>
            ExactlyOne(x in s.idle, IsHanded(s, x), IsPending(s, x), AwaitsRelease(s, x)))
      && (!Alive(s, x) ==> x !in s.idle && x !in s.slots)
      && NoDuplicates(s.idle)
      && (forall q: RequestId, r: RequestId :: Holds(s, q, x) && Holds(s, r, x) ==> q == r)
      && (forall a, b :: a in s.pending && b in s.pending && s.pending[a].slot == s.pending[b].slot ==> a == b)
  {
    RunKeeps(n, suite, material, states, steps, i);
    var s := states[i];
    PendingHolds(s, x);
    if IsHanded(s, x) {
      var r :| 0 <= r < |s.tasks| && s.tasks[r].phase == Handed(x);
      assert Holds(s, r, x);
    }
    if IsPending(s, x) {
      var r :| 0 <= r < |s.tasks| && s.tasks[r].phase.InFlight? && s.tasks[r].phase.slot == x;
      assert Holds(s, r, x);
    }
    if AwaitsRelease(s, x) {
      var r :| 0 <= r < |s.tasks| && s.tasks[r].phase.Settled? && s.tasks[r].phase.slot == x;
      assert Holds(s, r, x);
    }
    if Alive(s, x) && x !in s.idle {
      assert x in s.slots;
      var r: RequestId :| Holds(s, r, x);
      assert IsHanded(s, x) || IsPending(s, x) || AwaitsRelease(s, x);
    }
    forall a, b | a in s.pending && b in s.pending && s.pending[a].slot == s.pending[b].slot
      ensures a == b
    {
      assert Holds(s, s.pending[a].request, s.pending[a].slot);
      assert Holds(s, s.pending[b].request, s.pending[a].slot);
    }
  }

  /** While running, the pool has exactly the configured slots; nobody waits while a slot is idle,
      and then every slot is in the hands of a request. */
  lemma PoolSizeIsConstant(n: nat, suite: Suite, material: Material,
                           states: seq<Pool>, steps: seq<Step>, i: nat)
    requires Run(n, suite, material, states, steps) && i < |states|
    requires states[i].started && !states[i].shuttingDown
    ensures |states[i].slots| == n
    ensures NoDuplicates(states[i].slots)
    ensures forall x: SlotId :: x in states[i].slots <==> Alive(states[i], x)
    ensures states[i].waiting != [] ==> states[i].idle == []
    ensures states[i].waiting != [] ==>
              forall x: SlotId :: x in states[i].slots ==> exists r: RequestId :: Holds(states[i], r, x)
  {
    RunKeeps(n, suite, material, states, steps, i);
  }

  // ----- ids and replies -----

  /** Dispatch history, id counter and loaded keys are as before. */
  predicate SameHistory(s: Pool, t: Pool) {
    t.log == s.log && t.nextId == s.nextId && t.loaded == s.loaded
  }

  lemma RetireHistory(s: Pool, x: SlotId, why: string)
    ensures SameHistory(s, Retire(s, x, why))
  {
    if Alive(s, x) {
      var f := FailPending(Drop(s, x), x, Rejected("signing worker " + why));
      assert SameHistory(s, f);
      assert SameHistory(f, AddWorker(f));
      ReleaseHistory(AddWorker(f), |f.workers|);
    }
  }

  lemma TimeoutHistory(s: Pool, r: RequestId)
    requires TimerArmed(s, r)
    ensures SameHistory(s, Timeout(s, r))
  {
    var p := s.tasks[r].phase;
    var settled := Settle(s, p.id, Rejected("blind signing timed out"));
    assert SameHistory(s, settled);
    RetireHistory(settled, p.slot, "timed out");
  }

  lemma CallHistory(n: nat, s: Pool, epoch: string, blank: string)
    ensures SameHistory(s, Call(s, n, epoch, blank))
  {
    if !s.started {
      SpawnManyLog(s.(tasks := s.tasks + [Task(epoch, blank, Called)]).(started := true), n);
    }
  }

  lemma ReleaseHistory(s: Pool, x: SlotId)
    ensures SameHistory(s, Release(s, x))
  {
  }

  lemma FinishHistory(s: Pool, r: RequestId)
    requires r < |s.tasks| && s.tasks[r].phase.Settled?
    ensures SameHistory(s, Finish(s, r))
  {
    var p := s.tasks[r].phase;
    ReleaseHistory(SetPhase(s, r, Done(p.id, p.outcome)), p.slot);
  }

  lemma WorkHistory(suite: Suite, s: Pool, x: SlotId)
    requires x < |s.workers| && s.workers[x].inbox != []
    ensures SameHistory(s, Work(suite, s, x))
  {
  }

  /** What the dispatch of request `r` writes into the history. */
  function DispatchEntry(s: Pool, r: RequestId): Dispatched
    requires r < |s.tasks| && s.tasks[r].phase.Handed?
  {
    Dispatched(r, s.tasks[r].phase.slot, s.tasks[r].epoch, s.tasks[r].blank, s.loaded)
  }

  /** One step extends the dispatch history by at most the dispatch it performs. */
  lemma StepLog(n: nat, suite: Suite, s: Pool, step: Step)
    requires Enabled(s, step)
    ensures var t := Apply(n, suite, s, step);
      && t.nextId - s.nextId == |t.log| - |s.log|
      && t.log == if step.DispatchTask? then s.log + [DispatchEntry(s, step.request)] else s.log
  {
    match step
    case CallSign(epoch, blank) => CallHistory(n, s, epoch, blank);
    case TimerFires(r) => TimeoutHistory(s, r);
    case WorkerDies(x, why) => RetireHistory(s, x, why);
    case FinishTask(r) => FinishHistory(s, r);
    case WorkerTurn(x) => WorkHistory(suite, s, x);
    case AcquireSlot(_) =>
    case DispatchTask(_) =>
    case DeliverReply(_) =>
    case KeyringReloaded(_) =>
    case BeginShutdown =>
  }

  lemma {:induction false} SpawnManyLog(s: Pool, n: nat)
    ensures SpawnMany(s, n).log == s.log && SpawnMany(s, n).nextId == s.nextId
    ensures SpawnMany(s, n).loaded == s.loaded
    ensures SpawnMany(s, n).tasks == s.tasks || s.waiting != []
    ensures s.waiting == [] ==> SpawnMany(s, n).waiting == []
  {
    if n == 0 {
    } else {
      SpawnManyLog(s, n - 1);
    }
  }

  /** No id is used twice: two different dispatches of one run carry different ids. */
  lemma {:induction false} IdsNeverReused(n: nat, suite: Suite, states: seq<Pool>, steps: seq<Step>, i: nat, j: nat)
    requires Steps(n, suite, states, steps)
    requires i < j < |steps| && steps[i].DispatchTask?
    ensures states[i].nextId < states[j].nextId
  {
    if i + 1 == j {
      StepLog(n, suite, states[i], steps[i]);
    } else {
      IdsNeverReused(n, suite, states, steps, i, j - 1);
      StepLog(n, suite, states[j - 1], steps[j - 1]);
    }
  }

  /**
   A reply touches nothing unless its id is pending; then it settles precisely the request that
   dispatched that id, on the slot it was dispatched to, and no other request changes.
   */
  lemma ReplySettlesItsOwnRequest(n: nat, suite: Suite, material: Material,
                                  states: seq<Pool>, steps: seq<Step>, i: nat, id: nat)
    requires Run(n, suite, material, states, steps) && i < |states| && id in states[i].replies
    ensures id < |states[i].log|
    ensures var s, t, d := states[i], Apply(n, suite, states[i], DeliverReply(id)), states[i].log[id];
      && (id !in s.pending ==> t == s)
      && (id in s.pending ==>
            && d.request < |s.tasks|
            && s.tasks[d.request].phase == InFlight(d.slot, id)
            && t.tasks == s.tasks[d.request := s.tasks[d.request].(phase := Settled(d.slot, id, s.replies[id]))]
            && t.pending == s.pending - {id})
  {
    RunKeeps(n, suite, material, states, steps, i);
    var s := states[i];
    if id in s.pending {
      assert TaskLogged(suite, s, s.pending[id].request);
    }
  }

  /** From `s` to `t`, exactly the requests in flight on slot `x` were settled, as rejected. */
  ghost predicate OnlyFailed(s: Pool, t: Pool, x: SlotId, outcome: Outcome) {
    && !IsPending(t, x)
    && (forall id :: id in t.pending <==> id in s.pending && s.pending[id].slot != x)
    && |t.tasks| == |s.tasks|
    && forall r :: 0 <= r < |s.tasks| && s.tasks[r].phase.InFlight? ==>
         if s.tasks[r].phase.slot == x then t.tasks[r].phase == Settled(x, s.tasks[r].phase.id, outcome)
         else t.tasks[r] == s.tasks[r]
  }

  lemma FailPendingFails(s: Pool, x: SlotId, outcome: Outcome)
    requires PendingOk(s)
    ensures OnlyFailed(s, FailPending(s, x, outcome), x, outcome)
    ensures FailPending(s, x, outcome).waiting == s.waiting
    ensures forall r :: 0 <= r < |s.tasks| && s.tasks[r].phase.Queued? ==> FailPending(s, x, outcome).tasks[r] == s.tasks[r]
  {
  }

  /** A spawn after it changes none of that. */
  lemma SpawnAfterFailing(s: Pool, f: Pool, x: SlotId, outcome: Outcome)
    requires OnlyFailed(s, f, x, outcome)
    requires f.waiting != [] ==> IsQueued(s, f.waiting[0])
    ensures OnlyFailed(s, Spawn(f), x, outcome)
  {
    var t := Spawn(f);
    SpawnKeepsPending(f);
    forall r | 0 <= r < |s.tasks| && s.tasks[r].phase.InFlight? ensures t.tasks[r] == f.tasks[r] {
      SpawnTouchesWaiters(f, r);
    }
  }

  lemma SpawnKeepsPending(s: Pool)
    ensures Spawn(s).pending == s.pending && |Spawn(s).tasks| == |s.tasks|
  {
    var t := AddWorker(s);
    assert t.pending == s.pending && t.tasks == s.tasks;
  }

  lemma DropKeepsTasks(s: Pool, x: SlotId)
    requires x < |s.workers| && PendingOk(s)
    ensures Drop(s, x).tasks == s.tasks && Drop(s, x).pending == s.pending && Drop(s, x).waiting == s.waiting
    ensures PendingOk(Drop(s, x))
  {
  }

  /** Retiring a live slot fails exactly the requests in flight on it and leaves none pending there. */
  lemma RetireFailsWhatItCarried(suite: Suite, s: Pool, x: SlotId, why: string)
    requires Sound(suite, s, {}) && Alive(s, x)
    ensures OnlyFailed(s, Retire(s, x, why), x, Rejected("signing worker " + why))
  {
    var o, d := Rejected("signing worker " + why), Drop(s, x);
    DropKeepsTasks(s, x);
    FailPendingFails(d, x, o);
    assert OnlyFailed(s, FailPending(d, x, o), x, o);
    if !s.shuttingDown {
      if s.waiting != [] {
        assert IsQueued(s, s.waiting[0]);
      }
      SpawnAfterFailing(s, FailPending(d, x, o), x, o);
    }
  }

  /** A new worker goes to the first waiter or to nobody: no other request notices. */
  lemma SpawnTouchesWaiters(s: Pool, r: RequestId)
    requires r < |s.tasks|
    ensures Spawn(s).pending == s.pending
    ensures s.waiting == [] || s.waiting[0] != r ==> Spawn(s).tasks[r] == s.tasks[r]
  {
    var t := AddWorker(s);
    assert t.pending == s.pending && t.tasks == s.tasks && t.waiting == s.waiting;
    ReleaseTouchesHead(t, |s.workers|, r);
  }

  lemma ReleaseTouchesHead(s: Pool, x: SlotId, r: RequestId)
    requires r < |s.tasks|
    ensures Release(s, x).pending == s.pending && |Release(s, x).tasks| == |s.tasks|
    ensures s.waiting == [] || s.waiting[0] != r ==> Release(s, x).tasks[r] == s.tasks[r]
  {
    if s.waiting != [] {
      assert Release(s, x).tasks == WithPhase(s.tasks, s.waiting[0], Handed(x));
    }
  }

  // ----- keys -----

  /**
   The key behind every delivered signature is the one the loaded keyring held when the request was
   dispatched, whatever rotations and replacements came before or after; and inline signing at that
   moment would have returned the same signature.
   */
  lemma {:induction false} SignedWithKeysLoadedAtDispatch(n: nat, suite: Suite, material: Material,
                                       states: seq<Pool>, steps: seq<Step>, i: nat, id: nat) returns (j: nat)
    requires Run(n, suite, material, states, steps) && i < |states| && id < |states[i].log|
    ensures j < i && steps[j] == DispatchTask(states[i].log[id].request) && states[j].nextId == id
    ensures states[i].log[id].material == states[j].loaded
    ensures var d := states[i].log[id];
      forall r :: 0 <= r < |states[i].tasks| ==>
        var t := states[i].tasks[r];
        && (t.phase.Settled? && t.phase.id == id && t.phase.outcome.Signed? ==>
              t.phase.outcome == SignInline(suite, states[j], t.epoch, t.blank))
        && (t.phase.Done? && t.phase.id == id && t.phase.outcome.Signed? ==>
              t.phase.outcome == SignInline(suite, states[j], t.epoch, t.blank))
  {
    j := DispatchOf(n, suite, material, states, steps, i, id);
    RunKeeps(n, suite, material, states, steps, i);
    RunKeeps(n, suite, material, states, steps, j);
    var s := states[i];
    forall r | 0 <= r < |s.tasks| && (s.tasks[r].phase.Settled? || s.tasks[r].phase.Done?)
      ensures s.tasks[r].phase.id == id && s.tasks[r].phase.outcome.Signed? ==>
                s.tasks[r].phase.outcome == SignInline(suite, states[j], s.tasks[r].epoch, s.tasks[r].blank)
    {
      assert TaskLogged(suite, s, r);
    }
  }

  /** The history grows by the dispatch that `step` performs, if it performs one. */
  predicate LogMoves(s: Pool, step: Step, t: Pool) {
    && s.nextId == |s.log|
    && (step.DispatchTask? ==> step.request < |s.tasks| && s.tasks[step.request].phase.Handed?)
    && t.log == if step.DispatchTask? then s.log + [DispatchEntry(s, step.request)] else s.log
  }

  lemma RunLog(n: nat, suite: Suite, material: Material, states: seq<Pool>, steps: seq<Step>, i: nat)
    requires Run(n, suite, material, states, steps) && i < |steps|
    ensures LogMoves(states[i], steps[i], states[i + 1])
  {
    RunKeeps(n, suite, material, states, steps, i);
    StepLog(n, suite, states[i], steps[i]);
  }

  /** Every entry of the dispatch history was written by one dispatch step of the run. */
  lemma DispatchOf(n: nat, suite: Suite, material: Material,
                   states: seq<Pool>, steps: seq<Step>, i: nat, id: nat) returns (j: nat)
    requires Run(n, suite, material, states, steps) && i < |states| && id < |states[i].log|
    ensures j < i && steps[j] == DispatchTask(states[i].log[id].request) && states[j].nextId == id
    ensures states[i].log[id].material == states[j].loaded
  {
    forall k | 0 <= k < |steps| ensures LogMoves(states[k], steps[k], states[k + 1]) {
      RunLog(n, suite, material, states, steps, k);
    }
    j := WriterOf(states, steps, i, id);
  }

  lemma {:induction false} WriterOf(states: seq<Pool>, steps: seq<Step>, i: nat, id: nat) returns (j: nat)
    requires |states| == |steps| + 1 && states[0].log == []
    requires forall k :: 0 <= k < |steps| ==> LogMoves(states[k], steps[k], states[k + 1])
    requires i < |states| && id < |states[i].log|
    ensures j < i && steps[j] == DispatchTask(states[i].log[id].request) && states[j].nextId == id
    ensures states[i].log[id].material == states[j].loaded
  {
    assert LogMoves(states[i - 1], steps[i - 1], states[i - 1 + 1]);
    if id < |states[i - 1].log| {
      j := WriterOf(states, steps, i - 1, id);
    } else {
      j := i - 1;
    }
  }

  /** Once a live worker has drained its inbox it holds exactly the loaded key material, and so does
      inline signing. */
  lemma LiveWorkersCatchUp(n: nat, suite: Suite, material: Material,
                           states: seq<Pool>, steps: seq<Step>, i: nat, x: SlotId)
    requires Run(n, suite, material, states, steps) && i < |states| && Alive(states[i], x)
    ensures var w := states[i].workers[x]; Drain(w.signingKeys, w.inbox) == states[i].loaded
    ensures states[i].inlineKeys == states[i].loaded
  {
    RunKeeps(n, suite, material, states, steps, i);
  }

  // ----- waiting and progress -----

  /** One step serves at most the waiter at the head of the queue and adds at most one at its end. */
  ghost predicate QueueMoves(s: Pool, t: Pool) {
    || t.waiting == s.waiting
    || (exists r :: t.waiting == s.waiting + [r])
    || (s.waiting != [] && t.waiting == s.waiting[1..] && s.waiting[0] < |t.tasks| && t.tasks[s.waiting[0]].phase.Handed?)
  }

  lemma RetireQueue(suite: Suite, s: Pool, x: SlotId, why: string)
    requires Sound(suite, s, {})
    ensures QueueMoves(s, Retire(s, x, why))
    ensures Alive(s, x) && !s.shuttingDown && s.waiting != [] ==>
              Retire(s, x, why).waiting == s.waiting[1..]
  {
    if s.waiting != [] {
      assert s.waiting[0] in s.waiting;
    }
    if Alive(s, x) {
      var f := FailPending(Drop(s, x), x, Rejected("signing worker " + why));
      assert f.waiting == s.waiting && |f.tasks| == |s.tasks|;
    }
  }

  lemma TimeoutQueue(suite: Suite, s: Pool, r: RequestId)
    requires Sound(suite, s, {}) && TimerArmed(s, r)
    ensures QueueMoves(s, Timeout(s, r))
  {
    var o := Rejected("blind signing timed out");
    var settled := Settle(s, s.tasks[r].phase.id, o);
    SettleKeeps(suite, s, s.tasks[r].phase.id, o);
    RetireQueue(suite, settled, s.tasks[r].phase.slot, "timed out");
    SameWaiters(s, settled, Timeout(s, r));
  }

  lemma SameWaiters(s: Pool, t: Pool, u: Pool)
    requires t.waiting == s.waiting && QueueMoves(t, u)
    ensures QueueMoves(s, u)
  {
  }

  lemma FinishQueue(s: Pool, r: RequestId)
    requires QueueOk(s) && r < |s.tasks| && s.tasks[r].phase.Settled?
    ensures QueueMoves(s, Finish(s, r))
  {
    if s.waiting != [] {
      assert s.waiting[0] in s.waiting;
    }
  }

  lemma CallQueue(n: nat, suite: Suite, s: Pool, epoch: string, blank: string)
    requires Inv(n, suite, s)
    ensures QueueMoves(s, Call(s, n, epoch, blank))
  {
    if !s.started {
      SpawnManyLog(s.(tasks := s.tasks + [Task(epoch, blank, Called)]).(started := true), n);
    }
  }

  lemma StepQueue(n: nat, suite: Suite, s: Pool, step: Step)
    requires Inv(n, suite, s) && Enabled(s, step)
    ensures QueueMoves(s, Apply(n, suite, s, step))
  {
    match step
    case CallSign(epoch, blank) => CallQueue(n, suite, s, epoch, blank);
    case TimerFires(r) => TimeoutQueue(suite, s, r);
    case WorkerDies(x, why) => RetireQueue(suite, s, x, why);
    case FinishTask(r) => FinishQueue(s, r);
    case AcquireSlot(r) => AcquireMoves(s, r);
    case _ => WaitersStay(n, suite, s, step);
  }

  lemma AcquireMoves(s: Pool, r: RequestId)
    ensures QueueMoves(s, Acquire(s, r))
  {
    assert s.idle == [] ==> Acquire(s, r).waiting == s.waiting + [r];
  }

  lemma WaitersStay(n: nat, suite: Suite, s: Pool, step: Step)
    requires Enabled(s, step)
    requires step.DispatchTask? || step.WorkerTurn? || step.DeliverReply? || step.KeyringReloaded? || step.BeginShutdown?
    ensures Apply(n, suite, s, step).waiting == s.waiting
  {
    match step
    case DispatchTask(_) =>
    case WorkerTurn(_) =>
    case DeliverReply(_) =>
    case KeyringReloaded(_) =>
    case BeginShutdown =>
  }

  lemma RunQueue(n: nat, suite: Suite, material: Material, states: seq<Pool>, steps: seq<Step>, i: nat)
    requires Run(n, suite, material, states, steps) && i < |steps|
    ensures QueueOk(states[i]) && QueueMoves(states[i], states[i + 1])
  {
    RunKeeps(n, suite, material, states, steps, i);
    StepQueue(n, suite, states[i], steps[i]);
  }

  /** How far a phase is along the life of a request. */
  function Rank(p: Phase): nat {
    match p
    case Called => 0
    case Queued => 1
    case Handed(_) => 2
    case InFlight(_, _) => 3
    case Settled(_, _, _) => 4
    case Done(_, _) => 5
  }

  /** No request is forgotten and none goes back. */
  ghost predicate MovesForward(s: Pool, t: Pool) {
    |s.tasks| <= |t.tasks| &&
    forall r :: 0 <= r < |s.tasks| ==> Rank(s.tasks[r].phase) <= Rank(t.tasks[r].phase)
  }

  lemma RetireForward(s: Pool, x: SlotId, why: string)
    requires QueueOk(s)
    ensures MovesForward(s, Retire(s, x, why))
  {
    if s.waiting != [] {
      assert IsQueued(s, s.waiting[0]);
    }
    if Alive(s, x) {
      var f := FailPending(Drop(s, x), x, Rejected("signing worker " + why));
      assert MovesForward(s, f);
      assert f.waiting == s.waiting;
      assert s.waiting != [] ==> f.tasks[s.waiting[0]].phase == Queued;
    }
  }

  lemma StepForward(n: nat, suite: Suite, s: Pool, step: Step)
    requires Inv(n, suite, s) && Enabled(s, step)
    ensures MovesForward(s, Apply(n, suite, s, step))
  {
    match step
    case CallSign(epoch, blank) => CallForward(n, suite, s, epoch, blank);
    case TimerFires(r) => TimeoutForward(suite, s, r);
    case WorkerDies(x, why) => RetireForward(s, x, why);
    case FinishTask(r) => FinishForward(s, r);
    case WorkerTurn(x) => WorkTasks(suite, s, x);
    case AcquireSlot(r) => assert MovesForward(s, Acquire(s, r));
    case DispatchTask(r) => assert MovesForward(s, Dispatch(s, r));
    case DeliverReply(id) => SettleForward(s, id, s.replies[id]);
    case KeyringReloaded(_) =>
    case BeginShutdown =>
  }

  lemma CallForward(n: nat, suite: Suite, s: Pool, epoch: string, blank: string)
    requires SizeOk(n, s)
    ensures MovesForward(s, Call(s, n, epoch, blank))
  {
    if !s.started {
      SpawnManyLog(s.(tasks := s.tasks + [Task(epoch, blank, Called)]).(started := true), n);
    }
  }

  lemma SettleForward(s: Pool, id: nat, outcome: Outcome)
    requires PendingOk(s)
    ensures MovesForward(s, Settle(s, id, outcome))
  {
  }

  lemma TimeoutForward(suite: Suite, s: Pool, r: RequestId)
    requires Sound(suite, s, {}) && TimerArmed(s, r)
    ensures MovesForward(s, Timeout(s, r))
  {
    var o := Rejected("blind signing timed out");
    var settled := Settle(s, s.tasks[r].phase.id, o);
    SettleKeeps(suite, s, s.tasks[r].phase.id, o);
    SettleForward(s, s.tasks[r].phase.id, o);
    RetireForward(settled, s.tasks[r].phase.slot, "timed out");
    ForwardTwice(s, settled, Timeout(s, r));
  }

  lemma ForwardTwice(s: Pool, t: Pool, u: Pool)
    requires MovesForward(s, t) && MovesForward(t, u)
    ensures MovesForward(s, u)
  {
  }

  lemma FinishForward(s: Pool, r: RequestId)
    requires QueueOk(s) && r < |s.tasks| && s.tasks[r].phase.Settled?
    ensures MovesForward(s, Finish(s, r))
  {
    var done := SetPhase(s, r, Done(s.tasks[r].phase.id, s.tasks[r].phase.outcome));
    assert MovesForward(s, done);
    if s.waiting != [] {
      assert IsQueued(s, s.waiting[0]);
      assert IsQueued(done, s.waiting[0]);
    }
    ReleaseForward(done, s.tasks[r].phase.slot);
  }

  lemma ReleaseForward(s: Pool, x: SlotId)
    requires s.waiting != [] ==> IsQueued(s, s.waiting[0])
    ensures MovesForward(s, Release(s, x))
  {
  }

  lemma WorkTasks(suite: Suite, s: Pool, x: SlotId)
    requires x < |s.workers| && s.workers[x].inbox != []
    ensures Work(suite, s, x).tasks == s.tasks
  {
  }

  ghost predicate Ahead(s: Pool, a: RequestId, b: RequestId) {
    exists p, q :: 0 <= p < q < |s.waiting| && s.waiting[p] == a && s.waiting[q] == b
  }

  lemma RunForward(n: nat, suite: Suite, material: Material, states: seq<Pool>, steps: seq<Step>, i: nat, j: nat)
    requires Run(n, suite, material, states, steps) && i <= j < |states|
    ensures MovesForward(states[i], states[j])
  {
    forall k | 0 <= k < |states| - 1 ensures MovesForward(states[k], states[k + 1]) {
      RunKeeps(n, suite, material, states, steps, k);
      StepForward(n, suite, states[k], steps[k]);
    }
    ForwardAll(states, i, j);
  }

  lemma {:induction false} ForwardAll(states: seq<Pool>, i: nat, j: nat)
    requires forall k :: 0 <= k < |states| - 1 ==> MovesForward(states[k], states[k + 1])
    requires i <= j < |states|
    ensures MovesForward(states[i], states[j])
  {
    if i == j {
    } else {
      ForwardAll(states, i, j - 1);
      assert MovesForward(states[j - 1], states[j - 1 + 1]);
      ForwardTwice(states[i], states[j - 1], states[j]);
    }
  }

  /** First come, first served: while `a` waits, nobody who queued behind it is served. */
  lemma {:induction false} WaitersAreServedInOrder(n: nat, suite: Suite, material: Material,
                                states: seq<Pool>, steps: seq<Step>, i: nat, j: nat, a: RequestId, b: RequestId)
    requires Run(n, suite, material, states, steps) && i <= j < |states|
    requires Ahead(states[i], a, b)
    ensures Ahead(states[j], a, b) || a !in states[j].waiting
  {
    if i == j {
    } else {
      WaitersAreServedInOrder(n, suite, material, states, steps, i, j - 1, a, b);
      OrderStep(n, suite, material, states, steps, i, j - 1, a, b);
    }
  }

  lemma OrderStep(n: nat, suite: Suite, material: Material,
                  states: seq<Pool>, steps: seq<Step>, i: nat, j: nat, a: RequestId, b: RequestId)
    requires Run(n, suite, material, states, steps) && i <= j < |steps|
    requires a in states[i].waiting
    requires Ahead(states[j], a, b) || a !in states[j].waiting
    ensures Ahead(states[j + 1], a, b) || a !in states[j + 1].waiting
  {
    if a in states[j].waiting {
      RunQueue(n, suite, material, states, steps, j);
      StillAhead(states[j], states[j + 1], a, b);
    } else {
      ServedOnce(n, suite, material, states, steps, i, j, j + 1, a);
    }
  }

  /** A request that has left the queue never queues again. */
  lemma ServedOnce(n: nat, suite: Suite, material: Material,
                   states: seq<Pool>, steps: seq<Step>, i: nat, j: nat, k: nat, a: RequestId)
    requires Run(n, suite, material, states, steps) && i <= j <= k < |states|
    requires a in states[i].waiting && a !in states[j].waiting
    ensures a !in states[k].waiting
  {
    RunForward(n, suite, material, states, steps, i, j);
    RunForward(n, suite, material, states, steps, j, k);
    RunKeeps(n, suite, material, states, steps, i);
    RunKeeps(n, suite, material, states, steps, j);
    RunKeeps(n, suite, material, states, steps, k);
    assert IsQueued(states[i], a) && !IsQueued(states[j], a);
  }

  lemma StillAhead(s: Pool, t: Pool, a: RequestId, b: RequestId)
    requires QueueMoves(s, t) && Ahead(s, a, b) && QueueOk(s)
    ensures Ahead(t, a, b) || a !in t.waiting
  {
    var p, q :| 0 <= p < q < |s.waiting| && s.waiting[p] == a && s.waiting[q] == b;
    if t.waiting == s.waiting[1..] {
      if p > 0 {
        assert t.waiting[p - 1] == a && t.waiting[q - 1] == b;
      } else {
        assert a !in s.waiting[1..];
      }
    } else {
      assert t.waiting[p] == a && t.waiting[q] == b;
    }
  }

  /** Nothing is ruled out: calls, reloads and shutdown come at any time, any worker may die at any time, a
      worker with mail may take its turn, a posted reply may arrive, and an armed timer may fire. */
  lemma AnythingMayHappen(s: Pool, epoch: string, blank: string, material: Material, x: SlotId, why: string, id: nat, r: RequestId)
    ensures Enabled(s, CallSign(epoch, blank)) && Enabled(s, KeyringReloaded(material)) && Enabled(s, BeginShutdown)
    ensures x < |s.workers| ==> Enabled(s, WorkerDies(x, why))
    ensures x < |s.workers| && s.workers[x].inbox != [] ==> Enabled(s, WorkerTurn(x))
    ensures id in s.replies ==> Enabled(s, DeliverReply(id))
    ensures r < |s.tasks| && s.tasks[r].phase.Called? ==> Enabled(s, AcquireSlot(r))
    ensures r < |s.tasks| && s.tasks[r].phase.Handed? ==> Enabled(s, DispatchTask(r))
    ensures r < |s.tasks| && s.tasks[r].phase.InFlight? ==> Enabled(s, TimerFires(r))
    ensures r < |s.tasks| && s.tasks[r].phase.Settled? ==> Enabled(s, TimerFires(r)) && Enabled(s, FinishTask(r))
  {
  }
}
