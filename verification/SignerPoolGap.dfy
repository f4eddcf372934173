/**
 The gap between a slot being handed to a request and its dispatch. A slot retired in that gap takes
 the request's message to its grave; the request is then in flight on a dead worker, nobody will ever
 answer it, and its own timer is the only thing that ends it.
 */
module SignerPoolGap {
  import opened SignerPoolModel
  import opened SignerPoolInvariant
  import opened SignerPoolTheorems

  /** Request `r` is in flight on a worker that is dead. */
  predicate Orphan(s: Pool, r: RequestId) {
    && r < |s.tasks| && s.tasks[r].phase.InFlight?
    && s.tasks[r].phase.slot < |s.workers| && !s.workers[s.tasks[r].phase.slot].alive
  }

  predicate Mentions(inbox: seq<Command>, id: nat) {
    exists j :: 0 <= j < |inbox| && inbox[j].Sign? && inbox[j].id == id
  }

  /** No worker has answered `id`, nor has it in its inbox. */
  ghost predicate Unheard(s: Pool, id: nat) {
    id !in s.replies && forall x :: 0 <= x < |s.workers| ==> !Mentions(s.workers[x].inbox, id)
  }

  ghost predicate OrphansOk(s: Pool) {
    forall r: RequestId :: Orphan(s, r) ==> Unheard(s, s.tasks[r].phase.id)
  }

  // ----- steps that send no message -----

  /** Old workers keep their inboxes, new ones start with an empty one, and nobody replies. */
  ghost predicate SameMail(s: Pool, t: Pool) {
    && t.replies == s.replies && |s.workers| <= |t.workers|
    && (forall x :: 0 <= x < |s.workers| ==> t.workers[x].inbox == s.workers[x].inbox)
    && (forall x :: |s.workers| <= x < |t.workers| ==> t.workers[x].inbox == [])
  }

  /** Nobody new is in flight, and whoever still is has the worker he had, as alive as it was. */
  ghost predicate SameFlights(s: Pool, t: Pool) {
    forall r :: 0 <= r < |t.tasks| && t.tasks[r].phase.InFlight? ==>
      && r < |s.tasks| && t.tasks[r] == s.tasks[r]
      && (t.tasks[r].phase.slot < |s.workers| && t.tasks[r].phase.slot < |t.workers| ==>
            t.workers[t.tasks[r].phase.slot].alive == s.workers[t.tasks[r].phase.slot].alive)
  }

  ghost predicate Quiet(s: Pool, t: Pool) {
    SameMail(s, t) && SameFlights(s, t)
  }

  lemma QuietKeeps(s: Pool, t: Pool)
    requires HoldersOk(s, {}) && OrphansOk(s) && Quiet(s, t)
    ensures OrphansOk(t)
  {
    forall r: RequestId | Orphan(t, r) ensures Unheard(t, t.tasks[r].phase.id) {
      assert Holds(s, r, t.tasks[r].phase.slot);
      assert Orphan(s, r);
    }
  }

  lemma QuietTwice(s: Pool, t: Pool, u: Pool)
    requires Quiet(s, t) && Quiet(t, u)
    ensures Quiet(s, u)
  {
  }

  lemma PhaseQuiet(s: Pool, t: Pool, q: RequestId, phase: Phase)
    requires t.workers == s.workers && t.replies == s.replies && t.tasks == WithPhase(s.tasks, q, phase)
    requires !phase.InFlight?
    ensures Quiet(s, t)
  {
  }

  lemma ReleaseToHeadQuiet(s: Pool, x: SlotId)
    requires s.waiting != []
    ensures Quiet(s, Release(s, x))
  {
    PhaseQuiet(s, Release(s, x), s.waiting[0], Handed(x));
  }

  lemma ReleaseQuiet(s: Pool, x: SlotId)
    ensures Quiet(s, Release(s, x))
  {
    if s.waiting != [] {
      ReleaseToHeadQuiet(s, x);
    }
  }

  lemma SpawnQuiet(s: Pool)
    ensures Quiet(s, Spawn(s))
  {
    var t := AddWorker(s);
    assert Quiet(s, t);
    ReleaseQuiet(t, |s.workers|);
    QuietTwice(s, t, Spawn(s));
  }

  lemma {:induction false} SpawnManyQuiet(s: Pool, n: nat)
    ensures Quiet(s, SpawnMany(s, n))
  {
    if n == 0 {
    } else {
      SpawnManyQuiet(s, n - 1);
      SpawnQuiet(SpawnMany(s, n - 1));
      QuietTwice(s, SpawnMany(s, n - 1), SpawnMany(s, n));
    }
  }

  lemma CallQuiet(s: Pool, n: nat, epoch: string, blank: string)
    ensures Quiet(s, Call(s, n, epoch, blank))
  {
    var t := s.(tasks := s.tasks + [Task(epoch, blank, Called)]);
    assert Quiet(s, t);
    if !s.started {
      var u := t.(started := true);
      assert Quiet(t, u);
      SpawnManyQuiet(u, n);
      QuietTwice(t, u, SpawnMany(u, n));
      QuietTwice(s, t, SpawnMany(u, n));
    }
  }

  lemma SettleQuiet(s: Pool, id: nat, outcome: Outcome)
    ensures Quiet(s, Settle(s, id, outcome))
  {
  }

  lemma DropQuiet(s: Pool, x: SlotId, outcome: Outcome)
    requires x < |s.workers| && PendingOk(s)
    ensures Quiet(s, FailPending(Drop(s, x), x, outcome))
  {
    DropKeepsTasks(s, x);
  }

  lemma RetireQuiet(s: Pool, x: SlotId, why: string)
    requires PendingOk(s)
    ensures Quiet(s, Retire(s, x, why))
  {
    if Alive(s, x) {
      var o := Rejected("signing worker " + why);
      DropQuiet(s, x, o);
      var f := FailPending(Drop(s, x), x, o);
      if !s.shuttingDown {
        SpawnQuiet(f);
        QuietTwice(s, f, Spawn(f));
      }
    }
  }

  lemma TimeoutQuiet(suite: Suite, s: Pool, r: RequestId)
    requires Sound(suite, s, {}) && TimerArmed(s, r)
    ensures Quiet(s, Timeout(s, r))
  {
    var o := Rejected("blind signing timed out");
    var t := Settle(s, s.tasks[r].phase.id, o);
    SettleKeeps(suite, s, s.tasks[r].phase.id, o);
    SettleQuiet(s, s.tasks[r].phase.id, o);
    RetireQuiet(t, s.tasks[r].phase.slot, "timed out");
    QuietTwice(s, t, Timeout(s, r));
  }

  lemma FinishQuiet(s: Pool, r: RequestId)
    requires r < |s.tasks| && s.tasks[r].phase.Settled?
    ensures Quiet(s, Finish(s, r))
  {
    var p := s.tasks[r].phase;
    var t := SetPhase(s, r, Done(p.id, p.outcome));
    assert Quiet(s, t);
    ReleaseQuiet(t, p.slot);
    QuietTwice(s, t, Release(t, p.slot));
  }

  // ----- steps that do -----

  /** Whatever is mentioned anywhere was dispatched, so the next id is unheard of. */
  lemma NextIdIsUnheard(suite: Suite, s: Pool)
    requires LogOk(suite, s) && KeysOk(s)
    ensures Unheard(s, s.nextId)
  {
    forall x | 0 <= x < |s.workers| ensures !Mentions(s.workers[x].inbox, s.nextId) {
      var w := s.workers[x];
      assert InboxOk(s.log, x, w.signingKeys, w.inbox);
      forall j: nat | j < |w.inbox| && w.inbox[j].Sign? ensures w.inbox[j].id < |s.log| {
        assert MessageOk(s.log, x, w.signingKeys, w.inbox, j);
      }
    }
  }

  lemma AppendMentions(inbox: seq<Command>, c: Command, id: nat)
    ensures Mentions(inbox + [c], id) <==> Mentions(inbox, id) || (c.Sign? && c.id == id)
  {
    var more := inbox + [c];
    if Mentions(inbox, id) {
      var j :| 0 <= j < |inbox| && inbox[j].Sign? && inbox[j].id == id;
      assert more[j] == inbox[j];
    }
    if c.Sign? && c.id == id {
      assert more[|inbox|] == c;
    }
  }

  lemma PostIsUnheard(s: Pool, t: Pool, x: SlotId, c: Command, id: nat)
    requires Unheard(s, id) && t.replies == s.replies && t.workers == Post(s.workers, x, c)
    requires c.Sign? && c.id == id ==> !Alive(s, x)
    ensures Unheard(t, id)
  {
    if Alive(s, x) {
      AppendMentions(s.workers[x].inbox, c, id);
    }
  }

  lemma DispatchOrphans(suite: Suite, s: Pool, r: RequestId)
    requires Sound(suite, s, {}) && OrphansOk(s) && r < |s.tasks| && s.tasks[r].phase.Handed?
    ensures OrphansOk(Dispatch(s, r))
  {
    var t, x := Dispatch(s, r), s.tasks[r].phase.slot;
    NextIdIsUnheard(suite, s);
    forall q: RequestId | Orphan(t, q) ensures Unheard(t, t.tasks[q].phase.id) {
      var message := Sign(s.nextId, s.tasks[r].epoch, s.tasks[r].blank);
      if q == r {
        PostIsUnheard(s, t, x, message, s.nextId);
      } else {
        assert Orphan(s, q) && TaskLogged(suite, s, q);
        PostIsUnheard(s, t, x, message, s.tasks[q].phase.id);
      }
    }
  }

  lemma HandledMentions(w: Worker, id: nat)
    requires w.inbox != [] && !Mentions(w.inbox, id)
    ensures !Mentions(Handled(w).inbox, id)
  {
    forall j | 0 <= j < |w.inbox| - 1 ensures w.inbox[1..][j] == w.inbox[j + 1] {
    }
  }

  lemma WorkUnheard(suite: Suite, s: Pool, x: SlotId, id: nat)
    requires x < |s.workers| && s.workers[x].inbox != [] && Unheard(s, id)
    ensures Unheard(Work(suite, s, x), id)
  {
    HandledMentions(s.workers[x], id);
    assert !Mentions(s.workers[x].inbox, id);
    assert s.workers[x].inbox[0].Sign? ==> s.workers[x].inbox[0].id != id;
  }

  lemma WorkOrphans(suite: Suite, s: Pool, x: SlotId)
    requires OrphansOk(s) && x < |s.workers| && s.workers[x].inbox != []
    ensures OrphansOk(Work(suite, s, x))
  {
    var t := Work(suite, s, x);
    WorkFrame(suite, s, x);
    forall r: RequestId | Orphan(t, r) ensures Unheard(t, t.tasks[r].phase.id) {
      assert Alive(t, t.tasks[r].phase.slot) <==> Alive(s, t.tasks[r].phase.slot);
      assert Orphan(s, r);
      WorkUnheard(suite, s, x, t.tasks[r].phase.id);
    }
  }

  lemma ReloadOrphans(s: Pool, material: Material)
    requires SlotsOk(s) && OrphansOk(s)
    ensures OrphansOk(AdoptKeys(s.(loaded := material), material))
  {
    var t := AdoptKeys(s.(loaded := material), material);
    PostAllAt(s.workers, s.slots, Keys(material));
    forall r: RequestId | Orphan(t, r) ensures Unheard(t, t.tasks[r].phase.id) {
      var id := t.tasks[r].phase.id;
      assert Orphan(s, r);
      forall x | 0 <= x < |t.workers| ensures !Mentions(t.workers[x].inbox, id) {
        AppendMentions(s.workers[x].inbox, Keys(material), id);
      }
    }
  }

  lemma QuietStep(n: nat, suite: Suite, s: Pool, step: Step)
    requires Inv(n, suite, s) && Enabled(s, step)
    requires !step.DispatchTask? && !step.WorkerTurn? && !step.KeyringReloaded?
    ensures Quiet(s, Apply(n, suite, s, step))
  {
    match step
    case CallSign(epoch, blank) => CallQuiet(s, n, epoch, blank);
    case AcquireSlot(_) =>
    case DeliverReply(id) => SettleQuiet(s, id, s.replies[id]);
    case TimerFires(r) => TimeoutQuiet(suite, s, r);
    case FinishTask(r) => FinishQuiet(s, r);
    case WorkerDies(x, why) => RetireQuiet(s, x, why);
    case BeginShutdown =>
  }

  lemma StepOrphans(n: nat, suite: Suite, s: Pool, step: Step)
    requires Inv(n, suite, s) && OrphansOk(s) && Enabled(s, step)
    ensures OrphansOk(Apply(n, suite, s, step))
  {
    match step
    case DispatchTask(r) => DispatchOrphans(suite, s, r);
    case WorkerTurn(x) => WorkOrphans(suite, s, x);
    case KeyringReloaded(material) => ReloadOrphans(s, material);
    case _ =>
      QuietStep(n, suite, s, step);
      QuietKeeps(s, Apply(n, suite, s, step));
  }

  /** In every state of every run, whoever is in flight on a dead worker has no answer on its way. */
  lemma {:induction false} RunOrphans(n: nat, suite: Suite, material: Material,
                                      states: seq<Pool>, steps: seq<Step>, i: nat)
    requires Run(n, suite, material, states, steps) && i < |states|
    ensures OrphansOk(states[i])
  {
    if i == 0 {
    } else {
      RunOrphans(n, suite, material, states, steps, i - 1);
      RunKeeps(n, suite, material, states, steps, i - 1);
      StepOrphans(n, suite, states[i - 1], steps[i - 1]);
    }
  }

  // ----- nothing but its timer ends an orphan -----

  lemma SettleSpares(s: Pool, id: nat, outcome: Outcome, r: RequestId)
    requires PendingOk(s) && r < |s.tasks| && s.tasks[r].phase.InFlight? && s.tasks[r].phase.id != id
    ensures |Settle(s, id, outcome).tasks| == |s.tasks| && Settle(s, id, outcome).tasks[r] == s.tasks[r]
  {
  }

  lemma RetireSpares(suite: Suite, s: Pool, x: SlotId, why: string, r: RequestId)
    requires Sound(suite, s, {}) && r < |s.tasks| && s.tasks[r].phase.InFlight? && (Alive(s, x) ==> s.tasks[r].phase.slot != x)
    ensures |Retire(s, x, why).tasks| == |s.tasks| && Retire(s, x, why).tasks[r] == s.tasks[r]
  {
    if Alive(s, x) {
      RetireFailsWhatItCarried(suite, s, x, why);
    }
  }

  /** Two armed timers are for two ids. */
  lemma TimersDiffer(suite: Suite, s: Pool, q: RequestId, r: RequestId)
    requires LogOk(suite, s) && TimerArmed(s, q) && TimerArmed(s, r) && q != r
    ensures s.tasks[q].phase.id != s.tasks[r].phase.id
  {
    assert TaskLogged(suite, s, q) && TaskLogged(suite, s, r);
  }

  lemma TimeoutSpares(suite: Suite, s: Pool, q: RequestId, r: RequestId)
    requires Sound(suite, s, {}) && TimerArmed(s, q) && Orphan(s, r) && q != r
    ensures |Timeout(s, q).tasks| == |s.tasks| && Timeout(s, q).tasks[r] == s.tasks[r]
  {
    var o, id := Rejected("blind signing timed out"), s.tasks[q].phase.id;
    TimersDiffer(suite, s, q, r);
    SettleKeeps(suite, s, id, o);
    SettleSpares(s, id, o, r);
    RetireSpares(suite, Settle(s, id, o), s.tasks[q].phase.slot, "timed out", r);
  }

  lemma FinishSpares(s: Pool, q: RequestId, r: RequestId)
    requires QueueOk(s) && q < |s.tasks| && s.tasks[q].phase.Settled? && r < |s.tasks| && s.tasks[r].phase.InFlight?
    ensures |Finish(s, q).tasks| == |s.tasks| && Finish(s, q).tasks[r] == s.tasks[r]
  {
    var p := s.tasks[q].phase;
    var t := SetPhase(s, q, Done(p.id, p.outcome));
    if s.waiting != [] {
      assert IsQueued(s, s.waiting[0]);
    }
    ReleaseTouchesHead(t, p.slot, r);
  }

  lemma CallSpares(n: nat, s: Pool, epoch: string, blank: string, r: RequestId)
    requires SizeOk(n, s) && r < |s.tasks|
    ensures r < |Call(s, n, epoch, blank).tasks| && Call(s, n, epoch, blank).tasks[r] == s.tasks[r]
  {
    if !s.started {
      SpawnManyLog(s.(tasks := s.tasks + [Task(epoch, blank, Called)]).(started := true), n);
    }
  }

  /** A call adds its request, not yet served, and starts the workers on first use. */
  lemma CallAddsItsRequest(n: nat, s: Pool, epoch: string, blank: string)
    requires SizeOk(n, s)
    ensures Call(s, n, epoch, blank).tasks == s.tasks + [Task(epoch, blank, Called)]
    ensures Call(s, n, epoch, blank).started && Call(s, n, epoch, blank).waiting == s.waiting
  {
    if !s.started {
      SpawnManyLog(s.(tasks := s.tasks + [Task(epoch, blank, Called)]).(started := true), n);
      SpawnManyStarts(s.(tasks := s.tasks + [Task(epoch, blank, Called)]).(started := true), n);
    }
  }

  lemma {:induction false} SpawnManyStarts(s: Pool, n: nat)
    requires s.started
    ensures SpawnMany(s, n).started
  {
    if n == 0 {
    } else {
      SpawnManyStarts(s, n - 1);
    }
  }

  /** No step but its own timer touches a request that is in flight on a dead worker. */
  lemma OrphanIsSpared(n: nat, suite: Suite, s: Pool, step: Step, r: RequestId)
    requires Inv(n, suite, s) && OrphansOk(s) && Orphan(s, r) && Enabled(s, step) && step != TimerFires(r)
    ensures r < |Apply(n, suite, s, step).tasks| && Apply(n, suite, s, step).tasks[r] == s.tasks[r]
  {
    match step
    case CallSign(epoch, blank) => CallSpares(n, s, epoch, blank, r);
    case AcquireSlot(_) =>
    case DispatchTask(_) =>
    case WorkerTurn(x) => WorkTasks(suite, s, x);
    case DeliverReply(id) => SettleSpares(s, id, s.replies[id], r);
    case TimerFires(q) => TimeoutSpares(suite, s, q, r);
    case FinishTask(q) => FinishSpares(s, q, r);
    case WorkerDies(x, why) => RetireSpares(suite, s, x, why, r);
    case KeyringReloaded(_) =>
    case BeginShutdown =>
  }

  lemma QuietOrphanStays(s: Pool, t: Pool, r: RequestId)
    requires Quiet(s, t) && Orphan(s, r) && r < |t.tasks| && t.tasks[r] == s.tasks[r]
    ensures Orphan(t, r)
  {
  }

  lemma ReloadSpares(s: Pool, material: Material, r: RequestId)
    requires SlotsOk(s) && Orphan(s, r)
    ensures Orphan(AdoptKeys(s.(loaded := material), material), r)
  {
    PostAllAt(s.workers, s.slots, Keys(material));
  }

  lemma WorkSpares(suite: Suite, s: Pool, x: SlotId, r: RequestId)
    requires x < |s.workers| && s.workers[x].inbox != [] && Orphan(s, r)
    ensures Orphan(Work(suite, s, x), r)
  {
    WorkFrame(suite, s, x);
    assert Alive(Work(suite, s, x), s.tasks[r].phase.slot) <==> Alive(s, s.tasks[r].phase.slot);
  }

  lemma DispatchSpares(s: Pool, q: RequestId, r: RequestId)
    requires q < |s.tasks| && s.tasks[q].phase.Handed? && Orphan(s, r)
    ensures Orphan(Dispatch(s, q), r)
  {
  }

  lemma OrphanStays(n: nat, suite: Suite, s: Pool, step: Step, r: RequestId)
    requires Inv(n, suite, s) && OrphansOk(s) && Orphan(s, r) && Enabled(s, step) && step != TimerFires(r)
    ensures LeftAlone(s, Apply(n, suite, s, step), r)
  {
    OrphanIsSpared(n, suite, s, step, r);
    match step
    case DispatchTask(q) => DispatchSpares(s, q, r);
    case WorkerTurn(x) => WorkSpares(suite, s, x, r);
    case KeyringReloaded(material) => ReloadSpares(s, material, r);
    case _ =>
      QuietStep(n, suite, s, step);
      QuietOrphanStays(s, Apply(n, suite, s, step), r);
  }

  /** From `s` to `t` the orphan stays as it is. */
  ghost predicate LeftAlone(s: Pool, t: Pool, r: RequestId) {
    Orphan(s, r) ==> Orphan(t, r) && t.tasks[r] == s.tasks[r]
  }

  lemma RunLeavesAlone(n: nat, suite: Suite, material: Material, states: seq<Pool>, steps: seq<Step>, k: nat, r: RequestId)
    requires Run(n, suite, material, states, steps) && k < |steps| && steps[k] != TimerFires(r)
    ensures LeftAlone(states[k], states[k + 1], r)
  {
    if Orphan(states[k], r) {
      RunKeeps(n, suite, material, states, steps, k);
      RunOrphans(n, suite, material, states, steps, k);
      OrphanStays(n, suite, states[k], steps[k], r);
    }
  }

  lemma {:induction false} LeftAloneAll(states: seq<Pool>, i: nat, j: nat, r: RequestId)
    requires i <= j < |states| && forall k :: i <= k < j ==> LeftAlone(states[k], states[k + 1], r)
    ensures LeftAlone(states[i], states[j], r)
  {
    if i == j {
    } else {
      LeftAloneAll(states, i, j - 1, r);
      assert LeftAlone(states[j - 1], states[j - 1 + 1], r);
    }
  }

  /**
   Only the request's timer ends it: from the moment it is in flight on a dead worker, and for as long
   as its timer does not fire, nothing in any run settles it; when the timer fires it is rejected.
   */
  lemma OnlyItsTimerEndsAnOrphan(n: nat, suite: Suite, material: Material,
                                 states: seq<Pool>, steps: seq<Step>, i: nat, j: nat, r: RequestId)
    requires Run(n, suite, material, states, steps) && i <= j < |states| && Orphan(states[i], r)
    requires forall k :: i <= k < j ==> steps[k] != TimerFires(r)
    ensures Orphan(states[j], r) && states[j].tasks[r] == states[i].tasks[r]
    ensures j < |steps| && steps[j] == TimerFires(r) ==>
              r < |states[j + 1].tasks| && states[j + 1].tasks[r].phase ==
              Settled(states[i].tasks[r].phase.slot, states[i].tasks[r].phase.id, Rejected("blind signing timed out"))
  {
    forall k | i <= k < j ensures LeftAlone(states[k], states[k + 1], r) {
      RunLeavesAlone(n, suite, material, states, steps, k, r);
    }
    LeftAloneAll(states, i, j, r);
    if j < |steps| && steps[j] == TimerFires(r) {
      RunKeeps(n, suite, material, states, steps, j);
      TimerRejects(suite, states[j], r);
    }
  }

  /** A timer that fires in flight rejects its request, and its worker is not used again. */
  lemma TimerRejects(suite: Suite, s: Pool, r: RequestId)
    requires Sound(suite, s, {}) && r < |s.tasks| && s.tasks[r].phase.InFlight?
    ensures r < |Timeout(s, r).tasks|
    ensures Timeout(s, r).tasks[r].phase ==
            Settled(s.tasks[r].phase.slot, s.tasks[r].phase.id, Rejected("blind signing timed out"))
    ensures !Alive(Timeout(s, r), s.tasks[r].phase.slot)
  {
    var x, id, o := s.tasks[r].phase.slot, s.tasks[r].phase.id, Rejected("blind signing timed out");
    var t := Settle(s, id, o);
    SettleKeeps(suite, s, id, o);
    assert Holds(s, r, x);
    assert t.tasks[r].phase == Settled(x, id, o) && |t.workers| == |s.workers|;
    RetireLeavesSettled(suite, t, x, "timed out", r);
  }

  lemma RetireLeavesSettled(suite: Suite, s: Pool, x: SlotId, why: string, r: RequestId)
    requires Sound(suite, s, {}) && r < |s.tasks| && s.tasks[r].phase.Settled? && x < |s.workers|
    ensures |Retire(s, x, why).tasks| == |s.tasks| && Retire(s, x, why).tasks[r] == s.tasks[r]
    ensures !Alive(Retire(s, x, why), x)
  {
    if Alive(s, x) {
      var f := FailPending(Drop(s, x), x, Rejected("signing worker " + why));
      assert f.tasks[r] == s.tasks[r] && f.waiting == s.waiting && |f.tasks| == |s.tasks|;
      if s.waiting != [] {
        assert IsQueued(s, s.waiting[0]);
      }
      SpawnTouchesWaiters(f, r);
      SpawnKeepsPending(f);
    }
  }

  /** Dispatching to a slot that was retired in the gap makes an orphan. */
  lemma GapMakesAnOrphan(s: Pool, r: RequestId)
    requires r < |s.tasks| && s.tasks[r].phase.Handed?
    requires s.tasks[r].phase.slot < |s.workers| && !s.workers[s.tasks[r].phase.slot].alive
    ensures Orphan(Dispatch(s, r), r)
  {
  }
}
