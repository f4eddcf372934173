/**
 Signatures come back. A request that is in flight on a live worker has its message in that worker's
 inbox, or its reply on the way; so the worker's own turns bring it the signature of its blank under
 the key that was loaded for its epoch when it was dispatched.
 */
module SignerPoolDelivery {
  import opened SignerPoolModel
  import opened SignerPoolInvariant
  import opened SignerPoolTheorems
  import opened SignerPoolGap
  import opened SignerPoolProgress

  /** Request `r` is in flight on a live worker. */
  predicate Carried(s: Pool, r: RequestId) {
    && r < |s.tasks| && s.tasks[r].phase.InFlight?
    && s.tasks[r].phase.slot < |s.workers| && s.workers[s.tasks[r].phase.slot].alive
  }

  /** The reply to `id` has been posted, or worker `x` has yet to handle the message. */
  predicate Answerable(s: Pool, x: SlotId, id: nat) {
    id in s.replies || (x < |s.workers| && Mentions(s.workers[x].inbox, id))
  }

  ghost predicate CarriedOk(s: Pool) {
    forall r: RequestId :: Carried(s, r) ==> Answerable(s, s.tasks[r].phase.slot, s.tasks[r].phase.id)
  }

  // ----- no message is lost -----

  lemma QuietCarries(s: Pool, t: Pool)
    requires HoldersOk(s, {}) && CarriedOk(s) && Quiet(s, t)
    ensures CarriedOk(t)
  {
    forall r: RequestId | Carried(t, r) ensures Answerable(t, t.tasks[r].phase.slot, t.tasks[r].phase.id) {
      assert Holds(s, r, t.tasks[r].phase.slot);
      assert Carried(s, r);
    }
  }

  lemma DispatchCarries(s: Pool, r: RequestId)
    requires CarriedOk(s) && r < |s.tasks| && s.tasks[r].phase.Handed?
    ensures CarriedOk(Dispatch(s, r))
  {
    var t, x := Dispatch(s, r), s.tasks[r].phase.slot;
    var message := Sign(s.nextId, s.tasks[r].epoch, s.tasks[r].blank);
    forall q: RequestId | Carried(t, q) ensures Answerable(t, t.tasks[q].phase.slot, t.tasks[q].phase.id) {
      if Alive(s, x) {
        AppendMentions(s.workers[x].inbox, message, t.tasks[q].phase.id);
      }
      assert q != r ==> Carried(s, q);
    }
  }

  lemma HeadOrTail(inbox: seq<Command>, id: nat)
    requires inbox != [] && Mentions(inbox, id)
    ensures (inbox[0].Sign? && inbox[0].id == id) || Mentions(inbox[1..], id)
  {
    var j :| 0 <= j < |inbox| && inbox[j].Sign? && inbox[j].id == id;
    if j > 0 {
      assert inbox[1..][j - 1] == inbox[j];
    }
  }

  /** A worker's turn answers the message at the head of its inbox and keeps the others. */
  lemma WorkAnswers(suite: Suite, s: Pool, x: SlotId, y: SlotId, id: nat)
    requires x < |s.workers| && s.workers[x].inbox != [] && Answerable(s, y, id)
    ensures Answerable(Work(suite, s, x), y, id)
  {
    if x == y && id !in s.replies {
      HeadOrTail(s.workers[x].inbox, id);
    }
  }

  lemma WorkCarries(suite: Suite, s: Pool, x: SlotId)
    requires CarriedOk(s) && x < |s.workers| && s.workers[x].inbox != []
    ensures CarriedOk(Work(suite, s, x))
  {
    var t := Work(suite, s, x);
    WorkFrame(suite, s, x);
    forall r: RequestId | Carried(t, r) ensures Answerable(t, t.tasks[r].phase.slot, t.tasks[r].phase.id) {
      assert Alive(t, t.tasks[r].phase.slot) <==> Alive(s, t.tasks[r].phase.slot);
      assert Carried(s, r);
      WorkAnswers(suite, s, x, t.tasks[r].phase.slot, t.tasks[r].phase.id);
    }
  }

  lemma ReloadCarries(s: Pool, material: Material)
    requires SlotsOk(s) && CarriedOk(s)
    ensures CarriedOk(AdoptKeys(s.(loaded := material), material))
  {
    var t := AdoptKeys(s.(loaded := material), material);
    PostAllAt(s.workers, s.slots, Keys(material));
    forall r: RequestId | Carried(t, r) ensures Answerable(t, t.tasks[r].phase.slot, t.tasks[r].phase.id) {
      assert Carried(s, r);
      AppendMentions(s.workers[t.tasks[r].phase.slot].inbox, Keys(material), t.tasks[r].phase.id);
    }
  }

  lemma StepCarries(n: nat, suite: Suite, s: Pool, step: Step)
    requires Inv(n, suite, s) && CarriedOk(s) && Enabled(s, step)
    ensures CarriedOk(Apply(n, suite, s, step))
  {
    match step
    case DispatchTask(r) => DispatchCarries(s, r);
    case WorkerTurn(x) => WorkCarries(suite, s, x);
    case KeyringReloaded(material) => ReloadCarries(s, material);
    case _ =>
      QuietStep(n, suite, s, step);
      QuietCarries(s, Apply(n, suite, s, step));
  }

  /** In every state of every run, what a live worker carries is in its inbox or answered. */
  lemma {:induction false} RunCarries(n: nat, suite: Suite, material: Material,
                                      states: seq<Pool>, steps: seq<Step>, i: nat)
    requires Run(n, suite, material, states, steps) && i < |states|
    ensures CarriedOk(states[i])
  {
    if i == 0 {
    } else {
      RunCarries(n, suite, material, states, steps, i - 1);
      RunKeeps(n, suite, material, states, steps, i - 1);
      StepCarries(n, suite, states[i - 1], steps[i - 1]);
    }
  }

  // ----- the signature -----

  /** What a reply says: the blank signed under the key loaded for its epoch at dispatch, or that there
      was none. */
  lemma ReplyIsTheSignature(n: nat, suite: Suite, material: Material,
                            states: seq<Pool>, steps: seq<Step>, i: nat, id: nat)
    requires Run(n, suite, material, states, steps) && i < |states| && id in states[i].replies
    ensures id < |states[i].log|
    ensures var d := states[i].log[id];
      states[i].replies[id] ==
      if d.epoch in d.material then suite(d.material[d.epoch], d.blank)
      else Rejected("no signing key for epoch " + d.epoch)
  {
    RunKeeps(n, suite, material, states, steps, i);
  }

  /** One turn of a worker, message by message: keys are replaced, a blank is signed under the epoch's
      key, and nothing else in the pool changes. */
  lemma TurnDoesItsMessage(suite: Suite, s: Pool, x: SlotId)
    requires x < |s.workers| && s.workers[x].inbox != []
    ensures var t, w, m := Work(suite, s, x), s.workers[x], s.workers[x].inbox[0];
      && |t.workers| == |s.workers| && (forall y :: 0 <= y < |s.workers| && y != x ==> t.workers[y] == s.workers[y])
      && t.workers[x].alive == w.alive && t.workers[x].inbox == w.inbox[1..]
      && (m.Keys? ==> t.workers[x].signingKeys == m.keys && t.replies == s.replies)
      && (m.Sign? ==> t.workers[x].signingKeys == w.signingKeys)
      && (m.Sign? && m.epoch in w.signingKeys ==> t.replies == s.replies[m.id := suite(w.signingKeys[m.epoch], m.blank)])
      && (m.Sign? && m.epoch !in w.signingKeys ==>
            t.replies == s.replies[m.id := Rejected("no signing key for epoch " + m.epoch)])
      && t.tasks == s.tasks && t.pending == s.pending && t.idle == s.idle && t.waiting == s.waiting && t.slots == s.slots
  {
  }

  /** From `s` to `t` only worker `x` has taken turns. */
  ghost predicate OnlyTurns(s: Pool, t: Pool) {
    t.tasks == s.tasks && t.pending == s.pending && t.log == s.log && |t.workers| == |s.workers|
  }

  lemma OneTurn(n: nat, suite: Suite, s: Pool, x: SlotId, id: nat) returns (t: Pool, states: seq<Pool>, steps: seq<Step>)
    requires Inv(n, suite, s) && x < |s.workers| && s.workers[x].inbox != [] && Answerable(s, x, id)
    ensures Steps(n, suite, states, steps) && states == [s, t] && steps == [WorkerTurn(x)]
    ensures Inv(n, suite, t) && OnlyTurns(s, t) && Answerable(t, x, id) && |t.workers[x].inbox| < |s.workers[x].inbox|
  {
    t := Work(suite, s, x);
    WorkKeeps(n, suite, s, x);
    WorkAnswers(suite, s, x, x, id);
    TurnDoesItsMessage(suite, s, x);
    WorkHistory(suite, s, x);
    states, steps := OneStep(n, suite, s, WorkerTurn(x));
  }

  /** Turns of worker `x` alone, at most one for each message, that lead to a state with the reply. */
  ghost predicate Brought(n: nat, suite: Suite, s: Pool, x: SlotId, id: nat, states: seq<Pool>, steps: seq<Step>)
    requires x < |s.workers|
  {
    && Steps(n, suite, states, steps) && states[0] == s && |steps| <= |s.workers[x].inbox|
    && (forall k :: 0 <= k < |steps| ==> steps[k] == WorkerTurn(x))
    && OnlyTurns(s, states[|steps|]) && id in states[|steps|].replies && Inv(n, suite, states[|steps|])
  }

  lemma TurnFirst(n: nat, suite: Suite, s: Pool, t: Pool, x: SlotId, id: nat,
                  first: seq<Pool>, turn: seq<Step>, rest: seq<Pool>, turns: seq<Step>)
    requires x < |s.workers| && first == [s, t] && turn == [WorkerTurn(x)] && Steps(n, suite, first, turn)
    requires OnlyTurns(s, t) && |t.workers[x].inbox| < |s.workers[x].inbox| && Brought(n, suite, t, x, id, rest, turns)
    ensures Brought(n, suite, s, x, id, first + rest[1..], turn + turns)
  {
    JoinSteps(n, suite, first, turn, rest, turns);
    assert (first + rest[1..])[|turn + turns|] == rest[|turns|];
  }

  /** The worker's own turns bring the reply. */
  lemma {:induction false} TurnsBringTheReply(n: nat, suite: Suite, s: Pool, x: SlotId, id: nat)
    returns (states: seq<Pool>, steps: seq<Step>)
    requires Inv(n, suite, s) && x < |s.workers| && Answerable(s, x, id)
    ensures Brought(n, suite, s, x, id, states, steps)
    decreases |s.workers[x].inbox|
  {
    if id in s.replies {
      states, steps := [s], [];
    } else {
      var t, first, turn := OneTurn(n, suite, s, x, id);
      var rest, turns := TurnsBringTheReply(n, suite, t, x, id);
      TurnFirst(n, suite, s, t, x, id, first, turn, rest, turns);
      states, steps := first + rest[1..], turn + turns;
    }
  }

  /** The request was brought to its end, by turns of its worker, its reply and its `finally` block. */
  ghost predicate Served(n: nat, suite: Suite, s: Pool, states: seq<Pool>, steps: seq<Step>, r: RequestId, outcome: Outcome) {
    && Steps(n, suite, states, steps) && states[0] == s && r < |states[|steps|].tasks|
    && states[|steps|].tasks[r].phase.Done? && states[|steps|].tasks[r].phase.outcome == outcome
  }

  lemma ReplySettles(n: nat, suite: Suite, s: Pool, r: RequestId) returns (t: Pool)
    requires Inv(n, suite, s) && r < |s.tasks| && s.tasks[r].phase.InFlight? && s.tasks[r].phase.id in s.replies
    ensures t == Settle(s, s.tasks[r].phase.id, s.replies[s.tasks[r].phase.id])
    ensures QueueOk(t) && r < |t.tasks|
    ensures t.tasks[r].phase == Settled(s.tasks[r].phase.slot, s.tasks[r].phase.id, s.replies[s.tasks[r].phase.id])
  {
    var id := s.tasks[r].phase.id;
    SettleKeeps(suite, s, id, s.replies[id]);
    t := Settle(s, id, s.replies[id]);
  }

  lemma ReplyIsExpected(n: nat, suite: Suite, s: Pool, r: RequestId)
    requires Inv(n, suite, s) && r < |s.tasks| && s.tasks[r].phase.InFlight? && s.tasks[r].phase.id in s.replies
    ensures s.tasks[r].phase.id < |s.log|
    ensures s.replies[s.tasks[r].phase.id] ==
            SignWith(suite, s.log[s.tasks[r].phase.id].material, s.tasks[r].epoch, s.tasks[r].blank)
  {
    assert TaskLogged(suite, s, r);
  }

  lemma ReplyEndsTheRequest(n: nat, suite: Suite, s: Pool, r: RequestId) returns (states: seq<Pool>, steps: seq<Step>)
    requires Inv(n, suite, s) && r < |s.tasks| && s.tasks[r].phase.InFlight? && s.tasks[r].phase.id in s.replies
    ensures Served(n, suite, s, states, steps, r, s.replies[s.tasks[r].phase.id])
    ensures steps == [DeliverReply(s.tasks[r].phase.id), FinishTask(r)]
  {
    var t := ReplySettles(n, suite, s, r);
    FinishIsDone(t, r);
    states, steps := [s, t, Finish(t, r)], [DeliverReply(s.tasks[r].phase.id), FinishTask(r)];
  }

  lemma FinishIsDone(s: Pool, r: RequestId)
    requires QueueOk(s) && r < |s.tasks| && s.tasks[r].phase.Settled?
    ensures r < |Finish(s, r).tasks|
    ensures Finish(s, r).tasks[r].phase == Done(s.tasks[r].phase.id, s.tasks[r].phase.outcome)
  {
    var p := s.tasks[r].phase;
    if s.waiting != [] {
      assert IsQueued(s, s.waiting[0]);
    }
    ReleaseTouchesHead(SetPhase(s, r, Done(p.id, p.outcome)), p.slot, r);
  }

  /**
   From every reachable state a request that a live worker carries can be brought to its end by that
   worker alone, with the signature of its blank under the key its epoch had when it was dispatched.
   */
  lemma CarriedRequestIsAnswered(n: nat, suite: Suite, s: Pool, r: RequestId) returns (states: seq<Pool>, steps: seq<Step>)
    requires Inv(n, suite, s) && CarriedOk(s) && Carried(s, r)
    ensures s.tasks[r].phase.id < |s.log|
    ensures Served(n, suite, s, states, steps, r,
                   SignWith(suite, s.log[s.tasks[r].phase.id].material, s.tasks[r].epoch, s.tasks[r].blank))
  {
    assert TaskLogged(suite, s, r);
    var turned, turns := TurnsBringTheReply(n, suite, s, s.tasks[r].phase.slot, s.tasks[r].phase.id);
    ReplyIsExpected(n, suite, turned[|turns|], r);
    var ended, ends := ReplyEndsTheRequest(n, suite, turned[|turns|], r);
    JoinSteps(n, suite, turned, turns, ended, ends);
    states, steps := turned + ended[1..], turns + ends;
  }

  /** A request that finds an idle slot, up to its dispatch. */
  lemma IdleSlotIsTaken(n: nat, suite: Suite, s: Pool, r: RequestId) returns (states: seq<Pool>, steps: seq<Step>)
    requires Inv(n, suite, s) && CarriedOk(s) && r < |s.tasks| && s.tasks[r].phase.Called? && s.idle != []
    ensures Steps(n, suite, states, steps) && states[0] == s && steps == [AcquireSlot(r), DispatchTask(r)]
    ensures var t := states[2];
      && Inv(n, suite, t) && CarriedOk(t) && Carried(t, r)
      && t.tasks[r].epoch == s.tasks[r].epoch && t.tasks[r].blank == s.tasks[r].blank
      && t.tasks[r].phase.id < |t.log| && t.log[t.tasks[r].phase.id].material == s.loaded
  {
    var t := Acquire(s, r);
    assert s.idle[|s.idle| - 1] in s.idle;
    AcquireKeeps(n, suite, s, r);
    StepCarries(n, suite, s, AcquireSlot(r));
    TakenIsAlive(n, suite, s, r);
    var u := Dispatch(t, r);
    DispatchKeeps(n, suite, t, r);
    StepCarries(n, suite, t, DispatchTask(r));
    DispatchIsCarried(t, r);
    states, steps := [s, t, u], [AcquireSlot(r), DispatchTask(r)];
  }

  lemma TakenIsAlive(n: nat, suite: Suite, s: Pool, r: RequestId)
    requires Inv(n, suite, s) && r < |s.tasks| && s.tasks[r].phase.Called? && s.idle != []
    ensures var t := Acquire(s, r);
      && |t.tasks| == |s.tasks| && t.tasks[r] == s.tasks[r].(phase := Handed(s.idle[|s.idle| - 1]))
      && t.loaded == s.loaded && Alive(t, s.idle[|s.idle| - 1])
  {
    assert s.idle[|s.idle| - 1] in s.idle;
  }

  lemma DispatchIsCarried(s: Pool, r: RequestId)
    requires r < |s.tasks| && s.tasks[r].phase.Handed? && Alive(s, s.tasks[r].phase.slot) && s.nextId == |s.log|
    ensures var u := Dispatch(s, r);
      && Carried(u, r) && u.tasks[r].epoch == s.tasks[r].epoch && u.tasks[r].blank == s.tasks[r].blank
      && u.tasks[r].phase.id == s.nextId < |u.log| && u.log[s.nextId].material == s.loaded
  {
  }

  /**
   A call that finds an idle slot, in any reachable state, can run through to the signature of its blank
   under the key the loaded keyring has for its epoch: what inline signing returns.
   */
  lemma CallIsAnswered(n: nat, suite: Suite, material: Material,
                       states: seq<Pool>, steps: seq<Step>, i: nat, r: RequestId)
    returns (later: seq<Pool>, more: seq<Step>)
    requires Run(n, suite, material, states, steps) && i < |states|
    requires r < |states[i].tasks| && states[i].tasks[r].phase.Called? && states[i].idle != []
    ensures var s := states[i];
      Served(n, suite, s, later, more, r,
             if s.tasks[r].epoch in s.loaded then suite(s.loaded[s.tasks[r].epoch], s.tasks[r].blank)
             else Rejected("no signing key for epoch " + s.tasks[r].epoch))
  {
    RunKeeps(n, suite, material, states, steps, i);
    RunCarries(n, suite, material, states, steps, i);
    var taken, take := IdleSlotIsTaken(n, suite, states[i], r);
    var answered, answers := CarriedRequestIsAnswered(n, suite, taken[2], r);
    JoinSteps(n, suite, taken, take, answered, answers);
    later, more := taken + answered[1..], take + answers;
  }
}
