/**
 The signing pool and the worker as mutable objects. Every method is proved to perform exactly the
 step of the state machine it implements, so all that holds of every run holds of these objects.
 */
module SignerPoolObject {
  import opened Common
  import opened SignerPoolModel
  import opened SignerPoolInvariant

  /** The worker thread's own state: the keys it was spawned with, replaced by key messages. */
  class BlindSignWorker {
    var signingKeys: Material

    constructor (keys: Material)
      ensures signingKeys == keys
    {
      signingKeys := keys;
    }

    /** Handles one message: a key update replaces the keys, a sign request is answered under the
        keys of that moment. */
    method OnMessage(suite: Suite, command: Command) returns (reply: Option<Outcome>)
      modifies this
      ensures signingKeys == Drain(old(signingKeys), [command])
      ensures command.Keys? <==> reply.None?
      ensures command.Keys? ==> signingKeys == command.keys
      ensures command.Sign? ==> signingKeys == old(signingKeys)
      ensures command.Sign? ==>
                reply == Some(if command.epoch in old(signingKeys) then suite(old(signingKeys)[command.epoch], command.blank)
                              else Rejected("no signing key for epoch " + command.epoch))
    {
      assert [command][..0] == [];
      match command
      case Keys(keys) =>
        signingKeys := keys;
        reply := None;
      case Sign(_, epoch, blank) =>
        if epoch in signingKeys {
          reply := Some(suite(signingKeys[epoch], blank));
        } else {
          reply := Some(Rejected("no signing key for epoch " + epoch));
        }
    }
  }

  /** Slot `x`'s pending entries rejected, but for the ids in `left`. */
  ghost function FailExcept(s: Pool, x: SlotId, outcome: Outcome, left: set<nat>): Pool {
    s.(pending := map id | id in s.pending && (id in left || s.pending[id].slot != x) :: s.pending[id],
       tasks := seq(|s.tasks|, r requires 0 <= r < |s.tasks| =>
                  if s.tasks[r].phase.InFlight? && s.tasks[r].phase.id in left then s.tasks[r]
                  else FailTask(s, x, outcome, r)))
  }

  lemma FailNone(s: Pool, x: SlotId, outcome: Outcome)
    requires PendingOk(s)
    ensures FailExcept(s, x, outcome, s.pending.Keys) == s
  {
    assert FailExcept(s, x, outcome, s.pending.Keys).tasks == s.tasks;
    assert FailExcept(s, x, outcome, s.pending.Keys).pending == s.pending;
  }

  lemma FailAll(s: Pool, x: SlotId, outcome: Outcome)
    ensures FailExcept(s, x, outcome, {}) == FailPending(s, x, outcome)
  {
    assert FailExcept(s, x, outcome, {}).tasks == FailPending(s, x, outcome).tasks;
    assert FailExcept(s, x, outcome, {}).pending == FailPending(s, x, outcome).pending;
  }

  lemma FailOneMore(s: Pool, x: SlotId, outcome: Outcome, left: set<nat>, id: nat)
    requires PendingOk(s) && id in left && left <= s.pending.Keys
    ensures id in FailExcept(s, x, outcome, left).pending
    ensures FailExcept(s, x, outcome, left).pending[id] == s.pending[id]
    ensures FailExcept(s, x, outcome, left - {id}) ==
            if s.pending[id].slot == x then Settle(FailExcept(s, x, outcome, left), id, outcome)
            else FailExcept(s, x, outcome, left)
  {
    var f, g, p := FailExcept(s, x, outcome, left), FailExcept(s, x, outcome, left - {id}), s.pending[id];
    if p.slot == x {
      assert g.pending == f.pending - {id};
      assert g.tasks == f.tasks[p.request := f.tasks[p.request].(phase := Settled(x, id, outcome))];
    } else {
      assert g.pending == f.pending;
      assert g.tasks == f.tasks;
    }
  }

  class SignerPool {
    const signingWorkers: nat
    var workers: seq<Worker>
    var slots: seq<SlotId>
    var idle: seq<SlotId>
    var waiting: seq<RequestId>
    var pending: map<nat, Pending>
    var nextId: nat
    var started: bool
    var shuttingDown: bool
    var inlineKeys: Material
    var loaded: Material
    var tasks: seq<Task>
    ghost var replies: map<nat, Outcome>
    ghost var log: seq<Dispatched>

    /** The pool's state as the state machine sees it. */
    ghost function View(): Pool
      reads this
    {
      Pool(workers, slots, idle, waiting, pending, nextId, started, shuttingDown,
           inlineKeys, loaded, tasks, replies, log)
    }

    constructor (n: nat, material: Material)
      ensures signingWorkers == n && View() == Init(material)
    {
      signingWorkers := n;
      workers, slots, idle, waiting, pending := [], [], [], [], map[];
      nextId, started, shuttingDown := 0, false, false;
      inlineKeys, loaded, tasks := material, material, [];
      replies, log := map[], [];
    }

    /** The slots that carry a pending request. */
    ghost function PendingSlots(): set<SlotId>
      reads this
    {
      set id | id in pending :: pending[id].slot
    }

    method SetTaskPhase(r: RequestId, phase: Phase)
      modifies this`tasks
      ensures View() == SetPhase(old(View()), r, phase)
      ensures |tasks| == |old(tasks)|
      ensures forall q :: 0 <= q < |tasks| ==>
                tasks[q] == if q == r then old(tasks)[q].(phase := phase) else old(tasks)[q]
    {
      if r < |tasks| {
        tasks := tasks[r := tasks[r].(phase := phase)];
      }
    }

    /** Hands the slot to the longest-waiting request, or puts it back on the idle list. */
    method ReleaseSlot(x: SlotId)
      modifies this`tasks, this`waiting, this`idle
      ensures View() == Release(old(View()), x)
      ensures old(waiting) == [] ==> idle == old(idle) + [x] && tasks == old(tasks) && waiting == []
      ensures old(waiting) != [] ==> idle == old(idle) && waiting == old(waiting)[1..]
      ensures old(waiting) != [] && old(waiting)[0] < |old(tasks)| ==>
                tasks == old(tasks)[old(waiting)[0] := old(tasks)[old(waiting)[0]].(phase := Handed(x))]
    {
      if waiting != [] {
        var next := waiting[0];
        waiting := waiting[1..];
        SetTaskPhase(next, Handed(x));
      } else {
        idle := idle + [x];
      }
    }

    method AcquireSlotFor(r: RequestId)
      modifies this`tasks, this`waiting, this`idle
      ensures View() == Acquire(old(View()), r)
      ensures old(idle) != [] ==> idle == old(idle)[..|old(idle)| - 1] && waiting == old(waiting)
      ensures old(idle) == [] ==> idle == [] && waiting == old(waiting) + [r]
      ensures r < |old(tasks)| ==>
                tasks == old(tasks)[r := old(tasks)[r].(phase :=
                  if old(idle) != [] then Handed(old(idle)[|old(idle)| - 1]) else Queued)]
    {
      if idle != [] {
        var free := idle[|idle| - 1];
        idle := idle[..|idle| - 1];
        SetTaskPhase(r, Handed(free));
      } else {
        SetTaskPhase(r, Queued);
        waiting := waiting + [r];
      }
    }

    method SpawnWorker()
      modifies this`tasks, this`waiting, this`idle, this`workers, this`slots
      ensures View() == Spawn(old(View()))
      ensures workers == old(workers) + [Worker(true, loaded, [])] && slots == old(slots) + [|old(workers)|]
      ensures if old(waiting) == [] then idle == old(idle) + [|old(workers)|] else waiting == old(waiting)[1..]
    {
      var x := |workers|;
      workers := workers + [Worker(true, loaded, [])];
      slots := slots + [x];
      ReleaseSlot(x);
    }

    method SpawnAll()
      modifies this`tasks, this`waiting, this`idle, this`workers, this`slots
      ensures View() == SpawnMany(old(View()), signingWorkers)
    {
      for i := 0 to signingWorkers
        invariant View() == SpawnMany(old(View()), i)
      {
        SpawnWorker();
      }
    }

    /** The synchronous part of `sign`: registers the call and starts the workers on first use. */
    method BeginSign(epoch: string, blank: string) returns (r: RequestId)
      modifies this`tasks, this`waiting, this`idle, this`workers, this`slots, this`started
      ensures View() == Call(old(View()), signingWorkers, epoch, blank)
      ensures r == |old(tasks)|
    {
      r := |tasks|;
      tasks := tasks + [Task(epoch, blank, Called)];
      if !started {
        started := true;
        SpawnAll();
      }
    }

    /** Registers the pending entry, arms the timer and posts the blank to the slot's worker. */
    method DispatchSign(r: RequestId)
      requires r < |tasks| && tasks[r].phase.Handed?
      modifies this`tasks, this`nextId, this`pending, this`workers, this`log
      ensures View() == Dispatch(old(View()), r)
      ensures nextId == old(nextId) + 1
      ensures pending == old(pending)[old(nextId) := Pending(old(tasks[r].phase.slot), r)]
      ensures tasks == old(tasks)[r := old(tasks)[r].(phase := InFlight(old(tasks[r].phase.slot), old(nextId)))]
      ensures |workers| == |old(workers)|
      ensures forall x :: 0 <= x < |workers| ==>
                workers[x] ==
                if x == old(tasks[r].phase.slot) && old(workers)[x].alive
                then old(workers)[x].(inbox := old(workers)[x].inbox + [Sign(old(nextId), old(tasks[r].epoch), old(tasks[r].blank))])
                else old(workers)[x]
    {
      var x, id := tasks[r].phase.slot, nextId;
      nextId := nextId + 1;
      pending := pending[id := Pending(x, r)];
      log := log + [Dispatched(r, x, tasks[r].epoch, tasks[r].blank, loaded)];
      if x < |workers| && workers[x].alive {
        var message := Sign(id, tasks[r].epoch, tasks[r].blank);
        workers := workers[x := workers[x].(inbox := workers[x].inbox + [message])];
      }
      SetTaskPhase(r, InFlight(x, id));
    }

    /** A reply arrives; one whose id is no longer pending is ignored. */
    method SettleReply(id: nat, outcome: Outcome)
      modifies this`tasks, this`pending
      ensures View() == Settle(old(View()), id, outcome)
      ensures id !in old(pending) ==> pending == old(pending) && tasks == old(tasks)
      ensures id in old(pending) ==> pending == old(pending) - {id}
      ensures id in old(pending) && old(pending)[id].request < |old(tasks)| ==>
                tasks == old(tasks)[old(pending)[id].request :=
                  old(tasks)[old(pending)[id].request].(phase := Settled(old(pending)[id].slot, id, outcome))]
    {
      if id in pending {
        var p := pending[id];
        pending := pending - {id};
        SetTaskPhase(p.request, Settled(p.slot, id, outcome));
      }
    }

    /** Rejects every pending entry of slot `x`, walking the pending entries in any order. */
    method RejectPending(x: SlotId, outcome: Outcome)
      requires PendingOk(View())
      modifies this`tasks, this`pending
      ensures View() == FailPending(old(View()), x, outcome)
      ensures forall id :: id in pending <==> id in old(pending) && old(pending)[id].slot != x
      ensures |tasks| == |old(tasks)|
      ensures forall id :: id in old(pending) && old(pending)[id].slot == x ==>
                tasks[old(pending)[id].request].phase == Settled(x, id, outcome)
      ensures forall r :: 0 <= r < |tasks| && !(old(tasks)[r].phase.InFlight? && old(tasks)[r].phase.slot == x) ==>
                tasks[r] == old(tasks)[r]
    {
      ghost var before := View();
      var ids := pending.Keys;
      FailNone(before, x, outcome);
      while ids != {}
        invariant ids <= before.pending.Keys
        invariant View() == FailExcept(before, x, outcome, ids)
        decreases ids
      {
        var id :| id in ids;
        FailOneMore(before, x, outcome, ids, id);
        ids := ids - {id};
        if pending[id].slot == x {
          SettleReply(id, outcome);
        }
      }
      FailAll(before, x, outcome);
    }

    /** Takes a live slot out of the pool, rejects its pending requests and, outside shutdown, spawns a successor. */
    method RetireSlot(x: SlotId, why: string)
      requires PendingOk(View())
      modifies this
      ensures View() == Retire(old(View()), x, why)
      ensures !(x < |old(workers)| && old(workers)[x].alive) ==> View() == old(View())
      ensures x < |old(workers)| && old(workers)[x].alive ==>
                && |workers| == |old(workers)| + (if old(shuttingDown) then 0 else 1)
                && !workers[x].alive && x !in PendingSlots()
                && (forall y :: 0 <= y < |old(workers)| && y != x ==> workers[y] == old(workers)[y])
    {
      if !(x < |workers| && workers[x].alive) {
        return;
      }
      workers := workers[x := workers[x].(alive := false)];
      slots := Without(slots, x);
      idle := Without(idle, x);
      RejectPending(x, Rejected("signing worker " + why));
      if shuttingDown {
        return;
      }
      SpawnWorker();
    }

    /** The request's timer fires: it is rejected and its worker is no longer trusted. */
    method OnTimeout(r: RequestId)
      requires PendingOk(View()) && TimerArmed(View(), r)
      modifies this
      ensures View() == Timeout(old(View()), r)
    {
      var x, id := tasks[r].phase.slot, tasks[r].phase.id;
      SettleReply(id, Rejected("blind signing timed out"));
      RetireSlot(x, "timed out");
    }

    /** The `finally` block of `sign`: clears the timer and gives a live slot back. */
    method FinishSign(r: RequestId) returns (outcome: Outcome)
      requires r < |tasks| && tasks[r].phase.Settled?
      modifies this`tasks, this`waiting, this`idle
      ensures View() == Finish(old(View()), r)
      ensures outcome == old(tasks[r].phase.outcome)
    {
      var p := tasks[r].phase;
      outcome := p.outcome;
      SetTaskPhase(r, Done(p.id, p.outcome));
      if p.slot < |workers| && workers[p.slot].alive {
        ReleaseSlot(p.slot);
      }
    }

    /** Takes over new key material: inline keys are replaced, live workers are told in place. */
    method Adopt(material: Material)
      modifies this`inlineKeys, this`workers
      ensures View() == AdoptKeys(old(View()), material)
      ensures inlineKeys == material && |workers| == |old(workers)|
      ensures NoDuplicates(slots) ==> forall x :: 0 <= x < |workers| ==>
                workers[x] ==
                if x in slots && old(workers)[x].alive then old(workers)[x].(inbox := old(workers)[x].inbox + [Keys(material)])
                else old(workers)[x]
    {
      inlineKeys := material;
      ghost var before := workers;
      for i := 0 to |slots|
        invariant inlineKeys == material
        invariant workers == PostAll(before, slots[..i], Keys(material)) && |workers| == |before|
      {
        var x := slots[i];
        if x < |workers| && workers[x].alive {
          workers := workers[x := workers[x].(inbox := workers[x].inbox + [Keys(material)])];
        }
        assert slots[..i + 1][..i] == slots[..i];
      }
      assert slots[..|slots|] == slots;
      if NoDuplicates(slots) {
        PostAllAt(before, slots, Keys(material));
      }
    }

    /** Signing on the caller's thread, with no worker involved. */
    method InlineSign(suite: Suite, epoch: string, blank: string) returns (outcome: Outcome)
      ensures outcome == SignInline(suite, View(), epoch, blank)
      ensures outcome == if epoch in inlineKeys then suite(inlineKeys[epoch], blank)
                         else Rejected("no signing key for epoch " + epoch)
    {
      if epoch in inlineKeys {
        outcome := suite(inlineKeys[epoch], blank);
      } else {
        outcome := Rejected("no signing key for epoch " + epoch);
      }
    }
  }
}
