/** The invariant of the signing pool, and the proof that every step keeps it. */
module SignerPoolInvariant {
  import opened Common
  import opened SignerPoolModel

  /** Request `r` has slot `x` in hand: handed over, in flight on it, or settled and not yet released. */
  predicate Holds(s: Pool, r: RequestId, x: SlotId) {
    && r < |s.tasks|
    && match s.tasks[r].phase
       case Handed(y) => y == x
       case InFlight(y, _) => y == x
       case Settled(y, _, _) => y == x
       case _ => false
  }

  ghost predicate SlotsOk(s: Pool) {
    && NoDuplicates(s.slots)
    && NoDuplicates(s.idle)
    && (forall x: SlotId :: x in s.slots <==> Alive(s, x))
    && (forall x :: x in s.idle ==> x in s.slots)
  }

  /** Every live slot outside `loose` is idle or held by one request; `loose` slots are neither. */
  ghost predicate HoldersOk(s: Pool, loose: set<SlotId>) {
    && (forall r: RequestId, x: SlotId :: Holds(s, r, x) ==> x < |s.workers| && x !in s.idle && x !in loose)
    && (forall q: RequestId, r: RequestId, x: SlotId :: Holds(s, q, x) && Holds(s, r, x) ==> q == r)
    && (forall x :: x in loose ==> x in s.slots && x !in s.idle)
    && (forall x: SlotId :: x in s.slots && x !in s.idle && x !in loose ==> exists r: RequestId :: Holds(s, r, x))
  }

  predicate IsQueued(s: Pool, r: RequestId) {
    r < |s.tasks| && s.tasks[r].phase.Queued?
  }

  ghost predicate QueueOk(s: Pool) {
    && NoDuplicates(s.waiting)
    && (forall r: RequestId :: r in s.waiting <==> IsQueued(s, r))
    && (s.waiting != [] ==> s.idle == [])
  }

  ghost predicate PendingOk(s: Pool) {
    && (forall id :: id in s.pending ==>
          s.pending[id].request < |s.tasks| &&
          s.tasks[s.pending[id].request].phase == InFlight(s.pending[id].slot, id))
    && (forall r :: 0 <= r < |s.tasks| && s.tasks[r].phase.InFlight? ==>
          s.tasks[r].phase.id in s.pending &&
          s.pending[s.tasks[r].phase.id] == Pending(s.tasks[r].phase.slot, r))
  }

  /** The dispatch log's entry `id` is request `r`'s own. */
  predicate Logged(s: Pool, r: RequestId, id: nat) {
    r < |s.tasks| && id < |s.log| && s.log[id].request == r &&
    s.log[id].epoch == s.tasks[r].epoch && s.log[id].blank == s.tasks[r].blank
  }

  /** What the material loaded at dispatch `d` makes of the dispatched blank. */
  function Expected(suite: Suite, d: Dispatched): Outcome {
    SignWith(suite, d.material, d.epoch, d.blank)
  }

  ghost predicate TaskLogged(suite: Suite, s: Pool, r: RequestId)
    requires r < |s.tasks|
  {
    match s.tasks[r].phase
    case InFlight(x, id) => Logged(s, r, id) && s.log[id].slot == x
    case Settled(x, id, o) =>
      Logged(s, r, id) && s.log[id].slot == x && (o.Signed? ==> o == Expected(suite, s.log[id]))
    case Done(id, o) => Logged(s, r, id) && (o.Signed? ==> o == Expected(suite, s.log[id]))
    case _ => true
  }

  ghost predicate LogOk(suite: Suite, s: Pool) {
    && s.nextId == |s.log|
    && (forall r :: 0 <= r < |s.tasks| ==> TaskLogged(suite, s, r))
    && (forall id :: id in s.replies ==> id < |s.log| && s.replies[id] == Expected(suite, s.log[id]))
  }

  /** Message `j`, if it is a sign message, will meet exactly the keys loaded when it was dispatched. */
  ghost predicate MessageOk(log: seq<Dispatched>, x: SlotId, keys: Material, inbox: seq<Command>, j: nat)
    requires j < |inbox|
  {
    match inbox[j]
    case Keys(_) => true
    case Sign(id, epoch, blank) =>
      && id < |log|
      && log[id].slot == x && log[id].epoch == epoch && log[id].blank == blank
      && Drain(keys, inbox[..j]) == log[id].material
  }

  ghost predicate InboxOk(log: seq<Dispatched>, x: SlotId, keys: Material, inbox: seq<Command>) {
    forall j {:trigger MessageOk(log, x, keys, inbox, j)} :: 0 <= j < |inbox| ==> MessageOk(log, x, keys, inbox, j)
  }

  ghost predicate KeysOk(s: Pool) {
    && s.inlineKeys == s.loaded
    && (forall x :: 0 <= x < |s.workers| ==> InboxOk(s.log, x, s.workers[x].signingKeys, s.workers[x].inbox))
    && (forall x :: 0 <= x < |s.workers| && s.workers[x].alive ==>
          Drain(s.workers[x].signingKeys, s.workers[x].inbox) == s.loaded)
  }

  /** Who has which slot, and who waits. */
  ghost predicate SharesOk(s: Pool, loose: set<SlotId>) {
    SlotsOk(s) && HoldersOk(s, loose) && QueueOk(s)
  }

  ghost predicate Sound(suite: Suite, s: Pool, loose: set<SlotId>) {
    SharesOk(s, loose) && PendingOk(s) && LogOk(suite, s) && KeysOk(s)
  }

  predicate SizeOk(n: nat, s: Pool) {
    && (!s.started ==> s.slots == [] && s.tasks == [] && s.waiting == [])
    && (s.started && !s.shuttingDown ==> |s.slots| == n)
  }

  ghost predicate Inv(n: nat, suite: Suite, s: Pool) {
    Sound(suite, s, {}) && SizeOk(n, s)
  }

  // ----- building blocks -----

  lemma InitKeeps(n: nat, suite: Suite, material: Material)
    ensures Inv(n, suite, Init(material))
  {
  }

  /** Tasks keep their log entries when they are untouched or move to a phase that names none. */
  lemma LogFrame(suite: Suite, s: Pool, t: Pool)
    requires LogOk(suite, s)
    requires t.log == s.log && t.nextId == s.nextId && t.replies == s.replies && |t.tasks| == |s.tasks|
    requires forall r :: 0 <= r < |s.tasks| ==>
               t.tasks[r] == s.tasks[r] ||
               (t.tasks[r].(phase := s.tasks[r].phase) == s.tasks[r] &&
                (t.tasks[r].phase.Handed? || t.tasks[r].phase.Queued?))
    ensures LogOk(suite, t)
  {
    forall r | 0 <= r < |t.tasks| ensures TaskLogged(suite, t, r) {
      assert TaskLogged(suite, s, r);
    }
  }

  /** Slots, idle list, waiters and holders all as before. */
  lemma SharesFrame(s: Pool, t: Pool, loose: set<SlotId>)
    requires SharesOk(s, loose)
    requires t.slots == s.slots && t.idle == s.idle && t.waiting == s.waiting && |t.workers| == |s.workers|
    requires forall x: SlotId :: Alive(t, x) <==> Alive(s, x)
    requires forall r: RequestId, x: SlotId :: Holds(t, r, x) <==> Holds(s, r, x)
    requires forall r: RequestId :: IsQueued(t, r) <==> IsQueued(s, r)
    ensures SharesOk(t, loose)
  {
  }

  lemma ReleaseToWaiter(s: Pool, x: SlotId)
    requires SharesOk(s, {x}) && s.waiting != []
    ensures SharesOk(Release(s, x), {})
  {
    var t, w := Release(s, x), s.waiting[0];
    assert x in s.slots;
    assert w in s.waiting;
    assert IsQueued(s, w);
    assert forall r: RequestId :: r in t.waiting <==> r in s.waiting && r != w;
    assert forall r: RequestId :: r != w ==> (IsQueued(t, r) <==> IsQueued(s, r));
    assert forall r: RequestId, y: SlotId :: r != w ==> (Holds(t, r, y) <==> Holds(s, r, y));
    assert forall y: SlotId :: Holds(t, w, y) <==> y == x;
    assert forall y: SlotId :: Alive(t, y) <==> Alive(s, y);
    forall y: SlotId | y in t.slots && y !in t.idle ensures exists r: RequestId :: Holds(t, r, y) {
      if y == x {
        assert Holds(t, w, y);
      } else {
        var r: RequestId :| Holds(s, r, y);
        assert Holds(t, r, y);
      }
    }
  }

  lemma ReleaseToIdle(s: Pool, x: SlotId)
    requires SharesOk(s, {x}) && s.waiting == []
    ensures SharesOk(Release(s, x), {})
  {
    var t := Release(s, x);
    assert x in s.slots;
    assert forall y: SlotId :: y in t.idle <==> y in s.idle || y == x;
    assert forall r: RequestId, y: SlotId :: Holds(t, r, y) <==> Holds(s, r, y);
    assert forall r: RequestId :: IsQueued(t, r) <==> IsQueued(s, r);
    assert forall y: SlotId :: Alive(t, y) <==> Alive(s, y);
  }

  /** Offering a loose slot leaves no loose slot: it goes to the first waiter, or becomes idle. */
  lemma ReleaseKeeps(suite: Suite, s: Pool, x: SlotId)
    requires Sound(suite, s, {x})
    ensures Sound(suite, Release(s, x), {})
  {
    if s.waiting != [] {
      assert s.waiting[0] in s.waiting;
      ReleaseToWaiter(s, x);
    } else {
      ReleaseToIdle(s, x);
    }
    LogFrame(suite, s, Release(s, x));
  }

  lemma AddWorkerKeeps(suite: Suite, s: Pool)
    requires Sound(suite, s, {})
    ensures Sound(suite, AddWorker(s), {|s.workers|})
  {
    var t, x := AddWorker(s), |s.workers|;
    assert forall y: SlotId :: y in s.slots ==> Alive(s, y);
    assert x !in s.slots;
    assert forall r: RequestId, y: SlotId :: Holds(t, r, y) <==> Holds(s, r, y);
    assert forall y: SlotId :: y in t.slots <==> y in s.slots || y == x;
    LogFrame(suite, s, t);
  }

  lemma SpawnKeeps(suite: Suite, s: Pool)
    requires Sound(suite, s, {})
    ensures Sound(suite, Spawn(s), {})
    ensures |Spawn(s).slots| == |s.slots| + 1
  {
    AddWorkerKeeps(suite, s);
    ReleaseKeeps(suite, AddWorker(s), |s.workers|);
  }

  lemma {:induction false} SpawnManyKeeps(suite: Suite, s: Pool, n: nat)
    requires Sound(suite, s, {}) && s.slots == [] && s.started
    ensures Sound(suite, SpawnMany(s, n), {})
    ensures |SpawnMany(s, n).slots| == n
    ensures SpawnMany(s, n).started && SpawnMany(s, n).shuttingDown == s.shuttingDown
  {
    if n == 0 {
    } else {
      SpawnManyKeeps(suite, s, n - 1);
      SpawnKeeps(suite, SpawnMany(s, n - 1));
    }
  }

  lemma SettleKeeps(suite: Suite, s: Pool, id: nat, outcome: Outcome)
    requires Sound(suite, s, {})
    requires id in s.pending && outcome.Signed? ==> id < |s.log| && outcome == Expected(suite, s.log[id])
    ensures Sound(suite, Settle(s, id, outcome), {})
  {
    if id in s.pending {
      var t, p := Settle(s, id, outcome), s.pending[id];
      assert forall r: RequestId, y: SlotId :: Holds(t, r, y) <==> Holds(s, r, y);
      assert forall r: RequestId :: IsQueued(t, r) <==> IsQueued(s, r);
      forall r | 0 <= r < |t.tasks| ensures TaskLogged(suite, t, r) {
        assert TaskLogged(suite, s, r);
      }
    }
  }

  lemma DropShares(s: Pool, x: SlotId)
    requires SharesOk(s, {}) && Alive(s, x)
    ensures SharesOk(Drop(s, x), {})
  {
    var t := Drop(s, x);
    WithoutNoDuplicates(s.slots, x);
    WithoutNoDuplicates(s.idle, x);
    assert forall y: SlotId :: y in t.slots <==> y in s.slots && y != x;
    assert forall y: SlotId :: y in t.idle <==> y in s.idle && y != x;
    assert forall y: SlotId :: Alive(t, y) <==> Alive(s, y) && y != x;
    assert forall r: RequestId, y: SlotId :: Holds(t, r, y) <==> Holds(s, r, y);
    assert forall r: RequestId :: IsQueued(t, r) <==> IsQueued(s, r);
  }

  lemma FailPendingKeeps(suite: Suite, s: Pool, x: SlotId, why: string)
    requires Sound(suite, s, {})
    ensures Sound(suite, FailPending(s, x, Rejected(why)), {})
  {
    var t := FailPending(s, x, Rejected(why));
    assert SharesOk(t, {}) by {
      SharesFrame(s, t, {});
    }
    forall r | 0 <= r < |t.tasks| ensures TaskLogged(suite, t, r) {
      assert TaskLogged(suite, s, r);
    }
  }

  /** Dropping a slot and failing what it carried keeps everything but the pool's size. */
  lemma DropKeeps(suite: Suite, s: Pool, x: SlotId, why: string)
    requires Sound(suite, s, {}) && Alive(s, x)
    ensures Sound(suite, FailPending(Drop(s, x), x, Rejected(why)), {})
  {
    DropShares(s, x);
    LogFrame(suite, s, Drop(s, x));
    FailPendingKeeps(suite, Drop(s, x), x, why);
  }

  lemma RetireKeeps(suite: Suite, s: Pool, x: SlotId, why: string)
    requires Sound(suite, s, {})
    ensures Sound(suite, Retire(s, x, why), {})
    ensures !s.shuttingDown ==> |Retire(s, x, why).slots| == |s.slots|
    ensures Retire(s, x, why).started == s.started && Retire(s, x, why).shuttingDown == s.shuttingDown
  {
    if Alive(s, x) {
      DropKeeps(suite, s, x, "signing worker " + why);
      assert x in s.slots;
      if !s.shuttingDown {
        SpawnKeeps(suite, FailPending(Drop(s, x), x, Rejected("signing worker " + why)));
      }
    }
  }

  // ----- messages between the pool and its workers -----

  lemma {:induction false} DrainHead(keys: Material, inbox: seq<Command>)
    requires inbox != []
    ensures Drain(keys, inbox) == Drain(if inbox[0].Keys? then inbox[0].keys else keys, inbox[1..])
  {
    if |inbox| == 1 {
    } else {
      assert inbox[..|inbox| - 1][1..] == inbox[1..][..|inbox| - 2];
      DrainHead(keys, inbox[..|inbox| - 1]);
    }
  }

  /** Handling the oldest message keeps the promise made to every later one. */
  lemma InboxAfterTurn(log: seq<Dispatched>, x: SlotId, keys: Material, inbox: seq<Command>)
    requires InboxOk(log, x, keys, inbox) && inbox != []
    ensures InboxOk(log, x, if inbox[0].Keys? then inbox[0].keys else keys, inbox[1..])
  {
    var next := if inbox[0].Keys? then inbox[0].keys else keys;
    forall j: nat | j < |inbox| - 1 ensures MessageOk(log, x, next, inbox[1..], j) {
      assert MessageOk(log, x, keys, inbox, j + 1);
      DrainHead(keys, inbox[..j + 1]);
      assert inbox[..j + 1][1..] == inbox[1..][..j];
    }
  }

  /** Appending a key update, or a sign message that the current keys answer, keeps the inbox in order. */
  lemma InboxAfterPost(log: seq<Dispatched>, x: SlotId, keys: Material, inbox: seq<Command>, c: Command)
    requires InboxOk(log, x, keys, inbox)
    requires c.Sign? ==>
               && c.id < |log| && log[c.id].slot == x
               && log[c.id].epoch == c.epoch && log[c.id].blank == c.blank
               && Drain(keys, inbox) == log[c.id].material
    ensures InboxOk(log, x, keys, inbox + [c])
    ensures Drain(keys, inbox + [c]) == if c.Keys? then c.keys else Drain(keys, inbox)
  {
    var more := inbox + [c];
    assert more[..|inbox|] == inbox;
    forall j: nat | j < |more| ensures MessageOk(log, x, keys, more, j) {
      if j < |inbox| {
        assert MessageOk(log, x, keys, inbox, j);
        assert more[..j] == inbox[..j];
      }
    }
  }

  lemma InboxLogGrows(log: seq<Dispatched>, d: Dispatched, x: SlotId, keys: Material, inbox: seq<Command>)
    requires InboxOk(log, x, keys, inbox)
    ensures InboxOk(log + [d], x, keys, inbox)
  {
    forall j: nat | j < |inbox| ensures MessageOk(log + [d], x, keys, inbox, j) {
      assert MessageOk(log, x, keys, inbox, j);
    }
  }

  /** Posting to all slots reaches exactly the live workers listed, once each. */
  lemma {:induction false} PostAllAt(workers: seq<Worker>, slots: seq<SlotId>, c: Command)
    requires NoDuplicates(slots)
    ensures |PostAll(workers, slots, c)| == |workers|
    ensures forall x :: 0 <= x < |workers| ==>
              PostAll(workers, slots, c)[x] ==
              if x in slots && workers[x].alive then workers[x].(inbox := workers[x].inbox + [c])
              else workers[x]
  {
    if slots == [] {
    } else {
      var init, last := slots[..|slots| - 1], slots[|slots| - 1];
      PostAllAt(workers, init, c);
      assert last !in init;
      assert forall x :: x in slots <==> x in init || x == last;
    }
  }

  // ----- the steps -----

  lemma CallKeeps(n: nat, suite: Suite, s: Pool, epoch: string, blank: string)
    requires Inv(n, suite, s)
    ensures Inv(n, suite, Call(s, n, epoch, blank))
  {
    var t := s.(tasks := s.tasks + [Task(epoch, blank, Called)]);
    assert forall r: RequestId, y: SlotId :: Holds(t, r, y) <==> Holds(s, r, y);
    assert forall r: RequestId :: IsQueued(t, r) <==> IsQueued(s, r);
    forall r | 0 <= r < |t.tasks| ensures TaskLogged(suite, t, r) {
      if r < |s.tasks| {
        assert TaskLogged(suite, s, r);
      }
    }
    assert Sound(suite, t, {});
    if !s.started {
      var u := t.(started := true);
      assert forall r: RequestId, y: SlotId :: Holds(u, r, y) <==> Holds(t, r, y);
      assert forall r: RequestId :: IsQueued(u, r) <==> IsQueued(t, r);
      assert forall x: SlotId :: Alive(u, x) <==> Alive(t, x);
      LogFrame(suite, t, u);
      SpawnManyKeeps(suite, u, n);
    }
  }

  lemma AcquireIdle(s: Pool, r: RequestId)
    requires SharesOk(s, {}) && r < |s.tasks| && s.tasks[r].phase.Called? && s.idle != []
    ensures SharesOk(Acquire(s, r), {})
  {
    var t, x := Acquire(s, r), s.idle[|s.idle| - 1];
    assert x in s.idle && x !in t.idle;
    assert forall y: SlotId :: y in s.idle <==> y in t.idle || y == x;
    assert forall q: RequestId :: IsQueued(t, q) <==> IsQueued(s, q);
    assert forall q: RequestId, y: SlotId :: q != r ==> (Holds(t, q, y) <==> Holds(s, q, y));
    assert forall y: SlotId :: Holds(t, r, y) <==> y == x;
    assert forall y: SlotId :: Alive(t, y) <==> Alive(s, y);
    forall y: SlotId | y in t.slots && y !in t.idle ensures exists q: RequestId :: Holds(t, q, y) {
      if y == x {
        assert Holds(t, r, y);
      } else {
        var q: RequestId :| Holds(s, q, y);
        assert Holds(t, q, y);
      }
    }
  }

  lemma AcquireQueue(s: Pool, r: RequestId)
    requires SharesOk(s, {}) && r < |s.tasks| && s.tasks[r].phase.Called? && s.idle == []
    ensures SharesOk(Acquire(s, r), {})
  {
    var t := Acquire(s, r);
    assert !IsQueued(s, r);
    assert forall q: RequestId :: q in t.waiting <==> q in s.waiting || q == r;
    assert forall q: RequestId :: q != r ==> (IsQueued(t, q) <==> IsQueued(s, q));
    assert forall q: RequestId, y: SlotId :: Holds(t, q, y) <==> Holds(s, q, y);
    assert forall y: SlotId :: Alive(t, y) <==> Alive(s, y);
  }

  lemma AcquireKeeps(n: nat, suite: Suite, s: Pool, r: RequestId)
    requires Inv(n, suite, s) && r < |s.tasks| && s.tasks[r].phase.Called?
    ensures Inv(n, suite, Acquire(s, r))
  {
    if s.idle != [] {
      AcquireIdle(s, r);
    } else {
      AcquireQueue(s, r);
    }
    LogFrame(suite, s, Acquire(s, r));
  }

  lemma DispatchKeys(s: Pool, r: RequestId)
    requires KeysOk(s) && s.nextId == |s.log|
    requires r < |s.tasks| && s.tasks[r].phase.Handed? && s.tasks[r].phase.slot < |s.workers|
    ensures KeysOk(Dispatch(s, r))
  {
    var t, x := Dispatch(s, r), s.tasks[r].phase.slot;
    var d := t.log[s.nextId];
    forall y | 0 <= y < |t.workers|
      ensures InboxOk(t.log, y, t.workers[y].signingKeys, t.workers[y].inbox)
      ensures t.workers[y].alive ==> Drain(t.workers[y].signingKeys, t.workers[y].inbox) == s.loaded
    {
      var w := s.workers[y];
      InboxLogGrows(s.log, d, y, w.signingKeys, w.inbox);
      if y == x && w.alive {
        InboxAfterPost(t.log, x, w.signingKeys, w.inbox, Sign(s.nextId, d.epoch, d.blank));
      }
    }
  }

  lemma DispatchPending(suite: Suite, s: Pool, r: RequestId)
    requires PendingOk(s) && LogOk(suite, s)
    requires r < |s.tasks| && s.tasks[r].phase.Handed?
    ensures PendingOk(Dispatch(s, r)) && LogOk(suite, Dispatch(s, r))
  {
    var t := Dispatch(s, r);
    forall id | id in s.pending ensures id < s.nextId {
      assert TaskLogged(suite, s, s.pending[id].request);
    }
    forall q | 0 <= q < |t.tasks| ensures TaskLogged(suite, t, q) {
      assert TaskLogged(suite, s, q);
    }
  }

  lemma DispatchKeeps(n: nat, suite: Suite, s: Pool, r: RequestId)
    requires Inv(n, suite, s) && r < |s.tasks| && s.tasks[r].phase.Handed?
    ensures Inv(n, suite, Dispatch(s, r))
  {
    assert Holds(s, r, s.tasks[r].phase.slot);
    DispatchKeys(s, r);
    DispatchPending(suite, s, r);
    SharesFrame(s, Dispatch(s, r), {});
  }

  lemma WorkKeys(suite: Suite, s: Pool, x: SlotId)
    requires KeysOk(s) && x < |s.workers| && s.workers[x].inbox != []
    ensures KeysOk(Work(suite, s, x))
  {
    var t, w := Work(suite, s, x), s.workers[x];
    InboxAfterTurn(s.log, x, w.signingKeys, w.inbox);
    DrainHead(w.signingKeys, w.inbox);
    assert forall y :: 0 <= y < |t.workers| && y != x ==> t.workers[y] == s.workers[y];
  }

  /** The reply a worker computes is what the material loaded at dispatch makes of the blank. */
  lemma HeadReply(suite: Suite, log: seq<Dispatched>, x: SlotId, keys: Material, inbox: seq<Command>)
    requires InboxOk(log, x, keys, inbox) && inbox != [] && inbox[0].Sign?
    ensures inbox[0].id < |log|
    ensures SignWith(suite, keys, inbox[0].epoch, inbox[0].blank) == Expected(suite, log[inbox[0].id])
  {
    assert MessageOk(log, x, keys, inbox, 0);
    assert inbox[..0] == [];
  }

  lemma WorkLog(suite: Suite, s: Pool, x: SlotId)
    requires LogOk(suite, s) && x < |s.workers| && s.workers[x].inbox != []
    requires s.workers[x].inbox[0].Sign? ==>
               && s.workers[x].inbox[0].id < |s.log|
               && SignWith(suite, s.workers[x].signingKeys, s.workers[x].inbox[0].epoch, s.workers[x].inbox[0].blank)
                  == Expected(suite, s.log[s.workers[x].inbox[0].id])
    ensures LogOk(suite, Work(suite, s, x))
  {
    var t := Work(suite, s, x);
    assert t.tasks == s.tasks && t.log == s.log && t.nextId == s.nextId;
    forall q | 0 <= q < |t.tasks| ensures TaskLogged(suite, t, q) {
      assert TaskLogged(suite, s, q);
    }
  }

  lemma WorkShares(suite: Suite, s: Pool, x: SlotId)
    requires SharesOk(s, {}) && x < |s.workers| && s.workers[x].inbox != []
    ensures SharesOk(Work(suite, s, x), {})
  {
    WorkFrame(suite, s, x);
    SharesFrame(s, Work(suite, s, x), {});
  }

  lemma WorkFrame(suite: Suite, s: Pool, x: SlotId)
    requires x < |s.workers| && s.workers[x].inbox != []
    ensures var t := Work(suite, s, x);
      && t.slots == s.slots && t.idle == s.idle && t.waiting == s.waiting && t.tasks == s.tasks
      && |t.workers| == |s.workers|
      && forall y: SlotId :: Alive(t, y) <==> Alive(s, y)
  {
  }

  lemma WorkKeeps(n: nat, suite: Suite, s: Pool, x: SlotId)
    requires Inv(n, suite, s) && x < |s.workers| && s.workers[x].inbox != []
    ensures Inv(n, suite, Work(suite, s, x))
  {
    var w := s.workers[x];
    WorkKeys(suite, s, x);
    WorkShares(suite, s, x);
    if w.inbox[0].Sign? {
      HeadReply(suite, s.log, x, w.signingKeys, w.inbox);
    }
    WorkLog(suite, s, x);
  }

  lemma TimeoutKeeps(n: nat, suite: Suite, s: Pool, r: RequestId)
    requires Inv(n, suite, s) && TimerArmed(s, r)
    ensures Inv(n, suite, Timeout(s, r))
  {
    var o := Rejected("blind signing timed out");
    SettleKeeps(suite, s, s.tasks[r].phase.id, o);
    RetireKeeps(suite, Settle(s, s.tasks[r].phase.id, o), s.tasks[r].phase.slot, "timed out");
  }

  lemma FinishKeeps(n: nat, suite: Suite, s: Pool, r: RequestId)
    requires Inv(n, suite, s) && r < |s.tasks| && s.tasks[r].phase.Settled?
    ensures Inv(n, suite, Finish(s, r))
  {
    var p := s.tasks[r].phase;
    var t := SetPhase(s, r, Done(p.id, p.outcome));
    assert Holds(s, r, p.slot);
    assert forall q: RequestId, y: SlotId :: Holds(t, q, y) <==> q != r && Holds(s, q, y);
    assert forall q: RequestId :: IsQueued(t, q) <==> IsQueued(s, q);
    assert forall y: SlotId :: Alive(t, y) <==> Alive(s, y);
    forall q | 0 <= q < |t.tasks| ensures TaskLogged(suite, t, q) {
      assert TaskLogged(suite, s, q);
    }
    forall y: SlotId | y in t.slots && y !in t.idle && y != p.slot
      ensures exists q: RequestId :: Holds(t, q, y)
    {
      var q: RequestId :| Holds(s, q, y);
      assert Holds(t, q, y);
    }
    if Alive(s, p.slot) {
      assert Sound(suite, t, {p.slot});
      ReleaseKeeps(suite, t, p.slot);
    } else {
      assert p.slot !in t.slots;
      assert Sound(suite, t, {});
    }
  }

  lemma ReloadKeeps(n: nat, suite: Suite, s: Pool, material: Material)
    requires Inv(n, suite, s)
    ensures Inv(n, suite, AdoptKeys(s.(loaded := material), material))
  {
    var t := AdoptKeys(s.(loaded := material), material);
    PostAllAt(s.workers, s.slots, Keys(material));
    assert forall q: RequestId, y: SlotId :: Holds(t, q, y) <==> Holds(s, q, y);
    assert forall q: RequestId :: IsQueued(t, q) <==> IsQueued(s, q);
    assert forall y: SlotId :: Alive(t, y) <==> Alive(s, y);
    LogFrame(suite, s, t);
    forall y: SlotId | y < |t.workers|
      ensures InboxOk(t.log, y, t.workers[y].signingKeys, t.workers[y].inbox)
      ensures t.workers[y].alive ==> Drain(t.workers[y].signingKeys, t.workers[y].inbox) == material
    {
      assert y in s.slots <==> Alive(s, y);
      assert InboxOk(s.log, y, s.workers[y].signingKeys, s.workers[y].inbox);
      if s.workers[y].alive {
        InboxAfterPost(s.log, y, s.workers[y].signingKeys, s.workers[y].inbox, Keys(material));
      }
    }
  }

  lemma ShutdownKeeps(n: nat, suite: Suite, s: Pool)
    requires Inv(n, suite, s)
    ensures Inv(n, suite, s.(shuttingDown := true))
  {
    var t := s.(shuttingDown := true);
    assert forall q: RequestId, y: SlotId :: Holds(t, q, y) <==> Holds(s, q, y);
    assert forall q: RequestId :: IsQueued(t, q) <==> IsQueued(s, q);
    assert forall y: SlotId :: Alive(t, y) <==> Alive(s, y);
    LogFrame(suite, s, t);
  }

  /** Every step keeps the invariant. */
  lemma StepKeeps(n: nat, suite: Suite, s: Pool, step: Step)
    requires Inv(n, suite, s) && Enabled(s, step)
    ensures Inv(n, suite, Apply(n, suite, s, step))
  {
    match step
    case CallSign(epoch, blank) => CallKeeps(n, suite, s, epoch, blank);
    case AcquireSlot(r) => AcquireKeeps(n, suite, s, r);
    case DispatchTask(r) => DispatchKeeps(n, suite, s, r);
    case WorkerTurn(x) => WorkKeeps(n, suite, s, x);
    case DeliverReply(id) => SettleKeeps(suite, s, id, s.replies[id]);
    case TimerFires(r) => TimeoutKeeps(n, suite, s, r);
    case FinishTask(r) => FinishKeeps(n, suite, s, r);
    case WorkerDies(x, why) => RetireKeeps(suite, s, x, why);
    case KeyringReloaded(material) => ReloadKeeps(n, suite, s, material);
    case BeginShutdown => ShutdownKeeps(n, suite, s);
  }

  /** Every state of every run satisfies the invariant. */
  lemma {:induction false} RunKeeps(n: nat, suite: Suite, material: Material,
                                    states: seq<Pool>, steps: seq<Step>, i: nat)
    requires Run(n, suite, material, states, steps) && i < |states|
    ensures Inv(n, suite, states[i])
  {
    if i == 0 {
      InitKeeps(n, suite, material);
    } else {
      RunKeeps(n, suite, material, states, steps, i - 1);
      StepKeeps(n, suite, states[i - 1], steps[i - 1]);
    }
  }
}
