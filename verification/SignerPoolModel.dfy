/**
 The signing pool and its workers as a state machine. Every operation of the pool that runs
 without yielding is one step; worker threads, replies, timers and worker deaths are steps of
 their own, so a run is any interleaving of them.
 */
module SignerPoolModel {
  import opened Common

  type SlotId = nat
  type RequestId = nat

  /** Epoch id to private key, as `KeysService.keyMaterial` hands it out. */
  type Material = map<string, string>

  /** BlindSign of one blank under one private key. */
  type Suite = (string, string) -> Outcome

  datatype Outcome = Signed(signature: string) | Rejected(why: string)

  datatype Command =
    | Keys(keys: Material)
    | Sign(id: nat, epoch: string, blank: string)

  /** One worker thread with its slot's `alive` flag; `inbox` holds the messages it has yet to handle. */
  datatype Worker = Worker(alive: bool, signingKeys: Material, inbox: seq<Command>)

  /** How far one call of `sign` has come. */
  datatype Phase =
    | Called                                              // awaiting startup
    | Queued                                              // its resolver is in `waiting`
    | Handed(slot: SlotId)                                // `acquire` resolved, nothing dispatched yet
    | InFlight(slot: SlotId, id: nat)                     // pending under `id`, timer armed
    | Settled(slot: SlotId, id: nat, outcome: Outcome)    // promise settled, `finally` still to run
    | Done(id: nat, outcome: Outcome)

  datatype Task = Task(epoch: string, blank: string, phase: Phase)

  datatype Pending = Pending(slot: SlotId, request: RequestId)

  /** What one dispatch sent, and the key material that was loaded when it was sent. */
  datatype Dispatched =
    Dispatched(request: RequestId, slot: SlotId, epoch: string, blank: string, material: Material)

  datatype Pool = Pool(
    workers: seq<Worker>,            // every worker ever spawned, indexed by slot
    slots: seq<SlotId>,
    idle: seq<SlotId>,
    waiting: seq<RequestId>,
    pending: map<nat, Pending>,
    nextId: nat,
    started: bool,
    shuttingDown: bool,
    inlineKeys: Material,
    loaded: Material,                // the key material of the keyring currently loaded
    tasks: seq<Task>,                // every call of `sign`, indexed by request
    replies: map<nat, Outcome>,      // replies posted by workers
    log: seq<Dispatched>)            // history of dispatches

  function Init(material: Material): Pool {
    Pool([], [], [], [], map[], 0, false, false, material, material, [], map[], [])
  }

  // ----- the worker thread -----

  function SignWith(suite: Suite, keys: Material, epoch: string, blank: string): Outcome {
    if epoch in keys then suite(keys[epoch], blank)
    else Rejected("no signing key for epoch " + epoch)
  }

  /** The keys a worker holds once it has handled every message of `inbox`. */
  function Drain(keys: Material, inbox: seq<Command>): Material {
    if inbox == [] then keys
    else
      match inbox[|inbox| - 1]
      case Keys(k) => k
      case Sign(_, _, _) => Drain(keys, inbox[..|inbox| - 1])
  }

  /** The worker after its oldest message: a key update replaces all its keys, signing none. */
  function Handled(w: Worker): Worker
    requires w.inbox != []
  {
    w.(signingKeys := if w.inbox[0].Keys? then w.inbox[0].keys else w.signingKeys, inbox := w.inbox[1..])
  }

  /** The replies posted once the worker has handled its oldest message. */
  function Answered(suite: Suite, w: Worker, replies: map<nat, Outcome>): map<nat, Outcome>
    requires w.inbox != []
  {
    match w.inbox[0]
    case Keys(_) => replies
    case Sign(id, epoch, blank) => replies[id := SignWith(suite, w.signingKeys, epoch, blank)]
  }

  /** Worker `x` handles the oldest message in its inbox. */
  function Work(suite: Suite, s: Pool, x: SlotId): Pool
    requires x < |s.workers| && s.workers[x].inbox != []
  {
    s.(workers := s.workers[x := Handled(s.workers[x])],
       replies := Answered(suite, s.workers[x], s.replies))
  }

  /** `postMessage` to worker `x`; a dead worker's port drops it. */
  function Post(workers: seq<Worker>, x: SlotId, command: Command): seq<Worker> {
    if x < |workers| && workers[x].alive then
      workers[x := workers[x].(inbox := workers[x].inbox + [command])]
    else workers
  }

  /** `postMessage` to every slot of the pool in turn. */
  function PostAll(workers: seq<Worker>, slots: seq<SlotId>, command: Command): seq<Worker> {
    if slots == [] then workers
    else Post(PostAll(workers, slots[..|slots| - 1], command), slots[|slots| - 1], command)
  }

  // ----- the pool's own operations -----

  predicate Alive(s: Pool, x: SlotId) {
    x < |s.workers| && s.workers[x].alive
  }

  function WithPhase(tasks: seq<Task>, r: RequestId, phase: Phase): seq<Task> {
    if r < |tasks| then tasks[r := tasks[r].(phase := phase)] else tasks
  }

  function SetPhase(s: Pool, r: RequestId, phase: Phase): Pool {
    s.(tasks := WithPhase(s.tasks, r, phase))
  }

  function Release(s: Pool, x: SlotId): Pool {
    if s.waiting != [] then s.(tasks := WithPhase(s.tasks, s.waiting[0], Handed(x)), waiting := s.waiting[1..])
    else s.(idle := s.idle + [x])
  }

  function Acquire(s: Pool, r: RequestId): Pool {
    if s.idle != [] then
      s.(tasks := WithPhase(s.tasks, r, Handed(s.idle[|s.idle| - 1])), idle := s.idle[..|s.idle| - 1])
    else s.(tasks := WithPhase(s.tasks, r, Queued), waiting := s.waiting + [r])
  }

  /** A new worker, its slot added to the pool but not yet offered to anyone. */
  function AddWorker(s: Pool): Pool {
    s.(workers := s.workers + [Worker(true, s.loaded, [])], slots := s.slots + [|s.workers|])
  }

  function Spawn(s: Pool): Pool {
    Release(AddWorker(s), |s.workers|)
  }

  function SpawnMany(s: Pool, n: nat): Pool {
    if n == 0 then s else Spawn(SpawnMany(s, n - 1))
  }

  function EnsureStarted(s: Pool, n: nat): Pool {
    if s.started then s else SpawnMany(s.(started := true), n)
  }

  function Settle(s: Pool, id: nat, outcome: Outcome): Pool {
    if id in s.pending then
      var p := s.pending[id];
      s.(tasks := WithPhase(s.tasks, p.request, Settled(p.slot, id, outcome)), pending := s.pending - {id})
    else s
  }

  function FailTask(s: Pool, x: SlotId, outcome: Outcome, r: RequestId): Task
    requires r < |s.tasks|
  {
    var t := s.tasks[r];
    if t.phase.InFlight? && t.phase.id in s.pending && s.pending[t.phase.id] == Pending(x, r) then
      t.(phase := Settled(x, t.phase.id, outcome))
    else t
  }

  /** Rejects every pending entry carried by slot `x`. */
  function FailPending(s: Pool, x: SlotId, outcome: Outcome): Pool {
    s.(pending := map id | id in s.pending && s.pending[id].slot != x :: s.pending[id],
       tasks := seq(|s.tasks|, r requires 0 <= r < |s.tasks| => FailTask(s, x, outcome, r)))
  }

  /** The slot is marked dead and taken out of `slots` and `idle`. */
  function Drop(s: Pool, x: SlotId): Pool
    requires x < |s.workers|
  {
    s.(workers := s.workers[x := s.workers[x].(alive := false)],
       slots := Without(s.slots, x),
       idle := Without(s.idle, x))
  }

  function Retire(s: Pool, x: SlotId, why: string): Pool {
    if !Alive(s, x) then s
    else
      var failed := FailPending(Drop(s, x), x, Rejected("signing worker " + why));
      if s.shuttingDown then failed else Spawn(failed)
  }

  function AdoptKeys(s: Pool, material: Material): Pool {
    s.(inlineKeys := material, workers := PostAll(s.workers, s.slots, Keys(material)))
  }

  function SignInline(suite: Suite, s: Pool, epoch: string, blank: string): Outcome {
    SignWith(suite, s.inlineKeys, epoch, blank)
  }

  // ----- the segments of one `sign` call -----

  function Call(s: Pool, n: nat, epoch: string, blank: string): Pool {
    EnsureStarted(s.(tasks := s.tasks + [Task(epoch, blank, Called)]), n)
  }

  function Dispatch(s: Pool, r: RequestId): Pool
    requires r < |s.tasks| && s.tasks[r].phase.Handed?
  {
    var t := s.tasks[r];
    var x := t.phase.slot;
    s.(
      tasks := WithPhase(s.tasks, r, InFlight(x, s.nextId)),
      nextId := s.nextId + 1,
      pending := s.pending[s.nextId := Pending(x, r)],
      workers := Post(s.workers, x, Sign(s.nextId, t.epoch, t.blank)),
      log := s.log + [Dispatched(r, x, t.epoch, t.blank, s.loaded)])
  }

  predicate TimerArmed(s: Pool, r: RequestId) {
    r < |s.tasks| && (s.tasks[r].phase.InFlight? || s.tasks[r].phase.Settled?)
  }

  function Timeout(s: Pool, r: RequestId): Pool
    requires TimerArmed(s, r)
  {
    var x, id := s.tasks[r].phase.slot, s.tasks[r].phase.id;
    Retire(Settle(s, id, Rejected("blind signing timed out")), x, "timed out")
  }

  function Finish(s: Pool, r: RequestId): Pool
    requires r < |s.tasks| && s.tasks[r].phase.Settled?
  {
    var p := s.tasks[r].phase;
    var done := SetPhase(s, r, Done(p.id, p.outcome));
    if Alive(s, p.slot) then Release(done, p.slot) else done
  }

  // ----- runs -----

  datatype Step =
    | CallSign(epoch: string, blank: string)
    | AcquireSlot(request: RequestId)
    | DispatchTask(request: RequestId)
    | WorkerTurn(slot: SlotId)
    | DeliverReply(id: nat)
    | TimerFires(request: RequestId)
    | FinishTask(request: RequestId)
    | WorkerDies(slot: SlotId, why: string)
    | KeyringReloaded(material: Material)
    | BeginShutdown

  predicate Enabled(s: Pool, step: Step) {
    match step
    case CallSign(_, _) => true
    case AcquireSlot(r) => r < |s.tasks| && s.tasks[r].phase.Called?
    case DispatchTask(r) => r < |s.tasks| && s.tasks[r].phase.Handed?
    case WorkerTurn(x) => x < |s.workers| && s.workers[x].inbox != []
    case DeliverReply(id) => id in s.replies
    case TimerFires(r) => TimerArmed(s, r)
    case FinishTask(r) => r < |s.tasks| && s.tasks[r].phase.Settled?
    case WorkerDies(x, _) => x < |s.workers|
    case KeyringReloaded(_) => true
    case BeginShutdown => true
  }

  function Apply(n: nat, suite: Suite, s: Pool, step: Step): Pool
    requires Enabled(s, step)
  {
    match step
    case CallSign(epoch, blank) => Call(s, n, epoch, blank)
    case AcquireSlot(r) => Acquire(s, r)
    case DispatchTask(r) => Dispatch(s, r)
    case WorkerTurn(x) => Work(suite, s, x)
    case DeliverReply(id) => Settle(s, id, s.replies[id])
    case TimerFires(r) => Timeout(s, r)
    case FinishTask(r) => Finish(s, r)
    case WorkerDies(x, why) => Retire(s, x, why)
    case KeyringReloaded(material) => AdoptKeys(s.(loaded := material), material)
    case BeginShutdown => s.(shuttingDown := true)
  }

  ghost predicate Steps(n: nat, suite: Suite, states: seq<Pool>, steps: seq<Step>) {
    && |states| == |steps| + 1
    && forall i :: 0 <= i < |steps| ==>
         Enabled(states[i], steps[i]) && states[i + 1] == Apply(n, suite, states[i], steps[i])
  }

  /** A run of a pool configured with `n` workers, from a fresh pool holding `material`. With no
      workers configured `sign` runs inline and never enters the pool. */
  ghost predicate Run(n: nat, suite: Suite, material: Material, states: seq<Pool>, steps: seq<Step>) {
    n >= 1 && Steps(n, suite, states, steps) && states[0] == Init(material)
  }
}
