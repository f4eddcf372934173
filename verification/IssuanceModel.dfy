/**
 Issuance over the database as a state machine. A request moves through its own steps, which
 interleave with those of every other request; the recording transaction is one atomic step that
 commits or rolls back and carries the timestamp at which it was opened.
 */
module IssuanceModel {
  import opened Common
  import opened Fingerprint
  import opened KeyringModel
  import opened BundleRequestValidation
  import Limits = RateLimiting

  /**
   The surroundings of the protocol: the private key an epoch id is bound to, BlindSign under a
   key, the request hash, and how many requests a reference may make in a window of milliseconds.
   */
  datatype Env = Env(
    keyOf: string -> string,
    blindSign: (string, string) -> string,
    sha256: string -> string,
    rateMax: nat,
    rateWindow: nat)

  datatype Response = Response(epoch: string, signatures: seq<string>)

  // ----- tables -----

  datatype LedgerRow = LedgerRow(reference: string, epoch: string, bundleCount: nat)

  datatype Counter = Counter(bundleSize: nat, bundlesPaid: nat, signaturesIssued: nat)

  /** A drip schedule; the table is keyed by the lower-case form of the entitlement id. */
  datatype Entitlement = Entitlement(receiptHash: string, interval: nat, nextDripAt: int, dripsIssued: nat)

  datatype Db = Db(
    idempotency: map<(string, string), string>,
    ledger: seq<LedgerRow>,
    counters: map<string, Counter>,
    entitlements: map<string, Entitlement>)

  const EMPTY_DB := Db(map[], [], map[], map[])

  // ----- entitlement ids -----

  predicate IsHexDigit(c: char) {
    '0' <= c <= '9' || 'a' <= c <= 'f' || 'A' <= c <= 'F'
  }

  predicate IsUuid(s: string) {
    |s| == 36 &&
    forall i :: 0 <= i < 36 ==> if i in {8, 13, 18, 23} then s[i] == '-' else IsHexDigit(s[i])
  }

  function LowerChar(c: char): char {
    if 'A' <= c <= 'F' then (c as int + 32) as char else c
  }

  /** The one form in which the database compares an id, whatever case it was presented in. */
  function Canonical(id: string): string {
    seq(|id|, i requires 0 <= i < |id| => LowerChar(id[i]))
  }

  // ----- statements -----

  function RecordBundlePaid(counters: map<string, Counter>, epoch: string, k: nat): map<string, Counter> {
    if epoch in counters then
      counters[epoch := counters[epoch].(bundlesPaid := counters[epoch].bundlesPaid + 1)]
    else counters[epoch := Counter(k, 1, 0)]
  }

  function RecordSignaturesIssued(counters: map<string, Counter>, epoch: string, n: nat, k: nat): map<string, Counter> {
    if epoch in counters then
      counters[epoch := counters[epoch].(signaturesIssued := counters[epoch].signaturesIssued + n)]
    else counters[epoch := Counter(k, 0, n)]
  }

  /** The conditional update that claims a due drip; `None` when it affects no row. */
  function Advance(entitlements: map<string, Entitlement>, id: string, interval: nat, now: int)
    : Option<map<string, Entitlement>>
  {
    if id in entitlements && entitlements[id].nextDripAt <= now then
      Some(entitlements[id := entitlements[id].(nextDripAt := now + interval,
                                                dripsIssued := entitlements[id].dripsIssued + 1)])
    else None
  }

  predicate HasReceipt(entitlements: map<string, Entitlement>, receiptHash: string) {
    exists id :: id in entitlements && entitlements[id].receiptHash == receiptHash
  }

  /** Insertion that does nothing for a receipt already registered, or when the id is taken. */
  function RegisterRow(entitlements: map<string, Entitlement>, id: string, receiptHash: string,
                       interval: nat, now: int): map<string, Entitlement>
  {
    if HasReceipt(entitlements, receiptHash) || id in entitlements then entitlements
    else entitlements[id := Entitlement(receiptHash, interval, now, 0)]
  }

  // ----- requests -----

  datatype Consume = Nothing | Drip(entitlement: string, interval: nat)

  datatype Grant = Grant(reference: string, consume: Consume)

  /** A validated bundle request and the bundle size it was validated against. */
  datatype Order = Order(epoch: string, blanks: seq<string>, bundleSize: nat)

  predicate OrderOk(o: Order) {
    |o.blanks| == o.bundleSize && AllNulFree(o.blanks)
  }

  /** A different order `a` hashes the same input as `b`, and `b` is one that the database can store. */
  predicate PassesFor(a: Order, b: Order) {
    NulFree(b.epoch) && Swallows(a.epoch, a.blanks, b.epoch, b.blanks)
  }

  predicate SameRequest(a: Order, b: Order) {
    a.epoch == b.epoch && a.blanks == b.blanks
  }

  function SignBundle(env: Env, o: Order): Response {
    Response(o.epoch, seq(|o.blanks|, i requires 0 <= i < |o.blanks| => env.blindSign(env.keyOf(o.epoch), o.blanks[i])))
  }

  function FingerprintOf(env: Env, reference: string, o: Order): string {
    env.sha256(HashInput(reference, o.epoch, o.blanks))
  }

  /** An absent key and an empty one both mean: no idempotency. */
  function EffectiveKey(key: Option<string>): Option<string> {
    if key.Some? && key.value != "" then key else None
  }

  datatype Phase =
    | Scheduled(due: bool)                                   // schedule read, replay not yet looked up
    | Authorized                                             // grant in hand
    | Admitted                                               // counted, and within its budget
    | Checked(order: Order)                                  // well formed, under a usable epoch
    | Signed(order: Order, response: Response)               // signed, nothing recorded
    | Recorded(order: Order, response: Response, commit: nat)
    | KeyTaken(order: Order, response: Response)             // rolled back on the idempotency key
    | Delivered(order: Order, response: Response)
    | Failed(code: string)

  datatype Request = Request(grant: Grant, key: Option<string>, phase: Phase)

  // ----- admission -----

  /** What one replica checks a request against: its configuration, its keyring and its clock. */
  datatype Check = Check(body: Json, bundleSize: nat, blankSize: nat, keyring: Keyring, at: int)

  /** The order to sign, or the code the request is refused with. */
  function Verdict(c: Check): Result<Order> {
    match Validate(c.body, c.bundleSize, c.blankSize)
    case Failure(code) => Failure(code)
    case Success(request) =>
      if UsableEpoch(c.keyring, request.epoch, c.at).None? then Failure("WRONG_EPOCH")
      else Success(Order(request.epoch, request.blanks, c.bundleSize))
  }

  // ----- the recording transaction -----

  /** A transaction commits, or rolls back: on a claimed key, on a drip that is not due, or on text
      that the database cannot store because it holds a NUL. */
  datatype Tx = Commits(db: Db) | KeyClaimed | NotDue | BadText

  predicate StorableKey(reference: string, key: Option<string>) {
    key.None? || (NulFree(reference) && NulFree(key.value))
  }

  predicate StorableRow(reference: string, epoch: string) {
    NulFree(reference) && NulFree(epoch)
  }

  function RecordTx(env: Env, db: Db, grant: Grant, key: Option<string>, o: Order, response: Response, now: int): Tx {
    if !StorableKey(grant.reference, key) then BadText
    else if key.Some? && (grant.reference, key.value) in db.idempotency then KeyClaimed
    else if !StorableRow(grant.reference, o.epoch) then BadText
    else
      var claimed :=
        if key.Some? then db.idempotency[(grant.reference, key.value) := FingerprintOf(env, grant.reference, o)]
        else db.idempotency;
      var counters := RecordSignaturesIssued(RecordBundlePaid(db.counters, o.epoch, o.bundleSize),
                                             o.epoch, |response.signatures|, o.bundleSize);
      var recorded := Db(claimed, db.ledger + [LedgerRow(grant.reference, o.epoch, 1)], counters, db.entitlements);
      match grant.consume
      case Nothing => Commits(recorded)
      case Drip(id, interval) =>
        match Advance(db.entitlements, Canonical(id), interval, now)
        case None => NotDue
        case Some(rows) => Commits(recorded.(entitlements := rows))
  }

  // ----- the world and its steps -----

  /** History entry of one committed transaction. */
  datatype Commit = Commit(
    request: nat, reference: string, key: Option<string>, order: Order, response: Response,
    start: int, drip: Option<string>)

  datatype Delivery = Delivery(request: nat, reference: string, key: Option<string>, order: Order, response: Response)

  /** Signatures counted with no bundle paid, as a faulty or hostile signer would leave them. */
  datatype Injection = Injection(epoch: string, signatures: nat, bundleSize: nat)

  datatype World = World(
    db: Db,
    requests: seq<Request>,
    commits: seq<Commit>,
    claims: map<(string, string), nat>,     // which commit claimed an idempotency key
    deliveries: seq<Delivery>,
    injections: seq<Injection>,
    calls: map<string, seq<int>>)           // instants at which each reference has called

  const START := World(EMPTY_DB, [], [], map[], [], [], map[])

  /** The limiter's history of one reference. */
  function CallsOf(w: World, reference: string): seq<int> {
    if reference in w.calls then w.calls[reference] else []
  }

  /** Whether the limiter lets a call of this reference through at `now`. */
  predicate WithinBudget(env: Env, w: World, reference: string, now: int) {
    Limits.Allows(CallsOf(w, reference), now, env.rateWindow, env.rateMax)
  }

  datatype Step =
    | Register(id: string, receiptHash: string, interval: nat, now: int)
    | Purchase(reference: string, key: Option<string>)
    | Pickup(presented: Option<string>, key: Option<string>, now: int)
    | CheckDue(request: nat)
    | CheckRate(request: nat, now: int)
    | CheckOrder(request: nat, check: Check)
    | SignOrder(request: nat, order: Order)
    | SignFails(request: nat, code: string)
    | Record(request: nat, now: int)
    | RollBack(request: nat, code: string)
    | Deliver(request: nat)
    | CheckReplay(request: nat)
    | Crash(request: nat)
    | Inject(injection: Injection)

  predicate Enabled(w: World, step: Step) {
    match step
    case Register(id, _, _, _) => IsUuid(id) && Canonical(id) == id
    case Purchase(_, _) => true
    case Pickup(_, _, _) => true
    case CheckDue(r) => r < |w.requests| && w.requests[r].phase.Scheduled?
    case CheckRate(r, _) => r < |w.requests| && w.requests[r].phase.Authorized?
    case CheckOrder(r, _) => r < |w.requests| && w.requests[r].phase.Admitted?
    case SignOrder(r, o) => r < |w.requests| && w.requests[r].phase == Checked(o)
    case SignFails(r, _) => r < |w.requests| && w.requests[r].phase.Checked?
    case Record(r, _) => r < |w.requests| && w.requests[r].phase.Signed?
    case RollBack(r, _) => r < |w.requests| && w.requests[r].phase.Signed?
    case Deliver(r) => r < |w.requests| && w.requests[r].phase.Recorded?
    case CheckReplay(r) => r < |w.requests| && w.requests[r].phase.KeyTaken?
    case Crash(r) => r < |w.requests| && !w.requests[r].phase.Delivered?
    case Inject(_) => true
  }

  function SetPhase(w: World, r: nat, phase: Phase): World
    requires r < |w.requests|
  {
    w.(requests := w.requests[r := w.requests[r].(phase := phase)])
  }

  function AddRequest(w: World, q: Request): World {
    w.(requests := w.requests + [q])
  }

  /** `schedule`: looks the presented id up and reads whether its drip is due. */
  function ReadSchedule(w: World, presented: Option<string>, key: Option<string>, now: int): World {
    if presented.Some? && IsUuid(presented.value) && Canonical(presented.value) in w.db.entitlements then
      var row := w.db.entitlements[Canonical(presented.value)];
      AddRequest(w, Request(Grant(presented.value, Drip(presented.value, row.interval)), key,
                            Scheduled(row.nextDripAt <= now)))
    else AddRequest(w, Request(Grant("", Nothing), key, Failed("ENTITLEMENT_UNKNOWN")))
  }

  /** An early pickup goes on only as the replay of one already issued. */
  function DueOrReplay(w: World, r: nat): World
    requires r < |w.requests| && w.requests[r].phase.Scheduled?
  {
    var q := w.requests[r];
    var replay := q.key.Some? && (q.grant.reference, q.key.value) in w.db.idempotency;
    SetPhase(w, r, if replay || q.phase.due then Authorized else Failed("NOT_DUE"))
  }

  /** `issue` begins: the call is counted, blocked or not, and goes on only within its budget. */
  function CountCall(env: Env, w: World, r: nat, now: int): World
    requires r < |w.requests| && w.requests[r].phase.Authorized?
  {
    var reference := w.requests[r].grant.reference;
    SetPhase(w, r, if WithinBudget(env, w, reference, now) then Admitted else Failed("RATE_LIMITED")).(
      calls := w.calls[reference := CallsOf(w, reference) + [now]])
  }

  /** The entitlement row a grant draws on, if any. */
  function DripOf(grant: Grant): Option<string> {
    if grant.consume.Drip? then Some(Canonical(grant.consume.entitlement)) else None
  }

  function CommitOf(w: World, r: nat, now: int): Commit
    requires r < |w.requests| && w.requests[r].phase.Signed?
  {
    var q := w.requests[r];
    Commit(r, q.grant.reference, EffectiveKey(q.key), q.phase.order, q.phase.response, now, DripOf(q.grant))
  }

  function RecordRequest(env: Env, w: World, r: nat, now: int): World
    requires r < |w.requests| && w.requests[r].phase.Signed?
  {
    var q := w.requests[r];
    var key, o := EffectiveKey(q.key), q.phase.order;
    match RecordTx(env, w.db, q.grant, key, o, q.phase.response, now)
    case KeyClaimed => SetPhase(w, r, KeyTaken(o, q.phase.response))
    case NotDue => SetPhase(w, r, Failed("NOT_DUE"))
    case BadText => SetPhase(w, r, Failed("DATABASE"))
    case Commits(db) =>
      SetPhase(w, r, Recorded(o, q.phase.response, |w.commits|)).(
        db := db,
        commits := w.commits + [CommitOf(w, r, now)],
        claims := if key.Some? then w.claims[(q.grant.reference, key.value) := |w.commits|] else w.claims)
  }

  function DeliverTo(w: World, r: nat, o: Order, response: Response): World
    requires r < |w.requests|
  {
    var q := w.requests[r];
    SetPhase(w, r, Delivered(o, response)).(
      deliveries := w.deliveries + [Delivery(r, q.grant.reference, EffectiveKey(q.key), o, response)])
  }

  /** After a claimed key: the same request is answered again, a different one is a conflict. */
  function AnswerReplay(env: Env, w: World, r: nat): World
    requires r < |w.requests| && w.requests[r].phase.KeyTaken?
  {
    var q := w.requests[r];
    var key := EffectiveKey(q.key);
    if key.Some? && (q.grant.reference, key.value) in w.db.idempotency &&
       w.db.idempotency[(q.grant.reference, key.value)] == FingerprintOf(env, q.grant.reference, q.phase.order)
    then DeliverTo(w, r, q.phase.order, q.phase.response)
    else SetPhase(w, r, Failed("IDEMPOTENCY_CONFLICT"))
  }

  function Apply(env: Env, w: World, step: Step): World
    requires Enabled(w, step)
  {
    match step
    case Register(id, hash, interval, now) =>
      w.(db := w.db.(entitlements := RegisterRow(w.db.entitlements, id, hash, interval, now)))
    case Purchase(reference, key) => AddRequest(w, Request(Grant(reference, Nothing), key, Authorized))
    case Pickup(presented, key, now) => ReadSchedule(w, presented, key, now)
    case CheckDue(r) => DueOrReplay(w, r)
    case CheckRate(r, now) => CountCall(env, w, r, now)
    case CheckOrder(r, check) =>
      SetPhase(w, r, if Verdict(check).Success? then Checked(Verdict(check).value) else Failed(Verdict(check).error))
    case SignOrder(r, o) => SetPhase(w, r, Signed(o, SignBundle(env, o)))
    case SignFails(r, code) => SetPhase(w, r, Failed(code))
    case Record(r, now) => RecordRequest(env, w, r, now)
    case RollBack(r, code) => SetPhase(w, r, Failed(code))
    case Deliver(r) => DeliverTo(w, r, w.requests[r].phase.order, w.requests[r].phase.response)
    case CheckReplay(r) => AnswerReplay(env, w, r)
    case Crash(r) => SetPhase(w, r, Failed("crash"))
    case Inject(x) =>
      w.(db := w.db.(counters := RecordSignaturesIssued(w.db.counters, x.epoch, x.signatures, x.bundleSize)),
         injections := w.injections + [x])
  }

  ghost predicate Steps(env: Env, worlds: seq<World>, steps: seq<Step>) {
    && |worlds| == |steps| + 1
    && forall i :: 0 <= i < |steps| ==>
         Enabled(worlds[i], steps[i]) && worlds[i + 1] == Apply(env, worlds[i], steps[i])
  }

  /** A run of the issuer from an empty database. */
  ghost predicate Run(env: Env, worlds: seq<World>, steps: seq<Step>) {
    Steps(env, worlds, steps) && worlds[0] == START
  }
}
