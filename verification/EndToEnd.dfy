/**
 The parts together: epoch ids are bound to one key by rotation, signers hold the keyring's keys, and
 the pool signs with the keys loaded at dispatch. So a signature depends on epoch and blank alone,
 which is what lets issuance answer a replay without having stored a response.
 */
module EndToEnd {
  import opened Common
  import opened EpochIds
  import opened Fingerprint
  import opened KeyringModel
  import opened Rotation
  import opened RotationRuns
  import opened KeysServices
  import Pool = SignerPoolModel
  import Issuance = IssuanceModel
  import Accounts = IssuanceInvariant
  import Answers = IssuanceTheorems
  import Invariant = SignerPoolInvariant
  import Theorems = SignerPoolTheorems

  /** The private key an epoch id is bound to by a history of rotations. */
  function KeyFor(turns: seq<Turn>, id: string): string {
    var m := ParseId(id);
    if m.Some? && m.value < |turns| then turns[m.value].pair.privatePem else ""
  }

  /** Whichever keyring of the history a signer holds, an epoch's key is the same one. */
  lemma KeyringsAgreeOnKeys(c: Crypto, turns: seq<Turn>, rings: seq<Keyring>, i: nat, id: string)
    requires IsRun(c, turns, rings) && i < |turns| <= 9007199254740992 + 1
    requires id in MapOf(KeyMaterial(rings[i]))
    ensures MapOf(KeyMaterial(rings[i]))[id] == KeyFor(turns, id)
    ensures NulFree(id)
  {
    EveryEntryHasItsMaker(c, turns, rings, i);
    var j := MapOfMember(KeyMaterial(rings[i]), id);
    var m := RingEntry(turns, i, rings[i], rings[i].epochs[j]);
    IdParses(m);
    IdsAreNulFree(m);
  }

  lemma RingEntry(turns: seq<Turn>, i: nat, k: Keyring, e: EpochEntry) returns (m: nat)
    requires RingMade(turns, i, k) && e in k.epochs
    ensures m <= i && MadeBy(turns, m, e)
  {
    m :| 0 <= m <= i && MadeBy(turns, m, e);
  }

  /** The material is that of some keyring of the history. */
  ghost predicate FromHistory(rings: seq<Keyring>, material: Pool.Material) {
    exists i :: 0 <= i < |rings| && material == MapOf(KeyMaterial(rings[i]))
  }

  /** A pool that only ever loads keyrings of the history. */
  ghost predicate LoadsHistory(rings: seq<Keyring>, material: Pool.Material, steps: seq<Pool.Step>) {
    && FromHistory(rings, material)
    && forall i :: 0 <= i < |steps| && steps[i].KeyringReloaded? ==> FromHistory(rings, steps[i].material)
  }

  lemma StepLoaded(n: nat, suite: Pool.Suite, s: Pool.Pool, step: Pool.Step)
    requires Pool.Enabled(s, step)
    ensures Pool.Apply(n, suite, s, step).loaded == if step.KeyringReloaded? then step.material else s.loaded
  {
    match step
    case CallSign(epoch, blank) => Theorems.CallHistory(n, s, epoch, blank);
    case TimerFires(r) => Theorems.TimeoutHistory(s, r);
    case WorkerDies(x, why) => Theorems.RetireHistory(s, x, why);
    case FinishTask(r) => Theorems.FinishHistory(s, r);
    case WorkerTurn(x) => Theorems.WorkHistory(suite, s, x);
    case _ =>
  }

  lemma {:induction false} LoadedIsFromHistory(n: nat, suite: Pool.Suite, material: Pool.Material, rings: seq<Keyring>,
                                               states: seq<Pool.Pool>, steps: seq<Pool.Step>, i: nat)
    requires Pool.Run(n, suite, material, states, steps) && LoadsHistory(rings, material, steps) && i < |states|
    ensures FromHistory(rings, states[i].loaded)
  {
    if i == 0 {
    } else {
      LoadedIsFromHistory(n, suite, material, rings, states, steps, i - 1);
      StepLoaded(n, suite, states[i - 1], steps[i - 1]);
    }
  }

  /**
   Every signature a pool ever returns is BlindSign of the blank under the one key its epoch is bound
   to, whatever was rotated, reloaded, timed out or replaced before, during or after.
   */
  lemma SignatureDependsOnEpochAndBlank(
      c: Crypto, turns: seq<Turn>, rings: seq<Keyring>,
      n: nat, suite: Pool.Suite, material: Pool.Material, states: seq<Pool.Pool>, steps: seq<Pool.Step>, i: nat, r: nat)
    requires IsRun(c, turns, rings) && |turns| <= 9007199254740992 + 1
    requires Pool.Run(n, suite, material, states, steps) && LoadsHistory(rings, material, steps)
    requires i < |states| && r < |states[i].tasks|
    requires states[i].tasks[r].phase.Done? && states[i].tasks[r].phase.outcome.Signed?
    ensures var t := states[i].tasks[r];
      t.phase.outcome == suite(KeyFor(turns, t.epoch), t.blank) && NulFree(t.epoch)
  {
    var s, t := states[i], states[i].tasks[r];
    Invariant.RunKeeps(n, suite, material, states, steps, i);
    assert Invariant.TaskLogged(suite, s, r);
    var j := Theorems.DispatchOf(n, suite, material, states, steps, i, t.phase.id);
    LoadedIsFromHistory(n, suite, material, rings, states, steps, j);
    var k :| 0 <= k < |rings| && states[j].loaded == MapOf(KeyMaterial(rings[k]));
    KeyringsAgreeOnKeys(c, turns, rings, k, t.epoch);
  }

  /** Two pools, on two replicas, with different rotations in flight, return the same signature. */
  lemma ReplicasAgree(
      c: Crypto, turns: seq<Turn>, rings: seq<Keyring>, suite: Pool.Suite,
      n1: nat, m1: Pool.Material, states1: seq<Pool.Pool>, steps1: seq<Pool.Step>, i1: nat, r1: nat,
      n2: nat, m2: Pool.Material, states2: seq<Pool.Pool>, steps2: seq<Pool.Step>, i2: nat, r2: nat)
    requires IsRun(c, turns, rings) && |turns| <= 9007199254740992 + 1
    requires Pool.Run(n1, suite, m1, states1, steps1) && LoadsHistory(rings, m1, steps1)
    requires Pool.Run(n2, suite, m2, states2, steps2) && LoadsHistory(rings, m2, steps2)
    requires i1 < |states1| && r1 < |states1[i1].tasks| && i2 < |states2| && r2 < |states2[i2].tasks|
    requires states1[i1].tasks[r1].phase.Done? && states1[i1].tasks[r1].phase.outcome.Signed?
    requires states2[i2].tasks[r2].phase.Done? && states2[i2].tasks[r2].phase.outcome.Signed?
    requires states1[i1].tasks[r1].epoch == states2[i2].tasks[r2].epoch
    requires states1[i1].tasks[r1].blank == states2[i2].tasks[r2].blank
    ensures states1[i1].tasks[r1].phase.outcome == states2[i2].tasks[r2].phase.outcome
  {
    SignatureDependsOnEpochAndBlank(c, turns, rings, n1, suite, m1, states1, steps1, i1, r1);
    SignatureDependsOnEpochAndBlank(c, turns, rings, n2, suite, m2, states2, steps2, i2, r2);
  }

  // ----- replicas: what their pools load -----

  /** The keyring file only ever shows keyrings of the history, or nothing the service accepts. */
  ghost predicate FileShows(l: Loader, rings: seq<Keyring>, readings: seq<Option<string>>) {
    forall i :: 0 <= i < |readings| && readings[i].Some? && Load(l, readings[i].value).Some? ==>
      Load(l, readings[i].value).value in rings
  }

  lemma {:induction false} LastGoodIsInHistory(l: Loader, rings: seq<Keyring>, readings: seq<Option<string>>)
    requires FileShows(l, rings, readings)
    ensures LastGood(l, readings).Some? ==> LastGood(l, readings).value in rings
  {
    if readings == [] {
    } else {
      LastGoodIsInHistory(l, rings, readings[..|readings| - 1]);
    }
  }

  /** Whatever a keys service tells its listeners is the material of a keyring of the history. */
  lemma NewsIsFromHistory(l: Loader, rings: seq<Keyring>, readings: seq<Option<string>>, news: seq<(string, string)>)
    requires FileShows(l, rings, readings) && IsNews(l, readings, news)
    ensures FromHistory(rings, MapOf(news))
  {
    var n :| 0 <= n <= |readings| &&
      LastGood(l, readings[..n]).Some? && news == KeyMaterial(LastGood(l, readings[..n]).value);
    LastGoodIsInHistory(l, rings, readings[..n]);
  }

  /** One replica: the polls of its keys service, and a run of its pool. */
  datatype Replica = Replica(
    loader: Loader, readings: seq<Option<string>>,
    workers: nat, material: Pool.Material, states: seq<Pool.Pool>, steps: seq<Pool.Step>)

  /** The material is news of the replica's own keys service. */
  ghost predicate Heard(p: Replica, material: Pool.Material) {
    exists news :: IsNews(p.loader, p.readings, news) && material == MapOf(news)
  }

  /** The pool starts from, and is later told, only what the replica's own keys service announces. */
  ghost predicate ReplicaOk(rings: seq<Keyring>, suite: Pool.Suite, p: Replica) {
    && FileShows(p.loader, rings, p.readings)
    && Pool.Run(p.workers, suite, p.material, p.states, p.steps)
    && Heard(p, p.material)
    && forall i :: 0 <= i < |p.steps| && p.steps[i].KeyringReloaded? ==> Heard(p, p.steps[i].material)
  }

  lemma HeardIsFromHistory(rings: seq<Keyring>, p: Replica, material: Pool.Material)
    requires FileShows(p.loader, rings, p.readings) && Heard(p, material)
    ensures FromHistory(rings, material)
  {
    var news :| IsNews(p.loader, p.readings, news) && material == MapOf(news);
    NewsIsFromHistory(p.loader, rings, p.readings, news);
  }

  lemma ReplicaLoadsHistory(rings: seq<Keyring>, suite: Pool.Suite, p: Replica)
    requires ReplicaOk(rings, suite, p)
    ensures LoadsHistory(rings, p.material, p.steps)
  {
    HeardIsFromHistory(rings, p, p.material);
    forall i | 0 <= i < |p.steps| && p.steps[i].KeyringReloaded? ensures FromHistory(rings, p.steps[i].material) {
      HeardIsFromHistory(rings, p, p.steps[i].material);
    }
  }

  // ----- issuance on top of the replicas -----

  /** The surroundings of issuance, its keys and BlindSign made of the rotation history and the suite. */
  function EnvOf(turns: seq<Turn>, suite: Pool.Suite, base: Issuance.Env): Issuance.Env {
    base.(keyOf := id => KeyFor(turns, id),
          blindSign := (key, blank) => if suite(key, blank).Signed? then suite(key, blank).signature else "")
  }

  /** Request `r` of the replica's pool has returned this signature. */
  predicate Returned(p: Replica, at: nat, r: nat, epoch: string, blank: string, signature: string) {
    && at < |p.states| && r < |p.states[at].tasks|
    && var t := p.states[at].tasks[r];
       t.epoch == epoch && t.blank == blank && t.phase.Done? && t.phase.outcome == Pool.Signed(signature)
  }

  /** Some replica's pool has returned this signature. */
  ghost predicate Produced(rings: seq<Keyring>, suite: Pool.Suite, epoch: string, blank: string, signature: string) {
    exists p: Replica, at: nat, r: nat :: ReplicaOk(rings, suite, p) && Returned(p, at, r, epoch, blank, signature)
  }

  /** The response holds, for every blank of the order, what some pool returned for it. */
  ghost predicate MadeByPools(rings: seq<Keyring>, suite: Pool.Suite, o: Issuance.Order, response: Issuance.Response) {
    && response.epoch == o.epoch && |response.signatures| == |o.blanks|
    && forall i :: 0 <= i < |o.blanks| ==> Produced(rings, suite, o.epoch, o.blanks[i], response.signatures[i])
  }

  lemma ProducedIsBlindSign(c: Crypto, turns: seq<Turn>, rings: seq<Keyring>, suite: Pool.Suite,
                            epoch: string, blank: string, signature: string)
    requires IsRun(c, turns, rings) && |turns| <= 9007199254740992 + 1 && Produced(rings, suite, epoch, blank, signature)
    ensures suite(KeyFor(turns, epoch), blank) == Pool.Signed(signature)
  {
    var p: Replica, at: nat, r: nat :| ReplicaOk(rings, suite, p) && Returned(p, at, r, epoch, blank, signature);
    ReplicaLoadsHistory(rings, suite, p);
    SignatureDependsOnEpochAndBlank(c, turns, rings, p.workers, suite, p.material, p.states, p.steps, at, r);
  }

  /** A bundle signed by any pools, blank by blank, is the bundle that issuance assumes. */
  lemma PoolsMakeTheBundle(c: Crypto, turns: seq<Turn>, rings: seq<Keyring>, suite: Pool.Suite, base: Issuance.Env,
                           o: Issuance.Order, response: Issuance.Response)
    requires IsRun(c, turns, rings) && |turns| <= 9007199254740992 + 1 && MadeByPools(rings, suite, o, response)
    ensures response == Issuance.SignBundle(EnvOf(turns, suite, base), o)
  {
    var bundle := Issuance.SignBundle(EnvOf(turns, suite, base), o);
    forall i | 0 <= i < |o.blanks| ensures response.signatures[i] == bundle.signatures[i] {
      ProducedIsBlindSign(c, turns, rings, suite, o.epoch, o.blanks[i], response.signatures[i]);
    }
    assert response.signatures == bundle.signatures;
  }

  /** Some replica's keys service has held this keyring. */
  ghost predicate Held(rings: seq<Keyring>, k: Keyring) {
    exists p: Replica, n: nat {:trigger p.readings[..n]} ::
      n <= |p.readings| && FileShows(p.loader, rings, p.readings) && LastGood(p.loader, p.readings[..n]) == Some(k)
  }

  lemma HeldIsInHistory(rings: seq<Keyring>, k: Keyring) returns (i: nat)
    requires Held(rings, k)
    ensures i < |rings| && rings[i] == k
  {
    var p: Replica, n: nat :|
      n <= |p.readings| && FileShows(p.loader, rings, p.readings) && LastGood(p.loader, p.readings[..n]) == Some(k);
    LastGoodIsInHistory(p.loader, rings, p.readings[..n]);
    i :| 0 <= i < |rings| && rings[i] == k;
  }

  /** An epoch that a held keyring has an entry for was made by a rotation, so its id is a numeral. */
  lemma HeldEpochWasMade(c: Crypto, turns: seq<Turn>, rings: seq<Keyring>, k: Keyring, epoch: string)
    returns (i: nat, m: nat)
    requires IsRun(c, turns, rings) && |turns| <= 9007199254740992 + 1 && Held(rings, k) && Find(k.epochs, epoch).Some?
    ensures m <= i < |turns| && rings[i] == k && MadeBy(turns, m, Find(k.epochs, epoch).value)
    ensures epoch == IdOf(m) && NulFree(epoch)
  {
    i := HeldIsInHistory(rings, k);
    EveryEntryHasItsMaker(c, turns, rings, i);
    FoundIsMember(k.epochs, epoch);
    m := RingEntry(turns, i, k, Find(k.epochs, epoch).value);
    IdsAreNulFree(m);
  }

  /** A step of issuance: checks are made under a keyring that a replica holds, and signatures come
      from the pools. */
  ghost predicate Served(env: Issuance.Env, rings: seq<Keyring>, suite: Pool.Suite,
                         w: Issuance.World, step: Issuance.Step, t: Issuance.World) {
    && Issuance.Enabled(w, step)
    && (step.CheckOrder? ==> Held(rings, step.check.keyring))
    && if step.SignOrder? then
         exists response :: MadeByPools(rings, suite, step.order, response) &&
           t == Issuance.SetPhase(w, step.request, Issuance.Signed(step.order, response))
       else t == Issuance.Apply(env, w, step)
  }

  /** A run of issuance over the replicas' pools. */
  ghost predicate ServedRun(env: Issuance.Env, rings: seq<Keyring>, suite: Pool.Suite,
                            worlds: seq<Issuance.World>, steps: seq<Issuance.Step>) {
    && |worlds| == |steps| + 1 && worlds[0] == Issuance.START
    && forall i :: 0 <= i < |steps| ==> Served(env, rings, suite, worlds[i], steps[i], worlds[i + 1])
  }

  lemma ServedStepIsStep(c: Crypto, turns: seq<Turn>, rings: seq<Keyring>, suite: Pool.Suite, base: Issuance.Env,
                         w: Issuance.World, step: Issuance.Step, t: Issuance.World)
    requires IsRun(c, turns, rings) && |turns| <= 9007199254740992 + 1
    requires Served(EnvOf(turns, suite, base), rings, suite, w, step, t)
    ensures t == Issuance.Apply(EnvOf(turns, suite, base), w, step)
  {
    if step.SignOrder? {
      var response :| MadeByPools(rings, suite, step.order, response) &&
        t == Issuance.SetPhase(w, step.request, Issuance.Signed(step.order, response));
      PoolsMakeTheBundle(c, turns, rings, suite, base, step.order, response);
    }
  }

  /** Orders that pass a check name an epoch of the history. */
  lemma PassedOrdersAreSafe(c: Crypto, turns: seq<Turn>, rings: seq<Keyring>, steps: seq<Issuance.Step>)
    requires IsRun(c, turns, rings) && |turns| <= 9007199254740992 + 1
    requires forall i :: 0 <= i < |steps| && steps[i].CheckOrder? ==> Held(rings, steps[i].check.keyring)
    ensures Answers.NoCollisions(steps)
  {
    forall o | o in Accounts.OrdersOf(steps) ensures NulFree(o.epoch) {
      var k :| 0 <= k < |steps| && steps[k].CheckOrder? && Issuance.Verdict(steps[k].check) == Success(o);
      var i, m := HeldEpochWasMade(c, turns, rings, steps[k].check.keyring, o.epoch);
    }
    Answers.SafeOrdersDoNotCollide(steps);
  }

  /**
   Issuance over any number of replicas, each with its own pool, polls and rotations in flight, is a
   run of the issuance protocol in which BlindSign is a function of epoch and blank, and no order
   passes for another. So all that is proved of such runs holds of it.
   */
  lemma ServedRunIsRun(c: Crypto, turns: seq<Turn>, rings: seq<Keyring>, suite: Pool.Suite, base: Issuance.Env,
                       worlds: seq<Issuance.World>, steps: seq<Issuance.Step>)
    requires IsRun(c, turns, rings) && |turns| <= 9007199254740992 + 1
    requires ServedRun(EnvOf(turns, suite, base), rings, suite, worlds, steps)
    ensures Issuance.Run(EnvOf(turns, suite, base), worlds, steps)
    ensures Answers.NoCollisions(steps)
  {
    forall i | 0 <= i < |steps|
      ensures Issuance.Enabled(worlds[i], steps[i])
      ensures worlds[i + 1] == Issuance.Apply(EnvOf(turns, suite, base), worlds[i], steps[i])
      ensures steps[i].CheckOrder? ==> Held(rings, steps[i].check.keyring)
    {
      assert Served(EnvOf(turns, suite, base), rings, suite, worlds[i], steps[i], worlds[i + 1]);
      ServedStepIsStep(c, turns, rings, suite, base, worlds[i], steps[i], worlds[i + 1]);
    }
    PassedOrdersAreSafe(c, turns, rings, steps);
  }

  /**
   An epoch past its window issues nothing: every commit was checked, under a keyring its replica
   held, at an instant between the epoch's start and its deadline as that keyring knows it.
   */
  lemma CommitsAreInsideTheirDeadline(c: Crypto, turns: seq<Turn>, rings: seq<Keyring>, suite: Pool.Suite, base: Issuance.Env,
                                      worlds: seq<Issuance.World>, steps: seq<Issuance.Step>, i: nat, b: nat)
    returns (k: nat, j: nat, m: nat)
    requires CryptoOk(c) && TurnsOk(turns) && ConstantGrace(turns) && IsRun(c, turns, rings)
    requires ServedRun(EnvOf(turns, suite, base), rings, suite, worlds, steps) && i < |worlds| && b < |worlds[i].commits|
    ensures k < i && steps[k].CheckOrder? && steps[k].request == worlds[i].commits[b].request
    ensures m <= j < |turns| && steps[k].check.keyring == rings[j] && worlds[i].commits[b].order.epoch == IdOf(m)
    ensures turns[m].now <= steps[k].check.at < Deadline(turns, m, j)
  {
    ServedRunIsRun(c, turns, rings, suite, base, worlds, steps);
    k := Answers.EveryCommitWasChecked(EnvOf(turns, suite, base), worlds, steps, i, b);
    assert Served(EnvOf(turns, suite, base), rings, suite, worlds[k], steps[k], worlds[k + 1]);
    j, m := UsableIsBeforeDeadline(c, turns, rings, steps[k].check.keyring, worlds[i].commits[b].order.epoch, steps[k].check.at);
  }

  lemma UsableIsBeforeDeadline(c: Crypto, turns: seq<Turn>, rings: seq<Keyring>, k: Keyring, epoch: string, at: int)
    returns (j: nat, m: nat)
    requires CryptoOk(c) && TurnsOk(turns) && ConstantGrace(turns) && IsRun(c, turns, rings)
    requires Held(rings, k) && UsableEpoch(k, epoch, at).Some?
    ensures m <= j < |turns| && k == rings[j] && epoch == IdOf(m) && turns[m].now <= at < Deadline(turns, m, j)
  {
    j, m := HeldEpochWasMade(c, turns, rings, k, epoch);
    RetiredEpochsEndOnTime(c, turns, rings, m, j);
  }

  /**
   The issuer keeps its word without storing a response: over replicas and rotations, all answers
   under one reference and key are byte for byte the same, and each is covered by one commit.
   */
  lemma RetriesAreByteIdentical(c: Crypto, turns: seq<Turn>, rings: seq<Keyring>, suite: Pool.Suite, base: Issuance.Env,
                                worlds: seq<Issuance.World>, steps: seq<Issuance.Step>, i: nat,
                                d: Issuance.Delivery, f: Issuance.Delivery) returns (b: nat)
    requires IsRun(c, turns, rings) && |turns| <= 9007199254740992 + 1
    requires ServedRun(EnvOf(turns, suite, base), rings, suite, worlds, steps) && i < |worlds|
    requires Accounts.HashInjective(EnvOf(turns, suite, base))
    requires d in worlds[i].deliveries && f in worlds[i].deliveries
    requires d.reference == f.reference && d.key == f.key && d.key.Some?
    ensures d.response == f.response
    ensures Answers.Backs(worlds[i], d, b) && Answers.Backs(worlds[i], f, b)
  {
    var env := EnvOf(turns, suite, base);
    ServedRunIsRun(c, turns, rings, suite, base, worlds, steps);
    b := Answers.EveryDeliveryIsCoveredOnce(env, worlds, steps, i, d);
    var other := Answers.EveryDeliveryIsCoveredOnce(env, worlds, steps, i, f);
    assert Accounts.Covers(worlds[i], d, other);
  }
}
