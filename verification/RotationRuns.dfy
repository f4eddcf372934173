/** Runs of rotations from no keyring at all, under a clock that never goes back. */
module RotationRuns {
  import opened Common
  import opened Base64
  import opened EpochIds
  import opened KeyringModel
  import opened Rotation

  ghost predicate TurnsOk(turns: seq<Turn>) {
    && |turns| <= 9007199254740992
    && (forall i :: 0 <= i < |turns| ==>
          turns[i].epochMs > 0 && turns[i].pair.publicDer != [] && turns[i].pair.privatePem != "")
    && (forall i, j :: 0 <= i < j < |turns| ==> turns[i].now <= turns[j].now)
  }

  function Before(rings: seq<Keyring>, i: nat): Option<Keyring>
    requires i <= |rings|
  {
    if i == 0 then None else Some(rings[i - 1])
  }

  predicate Follows(c: Crypto, prior: Option<Keyring>, t: Turn, k: Keyring) {
    NextKeyring(c, prior, t) == Success(k)
  }

  /** `Follows` as a relation between a keyring, a turn and the next keyring. */
  function Step(c: Crypto): (Option<Keyring>, Turn, Keyring) -> bool {
    (prior, t, k) => Follows(c, prior, t, k)
  }

  /** Each keyring is related to the one before it. */
  ghost predicate Chain(step: (Option<Keyring>, Turn, Keyring) -> bool, turns: seq<Turn>, rings: seq<Keyring>) {
    && |rings| == |turns|
    && forall i :: 0 <= i < |turns| ==> step(Before(rings, i), turns[i], rings[i])
  }

  /** Each keyring is the rotation of the one before it, the first of none. */
  ghost predicate IsRun(c: Crypto, turns: seq<Turn>, rings: seq<Keyring>) {
    Chain(Step(c), turns, rings)
  }

  lemma RunAt(c: Crypto, turns: seq<Turn>, rings: seq<Keyring>, i: nat)
    requires IsRun(c, turns, rings) && i < |turns|
    ensures Follows(c, Before(rings, i), turns[i], rings[i])
  {
    assert Step(c)(Before(rings, i), turns[i], rings[i]);
  }

  lemma ExtendChain(step: (Option<Keyring>, Turn, Keyring) -> bool,
                    turns: seq<Turn>, t: Turn, rings: seq<Keyring>, k: Keyring)
    requires Chain(step, turns, rings) && step(Before(rings, |rings|), t, k)
    ensures Chain(step, turns + [t], rings + [k])
  {
    forall i | 0 <= i < |turns| + 1 ensures step(Before(rings + [k], i), (turns + [t])[i], (rings + [k])[i]) {
      assert Before(rings + [k], i) == Before(rings, i);
    }
  }

  /** Entry `e` is the epoch created by turn `m`, with that turn's key. */
  predicate MadeBy(turns: seq<Turn>, m: nat, e: EpochEntry) {
    && m < |turns|
    && e.document.epochId == IdOf(m)
    && e.document.notBefore == turns[m].now
    && e.document.pubkey == Encode(turns[m].pair.publicDer)
    && e.privateKey == turns[m].pair.privatePem
  }

  /** The current epoch is that of turn `i`, and every entry was made by a turn up to it. */
  ghost predicate RingMade(turns: seq<Turn>, i: nat, k: Keyring) {
    && k.currentEpoch == IdOf(i)
    && forall e :: e in k.epochs ==> exists m :: 0 <= m <= i && MadeBy(turns, m, e)
  }

  ghost predicate RingOk(turns: seq<Turn>, i: nat, k: Keyring) {
    StructureOk(k) && RingMade(turns, i, k)
  }

  lemma FirstStructure(c: Crypto, t: Turn)
    requires CryptoOk(c) && t.epochMs > 0 && t.pair.publicDer != [] && t.pair.privatePem != ""
    ensures StructureOk(Rotated(c, None, "0", t))
  {
    var k := Rotated(c, None, "0", t);
    FreshEntryOk(c, "0", t);
    AcceptsExactlyCanonicalEncodings(k.rootPublicKey, c.spkiOf(t.root));
    assert k.epochs == [Fresh(c, "0", t)];
    assert Ids(k.epochs) == ["0"];
  }

  lemma FirstRing(c: Crypto, turns: seq<Turn>)
    requires CryptoOk(c) && TurnsOk(turns) && turns != []
    ensures NextKeyring(c, None, turns[0]).Success?
    ensures RingOk(turns, 0, NextKeyring(c, None, turns[0]).value)
  {
    RotatedVerifies(c, None, "0", turns[0]);
    FirstStructure(c, turns[0]);
    var k := Rotated(c, None, "0", turns[0]);
    assert k.epochs == [Fresh(c, "0", turns[0])];
    assert MadeBy(turns, 0, k.epochs[0]);
  }

  /** A retained entry is still the epoch of the turn that created it. */
  lemma RetainedMade(c: Crypto, turns: seq<Turn>, i: nat, epochs: seq<EpochEntry>, e: EpochEntry)
    requires 0 < i < |turns| && e in Retained(c, epochs, turns[i])
    requires forall f :: f in epochs ==> exists m :: 0 <= m < i && MadeBy(turns, m, f)
    ensures exists m :: 0 <= m < i && MadeBy(turns, m, e)
  {
    RetainedExactly(c, epochs, turns[i], e);
    var j :| 0 <= j < |epochs| && Survives(epochs[j], turns[i]) && e == Cut(c, epochs[j], turns[i]);
    assert epochs[j] in epochs;
    var m :| 0 <= m < i && MadeBy(turns, m, epochs[j]);
    assert MadeBy(turns, m, e);
  }

  lemma NextRingEntries(c: Crypto, turns: seq<Turn>, i: nat, epochs: seq<EpochEntry>, next: seq<EpochEntry>)
    requires 0 < i < |turns|
    requires forall f :: f in epochs ==> exists m :: 0 <= m < i && MadeBy(turns, m, f)
    requires next == [Fresh(c, IdOf(i), turns[i])] + Retained(c, epochs, turns[i])
    ensures forall e :: e in next ==> exists m :: 0 <= m <= i && MadeBy(turns, m, e)
  {
    forall e | e in next ensures exists m :: 0 <= m <= i && MadeBy(turns, m, e) {
      if e in Retained(c, epochs, turns[i]) {
        RetainedMade(c, turns, i, epochs, e);
      } else {
        assert MadeBy(turns, i, e);
      }
    }
  }

  /** Survivors began no later than now and are not named like the new epoch. */
  lemma SurvivorsAreFine(turns: seq<Turn>, i: nat, prior: Keyring)
    requires TurnsOk(turns) && 0 < i < |turns| && RingOk(turns, i - 1, prior)
    ensures IdIsNew(prior, IdOf(i), turns[i]) && WindowsStayOpen(prior, turns[i])
  {
    forall j | 0 <= j < |prior.epochs| && Survives(prior.epochs[j], turns[i])
      ensures prior.epochs[j].document.epochId != IdOf(i)
      ensures prior.epochs[j].document.notBefore < CutTo(prior.epochs[j], turns[i])
    {
      assert prior.epochs[j] in prior.epochs;
      var m :| 0 <= m <= i - 1 && MadeBy(turns, m, prior.epochs[j]);
      if IdOf(m) == IdOf(i) {
        IdsAreInjective(m, i);
      }
    }
  }

  lemma NextRing(c: Crypto, turns: seq<Turn>, i: nat, prior: Keyring)
    requires CryptoOk(c) && TurnsOk(turns) && 0 < i < |turns| && RingOk(turns, i - 1, prior)
    ensures NextKeyring(c, Some(prior), turns[i]).Success?
    ensures RingOk(turns, i, NextKeyring(c, Some(prior), turns[i]).value)
  {
    NextIdAdvances(i - 1);
    SurvivorsAreFine(turns, i, prior);
    ResultParsesIff(c, prior, turns[i]);
    ParsesExactlyGoodStructure(NextKeyring(c, Some(prior), turns[i]).value);
    NextRingEntries(c, turns, i, prior.epochs, NextKeyring(c, Some(prior), turns[i]).value.epochs);
  }

  /**
   Every keyring of every run passes all structural checks; the current id is the number of the
   rotation, so ids strictly increase; and each epoch carries the key of the turn that created it.
   */
  lemma {:induction false} EveryRingIsGood(c: Crypto, turns: seq<Turn>, rings: seq<Keyring>, i: nat)
    requires CryptoOk(c) && TurnsOk(turns) && IsRun(c, turns, rings) && i < |turns|
    ensures RingOk(turns, i, rings[i])
    ensures ParseKeyring(rings[i]) == Success(rings[i])
    ensures ParseId(rings[i].currentEpoch) == Some(i)
  {
    if i == 0 {
      FirstRing(c, turns);
    } else {
      EveryRingIsGood(c, turns, rings, i - 1);
      NextRing(c, turns, i, rings[i - 1]);
    }
    RunAt(c, turns, rings, i);
    ParsesExactlyGoodStructure(rings[i]);
    IdParses(i);
  }

  lemma ExtendRun(c: Crypto, turns: seq<Turn>, t: Turn, rings: seq<Keyring>, k: Keyring)
    requires IsRun(c, turns, rings) && Follows(c, Before(rings, |rings|), t, k)
    ensures IsRun(c, turns + [t], rings + [k])
  {
    assert Step(c)(Before(rings, |rings|), t, k);
    ExtendChain(Step(c), turns, t, rings, k);
  }

  lemma TurnsPrefix(turns: seq<Turn>, n: nat)
    requires TurnsOk(turns) && n <= |turns|
    ensures TurnsOk(turns[..n])
  {
  }

  /** No rotation of such a history is ever refused: a run exists for every sequence of turns. */
  lemma {:induction false} RunsExist(c: Crypto, turns: seq<Turn>) returns (rings: seq<Keyring>)
    requires CryptoOk(c) && TurnsOk(turns)
    ensures IsRun(c, turns, rings)
  {
    rings := [];
    if turns == [] {
    } else {
      var n := |turns| - 1;
      TurnsPrefix(turns, n);
      rings := RunsExist(c, turns[..n]);
      var k := NextExists(c, turns, n, rings);
      ExtendRun(c, turns[..n], turns[n], rings, k);
      assert turns == turns[..n] + [turns[n]];
      rings := rings + [k];
    }
  }

  lemma NextExists(c: Crypto, turns: seq<Turn>, n: nat, rings: seq<Keyring>) returns (k: Keyring)
    requires CryptoOk(c) && TurnsOk(turns) && n < |turns| && IsRun(c, turns[..n], rings)
    ensures Follows(c, Before(rings, n), turns[n], k)
  {
    if n == 0 {
      FirstRing(c, turns);
    } else {
      TurnsPrefix(turns, n);
      EveryRingIsGood(c, turns[..n], rings, n - 1);
      SameRing(turns[..n], turns, n - 1, rings[n - 1]);
      NextRing(c, turns, n, rings[n - 1]);
    }
    k := NextKeyring(c, Before(rings, n), turns[n]).value;
  }

  lemma SameRing(a: seq<Turn>, b: seq<Turn>, i: nat, k: Keyring)
    requires RingOk(a, i, k) && a <= b
    ensures RingOk(b, i, k)
  {
    forall e | e in k.epochs ensures exists m :: 0 <= m <= i && MadeBy(b, m, e) {
      var m :| 0 <= m <= i && MadeBy(a, m, e);
      assert MadeBy(b, m, e);
    }
  }

  // ----- one key for one id -----

  /** Each rotation names its epoch by its number and carries over only entries made before. */
  lemma {:induction false} EveryEntryHasItsMaker(c: Crypto, turns: seq<Turn>, rings: seq<Keyring>, i: nat)
    requires IsRun(c, turns, rings) && i < |turns| <= 9007199254740992 + 1
    ensures RingMade(turns, i, rings[i])
  {
    RunAt(c, turns, rings, i);
    if i == 0 {
      assert rings[0].epochs == [Fresh(c, "0", turns[0])];
      assert MadeBy(turns, 0, rings[0].epochs[0]);
    } else {
      EveryEntryHasItsMaker(c, turns, rings, i - 1);
      NextIdAdvances(i - 1);
      NextRingEntries(c, turns, i, rings[i - 1].epochs, rings[i].epochs);
    }
  }

  /** Across the whole history an epoch id is bound to one key pair, whatever the clock did. */
  lemma IdIsBoundToOneKey(c: Crypto, turns: seq<Turn>, rings: seq<Keyring>, i: nat, j: nat, e: EpochEntry, f: EpochEntry)
    requires IsRun(c, turns, rings) && i < |turns| <= 9007199254740992 + 1 && j < |turns|
    requires e in rings[i].epochs && f in rings[j].epochs && e.document.epochId == f.document.epochId
    ensures e.privateKey == f.privateKey && e.document.pubkey == f.document.pubkey
  {
    EveryEntryHasItsMaker(c, turns, rings, i);
    EveryEntryHasItsMaker(c, turns, rings, j);
    var m :| 0 <= m <= i && MadeBy(turns, m, e);
    var n :| 0 <= n <= j && MadeBy(turns, n, f);
    IdsAreInjective(m, n);
  }

  /** ... and no longer: a rotation away from epoch 2^53 gives that very id a new key. */
  lemma LastIdIsBoundAgain(c: Crypto, prior: Keyring, t: Turn, k: Keyring)
    requires prior.currentEpoch == IdOf(9007199254740992) && Follows(c, Some(prior), t, k)
    ensures k.currentEpoch == IdOf(9007199254740992)
    ensures exists e :: e in k.epochs && e.document.epochId == IdOf(9007199254740992) && e.privateKey == t.pair.privatePem
  {
    IdSticks(9007199254740992);
    assert k.epochs[0] == Fresh(c, IdOf(9007199254740992), t);
  }

  // ----- when an epoch ends -----

  /** When the epoch of turn `m` ends, as seen after turn `i`: its own end, or grace after its retirement. */
  function Deadline(turns: seq<Turn>, m: nat, i: nat): int
    requires m <= i < |turns|
  {
    if m == i then turns[m].now + turns[m].epochMs
    else Min(turns[m].now + turns[m].epochMs, turns[m + 1].now + turns[m + 1].graceMs)
  }

  ghost predicate ConstantGrace(turns: seq<Turn>) {
    forall i, j :: 0 <= i < |turns| && 0 <= j < |turns| ==> turns[i].graceMs == turns[j].graceMs
  }

  /** Epoch `m` is in keyring `i` exactly while its deadline lies ahead, and ends exactly then. */
  ghost predicate EndsAtDeadline(turns: seq<Turn>, rings: seq<Keyring>, m: nat, i: nat)
    requires m <= i < |turns| && i < |rings|
  {
    var found := Find(rings[i].epochs, IdOf(m));
    && (found.Some? <==> m == i || turns[i].now < Deadline(turns, m, i))
    && (found.Some? ==> found.value.document.notAfter == Deadline(turns, m, i))
  }

  /**
   However many rotations follow, a retired epoch's end stays the smaller of its original end and
   its retirement plus grace; it is dropped only once that is past, and kept until then.
   */
  lemma {:induction false} RetiredEpochsEndOnTime(c: Crypto, turns: seq<Turn>, rings: seq<Keyring>, m: nat, i: nat)
    requires CryptoOk(c) && TurnsOk(turns) && IsRun(c, turns, rings) && ConstantGrace(turns)
    requires m <= i < |turns|
    ensures EndsAtDeadline(turns, rings, m, i)
    decreases i
  {
    EveryRingIsGood(c, turns, rings, i);
    RunAt(c, turns, rings, i);
    if m == i {
      CurrentEnds(c, turns, rings, i);
    } else {
      RetiredEpochsEndOnTime(c, turns, rings, m, i - 1);
      EveryRingIsGood(c, turns, rings, i - 1);
      DeadlineStep(c, turns, rings, m, i);
    }
  }

  lemma CurrentEnds(c: Crypto, turns: seq<Turn>, rings: seq<Keyring>, i: nat)
    requires i < |turns| && i < |rings| && rings[i].currentEpoch == IdOf(i)
    requires Follows(c, Before(rings, i), turns[i], rings[i])
    ensures EndsAtDeadline(turns, rings, i, i)
  {
    assert rings[i].epochs[0] == Fresh(c, IdOf(i), turns[i]);
  }

  /** What a rotation does to the entry of an older epoch. */
  lemma FindAfterRotation(c: Crypto, prior: Keyring, t: Turn, k: Keyring, id: string)
    requires UniqueIds(prior.epochs) && Follows(c, Some(prior), t, k) && id != k.currentEpoch
    ensures Find(k.epochs, id) ==
            var found := Find(prior.epochs, id);
            if found.Some? && Survives(found.value, t) then Some(Cut(c, found.value, t)) else None
  {
    assert k.epochs[1..] == Retained(c, prior.epochs, t);
    FindRetained(c, prior.epochs, t, id);
  }

  /** One more rotation cuts a deadline to the end of its own grace window, if that comes first. */
  lemma DeadlineMoves(turns: seq<Turn>, m: nat, i: nat)
    requires TurnsOk(turns) && ConstantGrace(turns) && m < i < |turns|
    ensures Deadline(turns, m, i) == Min(Deadline(turns, m, i - 1), turns[i].now + turns[i].graceMs)
    ensures m + 1 < i ==> Deadline(turns, m, i) == Deadline(turns, m, i - 1)
    ensures turns[i - 1].now <= turns[i].now
  {
    assert turns[m + 1].graceMs == turns[i].graceMs;
    assert m + 1 < i ==> turns[m + 1].now <= turns[i].now;
  }

  lemma DeadlineStep(c: Crypto, turns: seq<Turn>, rings: seq<Keyring>, m: nat, i: nat)
    requires TurnsOk(turns) && |rings| == |turns| && ConstantGrace(turns) && m < i < |turns|
    requires UniqueIds(rings[i - 1].epochs) && rings[i].currentEpoch == IdOf(i)
    requires Follows(c, Some(rings[i - 1]), turns[i], rings[i])
    requires EndsAtDeadline(turns, rings, m, i - 1)
    ensures EndsAtDeadline(turns, rings, m, i)
  {
    if IdOf(m) == IdOf(i) {
      IdsAreInjective(m, i);
    }
    DeadlineMoves(turns, m, i);
    FindAfterRotation(c, rings[i - 1], turns[i], rings[i], IdOf(m));
    EndsStep(c, Find(rings[i - 1].epochs, IdOf(m)), Find(rings[i].epochs, IdOf(m)), turns[i],
             Deadline(turns, m, i - 1), Deadline(turns, m, i));
  }

  /** What was found and ends at `before` is found after the turn, and ends at `after`, if that lies ahead. */
  lemma EndsStep(c: Crypto, found: Option<EpochEntry>, next: Option<EpochEntry>, t: Turn, before: int, after: int)
    requires found.Some? ==> found.value.document.notAfter == before
    requires next == if found.Some? && Survives(found.value, t) then Some(Cut(c, found.value, t)) else None
    requires after == Min(before, t.now + t.graceMs)
    ensures next.Some? <==> found.Some? && t.now < after
    ensures next.Some? ==> next.value.document.notAfter == after
  {
  }
}
