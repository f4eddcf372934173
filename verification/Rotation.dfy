/** Rotation of the epoch keyring: one rotation, and any run of them. */
module Rotation {
  import opened Common
  import opened Base64
  import opened EpochIds
  import opened KeyringModel

  /** The root key operations: signing a document, verifying it, and exporting the public half. */
  datatype Crypto = Crypto(
    sign: (string, Document) -> string,
    verify: (string, Document, string) -> bool,
    spkiOf: string -> seq<Byte>)

  /** Verification accepts what signing made, under the matching public key. */
  ghost predicate CryptoOk(c: Crypto) {
    && (forall root, d :: c.sign(root, d) != "" && c.verify(Encode(c.spkiOf(root)), d, c.sign(root, d)))
    && (forall root :: c.spkiOf(root) != [])
  }

  /** A freshly generated epoch key. */
  datatype KeyPair = KeyPair(publicDer: seq<Byte>, privatePem: string)

  datatype Turn = Turn(root: string, pair: KeyPair, now: int, epochMs: int, graceMs: int)

  function Min(a: int, b: int): int {
    if a <= b then a else b
  }

  /** Signs the published fields; the private key travels along. */
  function Sealed(c: Crypto, d: Document, privateKey: string, root: string): EpochEntry {
    EpochEntry(d, c.sign(root, d), privateKey)
  }

  /** The instant an outgoing epoch is cut to. */
  function CutTo(e: EpochEntry, t: Turn): int {
    Min(e.document.notAfter, t.now + t.graceMs)
  }

  predicate Survives(e: EpochEntry, t: Turn) {
    t.now < CutTo(e, t)
  }

  function Cut(c: Crypto, e: EpochEntry, t: Turn): EpochEntry {
    Sealed(c, e.document.(notAfter := CutTo(e, t)), e.privateKey, t.root)
  }

  /** Outgoing epochs, cut to the grace window; those already over are pruned. */
  function Retained(c: Crypto, epochs: seq<EpochEntry>, t: Turn): seq<EpochEntry> {
    if epochs == [] then []
    else
      var last := epochs[|epochs| - 1];
      Retained(c, epochs[..|epochs| - 1], t) + (if Survives(last, t) then [Cut(c, last, t)] else [])
  }

  function Fresh(c: Crypto, id: string, t: Turn): EpochEntry {
    Sealed(c, Document(id, t.now, t.now + t.epochMs, SUITE, Encode(t.pair.publicDer)), t.pair.privatePem, t.root)
  }

  predicate SignaturesVerify(c: Crypto, k: Keyring) {
    forall i :: 0 <= i < |k.epochs| ==> c.verify(k.rootPublicKey, k.epochs[i].document, k.epochs[i].rootSig)
  }

  function EpochsOf(existing: Option<Keyring>): seq<EpochEntry> {
    if existing.Some? then existing.value.epochs else []
  }

  function CurrentOf(existing: Option<Keyring>): Option<string> {
    if existing.Some? then Some(existing.value.currentEpoch) else None
  }

  /** The keyring a rotation builds once it has an id for the new epoch. */
  function Rotated(c: Crypto, existing: Option<Keyring>, id: string, t: Turn): Keyring {
    Keyring(id, Encode(c.spkiOf(t.root)), [Fresh(c, id, t)] + Retained(c, EpochsOf(existing), t))
  }

  function NextKeyring(c: Crypto, existing: Option<Keyring>, t: Turn): Result<Keyring> {
    var id := NextId(CurrentOf(existing));
    if id.None? then Failure("cannot derive the next epoch")
    else
      var keyring := Rotated(c, existing, id.value, t);
      if SignaturesVerify(c, keyring) then Success(keyring) else Failure("root_sig does not verify under the root key")
  }

  /** The rotation as it is carried out: the retained epochs are pushed one by one. */
  method RotateKeyring(c: Crypto, existing: Option<Keyring>, t: Turn) returns (result: Result<Keyring>)
    ensures result == NextKeyring(c, existing, t)
  {
    var id := NextId(CurrentOf(existing));
    if id.None? {
      return Failure("cannot derive the next epoch");
    }
    var newest := Fresh(c, id.value, t);
    var epochs := EpochsOf(existing);
    var graceUntil := t.now + t.graceMs;
    var retained: seq<EpochEntry> := [];
    for i := 0 to |epochs|
      invariant retained == Retained(c, epochs[..i], t)
    {
      assert epochs[..i + 1][..i] == epochs[..i];
      var notAfter := Min(epochs[i].document.notAfter, graceUntil);
      if notAfter <= t.now {
        continue;
      }
      retained := retained + [Sealed(c, epochs[i].document.(notAfter := notAfter), epochs[i].privateKey, t.root)];
    }
    assert epochs[..|epochs|] == epochs;
    var keyring := Keyring(id.value, Encode(c.spkiOf(t.root)), [newest] + retained);
    if SignaturesVerify(c, keyring) {
      result := Success(keyring);
    } else {
      result := Failure("root_sig does not verify under the root key");
    }
  }

  // ----- what is retained -----

  /** A retained entry is the cut of a surviving prior one, and every surviving one is retained. */
  lemma {:induction false} RetainedExactly(c: Crypto, epochs: seq<EpochEntry>, t: Turn, e: EpochEntry)
    ensures e in Retained(c, epochs, t) <==>
            exists i :: 0 <= i < |epochs| && Survives(epochs[i], t) && e == Cut(c, epochs[i], t)
  {
    if epochs == [] {
    } else {
      var init, n := epochs[..|epochs| - 1], |epochs| - 1;
      RetainedExactly(c, init, t, e);
      assert forall i :: 0 <= i < n ==> init[i] == epochs[i];
    }
  }

  /** Epochs are retained one by one, in order. */
  lemma {:induction false} RetainedInOrder(c: Crypto, a: seq<EpochEntry>, b: seq<EpochEntry>, t: Turn)
    ensures Retained(c, a + b, t) == Retained(c, a, t) + Retained(c, b, t)
  {
    if b == [] {
      assert a + b == a;
    } else {
      assert (a + b)[..|a + b| - 1] == a + b[..|b| - 1];
      RetainedInOrder(c, a, b[..|b| - 1], t);
    }
  }

  /** One epoch is kept if its end, or the end of the grace window if that comes first, lies ahead; it is
      then signed again with that end, everything else as it was. */
  lemma OneIsRetained(c: Crypto, e: EpochEntry, t: Turn)
    ensures var end := if e.document.notAfter <= t.now + t.graceMs then e.document.notAfter else t.now + t.graceMs;
      var d := Document(e.document.epochId, e.document.notBefore, end, e.document.alg, e.document.pubkey);
      Retained(c, [e], t) == if t.now < end then [EpochEntry(d, c.sign(t.root, d), e.privateKey)] else []
  {
    assert [e][..0] == [];
  }

  /** The rotated keyring in full: the new epoch first, signed for its window, then what is retained. */
  lemma RotatedInFull(c: Crypto, existing: Option<Keyring>, t: Turn)
    requires NextKeyring(c, existing, t).Success?
    ensures var k := NextKeyring(c, existing, t).value;
      var d := Document(k.currentEpoch, t.now, t.now + t.epochMs, "RSABSSA-SHA384-PSS-Randomized", Encode(t.pair.publicDer));
      && NextId(if existing.Some? then Some(existing.value.currentEpoch) else None) == Some(k.currentEpoch)
      && k.rootPublicKey == Encode(c.spkiOf(t.root))
      && k.epochs == [EpochEntry(d, c.sign(t.root, d), t.pair.privatePem)]
                     + (if existing.Some? then Retained(c, existing.value.epochs, t) else [])
  {
  }

  /** No rotation is published unless each of its documents verifies. */
  lemma PublishedVerifies(c: Crypto, existing: Option<Keyring>, t: Turn, e: EpochEntry)
    requires NextKeyring(c, existing, t).Success? && e in NextKeyring(c, existing, t).value.epochs
    ensures c.verify(NextKeyring(c, existing, t).value.rootPublicKey, e.document, e.rootSig)
  {
    var k := NextKeyring(c, existing, t).value;
    assert SignaturesVerify(c, k);
    var i :| 0 <= i < |k.epochs| && k.epochs[i] == e;
  }

  /** Retaining keeps ids distinct, and brings in no new one. */
  lemma {:induction false} RetainedIds(c: Crypto, epochs: seq<EpochEntry>, t: Turn)
    requires UniqueIds(epochs)
    ensures UniqueIds(Retained(c, epochs, t))
    ensures forall x :: x in Ids(Retained(c, epochs, t)) ==> x in Ids(epochs)
  {
    if epochs == [] {
    } else {
      var init, last := epochs[..|epochs| - 1], epochs[|epochs| - 1];
      assert Ids(epochs) == Ids(init) + [last.document.epochId];
      assert Ids(init) == Ids(epochs)[..|init|];
      RetainedIds(c, init, t);
      var kept := Retained(c, init, t);
      if Survives(last, t) {
        assert Ids(kept + [Cut(c, last, t)]) == Ids(kept) + [last.document.epochId];
        assert forall i :: 0 <= i < |init| ==> Ids(init)[i] == Ids(epochs)[i] != Ids(epochs)[|init|];
        LastIsNew(Ids(kept), last.document.epochId);
      } else {
        assert Retained(c, epochs, t) == kept;
      }
    }
  }

  /** A rotation's result is always properly signed, so it is never refused on that account. */
  lemma RotatedVerifies(c: Crypto, existing: Option<Keyring>, id: string, t: Turn)
    requires CryptoOk(c)
    ensures SignaturesVerify(c, Rotated(c, existing, id, t))
  {
    var k := Rotated(c, existing, id, t);
    forall i | 0 <= i < |k.epochs| ensures c.verify(k.rootPublicKey, k.epochs[i].document, k.epochs[i].rootSig) {
      if i > 0 {
        assert k.epochs[i] == Retained(c, EpochsOf(existing), t)[i - 1];
        RetainedExactly(c, EpochsOf(existing), t, k.epochs[i]);
      }
    }
  }

  // ----- a stale reader -----

  lemma FindRetained(c: Crypto, epochs: seq<EpochEntry>, t: Turn, id: string)
    requires UniqueIds(epochs)
    ensures var prior, next := Find(epochs, id), Find(Retained(c, epochs, t), id);
      next == if prior.Some? && Survives(prior.value, t) then Some(Cut(c, prior.value, t)) else None
  {
    RetainedIds(c, epochs, t);
    FindIsMembership(epochs, id);
    var kept := Retained(c, epochs, t);
    FindIsMembership(kept, id);
    var prior := Find(epochs, id);
    if prior.Some? && Survives(prior.value, t) {
      var e := Cut(c, prior.value, t);
      RetainedExactly(c, epochs, t, e);
      var i :| 0 <= i < |kept| && kept[i] == e;
      assert kept[i].document.epochId == id;
    } else if Find(kept, id).Some? {
      var e := Find(kept, id).value;
      RetainedExactly(c, epochs, t, e);
    }
  }

  /**
   A reader that still holds the old keyring is harmless during the grace window: from the rotation
   until its end every epoch it knows, bar one named like the new epoch, is usable for it exactly when
   it is usable after the rotation, under the same key pair. From the end of the window on no such
   epoch is usable any more, and at no instant does rotation make one usable that was not. An old
   epoch named like the new one gives way to it.
   */
  lemma StaleReaderIsHarmless(c: Crypto, prior: Keyring, t: Turn, id: string, at: int)
    requires UniqueIds(prior.epochs) && NextKeyring(c, Some(prior), t).Success?
    ensures var next := NextKeyring(c, Some(prior), t).value;
      var before, after := UsableEpoch(prior, id, at), UsableEpoch(next, id, at);
      if id == next.currentEpoch then
        after == if t.now <= at < t.now + t.epochMs then Some(Fresh(c, id, t)) else None
      else
        && (t.now <= at < t.now + t.graceMs ==> (before.Some? <==> after.Some?))
        && (t.now + t.graceMs <= at ==> after.None?)
        && (after.Some? ==> before.Some? && after.value.privateKey == before.value.privateKey
                            && after.value.document.pubkey == before.value.document.pubkey)
  {
    var next := NextKeyring(c, Some(prior), t).value;
    assert next.epochs[0] == Fresh(c, next.currentEpoch, t);
    assert next.epochs[1..] == Retained(c, prior.epochs, t);
    FindRetained(c, prior.epochs, t, id);
  }

  /** If the issuer accepts the result and grace is positive, an old epoch named like the new one was
      over, so no reader loses a usable epoch to it. */
  lemma NamesakeWasOver(c: Crypto, prior: Keyring, t: Turn, at: int)
    requires UniqueIds(prior.epochs) && NextKeyring(c, Some(prior), t).Success? && t.graceMs > 0 && t.now <= at
    requires ParseKeyring(NextKeyring(c, Some(prior), t).value).Success?
    ensures UsableEpoch(prior, NextKeyring(c, Some(prior), t).value.currentEpoch, at).None?
  {
    var next := NextKeyring(c, Some(prior), t).value;
    ParsesExactlyGoodStructure(next);
    RotatedIds(c, prior, next.currentEpoch, t);
    FindIsMembership(prior.epochs, next.currentEpoch);
    var found := Find(prior.epochs, next.currentEpoch);
    if found.Some? {
      var i :| 0 <= i < |prior.epochs| && prior.epochs[i] == found.value;
      assert !Survives(prior.epochs[i], t);
    }
  }

  /** The new epoch itself is usable from the rotation for the epoch's length, and unknown before. */
  lemma FreshEpochIsUsable(c: Crypto, prior: Option<Keyring>, t: Turn, at: int)
    requires NextKeyring(c, prior, t).Success?
    ensures var next := NextKeyring(c, prior, t).value;
      && (UsableEpoch(next, next.currentEpoch, at).Some? <==> t.now <= at < t.now + t.epochMs)
      && (UsableEpoch(next, next.currentEpoch, at).Some? ==>
            UsableEpoch(next, next.currentEpoch, at).value.privateKey == t.pair.privatePem)
  {
  }

  // ----- when the result parses -----

  /** Every surviving epoch began before the instant it is cut to. */
  ghost predicate WindowsStayOpen(prior: Keyring, t: Turn) {
    forall i :: 0 <= i < |prior.epochs| && Survives(prior.epochs[i], t) ==>
      prior.epochs[i].document.notBefore < CutTo(prior.epochs[i], t)
  }

  /** No surviving epoch already has the new id. */
  ghost predicate IdIsNew(prior: Keyring, id: string, t: Turn) {
    forall i :: 0 <= i < |prior.epochs| && Survives(prior.epochs[i], t) ==> prior.epochs[i].document.epochId != id
  }

  lemma FreshEntryOk(c: Crypto, id: string, t: Turn)
    requires CryptoOk(c) && id != "" && t.pair.publicDer != [] && t.pair.privatePem != ""
    ensures EntryOk(Fresh(c, id, t)) <==> t.epochMs > 0
  {
    AcceptsExactlyCanonicalEncodings(Encode(t.pair.publicDer), t.pair.publicDer);
  }

  lemma RetainedEntriesOk(c: Crypto, prior: Keyring, t: Turn)
    requires CryptoOk(c) && StructureOk(prior) && WindowsStayOpen(prior, t)
    ensures EntriesOk(Retained(c, prior.epochs, t))
  {
    var kept := Retained(c, prior.epochs, t);
    forall j | 0 <= j < |kept| ensures EntryOk(kept[j]) {
      RetainedExactly(c, prior.epochs, t, kept[j]);
    }
  }

  lemma EntriesOkOpen(c: Crypto, prior: Keyring, t: Turn)
    requires EntriesOk(Retained(c, prior.epochs, t))
    ensures WindowsStayOpen(prior, t)
  {
    var kept := Retained(c, prior.epochs, t);
    forall i | 0 <= i < |prior.epochs| && Survives(prior.epochs[i], t)
      ensures prior.epochs[i].document.notBefore < CutTo(prior.epochs[i], t)
    {
      RetainedExactly(c, prior.epochs, t, Cut(c, prior.epochs[i], t));
      var j :| 0 <= j < |kept| && kept[j] == Cut(c, prior.epochs[i], t);
      assert EntryOk(kept[j]);
    }
  }

  ghost predicate EntriesOk(epochs: seq<EpochEntry>) {
    forall i :: 0 <= i < |epochs| ==> EntryOk(epochs[i])
  }

  lemma EntriesOkSplit(first: EpochEntry, rest: seq<EpochEntry>)
    ensures EntriesOk([first] + rest) <==> EntryOk(first) && EntriesOk(rest)
  {
    var all := [first] + rest;
    assert all[0] == first;
    assert forall j :: 0 <= j < |rest| ==> all[j + 1] == rest[j];
  }

  lemma RotatedEntries(c: Crypto, prior: Keyring, id: string, t: Turn)
    requires CryptoOk(c) && StructureOk(prior) && id != "" && t.pair.publicDer != [] && t.pair.privatePem != ""
    ensures EntriesOk(Rotated(c, Some(prior), id, t).epochs) <==> t.epochMs > 0 && WindowsStayOpen(prior, t)
  {
    var kept := Retained(c, prior.epochs, t);
    FreshEntryOk(c, id, t);
    EntriesOkSplit(Fresh(c, id, t), kept);
    if WindowsStayOpen(prior, t) {
      RetainedEntriesOk(c, prior, t);
    }
    if EntriesOk(kept) {
      EntriesOkOpen(c, prior, t);
    }
  }

  lemma RotatedIds(c: Crypto, prior: Keyring, id: string, t: Turn)
    requires UniqueIds(prior.epochs)
    ensures UniqueIds(Rotated(c, Some(prior), id, t).epochs) <==> IdIsNew(prior, id, t)
  {
    var kept := Retained(c, prior.epochs, t);
    var k := Rotated(c, Some(prior), id, t);
    RetainedIds(c, prior.epochs, t);
    FindRetained(c, prior.epochs, t, id);
    FindIsMembership(prior.epochs, id);
    FindIsMembership(kept, id);
    assert Ids(k.epochs) == [id] + Ids(kept);
    assert Ids(k.epochs)[0] == id;
    if id in Ids(kept) {
      var j :| 0 <= j < |kept| && Ids(kept)[j] == id;
      assert Ids(k.epochs)[j + 1] == id;
    } else {
      PrependNoDuplicates(id, Ids(kept));
    }
  }

  /**
   The rotation of a good keyring is again one the issuer accepts exactly when the epoch has a
   positive length, the new id is not one that survives, and every surviving epoch began before the
   instant it is cut to. The last can fail only when the clock has gone back behind an epoch's start.
   */
  lemma ResultParsesIff(c: Crypto, prior: Keyring, t: Turn)
    requires CryptoOk(c) && StructureOk(prior) && t.pair.publicDer != [] && t.pair.privatePem != ""
    requires NextId(Some(prior.currentEpoch)).Some?
    ensures NextKeyring(c, Some(prior), t).Success?
    ensures ParseKeyring(NextKeyring(c, Some(prior), t).value).Success? <==>
            && t.epochMs > 0
            && IdIsNew(prior, NextId(Some(prior.currentEpoch)).value, t)
            && WindowsStayOpen(prior, t)
  {
    var id := NextId(Some(prior.currentEpoch)).value;
    NumeralRoundTrip(ToDouble(ParseId(prior.currentEpoch).value + 1));
    RotatedVerifies(c, Some(prior), id, t);
    RotatedEntries(c, prior, id, t);
    RotatedIds(c, prior, id, t);
    var k := Rotated(c, Some(prior), id, t);
    ParsesExactlyGoodStructure(k);
    AcceptsExactlyCanonicalEncodings(k.rootPublicKey, c.spkiOf(t.root));
    assert Ids(k.epochs)[0] == id;
  }
}
