/** The epoch keyring: its structural checks and the usability window of an epoch. */
module KeyringModel {
  import opened Common
  import opened Base64

  const SUITE := "RSABSSA-SHA384-PSS-Randomized"

  /** The published fields of an epoch; instants are milliseconds since the epoch of the clock. */
  datatype Document = Document(epochId: string, notBefore: int, notAfter: int, alg: string, pubkey: string)

  datatype EpochEntry = EpochEntry(document: Document, rootSig: string, privateKey: string)

  datatype Keyring = Keyring(currentEpoch: string, rootPublicKey: string, epochs: seq<EpochEntry>)

  // ----- parsing -----

  function ParseEpoch(e: EpochEntry): Result<EpochEntry> {
    var d := e.document;
    if d.epochId == "" || d.alg == "" || d.pubkey == "" || e.rootSig == "" || e.privateKey == ""
    then Failure("epoch field must be a non-empty string")
    else if d.alg != SUITE then Failure("unexpected alg")
    else if d.notBefore >= d.notAfter then Failure("not_before must precede not_after")
    else if DecodeStrict(d.pubkey).None? then Failure("pubkey must be base64-encoded SPKI")
    else Success(e)
  }

  function Ids(epochs: seq<EpochEntry>): seq<string> {
    seq(|epochs|, i requires 0 <= i < |epochs| => epochs[i].document.epochId)
  }

  function ParseKeyring(k: Keyring): Result<Keyring> {
    if k.currentEpoch == "" then Failure("current_epoch must be a non-empty string")
    else if DecodeStrict(k.rootPublicKey).None? then Failure("root_public_key_spki must be base64-encoded SPKI")
    else if k.epochs == [] then Failure("epochs must be a non-empty array")
    else if !(forall i :: 0 <= i < |k.epochs| ==> ParseEpoch(k.epochs[i]).Success?) then Failure("invalid epoch")
    else if k.currentEpoch !in Ids(k.epochs) then Failure("current_epoch is not among the epochs")
    else if |Elements(Ids(k.epochs))| != |k.epochs| then Failure("duplicate epoch_ids")
    else Success(k)
  }

  ghost predicate UniqueIds(epochs: seq<EpochEntry>) {
    NoDuplicates(Ids(epochs))
  }

  predicate EntryOk(e: EpochEntry) {
    && e.document.epochId != "" && e.rootSig != "" && e.privateKey != ""
    && e.document.alg == SUITE
    && e.document.notBefore < e.document.notAfter
    && DecodeStrict(e.document.pubkey).Some?
  }

  /** A keyring the issuer can work with. */
  ghost predicate StructureOk(k: Keyring) {
    && DecodeStrict(k.rootPublicKey).Some?
    && (forall i :: 0 <= i < |k.epochs| ==> EntryOk(k.epochs[i]))
    && k.currentEpoch in Ids(k.epochs)
    && UniqueIds(k.epochs)
  }

  /** Parsing accepts exactly the keyrings of the right structure, and changes nothing. */
  lemma ParsesExactlyGoodStructure(k: Keyring)
    ensures ParseKeyring(k).Success? <==> StructureOk(k)
    ensures ParseKeyring(k).Success? ==> ParseKeyring(k).value == k
  {
    SetSizeBetraysDuplicates(Ids(k.epochs));
    forall i | 0 <= i < |k.epochs| ensures ParseEpoch(k.epochs[i]).Success? <==> EntryOk(k.epochs[i]) {
      assert DecodeStrict("").None?;
    }
    if StructureOk(k) {
      var i :| 0 <= i < |k.epochs| && Ids(k.epochs)[i] == k.currentEpoch;
      assert EntryOk(k.epochs[i]);
    }
  }

  /** The entries of a parsed keyring are of the one suite, and have an id and a proper window. */
  lemma ParsedEntriesAreSound(k: Keyring, e: EpochEntry)
    requires ParseKeyring(k).Success? && e in k.epochs
    ensures e.document.alg == "RSABSSA-SHA384-PSS-Randomized" && e.document.epochId != ""
    ensures e.document.notBefore < e.document.notAfter && e.privateKey != "" && e.rootSig != ""
  {
    var i :| 0 <= i < |k.epochs| && k.epochs[i] == e;
    assert ParseEpoch(k.epochs[i]).Success?;
  }

  // ----- usability -----

  /** The first entry with an id. */
  function Find(epochs: seq<EpochEntry>, id: string): Option<EpochEntry> {
    if epochs == [] then None
    else if epochs[0].document.epochId == id then Some(epochs[0])
    else Find(epochs[1..], id)
  }

  predicate WindowHolds(e: EpochEntry, at: int) {
    e.document.notBefore <= at < e.document.notAfter
  }

  /** The entry of an id, provided its window holds the instant. */
  function UsableEpoch(k: Keyring, id: string, at: int): Option<EpochEntry> {
    var found := Find(k.epochs, id);
    if found.Some? && WindowHolds(found.value, at) then found else None
  }

  function CurrentEpoch(k: Keyring): Option<EpochEntry> {
    Find(k.epochs, k.currentEpoch)
  }

  lemma {:induction false} FindIsMembership(epochs: seq<EpochEntry>, id: string)
    requires UniqueIds(epochs)
    ensures Find(epochs, id).Some? <==> id in Ids(epochs)
    ensures Find(epochs, id).Some? ==> Find(epochs, id).value in epochs && Find(epochs, id).value.document.epochId == id
    ensures forall i :: 0 <= i < |epochs| && epochs[i].document.epochId == id ==> Find(epochs, id) == Some(epochs[i])
  {
    if epochs == [] {
    } else {
      var rest := epochs[1..];
      assert Ids(rest) == Ids(epochs)[1..];
      FindIsMembership(rest, id);
      assert Ids(epochs) == [epochs[0].document.epochId] + Ids(rest);
      forall i | 0 <= i < |epochs| && epochs[i].document.epochId == id ensures Find(epochs, id) == Some(epochs[i]) {
        if i > 0 {
          assert rest[i - 1] == epochs[i];
          assert Ids(epochs)[0] != Ids(epochs)[i];
        }
      }
    }
  }

  /** An epoch is usable exactly when some entry, the current one or not, has its id and an open window. */
  lemma UsableIff(k: Keyring, id: string, at: int)
    requires UniqueIds(k.epochs)
    ensures UsableEpoch(k, id, at).Some? <==>
            exists e :: e in k.epochs && e.document.epochId == id && e.document.notBefore <= at < e.document.notAfter
    ensures UsableEpoch(k, id, at).Some? ==>
              UsableEpoch(k, id, at).value in k.epochs && UsableEpoch(k, id, at).value.document.epochId == id
  {
    FindIsMembership(k.epochs, id);
    if e :| e in k.epochs && e.document.epochId == id && e.document.notBefore <= at < e.document.notAfter {
      var i :| 0 <= i < |k.epochs| && k.epochs[i] == e;
      assert Find(k.epochs, id) == Some(e);
    }
  }

  /** A parsed keyring always has an entry for its current epoch. */
  lemma CurrentEpochExists(k: Keyring)
    requires StructureOk(k)
    ensures CurrentEpoch(k).Some? && CurrentEpoch(k).value in k.epochs
    ensures CurrentEpoch(k).value.document.epochId == k.currentEpoch
  {
    FindIsMembership(k.epochs, k.currentEpoch);
  }
}
