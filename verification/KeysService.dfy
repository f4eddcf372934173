/** The issuer's hold on the keyring: polled from a file, replaced only by a good one. */
module KeysServices {
  import opened Common
  import opened KeyringModel
  import opened Rotation

  /** How a file's text is judged: its hash, its JSON, and the root key's verification. */
  datatype Loader = Loader(sha256: string -> string, fromJson: string -> Option<Keyring>, crypto: Crypto)

  ghost predicate HashInjective(l: Loader) {
    forall a, b :: l.sha256(a) == l.sha256(b) ==> a == b
  }

  /** Parse, check the structure, verify every signature. */
  function Load(l: Loader, raw: string): Option<Keyring> {
    var k := l.fromJson(raw);
    if k.Some? && ParseKeyring(k.value).Success? && SignaturesVerify(l.crypto, k.value) then k else None
  }

  /** The JSON of the text is a well-structured keyring, and all its documents verify. */
  ghost predicate GoodText(l: Loader, raw: string) {
    l.fromJson(raw).Some? &&
    var k := l.fromJson(raw).value;
    StructureOk(k) && forall e :: e in k.epochs ==> l.crypto.verify(k.rootPublicKey, e.document, e.rootSig)
  }

  /** A text is accepted exactly when its JSON is a well-structured keyring all of whose documents
      verify under the root key it names; nothing else is ever loaded. */
  lemma LoadsExactlyGoodKeyrings(l: Loader, raw: string, k: Keyring)
    ensures Load(l, raw) == Some(k) <==>
            && l.fromJson(raw) == Some(k) && StructureOk(k)
            && (forall e :: e in k.epochs ==> l.crypto.verify(k.rootPublicKey, e.document, e.rootSig))
  {
    ParsesExactlyGoodStructure(k);
    if l.fromJson(raw) == Some(k) && StructureOk(k) && GoodText(l, raw) {
      assert forall i :: 0 <= i < |k.epochs| ==> k.epochs[i] in k.epochs;
      assert SignaturesVerify(l.crypto, k);
    }
  }

  lemma GoodTextLoads(l: Loader, raw: string)
    ensures GoodText(l, raw) <==> Load(l, raw).Some?
    ensures Load(l, raw).Some? ==> Load(l, raw) == l.fromJson(raw)
  {
    if l.fromJson(raw).Some? {
      LoadsExactlyGoodKeyrings(l, raw, l.fromJson(raw).value);
    }
  }

  /** Whatever the service holds after any polls is well structured, and every entry verifies. */
  lemma {:induction false} HeldKeyringIsGood(l: Loader, readings: seq<Option<string>>)
    requires LastGood(l, readings).Some?
    ensures var k := LastGood(l, readings).value;
      && StructureOk(k)
      && (forall e :: e in k.epochs ==> l.crypto.verify(k.rootPublicKey, e.document, e.rootSig))
      && exists i :: 0 <= i < |readings| && readings[i].Some? && l.fromJson(readings[i].value) == Some(k)
  {
    var n := |readings| - 1;
    if readings[n].Some? && Load(l, readings[n].value).Some? {
      LoadsExactlyGoodKeyrings(l, readings[n].value, LastGood(l, readings).value);
    } else {
      HeldKeyringIsGood(l, readings[..n]);
      var i :| 0 <= i < n && readings[..n][i].Some? && l.fromJson(readings[..n][i].value) == LastGood(l, readings);
      assert readings[i].Some?;
    }
  }

  // ----- key material -----

  /** What signers are given: each epoch's id and private key, in keyring order. */
  function KeyMaterial(k: Keyring): seq<(string, string)> {
    seq(|k.epochs|, i requires 0 <= i < |k.epochs| => (k.epochs[i].document.epochId, k.epochs[i].privateKey))
  }

  /** A map built from entries; a later entry replaces an earlier one of the same key. */
  function MapOf(entries: seq<(string, string)>): map<string, string> {
    if entries == [] then map[]
    else MapOf(entries[..|entries| - 1])[entries[|entries| - 1].0 := entries[|entries| - 1].1]
  }

  /** A key in the map is that of some entry. */
  lemma {:induction false} MapOfMember(entries: seq<(string, string)>, x: string) returns (i: nat)
    requires x in MapOf(entries)
    ensures i < |entries| && entries[i] == (x, MapOf(entries)[x])
  {
    var n := |entries| - 1;
    if entries[n].0 == x {
      i := n;
    } else {
      i := MapOfMember(entries[..n], x);
    }
  }

  lemma {:induction false} MapOfUnique(entries: seq<(string, string)>)
    requires forall i, j :: 0 <= i < j < |entries| ==> entries[i].0 != entries[j].0
    ensures forall i :: 0 <= i < |entries| ==> entries[i].0 in MapOf(entries) && MapOf(entries)[entries[i].0] == entries[i].1
    ensures forall x :: x in MapOf(entries) ==> exists i :: 0 <= i < |entries| && entries[i].0 == x
  {
    if entries == [] {
    } else {
      var init := entries[..|entries| - 1];
      MapOfUnique(init);
      forall x | x in MapOf(entries) ensures exists i :: 0 <= i < |entries| && entries[i].0 == x {
        if x in MapOf(init) {
          var i :| 0 <= i < |init| && init[i].0 == x;
          assert entries[i].0 == x;
        } else {
          assert entries[|entries| - 1].0 == x;
        }
      }
    }
  }

  /** Signers hold a key for exactly the keyring's epochs, and it is the key of the entry that the
      usability check finds. */
  lemma SignersHoldTheKeyringsKeys(k: Keyring, id: string)
    requires StructureOk(k)
    ensures id in MapOf(KeyMaterial(k)) <==> Find(k.epochs, id).Some?
    ensures Find(k.epochs, id).Some? ==> MapOf(KeyMaterial(k))[id] == Find(k.epochs, id).value.privateKey
  {
    var m := KeyMaterial(k);
    assert forall i :: 0 <= i < |m| ==> m[i].0 == Ids(k.epochs)[i];
    MapOfUnique(m);
    FindIsMembership(k.epochs, id);
    if Find(k.epochs, id).Some? {
      var i :| 0 <= i < |k.epochs| && k.epochs[i] == Find(k.epochs, id).value;
      assert m[i] == (id, k.epochs[i].privateKey);
    }
    if id in MapOf(m) {
      var i :| 0 <= i < |m| && m[i].0 == id;
      assert Ids(k.epochs)[i] == id;
    }
  }

  /** Signers are told, entry by entry in keyring order, the epoch's id and its private key. */
  lemma MaterialIsTheKeyrings(k: Keyring)
    ensures |KeyMaterial(k)| == |k.epochs|
    ensures forall i :: 0 <= i < |k.epochs| ==>
              KeyMaterial(k)[i].0 == k.epochs[i].document.epochId && KeyMaterial(k)[i].1 == k.epochs[i].privateKey
  {
  }

  lemma {:induction false} FoundIsMember(epochs: seq<EpochEntry>, id: string)
    ensures Find(epochs, id).Some? ==> Find(epochs, id).value in epochs && Find(epochs, id).value.document.epochId == id
  {
    if epochs == [] {
    } else {
      FoundIsMember(epochs[1..], id);
    }
  }

  // ----- polling -----

  /** The keyring of the last reading that was readable and good. */
  function LastGood(l: Loader, readings: seq<Option<string>>): Option<Keyring> {
    if readings == [] then None
    else
      var last := readings[|readings| - 1];
      if last.Some? && Load(l, last.value).Some? then Load(l, last.value)
      else LastGood(l, readings[..|readings| - 1])
  }

  /** What listeners hear: the material of the last good reading at some time. */
  ghost predicate IsNews(l: Loader, readings: seq<Option<string>>, material: seq<(string, string)>) {
    exists n {:trigger readings[..n]} :: 0 <= n <= |readings| &&
      LastGood(l, readings[..n]).Some? && material == KeyMaterial(LastGood(l, readings[..n]).value)
  }

  lemma NewsStays(l: Loader, readings: seq<Option<string>>, reading: Option<string>, material: seq<(string, string)>)
    requires IsNews(l, readings, material)
    ensures IsNews(l, readings + [reading], material)
  {
    var n :| 0 <= n <= |readings| &&
      LastGood(l, readings[..n]).Some? && material == KeyMaterial(LastGood(l, readings[..n]).value);
    assert (readings + [reading])[..n] == readings[..n];
  }

  ghost predicate AllNews(l: Loader, readings: seq<Option<string>>, all: seq<seq<(string, string)>>) {
    forall i :: 0 <= i < |all| ==> IsNews(l, readings, all[i])
  }

  lemma AllNewsStays(l: Loader, readings: seq<Option<string>>, reading: Option<string>, all: seq<seq<(string, string)>>)
    requires AllNews(l, readings, all)
    ensures AllNews(l, readings + [reading], all)
  {
    forall i | 0 <= i < |all| ensures IsNews(l, readings + [reading], all[i]) {
      NewsStays(l, readings, reading, all[i]);
    }
  }

  lemma LatestNews(l: Loader, readings: seq<Option<string>>)
    requires LastGood(l, readings).Some?
    ensures IsNews(l, readings, KeyMaterial(LastGood(l, readings).value))
  {
    assert readings[..|readings|] == readings;
  }

  /** The reading that was just loaded is announced. */
  lemma NewsIsAdded(l: Loader, readings: seq<Option<string>>, all: seq<seq<(string, string)>>)
    requires AllNews(l, readings, all) && LastGood(l, readings).Some?
    ensures AllNews(l, readings, all + [KeyMaterial(LastGood(l, readings).value)])
  {
    LatestNews(l, readings);
  }

  lemma LastGoodOf(l: Loader, before: seq<Option<string>>, reading: Option<string>)
    ensures LastGood(l, before + [reading]) ==
            if reading.Some? && Load(l, reading.value).Some? then Load(l, reading.value) else LastGood(l, before)
  {
    assert (before + [reading])[..|before|] == before;
  }

  class KeysService {
    var keyring: Option<Keyring>
    var fingerprint: Option<string>
    var announced: seq<seq<(string, string)>>     // what listeners were called with, in order
    ghost var readings: seq<Option<string>>
    ghost var source: string                      // the text the loaded keyring came from

    constructor ()
      ensures keyring == None && fingerprint == None && announced == [] && readings == []
    {
      keyring, fingerprint, announced, readings, source := None, None, [], [], "";
    }

    /**
     The service holds the last good reading, although it skips texts it has seen by their hash; its
     fingerprint is that of the text it loaded, and the listeners' latest news is its material.
     */
    ghost predicate Valid(l: Loader)
      reads this
    {
      && keyring == LastGood(l, readings)
      && AllNews(l, readings, announced)
      && (keyring.Some? <==> fingerprint.Some?)
      && (keyring.Some? ==>
            && fingerprint == Some(l.sha256(source))
            && Load(l, source) == keyring
            && announced != []
            && announced[|announced| - 1] == KeyMaterial(keyring.value))
    }

    /**
     One poll. Unreadable or bad content is an error only on the initial load; later the loaded
     keyring stays. Listeners hear of a change exactly when different good content was loaded.
     */
    method Reload(l: Loader, initial: bool, reading: Option<string>) returns (result: Result<()>)
      requires Valid(l) && HashInjective(l)
      modifies this
      ensures Valid(l) && readings == old(readings) + [reading]
      ensures var unseen := reading.Some? && (old(keyring).None? || reading.value != old(source));
        && (unseen && GoodText(l, reading.value) ==>
              keyring == l.fromJson(reading.value) && announced == old(announced) + [KeyMaterial(keyring.value)])
        && (!(unseen && GoodText(l, reading.value)) ==> keyring == old(keyring) && announced == old(announced))
        && (result.Failure? <==> initial && (reading.None? || (unseen && !GoodText(l, reading.value))))
    {
      ghost var before := readings;
      readings := readings + [reading];
      LastGoodOf(l, before, reading);
      if reading.Some? {
        GoodTextLoads(l, reading.value);
      }
      AllNewsStays(l, before, reading, announced);
      if reading.None? {
        return if initial then Failure("unable to read keyring") else Success(());
      }
      var raw := reading.value;
      var hash := l.sha256(raw);
      if Some(hash) == fingerprint {
        assert raw == source;
        return Success(());
      }
      var loaded := Load(l, raw);
      if loaded.None? {
        return if initial then Failure("invalid keyring") else Success(());
      }
      keyring, fingerprint, source := loaded, Some(hash), raw;
      NewsIsAdded(l, readings, announced);
      announced := announced + [KeyMaterial(loaded.value)];
      result := Success(());
    }

    /** Looks an epoch up in the loaded keyring; an error before anything was loaded. */
    method Usable(id: string, at: int) returns (entry: Result<Option<EpochEntry>>)
      ensures entry.Success? <==> keyring.Some?
      ensures entry.Success? && entry.value.Some? ==>
                entry.value.value in keyring.value.epochs && entry.value.value.document.epochId == id &&
                entry.value.value.document.notBefore <= at < entry.value.value.document.notAfter
      ensures entry.Success? && entry.value.None? && UniqueIds(keyring.value.epochs) ==>
                forall e :: e in keyring.value.epochs && e.document.epochId == id ==>
                  !(e.document.notBefore <= at < e.document.notAfter)
    {
      if keyring.None? {
        return Failure("keyring not loaded");
      }
      FoundIsMember(keyring.value.epochs, id);
      entry := Success(UsableEpoch(keyring.value, id, at));
      if UniqueIds(keyring.value.epochs) {
        FindIsMembership(keyring.value.epochs, id);
      }
    }
  }
}
