/**
 The keyrings a versioned secret has held, whoever raced to write them, are one history of rotations.
 So the race cannot bind an epoch id to two keys.
 */
module VaultHistory {
  import opened Common
  import opened EpochIds
  import opened KeyringModel
  import opened Rotation
  import Runs = RotationRuns
  import opened VaultRotation

  /** The rotations among the writers, in order. */
  function TurnsOf(writers: seq<Option<Turn>>): seq<Turn> {
    if writers == [] then []
    else
      var last := writers[|writers| - 1];
      TurnsOf(writers[..|writers| - 1]) + (if last.Some? then [last.value] else [])
  }

  /** The keyrings those rotations wrote. */
  function RingsOf(site: Site, versions: seq<Secret>, writers: seq<Option<Turn>>): seq<Keyring>
    requires |versions| == |writers|
  {
    if writers == [] then []
    else
      var n := |writers| - 1;
      var k := KeyringIn(site, versions[n]);
      RingsOf(site, versions[..n], writers[..n]) + (if writers[n].Some? && k.Some? then [k.value] else [])
  }

  predicate NoKeyring(site: Site, data: Secret) {
    site.field !in data || data[site.field] == ""
  }

  /** The secret holds the last of the keyrings, or none if there are none. */
  predicate HoldsLast(site: Site, data: Secret, rings: seq<Keyring>) {
    if rings == [] then NoKeyring(site, data) else KeyringIn(site, data) == Some(rings[|rings| - 1])
  }

  /** A rotation of a secret that holds the last keyring writes the keyring that follows it. */
  lemma RotationFollows(site: Site, prior: Secret, t: Turn, next: Secret, rings: seq<Keyring>) returns (k: Keyring)
    requires CodecOk(site.codec) && HoldsLast(site, prior, rings) && RotatedSecret(site, prior, t) == Success(next)
    ensures KeyringIn(site, next) == Some(k) && Runs.Follows(site.crypto, Runs.Before(rings, |rings|), t, k)
  {
    if rings != [] {
      ParsesExactlyGoodStructure(rings[|rings| - 1]);
    }
    assert Existing(site, prior) == Success(Runs.Before(rings, |rings|));
    k := NextKeyring(site.crypto, Runs.Before(rings, |rings|), t).value;
    assert next[site.field] == site.codec.encode(k);
  }

  /** The first `v` versions: their keyrings are a run of their rotations, and the last holds the last. */
  ghost predicate HistoryOk(site: Site, w: World, v: nat)
    requires 1 <= v <= |w.versions| && |w.writers| == |w.versions|
  {
    var rings := RingsOf(site, w.versions[..v], w.writers[..v]);
    Runs.IsRun(site.crypto, TurnsOf(w.writers[..v]), rings) && HoldsLast(site, w.versions[v - 1], rings)
  }

  lemma RingsGrow(site: Site, w: World, v: nat)
    requires 1 <= v < |w.versions| && |w.writers| == |w.versions|
    ensures TurnsOf(w.writers[..v + 1]) ==
            TurnsOf(w.writers[..v]) + (if w.writers[v].Some? then [w.writers[v].value] else [])
    ensures RingsOf(site, w.versions[..v + 1], w.writers[..v + 1]) ==
            RingsOf(site, w.versions[..v], w.writers[..v]) +
            (if w.writers[v].Some? && KeyringIn(site, w.versions[v]).Some? then [KeyringIn(site, w.versions[v]).value] else [])
  {
    assert w.writers[..v + 1][..v] == w.writers[..v];
    assert w.versions[..v + 1][..v] == w.versions[..v];
  }

  lemma EmptyRun(c: Crypto)
    ensures Runs.IsRun(c, [], [])
  {
    var step := Runs.Step(c);
    assert Runs.Chain(step, [], []);
  }

  lemma FirstVersion(site: Site, w: World)
    requires w.versions != [] && |w.writers| == |w.versions| && w.writers[0] == None && NoKeyring(site, w.versions[0])
    ensures HistoryOk(site, w, 1)
  {
    EmptyRun(site.crypto);
    assert w.writers[..1] == [None] && w.writers[..1][..0] == [];
    assert TurnsOf(w.writers[..1]) == [] && RingsOf(site, w.versions[..1], w.writers[..1]) == [];
  }

  lemma {:induction false} VersionsAreARun(site: Site, w: World, v: nat)
    requires CodecOk(site.codec) && VersionsOk(site, w) && NoKeyring(site, w.versions[0]) && 1 <= v <= |w.versions|
    ensures HistoryOk(site, w, v)
  {
    if v == 1 {
      FirstVersion(site, w);
    } else {
      VersionsAreARun(site, w, v - 1);
      OneMoreVersion(site, w, v - 1);
    }
  }

  lemma OneMoreVersion(site: Site, w: World, v: nat)
    requires CodecOk(site.codec) && 1 <= v < |w.versions| && |w.writers| == |w.versions|
    requires HistoryOk(site, w, v) && LinkOk(site, w, v)
    ensures HistoryOk(site, w, v + 1)
  {
    var turns, rings := TurnsOf(w.writers[..v]), RingsOf(site, w.versions[..v], w.writers[..v]);
    RingsGrow(site, w, v);
    if w.writers[v].Some? {
      var t := w.writers[v].value;
      var k := RotationFollows(site, w.versions[v - 1], t, w.versions[v], rings);
      Runs.ExtendRun(site.crypto, turns, t, rings, k);
    }
  }

  lemma {:induction false} RingsArePrefix(site: Site, w: World, u: nat, v: nat)
    requires 1 <= u <= v <= |w.versions| && |w.writers| == |w.versions|
    ensures RingsOf(site, w.versions[..u], w.writers[..u]) <= RingsOf(site, w.versions[..v], w.writers[..v])
    decreases v
  {
    if u == v {
    } else {
      RingsArePrefix(site, w, u, v - 1);
      RingsGrow(site, w, v - 1);
    }
  }

  /** Whatever keyring a version holds is one of the history's. */
  lemma HeldIsInHistory(site: Site, w: World, v: nat, k: Keyring) returns (i: nat)
    requires CodecOk(site.codec) && VersionsOk(site, w) && NoKeyring(site, w.versions[0])
    requires v < |w.versions| && KeyringIn(site, w.versions[v]) == Some(k)
    ensures i < |RingsOf(site, w.versions, w.writers)| && RingsOf(site, w.versions, w.writers)[i] == k
  {
    var rings := RingsOf(site, w.versions[..v + 1], w.writers[..v + 1]);
    assert HoldsLast(site, w.versions[v], rings) by { VersionsAreARun(site, w, v + 1); }
    assert rings <= RingsOf(site, w.versions, w.writers) by {
      RingsArePrefix(site, w, v + 1, |w.versions|);
      assert w.versions[..|w.versions|] == w.versions && w.writers[..|w.writers|] == w.writers;
    }
    LastIsHeld(site, w.versions[v], rings, k);
    i := |rings| - 1;
  }

  lemma LastIsHeld(site: Site, data: Secret, rings: seq<Keyring>, k: Keyring)
    requires HoldsLast(site, data, rings) && KeyringIn(site, data) == Some(k)
    ensures rings != [] && rings[|rings| - 1] == k
  {
  }

  lemma {:induction false} InitialStays(site: Site, initial: Secret, worlds: seq<World>, steps: seq<Step>, i: nat)
    requires Run(site, initial, worlds, steps) && i < |worlds|
    ensures worlds[i].versions != [] && worlds[i].versions[0] == initial
  {
    if i == 0 {
    } else {
      InitialStays(site, initial, worlds, steps, i - 1);
    }
  }

  /** However rotators race, the keyrings they succeed in writing are a run of their own rotations. */
  lemma RacingRotationsAreARun(site: Site, initial: Secret, worlds: seq<World>, steps: seq<Step>, i: nat)
    requires CodecOk(site.codec) && NoKeyring(site, initial)
    requires Run(site, initial, worlds, steps) && i < |worlds|
    ensures |worlds[i].versions| == |worlds[i].writers|
    ensures Runs.IsRun(site.crypto, TurnsOf(worlds[i].writers), RingsOf(site, worlds[i].versions, worlds[i].writers))
  {
    var w := worlds[i];
    VersionsFormAChain(site, initial, worlds, steps, i);
    InitialStays(site, initial, worlds, steps, i);
    VersionsAreARun(site, w, |w.versions|);
    assert w.versions[..|w.versions|] == w.versions && w.writers[..|w.writers|] == w.writers;
  }

  /** No race binds an epoch id to two keys: entries of one id, in any two versions, have one key pair. */
  lemma RacesBindOneKey(site: Site, initial: Secret, worlds: seq<World>, steps: seq<Step>, i: nat,
                        u: nat, v: nat, j: Keyring, k: Keyring, e: EpochEntry, f: EpochEntry)
    requires CodecOk(site.codec) && NoKeyring(site, initial)
    requires Run(site, initial, worlds, steps) && i < |worlds|
    requires u < |worlds[i].versions| && v < |worlds[i].versions|
    requires KeyringIn(site, worlds[i].versions[u]) == Some(j) && KeyringIn(site, worlds[i].versions[v]) == Some(k)
    requires e in j.epochs && f in k.epochs && e.document.epochId == f.document.epochId
    requires |TurnsOf(worlds[i].writers)| <= 9007199254740992 + 1
    ensures e.privateKey == f.privateKey && e.document.pubkey == f.document.pubkey
  {
    var w := worlds[i];
    VersionsFormAChain(site, initial, worlds, steps, i);
    InitialStays(site, initial, worlds, steps, i);
    RacingRotationsAreARun(site, initial, worlds, steps, i);
    var a := HeldIsInHistory(site, w, u, j);
    var b := HeldIsInHistory(site, w, v, k);
    Runs.IdIsBoundToOneKey(site.crypto, TurnsOf(w.writers), RingsOf(site, w.versions, w.writers), a, b, e, f);
  }
}
