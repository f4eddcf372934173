/**
 Rotation of the keyring held in a versioned secret store. Any number of rotators race: each reads
 the whole secret with its version, computes the next keyring, and writes the whole secret back on
 condition that the version has not moved.
 */
module VaultRotation {
  import opened Common
  import opened EpochIds
  import opened KeyringModel
  import opened Rotation

  type Secret = map<string, string>

  /** How a keyring is written into a field: base64 of its JSON. */
  datatype Codec = Codec(encode: Keyring -> string, decode: string -> Option<Keyring>)

  ghost predicate CodecOk(codec: Codec) {
    forall k :: codec.encode(k) != "" && codec.decode(codec.encode(k)) == Some(k)
  }

  /** Everything that is fixed for one deployment. */
  datatype Site = Site(crypto: Crypto, codec: Codec, field: string)

  /** The keyring in a secret: none when the field is absent or empty, an error when it does not parse. */
  function Existing(site: Site, data: Secret): Result<Option<Keyring>> {
    if site.field !in data || data[site.field] == "" then Success(None)
    else
      match site.codec.decode(data[site.field])
      case None => Failure("field holds no keyring")
      case Some(k) =>
        match ParseKeyring(k)
        case Success(parsed) => Success(Some(parsed))
        case Failure(error) => Failure(error)
  }

  /** The secret a rotation writes for the secret it read. */
  function RotatedSecret(site: Site, data: Secret, t: Turn): Result<Secret> {
    match Existing(site, data)
    case Failure(error) => Failure(error)
    case Success(existing) =>
      match NextKeyring(site.crypto, existing, t)
      case Failure(error) => Failure(error)
      case Success(k) => Success(data[site.field := site.codec.encode(k)])
  }

  // ----- the store -----

  class Vault {
    var data: Secret
    var version: nat

    constructor (initial: Secret)
      ensures data == initial && version == 1
    {
      data, version := initial, 1;
    }

    method ReadSecret() returns (secret: Secret, at: nat)
      ensures secret == data && at == version
    {
      secret, at := data, version;
    }

    /** Replaces the document if `cas` is the current version; otherwise changes nothing. */
    method WriteSecret(secret: Secret, cas: nat) returns (written: bool)
      modifies this
      ensures written <==> cas == old(version)
      ensures written ==> data == secret && version == old(version) + 1
      ensures !written ==> data == old(data) && version == old(version)
    {
      written := cas == version;
      if written {
        data, version := secret, version + 1;
      }
    }

    /** The second half of a rotation, from what the first half read: compute, then write. */
    method FinishRotation(site: Site, read: Secret, at: nat, t: Turn) returns (result: Result<Keyring>)
      modifies this
      ensures result.Success? <==> old(version) == at && RotatedSecret(site, read, t).Success?
      ensures result.Success? ==> RotatedSecret(site, read, t) == Success(data) && version == at + 1
      ensures result.Success? ==> data == read[site.field := site.codec.encode(result.value)]
      ensures result.Failure? ==> data == old(data) && version == old(version)
    {
      var existing := Existing(site, read);
      if existing.Failure? {
        return Failure(existing.error);
      }
      var next := RotateKeyring(site.crypto, existing.value, t);
      if next.Failure? {
        return next;
      }
      var written := WriteSecret(read[site.field := site.codec.encode(next.value)], at);
      result := if written then next else Failure("check-and-set parameter did not match the current version");
    }
  }

  // ----- racing rotators -----

  datatype Snapshot = Snapshot(data: Secret, version: nat)

  /** All versions ever written, who wrote each, and what every rotator in progress has read. */
  datatype World = World(versions: seq<Secret>, writers: seq<Option<Turn>>, snapshots: map<nat, Snapshot>)

  datatype Step =
    | Read(rotator: nat)
    | Write(rotator: nat, turn: Turn)
    | OtherWrite(data: Secret)          // another tool updates the secret, leaving the keyring alone

  function FieldOf(site: Site, data: Secret): Option<string> {
    if site.field in data then Some(data[site.field]) else None
  }

  predicate Enabled(site: Site, w: World, step: Step) {
    w.versions != [] &&
    match step
    case Read(_) => true
    case Write(r, _) => r in w.snapshots
    case OtherWrite(data) => FieldOf(site, data) == FieldOf(site, w.versions[|w.versions| - 1])
  }

  function Apply(site: Site, w: World, step: Step): World
    requires Enabled(site, w, step)
  {
    match step
    case Read(r) =>
      w.(snapshots := w.snapshots[r := Snapshot(w.versions[|w.versions| - 1], |w.versions|)])
    case Write(r, t) =>
      var s, rest := w.snapshots[r], w.snapshots - {r};
      var data := RotatedSecret(site, s.data, t);
      if data.Success? && s.version == |w.versions|
      then World(w.versions + [data.value], w.writers + [Some(t)], rest)
      else w.(snapshots := rest)
    case OtherWrite(data) => World(w.versions + [data], w.writers + [None], w.snapshots)
  }

  /** Version `v` is the rotation of the version just before it, or leaves the keyring alone. */
  ghost predicate LinkOk(site: Site, w: World, v: nat)
    requires 1 <= v < |w.versions| && |w.writers| == |w.versions|
  {
    match w.writers[v]
    case Some(t) => RotatedSecret(site, w.versions[v - 1], t) == Success(w.versions[v])
    case None => FieldOf(site, w.versions[v]) == FieldOf(site, w.versions[v - 1])
  }

  ghost predicate VersionsOk(site: Site, w: World) {
    && w.versions != [] && |w.writers| == |w.versions| && w.writers[0] == None
    && (forall v :: 1 <= v < |w.versions| ==> LinkOk(site, w, v))
  }

  /** What a rotator has read is the version it says. */
  ghost predicate SnapshotsOk(w: World) {
    forall r :: r in w.snapshots ==>
      1 <= w.snapshots[r].version <= |w.versions| &&
      w.snapshots[r].data == w.versions[w.snapshots[r].version - 1]
  }

  ghost predicate ChainOk(site: Site, w: World) {
    VersionsOk(site, w) && SnapshotsOk(w)
  }

  ghost predicate Steps(site: Site, worlds: seq<World>, steps: seq<Step>) {
    && |worlds| == |steps| + 1
    && forall i :: 0 <= i < |steps| ==> Enabled(site, worlds[i], steps[i]) && worlds[i + 1] == Apply(site, worlds[i], steps[i])
  }

  ghost predicate Run(site: Site, initial: Secret, worlds: seq<World>, steps: seq<Step>) {
    Steps(site, worlds, steps) && worlds[0] == World([initial], [None], map[])
  }

  lemma AppendKeeps(site: Site, w: World, t: World)
    requires VersionsOk(site, w) && |t.versions| == |w.versions| + 1 && |t.writers| == |t.versions|
    requires w.versions <= t.versions && w.writers <= t.writers
    requires LinkOk(site, t, |w.versions|)
    ensures VersionsOk(site, t)
  {
    forall v | 1 <= v < |t.versions| ensures LinkOk(site, t, v) {
      if v < |w.versions| {
        assert LinkOk(site, w, v);
      }
    }
  }

  lemma SnapshotsKept(site: Site, w: World, step: Step)
    requires SnapshotsOk(w) && Enabled(site, w, step)
    ensures SnapshotsOk(Apply(site, w, step))
  {
    var t := Apply(site, w, step);
    assert w.versions <= t.versions;
  }

  lemma WriteKeeps(site: Site, w: World, r: nat, t: Turn)
    requires ChainOk(site, w) && Enabled(site, w, Write(r, t))
    ensures VersionsOk(site, Apply(site, w, Write(r, t)))
  {
    var next := Apply(site, w, Write(r, t));
    if |next.versions| > |w.versions| {
      AppendKeeps(site, w, next);
    } else {
      SameVersions(site, w, next);
    }
  }

  lemma SameVersions(site: Site, w: World, t: World)
    requires VersionsOk(site, w) && t.versions == w.versions && t.writers == w.writers
    ensures VersionsOk(site, t)
  {
    forall v | 1 <= v < |t.versions| ensures LinkOk(site, t, v) {
      assert LinkOk(site, w, v);
    }
  }

  lemma StepKeeps(site: Site, w: World, step: Step)
    requires ChainOk(site, w) && Enabled(site, w, step)
    ensures ChainOk(site, Apply(site, w, step))
  {
    SnapshotsKept(site, w, step);
    match step
    case Read(_) => SameVersions(site, w, Apply(site, w, step));
    case Write(r, t) => WriteKeeps(site, w, r, t);
    case OtherWrite(_) => AppendKeeps(site, w, Apply(site, w, step));
  }

  /**
   However rotators and other writers race, the versions form a chain: every rotation that succeeded
   is the next keyring of the very version it replaced.
   */
  lemma {:induction false} VersionsFormAChain(site: Site, initial: Secret, worlds: seq<World>, steps: seq<Step>, i: nat)
    requires Run(site, initial, worlds, steps) && i < |worlds|
    ensures ChainOk(site, worlds[i])
  {
    if i == 0 {
    } else {
      VersionsFormAChain(site, initial, worlds, steps, i - 1);
      StepKeeps(site, worlds[i - 1], steps[i - 1]);
    }
  }

  /** A successful rotation changes nothing but the keyring field. */
  lemma RotationTouchesOneField(site: Site, data: Secret, t: Turn, name: string)
    requires RotatedSecret(site, data, t).Success? && name != site.field
    ensures var next := RotatedSecret(site, data, t).value;
      (name in next <==> name in data) && (name in data ==> next[name] == data[name])
  {
  }

  /** A rotator that lost the race writes nothing. */
  lemma StaleWriteIsRefused(site: Site, w: World, r: nat, t: Turn)
    requires Enabled(site, w, Write(r, t)) && w.snapshots[r].version != |w.versions|
    ensures Apply(site, w, Write(r, t)).versions == w.versions
  {
  }

  /** A rotator that read the current version, and whose rotation can be computed, writes the next one. */
  lemma CurrentWriteSucceeds(site: Site, w: World, r: nat, t: Turn)
    requires Enabled(site, w, Write(r, t)) && w.snapshots[r].version == |w.versions|
    requires RotatedSecret(site, w.snapshots[r].data, t).Success?
    ensures var next := Apply(site, w, Write(r, t));
      next.versions == w.versions + [RotatedSecret(site, w.snapshots[r].data, t).value] && next.writers == w.writers + [Some(t)]
  {
  }

  /** Reading takes the latest version. */
  lemma ReadTakesTheLatest(site: Site, w: World, r: nat)
    requires w.versions != []
    ensures Enabled(site, w, Read(r))
    ensures var next := Apply(site, w, Read(r));
      && next.versions == w.versions && r in next.snapshots
      && next.snapshots[r] == Snapshot(w.versions[|w.versions| - 1], |w.versions|)
  {
  }

  /**
   A secret can be rotated exactly when its field is absent or empty, or holds a well-structured keyring
   whose current id is a number; it is then the same secret with the next keyring in the field, the
   first one for epoch "0".
   */
  lemma RotatesIff(site: Site, data: Secret, t: Turn)
    requires CryptoOk(site.crypto)
    ensures var empty := site.field !in data || data[site.field] == "";
      var held := if empty then None else site.codec.decode(data[site.field]);
      && (RotatedSecret(site, data, t).Success? <==>
            empty || (held.Some? && StructureOk(held.value) && ParseId(held.value.currentEpoch).Some?))
      && (RotatedSecret(site, data, t).Success? ==>
            && NextKeyring(site.crypto, held, t).Success?
            && RotatedSecret(site, data, t).value ==
               data[site.field := site.codec.encode(NextKeyring(site.crypto, held, t).value)])
      && (RotatedSecret(site, data, t).Success? && empty ==> NextKeyring(site.crypto, held, t).value.currentEpoch == "0")
  {
    var empty := site.field !in data || data[site.field] == "";
    var held := if empty then None else site.codec.decode(data[site.field]);
    if held.Some? {
      ParsesExactlyGoodStructure(held.value);
    }
    if NextId(CurrentOf(held)).Some? {
      RotatedVerifies(site.crypto, held, NextId(CurrentOf(held)).value, t);
    }
    IdsAreDecimal();
  }

  // ----- epochs advance one by one, and none is lost -----

  /** The keyring a version holds, as it was encoded. */
  function KeyringIn(site: Site, data: Secret): Option<Keyring> {
    if site.field in data && data[site.field] != "" then site.codec.decode(data[site.field]) else None
  }

  function RotationsIn(writers: seq<Option<Turn>>): nat {
    if writers == [] then 0
    else RotationsIn(writers[..|writers| - 1]) + (if writers[|writers| - 1].Some? then 1 else 0)
  }

  /** One rotation: the epoch after the one read, and every surviving epoch with its key. */
  lemma RotationAdvances(site: Site, data: Secret, t: Turn, k: Keyring, n: nat)
    requires CodecOk(site.codec) && RotatedSecret(site, data, t).Success?
    requires KeyringIn(site, data) == Some(k) && k.currentEpoch == IdOf(n) && n < 9007199254740992
    ensures var next := KeyringIn(site, RotatedSecret(site, data, t).value);
      && next.Some? && next.value.currentEpoch == IdOf(n + 1)
      && forall i :: 0 <= i < |k.epochs| && Survives(k.epochs[i], t) ==>
           Cut(site.crypto, k.epochs[i], t) in next.value.epochs
  {
    NextIdAdvances(n);
    ParsesExactlyGoodStructure(k);
    var next := NextKeyring(site.crypto, Some(k), t).value;
    forall i | 0 <= i < |k.epochs| && Survives(k.epochs[i], t)
      ensures Cut(site.crypto, k.epochs[i], t) in next.epochs
    {
      RetainedExactly(site.crypto, k.epochs, t, Cut(site.crypto, k.epochs[i], t));
    }
  }

  lemma RotationsUpTo(writers: seq<Option<Turn>>, a: nat, b: nat)
    requires a < b < |writers|
    ensures RotationsIn(writers[a + 1..b + 1]) ==
            RotationsIn(writers[a + 1..b]) + (if writers[b].Some? then 1 else 0)
  {
    var all := writers[a + 1..b + 1];
    assert |all| == b - a && all[b - a - 1] == writers[b];
    assert all[..b - a - 1] == writers[a + 1..b];
  }

  /** One link of the chain, whoever wrote it. */
  lemma LinkAdvances(site: Site, prior: Secret, next: Secret, writer: Option<Turn>, k: Keyring, n: nat)
    requires CodecOk(site.codec) && KeyringIn(site, prior) == Some(k) && k.currentEpoch == IdOf(n)
    requires writer.Some? ==> n < 9007199254740992 && RotatedSecret(site, prior, writer.value) == Success(next)
    requires writer.None? ==> FieldOf(site, next) == FieldOf(site, prior)
    ensures KeyringIn(site, next).Some?
    ensures KeyringIn(site, next).value.currentEpoch == IdOf(n + if writer.Some? then 1 else 0)
  {
    if writer.Some? {
      RotationAdvances(site, prior, writer.value, k, n);
    }
  }

  /** `m` successful rotations between two versions advance the epoch by exactly `m`. */
  lemma {:induction false} EpochCountsRotations(site: Site, w: World, a: nat, b: nat, k: Keyring, n: nat)
    requires CodecOk(site.codec) && ChainOk(site, w) && a <= b < |w.versions|
    requires KeyringIn(site, w.versions[a]) == Some(k) && k.currentEpoch == IdOf(n)
    requires n + RotationsIn(w.writers[a + 1..b + 1]) <= 9007199254740992
    ensures KeyringIn(site, w.versions[b]).Some?
    ensures KeyringIn(site, w.versions[b]).value.currentEpoch == IdOf(n + RotationsIn(w.writers[a + 1..b + 1]))
    decreases b
  {
    if a < b {
      RotationsUpTo(w.writers, a, b);
      EpochCountsRotations(site, w, a, b - 1, k, n);
      assert LinkOk(site, w, b);
      LinkAdvances(site, w.versions[b - 1], w.versions[b], w.writers[b],
                   KeyringIn(site, w.versions[b - 1]).value, n + RotationsIn(w.writers[a + 1..b]));
    } else {
      assert w.writers[a + 1..b + 1] == [];
    }
  }
}
