/** Reconciliation: counters against the ledger and against each other. */
module ReconciliationService {
  import opened Common
  import opened IssuanceModel
  import opened IssuanceInvariant
  import opened IssuanceTheorems

  datatype AlarmKind = Overissuance | Underissuance | LedgerMismatch

  datatype Alarm = Alarm(epoch: string, kind: AlarmKind, expected: int, actual: int, delta: int)

  datatype CounterRow = CounterRow(epoch: string, counter: Counter)

  datatype EpochReconciliation = EpochReconciliation(
    epoch: string, bundleSize: nat, bundlesPaid: nat, signaturesIssued: nat, expectedSignatures: int,
    delta: int, ledgerBundles: nat, ledgerDelta: int, alarms: seq<AlarmKind>)

  /** Bundles the ledger holds for an epoch; an epoch without rows counts as zero. */
  function LedgerBundles(ledger: seq<LedgerRow>, epoch: string): nat {
    if ledger == [] then 0
    else
      var row := ledger[|ledger| - 1];
      LedgerBundles(ledger[..|ledger| - 1], epoch) + (if row.epoch == epoch then row.bundleCount else 0)
  }

  /** What reconciliation finds for one counter row. */
  function Finding(ledger: seq<LedgerRow>, row: CounterRow): EpochReconciliation {
    var c := row.counter;
    var expected := c.bundlesPaid * c.bundleSize;
    var delta := c.signaturesIssued - expected;
    var bundles := LedgerBundles(ledger, row.epoch);
    EpochReconciliation(
      row.epoch, c.bundleSize, c.bundlesPaid, c.signaturesIssued, expected, delta, bundles, c.bundlesPaid - bundles,
      (if delta > 0 then [Overissuance] else []) +
      (if delta < 0 then [Underissuance] else []) +
      (if c.bundlesPaid != bundles then [LedgerMismatch] else []))
  }

  /** The alarm row raised for one kind of divergence. */
  function AlarmFor(f: EpochReconciliation, kind: AlarmKind): Alarm {
    if kind.LedgerMismatch? then Alarm(f.epoch, kind, f.ledgerBundles, f.bundlesPaid, f.ledgerDelta)
    else Alarm(f.epoch, kind, f.expectedSignatures, f.signaturesIssued, f.delta)
  }

  function AlarmsFor(f: EpochReconciliation, kinds: seq<AlarmKind>): seq<Alarm> {
    seq(|kinds|, i requires 0 <= i < |kinds| => AlarmFor(f, kinds[i]))
  }

  class Reconciliation {
    var raised: seq<Alarm>

    /** The arithmetic of one counter row, alarm kinds pushed in the order they are checked. */
    method Examine(ledger: seq<LedgerRow>, row: CounterRow) returns (result: EpochReconciliation)
      ensures result == Finding(ledger, row)
      ensures result.delta == result.signaturesIssued - result.expectedSignatures
      ensures result.ledgerDelta == result.bundlesPaid - result.ledgerBundles
    {
      var c := row.counter;
      var expected := c.bundlesPaid * c.bundleSize;
      var delta := c.signaturesIssued - expected;
      var bundles := LedgerBundles(ledger, row.epoch);
      var kinds: seq<AlarmKind> := [];
      if delta > 0 { kinds := kinds + [Overissuance]; }
      if delta < 0 { kinds := kinds + [Underissuance]; }
      if c.bundlesPaid - bundles != 0 { kinds := kinds + [LedgerMismatch]; }
      result := EpochReconciliation(row.epoch, c.bundleSize, c.bundlesPaid, c.signaturesIssued,
                                    expected, delta, bundles, c.bundlesPaid - bundles, kinds);
    }

    /** Stores one alarm row for each divergence found, with the values of its kind. */
    method RaiseAll(f: EpochReconciliation)
      requires f.delta == f.signaturesIssued - f.expectedSignatures
      requires f.ledgerDelta == f.bundlesPaid - f.ledgerBundles
      modifies this
      ensures raised == old(raised) + AlarmsFor(f, f.alarms)
      ensures |raised| == |old(raised)| + |f.alarms|
      ensures forall j :: 0 <= j < |f.alarms| ==>
                var mismatch := f.alarms[j] == LedgerMismatch;
                var expected := if mismatch then f.ledgerBundles else f.expectedSignatures;
                var actual := if mismatch then f.bundlesPaid else f.signaturesIssued;
                raised[|old(raised)| + j] == Alarm(f.epoch, f.alarms[j], expected, actual, actual - expected)
    {
      for j := 0 to |f.alarms|
        invariant raised == old(raised) + AlarmsFor(f, f.alarms[..j])
      {
        var kind := f.alarms[j];
        var expected, actual := f.expectedSignatures, f.signaturesIssued;
        if kind == LedgerMismatch {
          expected, actual := f.ledgerBundles, f.bundlesPaid;
        }
        raised := raised + [Alarm(f.epoch, kind, expected, actual, actual - expected)];
        assert AlarmsFor(f, f.alarms[..j + 1]) == AlarmsFor(f, f.alarms[..j]) + [AlarmFor(f, kind)];
      }
      assert f.alarms[..|f.alarms|] == f.alarms;
    }

    /**
     Compares every counter row, read after the ledger, with the ledger and with itself; the alarms of
     each row are stored, row by row, and nothing else. `StoresExactly` says which these are.
     */
    method Reconcile(ledger: seq<LedgerRow>, rows: seq<CounterRow>) returns (results: seq<EpochReconciliation>)
      modifies this
      ensures |results| == |rows|
      ensures forall i :: 0 <= i < |rows| ==> results[i] == Finding(ledger, rows[i])
      ensures raised == old(raised) + Stored(ledger, rows)
    {
      results := [];
      for i := 0 to |rows|
        invariant |results| == i
        invariant forall k :: 0 <= k < i ==> results[k] == Finding(ledger, rows[k])
        invariant raised == old(raised) + Stored(ledger, rows[..i])
      {
        var result := Examine(ledger, rows[i]);
        RaiseAll(result);
        StoredOneMore(ledger, rows, i);
        results := results + [result];
      }
      assert rows[..|rows|] == rows;
    }
  }

  // ----- what is stored -----

  /** The alarms stored for one counter row. */
  function RowAlarms(ledger: seq<LedgerRow>, row: CounterRow): seq<Alarm> {
    AlarmsFor(Finding(ledger, row), Finding(ledger, row).alarms)
  }

  /** The alarms stored for all rows, in order. */
  function Stored(ledger: seq<LedgerRow>, rows: seq<CounterRow>): seq<Alarm> {
    if rows == [] then []
    else Stored(ledger, rows[..|rows| - 1]) + RowAlarms(ledger, rows[|rows| - 1])
  }

  /**
   For one row: an overissuance alarm exactly when more signatures were issued than bundles paid call
   for, an underissuance alarm exactly when fewer, a ledger mismatch exactly when the ledger holds
   another number of bundles; each once, with both numbers and their difference, and nothing else.
   */
  lemma RowAlarmsAreExact(ledger: seq<LedgerRow>, row: CounterRow)
    ensures var e, paid, issued := row.epoch, row.counter.bundlesPaid, row.counter.signaturesIssued;
      var due, sold := paid * row.counter.bundleSize, LedgerBundles(ledger, e);
      RowAlarms(ledger, row) ==
        (if issued > due then [Alarm(e, Overissuance, due, issued, issued - due)] else []) +
        (if issued < due then [Alarm(e, Underissuance, due, issued, issued - due)] else []) +
        (if paid != sold then [Alarm(e, LedgerMismatch, sold, paid, paid - sold)] else [])
  {
  }

  lemma StoredOneMore(ledger: seq<LedgerRow>, rows: seq<CounterRow>, i: nat)
    requires i < |rows|
    ensures Stored(ledger, rows[..i + 1]) == Stored(ledger, rows[..i]) + RowAlarms(ledger, rows[i])
  {
    assert rows[..i + 1][..i] == rows[..i];
  }

  /** What is stored is what the rows raise. */
  lemma {:induction false} StoredMembers(ledger: seq<LedgerRow>, rows: seq<CounterRow>, a: Alarm)
    ensures a in Stored(ledger, rows) <==> exists i :: 0 <= i < |rows| && a in RowAlarms(ledger, rows[i])
  {
    if rows == [] {
    } else {
      var n := |rows| - 1;
      StoredMembers(ledger, rows[..n], a);
      assert forall i :: 0 <= i < n ==> rows[..n][i] == rows[i];
    }
  }

  lemma AlarmNamesItsEpoch(ledger: seq<LedgerRow>, row: CounterRow, a: Alarm)
    requires a in RowAlarms(ledger, row)
    ensures a.epoch == row.epoch
  {
    RowAlarmsAreExact(ledger, row);
  }

  /** Each alarm is stored once when each epoch has one row. */
  lemma {:induction false} StoredOnce(ledger: seq<LedgerRow>, rows: seq<CounterRow>)
    requires forall i, j :: 0 <= i < j < |rows| ==> rows[i].epoch != rows[j].epoch
    ensures NoDuplicates(Stored(ledger, rows))
  {
    if rows == [] {
    } else {
      var n := |rows| - 1;
      StoredOnce(ledger, rows[..n]);
      RowAlarmsAreExact(ledger, rows[n]);
      forall a | a in Stored(ledger, rows[..n]) ensures a !in RowAlarms(ledger, rows[n]) {
        StoredMembers(ledger, rows[..n], a);
        var i :| 0 <= i < n && a in RowAlarms(ledger, rows[..n][i]);
        AlarmNamesItsEpoch(ledger, rows[i], a);
        if a in RowAlarms(ledger, rows[n]) {
          AlarmNamesItsEpoch(ledger, rows[n], a);
        }
      }
      DisjointNoDuplicates(Stored(ledger, rows[..n]), RowAlarms(ledger, rows[n]));
    }
  }

  /** The alarm is one that the row calls for. */
  ghost predicate CalledFor(ledger: seq<LedgerRow>, row: CounterRow, a: Alarm) {
    var e, paid, issued := row.epoch, row.counter.bundlesPaid, row.counter.signaturesIssued;
    var due, sold := paid * row.counter.bundleSize, LedgerBundles(ledger, e);
    || (issued > due && a == Alarm(e, Overissuance, due, issued, issued - due))
    || (issued < due && a == Alarm(e, Underissuance, due, issued, issued - due))
    || (paid != sold && a == Alarm(e, LedgerMismatch, sold, paid, paid - sold))
  }

  lemma RaisedIffCalledFor(ledger: seq<LedgerRow>, row: CounterRow, a: Alarm)
    ensures a in RowAlarms(ledger, row) <==> CalledFor(ledger, row, a)
  {
    RowAlarmsAreExact(ledger, row);
  }

  /**
   Reconciliation stores exactly the alarms that the counters and the ledger call for: every one of them,
   none other, and, as each epoch has one counter row, none twice.
   */
  lemma StoresExactly(ledger: seq<LedgerRow>, rows: seq<CounterRow>)
    requires forall i, j :: 0 <= i < j < |rows| ==> rows[i].epoch != rows[j].epoch
    ensures forall a :: a in Stored(ledger, rows) <==> exists i :: 0 <= i < |rows| && CalledFor(ledger, rows[i], a)
    ensures NoDuplicates(Stored(ledger, rows))
  {
    forall a: Alarm ensures a in Stored(ledger, rows) <==> exists i :: 0 <= i < |rows| && CalledFor(ledger, rows[i], a) {
      StoredMembers(ledger, rows, a);
      forall i | 0 <= i < |rows| ensures a in RowAlarms(ledger, rows[i]) <==> CalledFor(ledger, rows[i], a) {
        RaisedIffCalledFor(ledger, rows[i], a);
      }
    }
    StoredOnce(ledger, rows);
  }

  /** The ledger's sum for an epoch adds the bundle counts of its rows. */
  lemma {:induction false} LedgerBundlesAdd(a: seq<LedgerRow>, b: seq<LedgerRow>, e: string)
    ensures LedgerBundles(a + b, e) == LedgerBundles(a, e) + LedgerBundles(b, e)
    ensures |b| == 1 ==> LedgerBundles(b, e) == if b[0].epoch == e then b[0].bundleCount else 0
  {
    if b == [] {
      assert a + b == a;
    } else {
      assert (a + b)[..|a + b| - 1] == a + b[..|b| - 1];
      LedgerBundlesAdd(a, b[..|b| - 1], e);
    }
  }

  // ----- what the findings mean -----

  lemma {:induction false} LedgerCountsCommits(ledger: seq<LedgerRow>, commits: seq<Commit>, e: string)
    requires |ledger| == |commits|
    requires forall i :: 0 <= i < |commits| ==> ledger[i] == LedgerRow(commits[i].reference, commits[i].order.epoch, 1)
    ensures LedgerBundles(ledger, e) == BundlesOf(commits, e)
  {
    if commits == [] {
    } else {
      LedgerCountsCommits(ledger[..|ledger| - 1], commits[..|commits| - 1], e);
    }
  }

  lemma {:induction false} BundlesAdd(a: seq<Commit>, b: seq<Commit>, e: string)
    ensures BundlesOf(a + b, e) == BundlesOf(a, e) + BundlesOf(b, e)
  {
    if b == [] {
      assert a + b == a;
    } else {
      assert (a + b)[..|a + b| - 1] == a + b[..|b| - 1];
      BundlesAdd(a, b[..|b| - 1], e);
    }
  }

  /** The commits that happened between two points of a run. */
  function Between(w: World, t: World): seq<Commit>
    requires |w.commits| <= |t.commits|
  {
    t.commits[|w.commits|..]
  }

  /**
   Reconciling the ledger as read at `j` with the counters as read later at `i`: the ledger delta
   is exactly the bundles committed in between, so never negative; the signature delta is exactly
   the commits' drift plus the injected signatures.
   */
  lemma DeltasAreExact(env: Env, worlds: seq<World>, steps: seq<Step>, j: nat, i: nat, e: string)
    requires Run(env, worlds, steps) && j <= i < |worlds| && e in worlds[i].db.counters
    ensures |worlds[j].commits| <= |worlds[i].commits|
    ensures var w := worlds[i];
      var f := Finding(worlds[j].db.ledger, CounterRow(e, w.db.counters[e]));
      && f.ledgerDelta == BundlesOf(Between(worlds[j], w), e)
      && f.delta == DriftOf(w.commits, e, f.bundleSize) + InjectedOf(w.injections, e)
  {
    RunGrows(env, worlds, steps, j, i);
    CountersAreExact(env, worlds, steps, i, e);
    LedgerAtRead(env, worlds, steps, j, e);
    assert worlds[i].commits == worlds[j].commits + Between(worlds[j], worlds[i]);
    BundlesAdd(worlds[j].commits, Between(worlds[j], worlds[i]), e);
  }

  lemma LedgerAtRead(env: Env, worlds: seq<World>, steps: seq<Step>, j: nat, e: string)
    requires Run(env, worlds, steps) && j < |worlds|
    ensures LedgerBundles(worlds[j].db.ledger, e) == BundlesOf(worlds[j].commits, e)
  {
    RunKeeps(env, worlds, steps, j);
    LedgerCountsCommits(worlds[j].db.ledger, worlds[j].commits, e);
  }

  /**
   At a constant bundle size the alarm means what it says: overissuance is raised exactly when
   signatures were injected, with a delta of exactly their number; underissuance never; and a
   ledger mismatch exactly when something committed between the two reads.
   */
  lemma AlarmsAreExact(env: Env, worlds: seq<World>, steps: seq<Step>, j: nat, i: nat, e: string, k: nat)
    requires Run(env, worlds, steps) && j <= i < |worlds| && e in worlds[i].db.counters
    requires ConstantSize(worlds[i], e, k)
    ensures |worlds[j].commits| <= |worlds[i].commits|
    ensures var w := worlds[i];
      var f := Finding(worlds[j].db.ledger, CounterRow(e, w.db.counters[e]));
      && f.delta == InjectedOf(w.injections, e)
      && (Overissuance in f.alarms <==> InjectedOf(w.injections, e) > 0)
      && Underissuance !in f.alarms
      && (LedgerMismatch in f.alarms <==> BundlesOf(Between(worlds[j], w), e) > 0)
      && (InjectedOf(w.injections, e) == 0 && BundlesOf(Between(worlds[j], w), e) == 0 ==> f.alarms == [])
  {
    DeltasAreExact(env, worlds, steps, j, i, e);
    CountersAreExact(env, worlds, steps, i, e);
  }
}
