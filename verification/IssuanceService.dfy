/**
 The services as they change database rows: the recording transaction statement by statement with
 its rollback, the counter upserts, the entitlement's registration and its conditional advance.
 */
module IssuanceServices {
  import opened Common
  import opened Fingerprint
  import opened IssuanceModel

  class Database {
    var idempotency: map<(string, string), string>
    var ledger: seq<LedgerRow>
    var counters: map<string, Counter>
    var entitlements: map<string, Entitlement>

    function View(): Db
      reads this
    {
      Db(idempotency, ledger, counters, entitlements)
    }

    constructor ()
      ensures View() == EMPTY_DB
    {
      idempotency, ledger, counters, entitlements := map[], [], map[], map[];
    }

    /** Insert, or add one paid bundle to the epoch's row. */
    method CountBundlePaid(epoch: string, bundleSize: nat)
      modifies this`counters
      ensures counters == RecordBundlePaid(old(counters), epoch, bundleSize)
      ensures epoch in counters && counters[epoch] ==
              if epoch in old(counters) then old(counters)[epoch].(bundlesPaid := old(counters)[epoch].bundlesPaid + 1)
              else Counter(bundleSize, 1, 0)
      ensures forall e :: e != epoch ==> (e in counters <==> e in old(counters)) && (e in counters ==> counters[e] == old(counters)[e])
    {
      if epoch in counters {
        var row := counters[epoch];
        counters := counters[epoch := row.(bundlesPaid := row.bundlesPaid + 1)];
      } else {
        counters := counters[epoch := Counter(bundleSize, 1, 0)];
      }
    }

    /** Insert, or add the produced signatures to the epoch's row. */
    method CountSignaturesIssued(epoch: string, signatures: nat, bundleSize: nat)
      modifies this`counters
      ensures counters == RecordSignaturesIssued(old(counters), epoch, signatures, bundleSize)
      ensures epoch in counters && counters[epoch] ==
              if epoch in old(counters)
              then old(counters)[epoch].(signaturesIssued := old(counters)[epoch].signaturesIssued + signatures)
              else Counter(bundleSize, 0, signatures)
      ensures forall e :: e != epoch ==> (e in counters <==> e in old(counters)) && (e in counters ==> counters[e] == old(counters)[e])
    {
      if epoch in counters {
        var row := counters[epoch];
        counters := counters[epoch := row.(signaturesIssued := row.signaturesIssued + signatures)];
      } else {
        counters := counters[epoch := Counter(bundleSize, 0, signatures)];
      }
    }

    /** Claims a due drip in one conditional update; false when no row was affected. */
    method AdvanceDrip(id: string, interval: nat, now: int) returns (claimed: bool)
      modifies this`entitlements
      ensures claimed <==> Advance(old(entitlements), Canonical(id), interval, now).Some?
      ensures entitlements ==
              if claimed then Advance(old(entitlements), Canonical(id), interval, now).value else old(entitlements)
      ensures claimed <==> Canonical(id) in old(entitlements) && old(entitlements)[Canonical(id)].nextDripAt <= now
      ensures entitlements ==
              if claimed then
                var row := old(entitlements)[Canonical(id)];
                old(entitlements)[Canonical(id) := Entitlement(row.receiptHash, row.interval, now + interval, row.dripsIssued + 1)]
              else old(entitlements)
    {
      var key := Canonical(id);
      claimed := key in entitlements && entitlements[key].nextDripAt <= now;
      if claimed {
        var row := entitlements[key];
        entitlements := entitlements[key := row.(nextDripAt := now + interval, dripsIssued := row.dripsIssued + 1)];
      }
    }

    method Restore(saved: Db)
      modifies this
      ensures View() == saved
    {
      idempotency, ledger := saved.idempotency, saved.ledger;
      counters, entitlements := saved.counters, saved.entitlements;
    }

    /**
     The recording transaction. Its statements run in order: a key already claimed ends it at once,
     before any grant is touched, and a drip that is no longer due undoes all that was written.

     It commits exactly when its texts can be stored, its key, if it has one, is unclaimed, and there is
     nothing to consume or a drip that is due; then it leaves one claim for a key, one ledger row, one
     bundle and the signatures counted, and the drip advanced. Otherwise it leaves everything as it was.
     */
    method RecordIssuance(env: Env, grant: Grant, key: Option<string>, order: Order, response: Response, now: int)
      returns (tx: Tx)
      modifies this
      ensures tx == RecordTx(env, old(View()), grant, key, order, response, now)
      ensures View() == if tx.Commits? then tx.db else old(View())
      ensures var keyOk := key.None? || (NulFree(grant.reference) && NulFree(key.value));
        var claimed := key.Some? && (grant.reference, key.value) in old(idempotency);
        var rowOk := NulFree(grant.reference) && NulFree(order.epoch);
        var due := grant.consume.Nothing? ||
                   (Canonical(grant.consume.entitlement) in old(entitlements) &&
                    old(entitlements)[Canonical(grant.consume.entitlement)].nextDripAt <= now);
        && (tx.Commits? <==> keyOk && !claimed && rowOk && due)
        && (tx.KeyClaimed? <==> keyOk && claimed)
        && (tx.NotDue? <==> keyOk && !claimed && rowOk && !due)
        && (tx.BadText? <==> !keyOk || (!claimed && !rowOk))
      ensures !tx.Commits? ==> idempotency == old(idempotency) && ledger == old(ledger) && counters == old(counters)
                               && entitlements == old(entitlements)
      ensures tx.Commits? ==>
        && idempotency == (if key.None? then old(idempotency) else
             old(idempotency)[(grant.reference, key.value) := env.sha256(HashInput(grant.reference, order.epoch, order.blanks))])
        && ledger == old(ledger) + [LedgerRow(grant.reference, order.epoch, 1)]
        && order.epoch in counters && counters[order.epoch] ==
             (if order.epoch in old(counters) then
                var row := old(counters)[order.epoch];
                Counter(row.bundleSize, row.bundlesPaid + 1, row.signaturesIssued + |response.signatures|)
              else Counter(order.bundleSize, 1, |response.signatures|))
        && (forall e :: e != order.epoch ==>
              (e in counters <==> e in old(counters)) && (e in counters ==> counters[e] == old(counters)[e]))
        && entitlements == (if grant.consume.Nothing? then old(entitlements) else
             var row := old(entitlements)[Canonical(grant.consume.entitlement)];
             old(entitlements)[Canonical(grant.consume.entitlement) :=
               Entitlement(row.receiptHash, row.interval, now + grant.consume.interval, row.dripsIssued + 1)])
    {
      var saved := View();
      if key.Some? {
        if !StorableKey(grant.reference, key) {
          return BadText;
        }
        if (grant.reference, key.value) in idempotency {
          return KeyClaimed;
        }
        idempotency := idempotency[(grant.reference, key.value) := FingerprintOf(env, grant.reference, order)];
      }
      if !StorableRow(grant.reference, order.epoch) {
        Restore(saved);
        return BadText;
      }
      ledger := ledger + [LedgerRow(grant.reference, order.epoch, 1)];
      CountBundlePaid(order.epoch, order.bundleSize);
      CountSignaturesIssued(order.epoch, |response.signatures|, order.bundleSize);
      if grant.consume.Drip? {
        var claimed := AdvanceDrip(grant.consume.entitlement, grant.consume.interval, now);
        if !claimed {
          Restore(saved);
          return NotDue;
        }
      }
      tx := Commits(View());
    }

    /**
     `issue` after signing: records the issuance; when the key is already claimed, answers a repeat
     of the same request and refuses a different one. An absent key and an empty one are no key.
     */
    method Issue(env: Env, grant: Grant, key: Option<string>, order: Order, response: Response, now: int)
      returns (result: Result<Response>)
      modifies this
      ensures var tx := RecordTx(env, old(View()), grant, EffectiveKey(key), order, response, now);
        View() == if tx.Commits? then tx.db else old(View())
      ensures result.Success? ==> result.value == response
      ensures var keyed := key.Some? && key.value != "";
        var textOk := NulFree(grant.reference) && (keyed ==> NulFree(key.value));
        var claimed := keyed && (grant.reference, key.value) in old(idempotency);
        var repeated := claimed && old(idempotency)[(grant.reference, key.value)]
                                   == env.sha256(HashInput(grant.reference, order.epoch, order.blanks));
        var due := grant.consume.Nothing? ||
                   (Canonical(grant.consume.entitlement) in old(entitlements) &&
                    old(entitlements)[Canonical(grant.consume.entitlement)].nextDripAt <= now);
        && (result.Success? <==> textOk && (repeated || (!claimed && NulFree(order.epoch) && due)))
        && (result == Failure("IDEMPOTENCY_CONFLICT") <==> textOk && claimed && !repeated)
        && (result == Failure("NOT_DUE") <==> textOk && !claimed && NulFree(order.epoch) && !due)
        && (result == Failure("DATABASE") <==> !textOk || (!claimed && !NulFree(order.epoch)))
        && |ledger| == |old(ledger)| + (if result.Success? && !claimed then 1 else 0)
    {
      var effective := EffectiveKey(key);
      var tx := RecordIssuance(env, grant, effective, order, response, now);
      match tx
      case Commits(_) => result := Success(response);
      case NotDue => result := Failure("NOT_DUE");
      case BadText => result := Failure("DATABASE");
      case KeyClaimed =>
        if idempotency[(grant.reference, effective.value)] == FingerprintOf(env, grant.reference, order) {
          result := Success(response);
        } else {
          result := Failure("IDEMPOTENCY_CONFLICT");
        }
    }

    /**
     Registers a receipt. A receipt seen before keeps its entitlement and its schedule; otherwise a
     row is inserted whose first drip is due at once. The id returned is the receipt's row.
     */
    method RegisterReceipt(id: string, receiptHash: string, interval: nat, now: int) returns (result: Result<string>)
      modifies this`entitlements
      ensures entitlements == RegisterRow(old(entitlements), id, receiptHash, interval, now)
      ensures result.Success? ==>
                result.value in entitlements && entitlements[result.value].receiptHash == receiptHash
      ensures (exists e :: e in old(entitlements) && old(entitlements)[e].receiptHash == receiptHash) ==>
                result.Success? && entitlements == old(entitlements)
      ensures (forall e :: e in old(entitlements) ==> old(entitlements)[e].receiptHash != receiptHash) && id !in old(entitlements) ==>
                result.Success? && id in entitlements && entitlements[id] == Entitlement(receiptHash, interval, now, 0)
      ensures result.Failure? ==> id in old(entitlements)
      ensures forall e :: e in old(entitlements) ==> e in entitlements && entitlements[e] == old(entitlements)[e]
      ensures forall e :: e in entitlements && e !in old(entitlements) ==> e == id
    {
      if !HasReceipt(entitlements, receiptHash) {
        if id in entitlements {
          return Failure("duplicate entitlement id");
        }
        entitlements := entitlements[id := Entitlement(receiptHash, interval, now, 0)];
        assert entitlements[id].receiptHash == receiptHash;
      }
      assert HasReceipt(entitlements, receiptHash);
      var found :| found in entitlements && entitlements[found].receiptHash == receiptHash;
      result := Success(found);
    }

    /** Reads the schedule of a presented id: unknown ids are refused, dueness is read from the row. */
    method Schedule(presented: Option<string>, now: int) returns (result: Result<(Drips, bool)>)
      ensures result.Success? <==>
                presented.Some? && IsUuid(presented.value) && Canonical(presented.value) in entitlements
      ensures result.Success? ==>
                var row := entitlements[Canonical(presented.value)];
                result.value == (Drips(presented.value, row.interval), row.nextDripAt <= now)
    {
      if presented.None? || !IsUuid(presented.value) || Canonical(presented.value) !in entitlements {
        return Failure("ENTITLEMENT_UNKNOWN");
      }
      var row := entitlements[Canonical(presented.value)];
      result := Success((Drips(presented.value, row.interval), row.nextDripAt <= now));
    }

    /** Looks the claim of a reference and key up. */
    method IsReplay(reference: string, key: string) returns (replay: bool)
      ensures replay <==> (reference, key) in idempotency
    {
      replay := (reference, key) in idempotency;
    }

    /** Admission to the fiat rail: a due drip, or the replay of one, yields the grant to issue under. */
    method AdmitPickup(presented: Option<string>, key: Option<string>, now: int) returns (result: Result<Grant>)
      ensures result.Success? <==>
                && presented.Some? && IsUuid(presented.value) && Canonical(presented.value) in entitlements
                && (entitlements[Canonical(presented.value)].nextDripAt <= now ||
                    (key.Some? && (presented.value, key.value) in idempotency))
      ensures result.Success? ==>
                result.value == Grant(presented.value,
                                      Drip(presented.value, entitlements[Canonical(presented.value)].interval))
    {
      var schedule := Schedule(presented, now);
      if schedule.Failure? {
        return Failure(schedule.error);
      }
      var replay := false;
      if key.Some? {
        replay := IsReplay(presented.value, key.value);
      }
      if !replay && !schedule.value.1 {
        return Failure("NOT_DUE");
      }
      var drips := schedule.value.0;
      result := Success(Grant(drips.id, Drip(drips.id, drips.interval)));
    }
  }

  /** What `schedule` hands on: the id as presented and the row's interval. */
  datatype Drips = Drips(id: string, interval: nat)
}
