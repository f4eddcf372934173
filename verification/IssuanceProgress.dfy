/**
 What the issuance protocol lets happen: which requests pass each check, and that whoever passes them
 all can be served, from any state and with or without an idempotency key.
 */
module IssuanceProgress {
  import opened Common
  import opened Fingerprint
  import opened KeyringModel
  import opened BundleRequestValidation
  import opened IssuanceModel
  import opened IssuanceInvariant
  import opened IssuanceRuns

  // ----- the checks -----

  predicate AllHex(s: string) {
    forall i :: 0 <= i < |s| ==> '0' <= s[i] <= '9' || 'a' <= s[i] <= 'f' || 'A' <= s[i] <= 'F'
  }

  /** An id is accepted exactly when it is five groups of 8, 4, 4, 4 and 12 hex digits, in any case, with
      dashes between them. */
  lemma UuidPattern(s: string)
    ensures IsUuid(s) <==>
            && |s| == 36
            && AllHex(s[..8]) && AllHex(s[9..13]) && AllHex(s[14..18]) && AllHex(s[19..23]) && AllHex(s[24..])
            && s[8] == s[13] == s[18] == s[23] == '-'
  {
    if |s| == 36 && AllHex(s[..8]) && AllHex(s[9..13]) && AllHex(s[14..18]) && AllHex(s[19..23]) && AllHex(s[24..])
       && s[8] == s[13] == s[18] == s[23] == '-' {
      forall i | 0 <= i < 36 && i !in {8, 13, 18, 23} ensures IsHexDigit(s[i]) {
        if i < 8 {
          assert s[i] == s[..8][i];
        } else if i < 13 {
          assert s[i] == s[9..13][i - 9];
        } else if i < 18 {
          assert s[i] == s[14..18][i - 14];
        } else if i < 23 {
          assert s[i] == s[19..23][i - 19];
        } else {
          assert s[i] == s[24..][i - 24];
        }
      }
    }
  }

  /** Two ids name the same row exactly when they differ in the case of hex letters only. */
  lemma OnlyCaseIsIgnored(p: string, q: string)
    requires IsUuid(p) && IsUuid(q)
    ensures Canonical(p) == Canonical(q) <==>
            forall i :: 0 <= i < 36 ==>
              || p[i] == q[i]
              || ('A' <= p[i] <= 'F' && q[i] as int == p[i] as int + 32)
              || ('A' <= q[i] <= 'F' && p[i] as int == q[i] as int + 32)
  {
    if Canonical(p) == Canonical(q) {
      forall i | 0 <= i < 36
        ensures p[i] == q[i] || ('A' <= p[i] <= 'F' && q[i] as int == p[i] as int + 32)
                || ('A' <= q[i] <= 'F' && p[i] as int == q[i] as int + 32)
      {
        assert Canonical(p)[i] == Canonical(q)[i];
      }
    }
    if forall i :: 0 <= i < 36 ==>
         p[i] == q[i] || ('A' <= p[i] <= 'F' && q[i] as int == p[i] as int + 32)
         || ('A' <= q[i] <= 'F' && p[i] as int == q[i] as int + 32) {
      forall i | 0 <= i < 36 ensures Canonical(p)[i] == Canonical(q)[i] {
        assert p[i] == q[i] || 'A' <= p[i] <= 'F' || 'A' <= q[i] <= 'F';
        assert IsHexDigit(p[i]) || p[i] == '-';
      }
    }
  }

  /**
   A pickup is authorized exactly when its id is one of a registered row, in whatever case, and its drip
   is due or something was committed under its key and spelling. Otherwise it ends as unknown or not due.
   */
  lemma PickupIsAuthorizedIff(env: Env, w: World, p: string, key: Option<string>, now: int)
    requires IssuanceOk(env, w)
    ensures var read := Apply(env, w, Pickup(Some(p), key, now));
      var q := read.requests[|w.requests|];
      && read.db == w.db && |read.requests| == |w.requests| + 1
      && (!(IsUuid(p) && Canonical(p) in w.db.entitlements) ==> q.phase == Failed("ENTITLEMENT_UNKNOWN"))
      && (IsUuid(p) && Canonical(p) in w.db.entitlements ==>
            && q.grant == Grant(p, Drip(p, w.db.entitlements[Canonical(p)].interval)) && q.key == key
            && Enabled(read, CheckDue(|w.requests|))
            && Apply(env, read, CheckDue(|w.requests|)).requests[|w.requests|].phase ==
               (if w.db.entitlements[Canonical(p)].nextDripAt <= now || IssuedUnder(w, p, key) then Authorized
                else Failed("NOT_DUE")))
  {
    if key.Some? {
      ClaimedIffIssued(env, w, p, key.value);
    }
  }

  /** No id presented is an unknown entitlement. */
  lemma PickupWithoutIdIsUnknown(env: Env, w: World, key: Option<string>, now: int)
    ensures Apply(env, w, Pickup(None, key, now)).requests[|w.requests|].phase == Failed("ENTITLEMENT_UNKNOWN")
    ensures Apply(env, w, Pickup(None, key, now)).db == w.db
  {
  }

  /** A call is let through exactly when all calls of its reference in the window ending now, this one
      included, number at most the maximum; it is counted either way. */
  lemma CallIsAdmittedIff(env: Env, w: World, r: nat, now: int)
    requires r < |w.requests| && w.requests[r].phase.Authorized? && env.rateWindow > 0
    requires Limits.ClockOk(CallsOf(w, w.requests[r].grant.reference) + [now])
    ensures var reference := w.requests[r].grant.reference;
      var t := Apply(env, w, CheckRate(r, now));
      && CallsOf(t, reference) == CallsOf(w, reference) + [now]
      && t.requests[r].phase ==
         (if Limits.CountIn(CallsOf(w, reference) + [now], now - env.rateWindow, now) <= env.rateMax then Admitted
          else Failed("RATE_LIMITED"))
  {
    Limits.AllowsIffHistoryDoes(CallsOf(w, w.requests[r].grant.reference), now, env.rateWindow, env.rateMax);
  }

  /**
   A body passes the check exactly when it is well formed and some entry of the replica's keyring, the
   current one or not, has its epoch's id and a window that holds the instant; its epoch and blanks
   become the order.
   */
  lemma PassesIff(c: Check, o: Order)
    requires StructureOk(c.keyring)
    ensures Verdict(c) == Success(o) <==>
            && WellFormedBody(c.body, c.bundleSize, c.blankSize)
            && o.epoch == c.body.fields["epoch"].text
            && o.bundleSize == c.bundleSize && |o.blanks| == c.bundleSize
            && (forall i :: 0 <= i < c.bundleSize ==> o.blanks[i] == c.body.fields["blinded_blanks"].items[i].text)
            && (exists e :: e in c.keyring.epochs && e.document.epochId == o.epoch &&
                            e.document.notBefore <= c.at < e.document.notAfter)
  {
    AcceptsExactlyWellFormedRequests(c.body, c.bundleSize, c.blankSize);
    if WellFormedBody(c.body, c.bundleSize, c.blankSize) {
      var epoch := c.body.fields["epoch"].text;
      UsableIff(c.keyring, epoch, c.at);
      var passed := Validate(c.body, c.bundleSize, c.blankSize).value;
      if |o.blanks| == c.bundleSize && forall i :: 0 <= i < c.bundleSize ==> o.blanks[i] == passed.blanks[i] {
        assert o.blanks == passed.blanks;
      }
    }
  }

  /** A well-formed body whose epoch is not usable is refused as such. */
  lemma WrongEpochIff(c: Check)
    requires StructureOk(c.keyring)
    ensures Verdict(c) == Failure("WRONG_EPOCH") <==>
            && WellFormedBody(c.body, c.bundleSize, c.blankSize)
            && forall e :: e in c.keyring.epochs && e.document.epochId == c.body.fields["epoch"].text ==>
                 !(e.document.notBefore <= c.at < e.document.notAfter)
  {
    AcceptsExactlyWellFormedRequests(c.body, c.bundleSize, c.blankSize);
    if WellFormedBody(c.body, c.bundleSize, c.blankSize) {
      UsableIff(c.keyring, c.body.fields["epoch"].text, c.at);
    }
  }

  /** The bundle holds BlindSign of each blank, in order, under the key of the order's epoch. */
  lemma BundleIsBlindSigned(env: Env, o: Order)
    ensures SignBundle(env, o).epoch == o.epoch && |SignBundle(env, o).signatures| == |o.blanks|
    ensures forall i :: 0 <= i < |o.blanks| ==>
              SignBundle(env, o).signatures[i] == env.blindSign(env.keyOf(o.epoch), o.blanks[i])
  {
  }

  // ----- from any state to a delivery -----

  /** Request `r` was served: one commit and one ledger row more, and its bundle delivered. */
  ghost predicate ServedNow(env: Env, w: World, t: World, r: nat, o: Order)
    requires r < |w.requests|
  {
    var q := w.requests[r];
    && |t.commits| == |w.commits| + 1 && w.commits <= t.commits
    && t.commits[|w.commits|].request == r && t.commits[|w.commits|].reference == q.grant.reference
    && t.commits[|w.commits|].order == o && t.commits[|w.commits|].response == SignBundle(env, o)
    && t.db.ledger == w.db.ledger + [LedgerRow(q.grant.reference, o.epoch, 1)]
    && |t.requests| == |w.requests| && t.requests[r].phase == Delivered(o, SignBundle(env, o))
    && t.deliveries == w.deliveries + [Delivery(r, q.grant.reference, EffectiveKey(q.key), o, SignBundle(env, o))]
  }

  lemma SignedIsServed(env: Env, w: World, s: World, r: nat, o: Order, now: int, later: int) returns (t: World)
    requires r < |w.requests| && Advanced(w, s, r, Signed(o, SignBundle(env, o)), now)
    requires NulFree(w.requests[r].grant.reference) && NulFree(o.epoch)
    requires w.requests[r].key.None? || w.requests[r].key.value == "" ||
             (NulFree(w.requests[r].key.value) &&
              (w.requests[r].grant.reference, w.requests[r].key.value) !in w.db.idempotency)
    requires w.requests[r].grant.consume.Nothing? ||
             (Canonical(w.requests[r].grant.consume.entitlement) in w.db.entitlements &&
              w.db.entitlements[Canonical(w.requests[r].grant.consume.entitlement)].nextDripAt <= later)
    ensures Play(env, s, [Record(r, later)] + [Deliver(r)]) == Some(t) && ServedNow(env, w, t, r, o)
  {
    OneStep(env, s, Record(r, later));
    var recorded := Apply(env, s, Record(r, later));
    assert recorded.requests[r].phase == Recorded(o, SignBundle(env, o), |w.commits|);
    assert recorded.commits == w.commits + [CommitOf(s, r, later)];
    Then(env, s, [Record(r, later)], recorded, Deliver(r));
    t := Apply(env, recorded, Deliver(r));
  }

  /**
   Whoever has a grant, is within budget and passes the check is served: from any state of the protocol an
   authorized request can run to its delivery, if its texts can be stored, its key, if any, is
   unclaimed, and there is nothing to consume or a drip that is due.
   */
  lemma AuthorizedRequestIsServed(env: Env, w: World, r: nat, now: int, check: Check, o: Order, later: int)
    returns (worlds: seq<World>)
    requires r < |w.requests| && w.requests[r].phase.Authorized?
    requires WithinBudget(env, w, w.requests[r].grant.reference, now) && Verdict(check) == Success(o)
    requires NulFree(w.requests[r].grant.reference) && NulFree(o.epoch)
    requires w.requests[r].key.None? || w.requests[r].key.value == "" ||
             (NulFree(w.requests[r].key.value) &&
              (w.requests[r].grant.reference, w.requests[r].key.value) !in w.db.idempotency)
    requires w.requests[r].grant.consume.Nothing? ||
             (Canonical(w.requests[r].grant.consume.entitlement) in w.db.entitlements &&
              w.db.entitlements[Canonical(w.requests[r].grant.consume.entitlement)].nextDripAt <= later)
    ensures Steps(env, worlds, IssueSteps(r, now, check, o) + ([Record(r, later)] + [Deliver(r)])) && worlds[0] == w
    ensures ServedNow(env, w, worlds[|worlds| - 1], r, o)
  {
    var signed := IssueIsSigned(env, w, r, now, check, o);
    var t := SignedIsServed(env, w, signed, r, o, now, later);
    Join(env, w, IssueSteps(r, now, check, o), signed, [Record(r, later)] + [Deliver(r)], t);
    worlds := PlayIsSteps(env, w, IssueSteps(r, now, check, o) + ([Record(r, later)] + [Deliver(r)]));
  }

  /** A purchase without a key, from any state, within budget and with a good check, can be served. */
  lemma KeylessPurchaseIsServed(env: Env, w: World, reference: string, now: int, check: Check, o: Order, later: int)
    returns (bought: World, worlds: seq<World>)
    requires NulFree(reference) && NulFree(o.epoch) && WithinBudget(env, w, reference, now) && Verdict(check) == Success(o)
    ensures Enabled(w, Purchase(reference, None)) && bought == Apply(env, w, Purchase(reference, None))
    ensures bought.db == w.db && bought.commits == w.commits && |bought.requests| == |w.requests| + 1
    ensures Steps(env, worlds, IssueSteps(|w.requests|, now, check, o) + ([Record(|w.requests|, later)] + [Deliver(|w.requests|)]))
    ensures worlds[0] == bought && ServedNow(env, bought, worlds[|worlds| - 1], |w.requests|, o)
  {
    bought := Apply(env, w, Purchase(reference, None));
    assert bought.requests[|w.requests|] == Request(Grant(reference, Nothing), None, Authorized);
    worlds := AuthorizedRequestIsServed(env, bought, |w.requests|, now, check, o, later);
  }

  // ----- what may go wrong -----

  /** Nothing that may go wrong is ruled out: the signer, the database and the process may fail whenever
      they are at work, registrations, purchases and pickups come at any time, and signatures may be injected. */
  lemma AnythingMayHappen(w: World, r: nat, code: string, now: int, reference: string, key: Option<string>, x: Injection, p: string)
    ensures Enabled(w, Purchase(reference, key)) && Enabled(w, Pickup(Some(p), key, now)) && Enabled(w, Inject(x))
    ensures IsUuid(p) && Canonical(p) == p ==> Enabled(w, Register(p, reference, 0, now))
    ensures r < |w.requests| && w.requests[r].phase.Checked? ==> Enabled(w, SignFails(r, code))
    ensures r < |w.requests| && w.requests[r].phase.Signed? ==>
              Enabled(w, Record(r, now)) && Enabled(w, RollBack(r, code))
    ensures r < |w.requests| && !w.requests[r].phase.Delivered? ==> Enabled(w, Crash(r))
  {
  }
}
