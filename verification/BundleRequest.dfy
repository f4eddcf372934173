/** Validation of a bundle request body. */
module BundleRequestValidation {
  import opened Common
  import opened Base64
  import opened Fingerprint

  /** A parsed JSON value, as far as validation looks into it. */
  datatype Json =
    | JNull
    | JScalar                               // boolean or number
    | JString(text: string)
    | JArray(items: seq<Json>)
    | JObject(fields: map<string, Json>)

  datatype BundleRequest = BundleRequest(epoch: string, blanks: seq<string>)

  /** A property read; absent properties, and those of an array, are undefined. */
  function Field(body: Json, name: string): Option<Json> {
    if body.JObject? && name in body.fields then Some(body.fields[name]) else None
  }

  function Texts(items: seq<Json>): seq<string>
    requires forall i :: 0 <= i < |items| ==> items[i].JString?
  {
    seq(|items|, i requires 0 <= i < |items| => items[i].text)
  }

  predicate BlankOk(item: Json, blankSize: nat) {
    item.JString? && DecodeStrict(item.text).Some? && |DecodeStrict(item.text).value| == blankSize
  }

  function Validate(body: Json, bundleSize: nat, blankSize: nat): Result<BundleRequest> {
    if !body.JObject? && !body.JArray? then Failure("REQUEST_INVALID")
    else
      var epoch, blanks := Field(body, "epoch"), Field(body, "blinded_blanks");
      if epoch.None? || !epoch.value.JString? || epoch.value.text == "" then Failure("REQUEST_INVALID")
      else if blanks.None? || !blanks.value.JArray? then Failure("BLANK_FORMAT")
      else if |blanks.value.items| != bundleSize then Failure("BUNDLE_SIZE")
      else if !(forall i :: 0 <= i < |blanks.value.items| ==> BlankOk(blanks.value.items[i], blankSize))
      then Failure("BLANK_FORMAT")
      else Success(BundleRequest(epoch.value.text, Texts(blanks.value.items)))
  }

  /** `blank` is the canonical encoding of exactly `size` bytes, and of no others. */
  ghost predicate EncodesBytes(blank: string, size: nat) {
    exists b: seq<Byte> :: |b| == size && b != [] && blank == Encode(b)
  }

  lemma BlankIsCanonical(blank: string, size: nat)
    ensures BlankOk(JString(blank), size) <==> EncodesBytes(blank, size)
  {
    if BlankOk(JString(blank), size) {
      AcceptsExactlyCanonicalEncodings(blank, DecodeStrict(blank).value);
    }
    if EncodesBytes(blank, size) {
      var b: seq<Byte> :| |b| == size && b != [] && blank == Encode(b);
      AcceptsExactlyCanonicalEncodings(blank, b);
    }
  }

  lemma AcceptedBlankIsNulFree(blank: string)
    requires DecodeStrict(blank).Some?
    ensures NulFree(blank)
  {
    forall i: nat | i < |blank| ensures blank[i] != NUL {
      AcceptedCharacters(blank, i);
    }
  }

  /**
   Every accepted request has a non-empty epoch and exactly `k` blanks, each the only spelling of
   exactly the configured number of bytes; none holds a NUL, so its fingerprint is unambiguous.
   */
  lemma AcceptedRequestIsWellFormed(body: Json, k: nat, size: nat)
    requires Validate(body, k, size).Success?
    ensures var r := Validate(body, k, size).value;
      && r.epoch != "" && |r.blanks| == k
      && (forall i :: 0 <= i < k ==> EncodesBytes(r.blanks[i], size))
      && AllNulFree(r.blanks)
  {
    var r := Validate(body, k, size).value;
    forall i | 0 <= i < k ensures EncodesBytes(r.blanks[i], size) && NulFree(r.blanks[i]) {
      BlankIsCanonical(r.blanks[i], size);
      AcceptedBlankIsNulFree(r.blanks[i]);
    }
  }

  /** The body is an object that names a non-empty epoch and `k` blanks of the right size; whatever
      else it holds does not matter. */
  ghost predicate WellFormedBody(body: Json, k: nat, size: nat) {
    && body.JObject?
    && "epoch" in body.fields && body.fields["epoch"].JString? && body.fields["epoch"].text != ""
    && "blinded_blanks" in body.fields && body.fields["blinded_blanks"].JArray?
    && var items := body.fields["blinded_blanks"].items;
       |items| == k && forall i :: 0 <= i < k ==> items[i].JString? && EncodesBytes(items[i].text, size)
  }

  /** Exactly the well-formed bodies are accepted, and their epoch and blanks come out as they are. */
  lemma AcceptsExactlyWellFormedRequests(body: Json, k: nat, size: nat)
    ensures Validate(body, k, size).Success? <==> WellFormedBody(body, k, size)
    ensures Validate(body, k, size).Success? ==>
              var r := Validate(body, k, size).value;
              && r.epoch == body.fields["epoch"].text && |r.blanks| == k
              && forall i :: 0 <= i < k ==> r.blanks[i] == body.fields["blinded_blanks"].items[i].text
  {
    var blanks := Field(body, "blinded_blanks");
    if blanks.Some? && blanks.value.JArray? {
      ItemsAreBlanks(blanks.value.items, size);
    }
  }

  lemma ItemsAreBlanks(items: seq<Json>, size: nat)
    ensures forall i :: 0 <= i < |items| ==>
              (BlankOk(items[i], size) <==> items[i].JString? && EncodesBytes(items[i].text, size))
  {
    forall i | 0 <= i < |items| && items[i].JString?
      ensures BlankOk(items[i], size) <==> EncodesBytes(items[i].text, size)
    {
      BlankIsCanonical(items[i].text, size);
    }
  }

  /** Count before format: a wrong number of blanks is reported as such, whatever the blanks are. */
  lemma SizeIsReportedFirst(body: Json, k: nat, size: nat)
    requires body.JObject? && "epoch" in body.fields && body.fields["epoch"].JString? && body.fields["epoch"].text != ""
    requires "blinded_blanks" in body.fields && body.fields["blinded_blanks"].JArray?
    ensures Validate(body, k, size) == Failure("BUNDLE_SIZE") <==> |body.fields["blinded_blanks"].items| != k
  {
  }

  /** Why a body is refused, in the order of the checks. */
  lemma RefusalsSayWhy(body: Json, k: nat, size: nat)
    ensures !body.JObject? ==> Validate(body, k, size) == Failure("REQUEST_INVALID")
    ensures body.JObject? && !("epoch" in body.fields && body.fields["epoch"].JString? && body.fields["epoch"].text != "") ==>
              Validate(body, k, size) == Failure("REQUEST_INVALID")
    ensures body.JObject? && "epoch" in body.fields && body.fields["epoch"].JString? && body.fields["epoch"].text != "" &&
            !("blinded_blanks" in body.fields && body.fields["blinded_blanks"].JArray?) ==>
              Validate(body, k, size) == Failure("BLANK_FORMAT")
    ensures body.JObject? && "epoch" in body.fields && body.fields["epoch"].JString? && body.fields["epoch"].text != "" &&
            "blinded_blanks" in body.fields && body.fields["blinded_blanks"].JArray? &&
            |body.fields["blinded_blanks"].items| == k && !WellFormedBody(body, k, size) ==>
              Validate(body, k, size) == Failure("BLANK_FORMAT")
  {
    AcceptsExactlyWellFormedRequests(body, k, size);
  }
}
