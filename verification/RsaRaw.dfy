/** The checked raw RSA private operation (section 4.3 of RFC 9474, section 5.2.1 of RFC 8017). */
module RsaRaw {
  import opened Common
  import opened Arithmetic
  import opened Base64

  // ----- arithmetic -----

  lemma {:induction false} PowOfPow(x: nat, a: nat, b: nat)
    ensures Pow(x, a * b) == Pow(Pow(x, a), b)
  {
    if b == 0 {
      assert a * b == 0;
    } else {
      PowOfPow(x, a, b - 1);
      assert a * b == a + a * (b - 1);
      PowAdds(x, a, a * (b - 1));
    }
  }

  /** A multiple of the modulus does not change the remainder. */
  lemma ModMultiple(x: nat, q: nat, n: nat)
    requires n > 0
    ensures (x + q * n) % n == x % n
  {
    var y := x + q * n;
    assert y == (x / n + q) * n + x % n;
    assert y == (y / n) * n + y % n;
    DivisionIsUnique(n, x / n + q, x % n, y / n, y % n);
  }

  lemma MulMod(a: nat, b: nat, n: nat)
    requires n > 0
    ensures ((a % n) * b) % n == (a * b) % n
  {
    var q, r := a / n, a % n;
    assert a == q * n + r;
    assert a * b == r * b + (q * b) * n;
    ModMultiple(r * b, q * b, n);
  }

  /** Powers can be taken of the remainder. */
  lemma {:induction false} PowMod(x: nat, k: nat, n: nat)
    requires n > 0
    ensures Pow(x % n, k) % n == Pow(x, k) % n
  {
    if k == 0 {
    } else {
      var r, p, s := x % n, Pow(x, k - 1), Pow(x % n, k - 1);
      PowMod(x, k - 1, n);
      assert s % n == p % n;
      calc {
        (r * s) % n;
        { assert r * s == s * r; }
        (s * r) % n;
        { MulMod(s, r, n); }
        ((s % n) * r) % n;
        { MulMod(p, r, n); }
        (p * r) % n;
        { assert p * r == r * p; }
        (r * p) % n;
        { MulMod(x, p, n); }
        (x * p) % n;
      }
    }
  }

  /** Raising to `a`, reducing, then raising to `b` is raising to the product. */
  lemma PowTwice(x: nat, a: nat, b: nat, n: nat)
    requires n > 0
    ensures Pow(Pow(x, a) % n, b) % n == Pow(x, a * b) % n
  {
    PowMod(Pow(x, a), b, n);
    PowOfPow(x, a, b);
  }

  // ----- integers and octet strings -----

  /** Big-endian value of a byte string; the empty string is zero. */
  function AsInteger(b: seq<Byte>): nat {
    if b == [] then 0 else AsInteger(b[..|b| - 1]) * 256 + b[|b| - 1]
  }

  /** The `k` low-order bytes of a value, most significant first. */
  function AsBytes(v: nat, k: nat): (b: seq<Byte>)
    ensures |b| == k
  {
    if k == 0 then [] else AsBytes(v / 256, k - 1) + [v % 256]
  }

  lemma {:induction false} BytesOfInteger(b: seq<Byte>)
    ensures AsBytes(AsInteger(b), |b|) == b
  {
    if b == [] {
    } else {
      BytesOfInteger(b[..|b| - 1]);
    }
  }

  lemma {:induction false} IntegerOfBytes(v: nat, k: nat)
    requires v < Pow(256, k)
    ensures AsInteger(AsBytes(v, k)) == v
  {
    if k == 0 {
    } else {
      IntegerOfBytes(v / 256, k - 1);
      var b := AsBytes(v, k);
      assert b[..k - 1] == AsBytes(v / 256, k - 1);
    }
  }

  // ----- the code -----

  /** An RSA key: modulus, exponents, and the modulus length in bytes. */
  datatype Key = Key(n: nat, e: nat, d: nat, size: nat)

  /** Public and private exponent undo each other on the residue `x`. */
  predicate Undoes(key: Key, x: nat)
    requires x < key.n
  {
    Pow(x, key.e * key.d) % key.n == x
  }

  ghost predicate KeyOk(key: Key) {
    0 < key.n <= Pow(256, key.size) && forall x: nat | x < key.n :: Undoes(key, x)
  }

  /** What the platform's private operation yields: any bytes at all, or one of its errors. */
  datatype PrivateOp = Yields(bytes: seq<Byte>) | DataTooLarge | OtherError(message: string)

  /** The public operation without padding; it throws unless given a full-length value below `n`. */
  function PublicEncrypt(key: Key, input: seq<Byte>): Option<seq<Byte>>
    requires key.n > 0
  {
    if |input| != key.size || AsInteger(input) >= key.n then None
    else Some(AsBytes(Pow(AsInteger(input), key.e) % key.n, key.size))
  }

  function RawSign(key: Key, message: seq<Byte>, op: PrivateOp): Result<seq<Byte>>
    requires key.n > 0
  {
    if AsInteger(message) >= key.n then Failure("signature representative out of range")
    else
      match op
      case DataTooLarge => Failure("signature representative out of range")
      case OtherError(m) => Failure(m)
      case Yields(signature) =>
        match PublicEncrypt(key, signature)
        case None => Failure("public operation failed")
        case Some(roundTrip) => if roundTrip == message then Success(signature) else Failure("signing failure")
  }

  /** RSASP1: the mathematical signature of a representative. */
  function SignatureOf(key: Key, m: nat): nat
    requires key.n > 0
  {
    Pow(m, key.d) % key.n
  }

  // ----- correctness -----

  lemma ExponentsCancel(x: nat, a: nat, b: nat, ab: nat, n: nat)
    requires x < n && ab == a * b && Pow(x, ab) % n == x
    ensures Pow(Pow(x, a) % n, b) % n == x
  {
    PowTwice(x, a, b, n);
  }

  lemma Commutes(a: nat, b: nat)
    ensures a * b == b * a
  {
  }

  /** The signature's public power gives the representative back. */
  lemma SignatureVerifies(key: Key, m: nat)
    requires m < key.n && Undoes(key, m)
    ensures Pow(SignatureOf(key, m), key.e) % key.n == m
  {
    Commutes(key.d, key.e);
    ExponentsCancel(m, key.d, key.e, key.e * key.d, key.n);
  }

  lemma UniqueRoot(s: nat, e: nat, d: nat, ed: nat, n: nat, m: nat)
    requires s < n && ed == e * d && Pow(s, ed) % n == s && Pow(s, e) % n == m
    ensures s == Pow(m, d) % n
  {
    ExponentsCancel(s, e, d, ed, n);
  }

  /** ... and it is the only residue that does. */
  lemma SignatureIsUnique(key: Key, m: nat, s: nat)
    requires s < key.n && Undoes(key, s) && Pow(s, key.e) % key.n == m
    ensures s == SignatureOf(key, m)
  {
    UniqueRoot(s, key.e, key.d, key.e * key.d, key.n, m);
  }

  lemma ReturnedIsTheSignature(key: Key, message: seq<Byte>, op: PrivateOp, signature: seq<Byte>)
    requires KeyOk(key) && RawSign(key, message, op) == Success(signature)
    ensures |message| == key.size && AsInteger(message) < key.n && op == Yields(signature)
    ensures signature == AsBytes(SignatureOf(key, AsInteger(message)), key.size)
  {
    var s := AsInteger(signature);
    IntegerOfBytes(Pow(s, key.e) % key.n, key.size);
    assert Undoes(key, s);
    SignatureIsUnique(key, AsInteger(message), s);
    BytesOfInteger(signature);
  }

  lemma TheSignatureIsReturned(key: Key, message: seq<Byte>)
    requires KeyOk(key) && |message| == key.size && AsInteger(message) < key.n
    ensures var signature := AsBytes(SignatureOf(key, AsInteger(message)), key.size);
      RawSign(key, message, Yields(signature)) == Success(signature)
  {
    var m := AsInteger(message);
    IntegerOfBytes(SignatureOf(key, m), key.size);
    assert Undoes(key, m);
    SignatureVerifies(key, m);
    BytesOfInteger(message);
  }

  /**
   Whatever bytes the private operation yields, faulty ones included, a returned signature is the
   one mathematical signature of the message at full length. Conversely the right bytes for a
   full-length message below the modulus are always returned.
   */
  lemma ReturnsExactlyTheSignature(key: Key, message: seq<Byte>, op: PrivateOp, signature: seq<Byte>)
    requires KeyOk(key)
    ensures RawSign(key, message, op) == Success(signature) <==>
            && |message| == key.size && AsInteger(message) < key.n
            && op == Yields(signature)
            && signature == AsBytes(SignatureOf(key, AsInteger(message)), key.size)
  {
    if RawSign(key, message, op) == Success(signature) {
      ReturnedIsTheSignature(key, message, op, signature);
    } else if |message| == key.size && AsInteger(message) < key.n {
      TheSignatureIsReturned(key, message);
    }
  }

  /** Two returns for one message are the same bytes, so the operation is deterministic. */
  lemma ReturnsAreEqual(key: Key, message: seq<Byte>, p: PrivateOp, q: PrivateOp)
    requires KeyOk(key)
    requires RawSign(key, message, p).Success? && RawSign(key, message, q).Success?
    ensures RawSign(key, message, p) == RawSign(key, message, q)
  {
    ReturnsExactlyTheSignature(key, message, p, RawSign(key, message, p).value);
    ReturnsExactlyTheSignature(key, message, q, RawSign(key, message, q).value);
  }

  /** A representative out of range is refused in the same words whatever the platform does. */
  lemma OutOfRangeIsRefused(key: Key, message: seq<Byte>, op: PrivateOp)
    requires key.n > 0 && AsInteger(message) >= key.n
    ensures RawSign(key, message, op) == Failure("signature representative out of range")
  {
  }

  /** Octet strings are read big-endian: the first byte counts most. */
  lemma {:induction false} FirstByteCountsMost(x: Byte, rest: seq<Byte>)
    ensures AsInteger([x] + rest) == x * Pow(256, |rest|) + AsInteger(rest)
  {
    var b := [x] + rest;
    if rest == [] {
      assert b == [x] && b[..0] == [];
    } else {
      var n := |rest| - 1;
      assert b[..|b| - 1] == [x] + rest[..n];
      FirstByteCountsMost(x, rest[..n]);
      Spread(x, Pow(256, n), AsInteger(rest[..n]));
    }
  }

  lemma Spread(x: int, p: int, y: int)
    ensures (x * p + y) * 256 == x * (256 * p) + y * 256
  {
  }

  /** A result that is not the signature is a signing failure, and the platform's own range error is
      reported in the words of the check. */
  lemma FaultsAreRefused(key: Key, message: seq<Byte>, signature: seq<Byte>)
    requires KeyOk(key) && |message| == key.size && AsInteger(message) < key.n
    requires |signature| == key.size && AsInteger(signature) < key.n
    ensures signature != AsBytes(SignatureOf(key, AsInteger(message)), key.size) ==>
              RawSign(key, message, Yields(signature)) == Failure("signing failure")
    ensures RawSign(key, message, DataTooLarge) == Failure("signature representative out of range")
    ensures forall m :: RawSign(key, message, OtherError(m)) == Failure(m)
    ensures forall s: seq<Byte> :: |s| != key.size || AsInteger(s) >= key.n ==>
              RawSign(key, message, Yields(s)) == Failure("public operation failed")
  {
    if signature != AsBytes(SignatureOf(key, AsInteger(message)), key.size) {
      if RawSign(key, message, Yields(signature)) == Success(signature) {
        ReturnedIsTheSignature(key, message, Yields(signature), signature);
      }
    }
  }
}
