/** The request fingerprint: what is hashed, and why different requests hash different input. */
module Fingerprint {

  const NUL: char := '\0'

  predicate NulFree(s: string) {
    NUL !in s
  }

  predicate AllNulFree(blanks: seq<string>) {
    forall i :: 0 <= i < |blanks| ==> NulFree(blanks[i])
  }

  function Tail(blanks: seq<string>): string {
    if blanks == [] then "" else [NUL] + blanks[0] + Tail(blanks[1..])
  }

  /** The bytes fed to the hash: reference, epoch and blanks, each blank after a NUL. */
  function HashInput(reference: string, epoch: string, blanks: seq<string>): string {
    reference + [NUL] + epoch + Tail(blanks)
  }

  /** Builds the hash input by successive updates, as the streaming hash receives it. */
  method StreamInput(reference: string, epoch: string, blanks: seq<string>) returns (input: string)
    ensures input == HashInput(reference, epoch, blanks)
  {
    input := reference + [NUL] + epoch;
    assert blanks[0..] == blanks;
    for i := 0 to |blanks|
      invariant input + Tail(blanks[i..]) == HashInput(reference, epoch, blanks)
    {
      assert blanks[i..][1..] == blanks[i + 1..];
      calc {
        input + Tail(blanks[i..]);
        input + ([NUL] + blanks[i] + Tail(blanks[i + 1..]));
        (input + [NUL] + blanks[i]) + Tail(blanks[i + 1..]);
      }
      input := input + [NUL] + blanks[i];
    }
    assert blanks[|blanks|..] == [];
  }

  /** A NUL-free last field is cut off unambiguously by the last NUL. */
  lemma LastIsDetermined(x: string, a: string, y: string, b: string)
    requires NulFree(a) && NulFree(b) && x + [NUL] + a == y + [NUL] + b
    ensures x == y && a == b
  {
    var s := x + [NUL] + a;
    assert s[|x|] == NUL && s[|y|] == (y + [NUL] + b)[|y|] == NUL;
    assert !(|x| < |y|) && !(|y| < |x|);
    assert x == s[..|x|] && y == s[..|y|];
    assert a == s[|x| + 1..] && b == s[|y| + 1..];
  }

  lemma {:induction false} TailLast(blanks: seq<string>)
    requires blanks != []
    ensures Tail(blanks) == Tail(blanks[..|blanks| - 1]) + [NUL] + blanks[|blanks| - 1]
  {
    var init, last := blanks[..|blanks| - 1], blanks[|blanks| - 1];
    if |blanks| == 1 {
    } else {
      TailLast(blanks[1..]);
      assert blanks[1..][..|blanks| - 2] == init[1..];
      calc {
        Tail(blanks);
        [NUL] + blanks[0] + (Tail(init[1..]) + [NUL] + last);
        ([NUL] + blanks[0] + Tail(init[1..])) + [NUL] + last;
      }
    }
  }

  /** With one bundle size, epoch and blanks can be read back even if the epoch itself holds NULs. */
  lemma {:induction false} FieldsOfOneSize(e: string, p: seq<string>, f: string, q: seq<string>)
    requires AllNulFree(p) && AllNulFree(q) && |p| == |q|
    requires e + Tail(p) == f + Tail(q)
    ensures e == f && p == q
  {
    if p == [] {
      assert e == e + Tail(p) && f == f + Tail(q);
    } else {
      var k := |p| - 1;
      TailLast(p);
      TailLast(q);
      assert e + Tail(p) == (e + Tail(p[..k])) + [NUL] + p[k];
      assert f + Tail(q) == (f + Tail(q[..k])) + [NUL] + q[k];
      LastIsDetermined(e + Tail(p[..k]), p[k], f + Tail(q[..k]), q[k]);
      FieldsOfOneSize(e, p[..k], f, q[..k]);
      assert p == p[..k] + [p[k]] && q == q[..k] + [q[k]];
    }
  }

  lemma {:induction false} TailAdds(a: seq<string>, b: seq<string>)
    ensures Tail(a + b) == Tail(a) + Tail(b)
  {
    if a == [] {
      assert a + b == b;
    } else {
      assert (a + b)[1..] == a[1..] + b;
      TailAdds(a[1..], b);
    }
  }

  /** The epoch of the request with fewer blanks has swallowed the first blanks of the other. */
  predicate Swallows(e: string, p: seq<string>, f: string, q: seq<string>) {
    |p| < |q| && p == q[|q| - |p|..] && e == f + Tail(q[..|q| - |p|])
  }

  /** Two different requests that hash the same input. */
  predicate Collide(e: string, p: seq<string>, f: string, q: seq<string>) {
    Swallows(e, p, f, q) || Swallows(f, q, e, p)
  }

  lemma EqualTailsIff(e: string, p: seq<string>, f: string, q: seq<string>)
    requires AllNulFree(p) && AllNulFree(q) && |p| <= |q|
    ensures e + Tail(p) == f + Tail(q) <==> (e == f && p == q) || Swallows(e, p, f, q)
  {
    var d := |q| - |p|;
    TailAdds(q[..d], q[d..]);
    assert q == q[..d] + q[d..];
    assert f + Tail(q) == (f + Tail(q[..d])) + Tail(q[d..]);
    if e + Tail(p) == f + Tail(q) {
      FieldsOfOneSize(e, p, f + Tail(q[..d]), q[d..]);
    }
    if d == 0 {
      assert q[d..] == q && f + Tail(q[..d]) == f;
    }
  }

  /**
   For one reference two requests hash the same input exactly when they are the same request, or
   one's epoch has swallowed the other's first blanks, NULs included.
   */
  lemma InputsEqualIff(reference: string, e: string, p: seq<string>, f: string, q: seq<string>)
    requires AllNulFree(p) && AllNulFree(q)
    ensures HashInput(reference, e, p) == HashInput(reference, f, q) <==> (e == f && p == q) || Collide(e, p, f, q)
  {
    var n := |reference| + 1;
    assert HashInput(reference, e, p) == reference + [NUL] + (e + Tail(p));
    assert HashInput(reference, f, q) == reference + [NUL] + (f + Tail(q));
    assert HashInput(reference, e, p)[n..] == e + Tail(p);
    assert HashInput(reference, f, q)[n..] == f + Tail(q);
    if |p| <= |q| {
      EqualTailsIff(e, p, f, q);
    } else {
      EqualTailsIff(f, q, e, p);
    }
  }

  /** What swallows a blank holds the NUL before it. */
  lemma SwallowingHoldsNul(e: string, p: seq<string>, f: string, q: seq<string>)
    requires Swallows(e, p, f, q)
    ensures !NulFree(e) && e != f
  {
    var eaten := Tail(q[..|q| - |p|]);
    assert eaten[0] == NUL;
    assert e[|f|] == NUL;
  }

  /** Requests of one size never collide, and neither do others if the epoch with fewer blanks holds
      no NUL. */
  lemma HashInputIsInjective(reference: string, e: string, p: seq<string>, f: string, q: seq<string>)
    requires AllNulFree(p) && AllNulFree(q)
    requires (|p| < |q| ==> NulFree(e)) && (|q| < |p| ==> NulFree(f))
    ensures !Collide(e, p, f, q)
    ensures HashInput(reference, e, p) == HashInput(reference, f, q) ==> e == f && p == q
  {
    InputsEqualIff(reference, e, p, f, q);
    if Swallows(e, p, f, q) {
      SwallowingHoldsNul(e, p, f, q);
    } else if Swallows(f, q, e, p) {
      SwallowingHoldsNul(f, q, e, p);
    }
  }

  /** Collisions exist: an epoch holding a NUL swallows a blank. */
  lemma EpochWithNulCollides()
    ensures Swallows("1" + [NUL] + "AAAA", ["BBBB"], "1", ["AAAA", "BBBB"])
  {
    var q := ["AAAA", "BBBB"];
    assert q[1..] == ["BBBB"] && q[..1] == ["AAAA"];
    assert Tail(["AAAA"]) == [NUL] + "AAAA" + Tail(["AAAA"][1..]);
  }

  /** The input names its reference: for different references it is different. */
  lemma InputNamesItsReference(r: string, s: string, e: string, p: seq<string>, f: string, q: seq<string>)
    requires NulFree(r) && NulFree(s) && HashInput(r, e, p) == HashInput(s, f, q)
    ensures r == s && e + Tail(p) == f + Tail(q)
  {
    var a, b := HashInput(r, e, p), HashInput(s, f, q);
    assert a == r + [NUL] + (e + Tail(p)) && b == s + [NUL] + (f + Tail(q));
    assert a[|r|] == NUL && b[|s|] == NUL;
    assert forall i :: 0 <= i < |r| ==> a[i] == r[i] != NUL;
    assert forall i :: 0 <= i < |s| ==> b[i] == s[i] != NUL;
    assert r == a[..|r|] && s == b[..|s|];
    assert a[|r| + 1..] == e + Tail(p) && b[|s| + 1..] == f + Tail(q);
  }

  /** What is hashed for a reference, an epoch and two blanks. */
  lemma InputIsSeparatedByNul(r: string, e: string, x: string, y: string)
    ensures HashInput(r, e, [x, y]) == r + ['\0'] + e + ['\0'] + x + ['\0'] + y
  {
    assert [x, y][1..] == [y] && [y][1..] == [];
    assert Tail([y]) == [NUL] + y;
    assert Tail([x, y]) == [NUL] + x + [NUL] + y;
  }
}
