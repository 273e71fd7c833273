/**
 * Element types, their C spellings (map2ctype) and the string keys under
 * which kernel variants are cached.  A cache key joins C type names and a
 * row count with commas; because no C type name contains a comma and the
 * count is printed in decimal, a key determines the types it was built from.
 */
module DTypes {
  import opened Base

  /** The six element types the kernels are compiled for, and every other numpy dtype. */
  datatype DType =
    | Float32 | Float64 | Complex64 | Complex128 | Int32 | Int64
    | Other(name: string)
  {
    predicate Supported() { !Other? }
    /** numpy's iscomplexobj on an array of this dtype. */
    predicate IsComplex() { this == Complex64 || this == Complex128 }
  }

  predicate CommaFree(s: string) { forall i :: 0 <= i < |s| ==> s[i] != ',' }

  /** map2ctype: the C type a kernel is specialised with, or ValueError. */
  function CType(dt: DType): (r: Result<string>)
    ensures r.Ok? <==> dt.Supported()
    ensures r.Err? ==> r.error == ValueError(NoCTypeMapping)
    ensures r.Ok? ==> CommaFree(r.value) && r.value != ""
  {
    match dt
    case Float32 => Ok("float")
    case Float64 => Ok("double")
    case Complex64 => Ok("complex<float>")
    case Complex128 => Ok("complex<double>")
    case Int32 => Ok("int")
    case Int64 => Ok("long long")
    case Other(_) => Err(ValueError(NoCTypeMapping))
  }

  /** Distinct supported dtypes get distinct C types. */
  lemma CTypeInjective(a: DType, b: DType)
    requires CType(a).Ok? && CType(a) == CType(b)
    ensures a == b
  {
    var s := CType(a).value;
    assert |s| == |CType(b).value|;
    if |s| > 0 { assert s[0] == CType(b).value[0]; }
    if |s| > 1 { assert s[1] == CType(b).value[1]; }
    if |s| > 8 { assert s[8] == CType(b).value[8]; }
  }

  /** `'{},{}'.format(a, b)`: the fill3D cache key. */
  function Version2(a: string, b: string): string
  {
    a + "," + b
  }

  /** `'{},{},{}'.format(a, b, n)`: the max_abs2 cache key. */
  function Version3(a: string, b: string, n: nat): string
  {
    a + "," + b + "," + DecimalString(n)
  }

  /** Splitting at the first comma recovers a comma-free head. */
  lemma SplitAtComma(a1: string, r1: string, a2: string, r2: string)
    requires CommaFree(a1) && CommaFree(a2)
    requires a1 + "," + r1 == a2 + "," + r2
    ensures a1 == a2 && r1 == r2
  {
    var s := a1 + "," + r1;
    JoinedChars(a1, r1);
    JoinedChars(a2, r2);
    assert |a1| == |a2|;
    assert a1 == s[..|a1|] == a2;
    assert r1 == s[|a1| + 1..] == r2;
  }

  lemma JoinedChars(a: string, r: string)
    ensures (a + "," + r)[|a|] == ','
    ensures forall i :: 0 <= i < |a| ==> (a + "," + r)[i] == a[i]
  {
  }

  lemma Version2Injective(a1: string, b1: string, a2: string, b2: string)
    requires CommaFree(a1) && CommaFree(a2)
    requires Version2(a1, b1) == Version2(a2, b2)
    ensures a1 == a2 && b1 == b2
  {
    SplitAtComma(a1, b1, a2, b2);
  }

  lemma Version3Injective(a1: string, b1: string, n1: nat, a2: string, b2: string, n2: nat)
    requires CommaFree(a1) && CommaFree(b1) && CommaFree(a2) && CommaFree(b2)
    requires Version3(a1, b1, n1) == Version3(a2, b2, n2)
    ensures a1 == a2 && b1 == b2 && n1 == n2
  {
    var d1, d2 := DecimalString(n1), DecimalString(n2);
    assert Version3(a1, b1, n1) == a1 + "," + (b1 + "," + d1);
    assert Version3(a2, b2, n2) == a2 + "," + (b2 + "," + d2);
    SplitAtComma(a1, b1 + "," + d1, a2, b2 + "," + d2);
    SplitAtComma(b1, d1, b2, d2);
    DecimalStringInjective(n1, n2);
  }
}
