/** Shared vocabulary: optional values, JavaScript's nullish numbers, sums over
    sequences of reals and decimal object keys. */
module Common {

  datatype Option<+T> = None | Some(value: T)

  /** A JavaScript value read from a score object: a number, `null`, or
      `undefined` (which is also what reading a missing key gives). */
  datatype Nullable = Num(v: real) | Null | Undefined

  /** Reading `obj[k]`: a missing key reads as `undefined`. */
  function Lookup(m: map<string, Nullable>, k: string): (r: Nullable)
    ensures k !in m ==> r == Undefined
    ensures k in m ==> r == m[k]
  {
    if k in m then m[k] else Undefined
  }

  /** The nullish-coalescing operator `a ?? b`. */
  function Coalesce(a: Nullable, b: Nullable): (r: Nullable)
    ensures a.Num? ==> r == a
    ensures !a.Num? ==> r == b
  {
    match a
    case Num(_) => a
    case _ => b
  }

  /** `a ?? d` for a numeric default `d`. */
  function NumOr(a: Nullable, d: real): (r: real)
    ensures a.Num? ==> r == a.v
    ensures !a.Num? ==> r == d
  {
    match a
    case Num(x) => x
    case _ => d
  }

  /** `m[k] || d` over a dictionary of numbers: a missing key and the falsy
      number 0 both give the default. */
  function Truthy(m: map<string, real>, k: string, d: real): (r: real)
    ensures k in m && m[k] != 0.0 ==> r == m[k]
    ensures k !in m || m[k] == 0.0 ==> r == d
  {
    if k in m && m[k] != 0.0 then m[k] else d
  }

  function Min(a: real, b: real): real { if a <= b then a else b }
  function Max(a: real, b: real): real { if a >= b then a else b }
  function Abs(x: real): real { if x < 0.0 then -x else x }

  /** `s.reduce((a, b) => a + b, 0)`, folded from the left as `reduce` does. */
  function Sum(s: seq<real>): real
  {
    if |s| == 0 then 0.0 else Sum(s[..|s| - 1]) + s[|s| - 1]
  }

  /** A sum of n terms that are each at least lo is at least n*lo. */
  lemma {:induction false} SumAtLeast(s: seq<real>, lo: real)
    requires forall i :: 0 <= i < |s| ==> lo <= s[i]
    ensures |s| as real * lo <= Sum(s)
  {
    if |s| > 0 {
      SumAtLeast(s[..|s| - 1], lo);
    }
  }

  /** A sum of n terms that are each at most hi is at most n*hi. */
  lemma {:induction false} SumAtMost(s: seq<real>, hi: real)
    requires forall i :: 0 <= i < |s| ==> s[i] <= hi
    ensures Sum(s) <= |s| as real * hi
  {
    if |s| > 0 {
      SumAtMost(s[..|s| - 1], hi);
    }
  }

  /** In a sum of non-negative terms every term is at most the sum. */
  lemma {:induction false} TermAtMostSum(s: seq<real>, i: nat)
    requires forall j :: 0 <= j < |s| ==> 0.0 <= s[j]
    requires i < |s|
    ensures s[i] <= Sum(s)
  {
    var init := s[..|s| - 1];
    SumAtLeast(init, 0.0);
    if i < |s| - 1 {
      TermAtMostSum(init, i);
    }
  }

  /** Pointwise strictly smaller terms give a strictly smaller sum. */
  lemma {:induction false} SumStrictlyLess(a: seq<real>, b: seq<real>)
    requires |a| == |b| > 0
    requires forall i :: 0 <= i < |a| ==> a[i] < b[i]
    ensures Sum(a) < Sum(b)
    decreases |a|
  {
    if |a| > 1 {
      SumStrictlyLess(a[..|a| - 1], b[..|b| - 1]);
    }
  }

  /** Multiplying every term by c multiplies the sum by c. */
  lemma {:induction false} SumScaled(s: seq<real>, t: seq<real>, c: real)
    requires |s| == |t|
    requires forall i :: 0 <= i < |s| ==> t[i] == s[i] * c
    ensures Sum(t) == Sum(s) * c
    decreases |s|
  {
    if |s| > 0 {
      SumScaled(s[..|s| - 1], t[..|t| - 1], c);
    }
  }

  function Digit(d: nat): (c: char)
    requires d < 10
    ensures '0' <= c <= '9'
  {
    ('0' as int + d) as char
  }

  /** `String(n)` for a natural number: its decimal digits, no leading zero. */
  function Decimal(n: nat): (s: string)
    ensures 0 < |s|
    ensures forall i :: 0 <= i < |s| ==> '0' <= s[i] <= '9'
  {
    if n < 10 then [Digit(n)] else Decimal(n / 10) + [Digit(n % 10)]
  }
}
