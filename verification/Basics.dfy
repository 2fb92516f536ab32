/** Shared vocabulary: optional values, results, and the decimal rendering of row numbers and
    turn ordinals together with the fact that delimited concatenations can be read back. */
module Basics {

  datatype Option<+T> = None | Some(value: T) {
    function GetOr(default: T): T {
      if Some? then value else default
    }
  }

  datatype Result<+T, +E> = Ok(value: T) | Err(error: E)

  function Digit(d: nat): char
    requires d < 10
  {
    "0123456789"[d]
  }

  /** Python's str(n) for a natural number. */
  function Decimal(n: nat): (s: string)
    ensures s != []
  {
    if n < 10 then [Digit(n)] else Decimal(n / 10) + [Digit(n % 10)]
  }

  predicate IsDigit(c: char) {
    '0' <= c <= '9'
  }

  lemma {:induction false} DecimalIsDigits(n: nat)
    ensures forall i :: 0 <= i < |Decimal(n)| ==> IsDigit(Decimal(n)[i])
  {
    if n >= 10 {
      DecimalIsDigits(n / 10);
    }
  }

  lemma {:induction false} DecimalInjective(m: nat, n: nat)
    requires Decimal(m) == Decimal(n)
    ensures m == n
  {
    if m < 10 && n < 10 {
    } else if m >= 10 && n >= 10 {
      var a, b := Decimal(m), Decimal(n);
      assert a[..|a| - 1] == Decimal(m / 10);
      assert b[..|b| - 1] == Decimal(n / 10);
      DecimalInjective(m / 10, n / 10);
      assert a[|a| - 1] == b[|b| - 1];
    }
  }

  /** Length of the part of s before the first delimiter. */
  function FieldLength<T(==)>(s: seq<T>, sep: T): nat {
    if s == [] || s[0] == sep then 0 else 1 + FieldLength(s[1..], sep)
  }

  lemma {:induction false} FieldLengthOfJoin<T>(a: seq<T>, sep: T, rest: seq<T>)
    requires sep !in a
    ensures FieldLength(a + [sep] + rest, sep) == |a|
  {
    if a != [] {
      assert (a + [sep] + rest)[1..] == a[1..] + [sep] + rest;
      FieldLengthOfJoin(a[1..], sep, rest);
    }
  }

  /** A field that does not contain the delimiter can be read back from a delimited string. */
  lemma DelimitedInjective<T>(a: seq<T>, b: seq<T>, sep: T, restA: seq<T>, restB: seq<T>)
    requires sep !in a && sep !in b
    requires a + [sep] + restA == b + [sep] + restB
    ensures a == b && restA == restB
  {
    var whole := a + [sep] + restA;
    FieldLengthOfJoin(a, sep, restA);
    FieldLengthOfJoin(b, sep, restB);
    assert whole[..|a|] == a && whole[..|b|] == b;
    assert whole[|a| + 1..] == restA && whole[|b| + 1..] == restB;
  }

  lemma PrefixCancel<T>(p: seq<T>, a: seq<T>, b: seq<T>)
    requires p + a == p + b
    ensures a == b
  {
    assert (p + a)[|p|..] == a;
    assert (p + b)[|p|..] == b;
  }

  lemma FrontAndLast<T>(xs: seq<T>)
    requires xs != []
    ensures xs == xs[..|xs| - 1] + [xs[|xs| - 1]]
  {
  }

  lemma OneMore<T>(xs: seq<T>, i: nat)
    requires i < |xs|
    ensures xs[..i + 1] == xs[..i] + [xs[i]]
  {
  }

  lemma NothingMore<T>(xs: seq<T>)
    ensures xs + [] == xs && [] + xs == xs
  {
  }

  lemma JoinThree<T>(a: seq<T>, b: seq<T>, c: seq<T>)
    ensures a + (b + c) == (a + b) + c
  {
  }

  lemma CutInTwo<T>(xs: seq<T>, n: nat)
    requires n <= |xs|
    ensures xs == xs[..n] + xs[n..]
  {
  }

  lemma Continuation<T>(p: seq<T>, all: seq<T>)
    requires p <= all
    ensures all == p + all[|p|..]
  {
  }

  /** An injective renaming of a finite set keeps its size. */
  lemma {:induction false} ImageSize<A, B>(s: set<A>, t: set<B>, f: A --> B)
    requires forall x :: x in s ==> f.requires(x)
    requires forall x, y :: x in s && y in s && f(x) == f(y) ==> x == y
    requires forall x :: x in s ==> f(x) in t
    requires forall y :: y in t ==> exists x :: x in s && f(x) == y
    ensures |s| == |t|
  {
    if s == {} {
      assert t == {};
    } else {
      var x :| x in s;
      ImageSize(s - {x}, t - {f(x)}, f);
    }
  }

  /** Position of the first element that satisfies f. */
  function FirstIndex<T>(xs: seq<T>, f: T -> bool): (r: Option<nat>)
    ensures r.Some? ==> r.value < |xs| && f(xs[r.value]) && forall j :: 0 <= j < r.value ==> !f(xs[j])
    ensures r.None? ==> forall j :: 0 <= j < |xs| ==> !f(xs[j])
  {
    if xs == [] then None
    else if f(xs[0]) then Some(0)
    else match FirstIndex(xs[1..], f)
      case None => None
      case Some(i) => Some(i + 1)
  }

  lemma FirstIndexSame<T, U>(xs: seq<T>, f: T -> bool, ys: seq<U>, g: U -> bool)
    requires |xs| == |ys| && forall i :: 0 <= i < |xs| ==> f(xs[i]) == g(ys[i])
    ensures FirstIndex(xs, f) == FirstIndex(ys, g)
  {
  }

  /** The byte order in which listings sort. */
  predicate LexLess(a: string, b: string) {
    b != [] && (a == [] || a[0] < b[0] || (a[0] == b[0] && LexLess(a[1..], b[1..])))
  }

  lemma {:induction false} LexAppend(a: string, b: string, x: string, y: string)
    requires |a| == |b| && (LexLess(a, b) || (a == b && LexLess(x, y)))
    ensures LexLess(a + x, b + y)
  {
    if a != [] {
      if a[0] == b[0] {
        LexAppend(a[1..], b[1..], x, y);
      }
      assert (a + x)[1..] == a[1..] + x && (b + y)[1..] == b[1..] + y;
    } else {
      assert a + x == x && b + y == y;
    }
  }

  lemma {:induction false} LexIrreflexive(a: string)
    ensures !LexLess(a, a)
  {
    if a != [] {
      LexIrreflexive(a[1..]);
    }
  }

  lemma {:induction false} LexTotal(a: string, b: string)
    ensures a == b || LexLess(a, b) || LexLess(b, a)
  {
    if a != [] && b != [] && a[0] == b[0] {
      LexTotal(a[1..], b[1..]);
      assert a == [a[0]] + a[1..] && b == [b[0]] + b[1..];
    }
  }

  lemma {:induction false} LexTransitive(a: string, b: string, c: string)
    requires LexLess(a, b) && LexLess(b, c)
    ensures LexLess(a, c)
  {
    if a != [] && a[0] == b[0] && b[0] == c[0] {
      LexTransitive(a[1..], b[1..], c[1..]);
    }
  }

  // ----- whitespace -----

  /** Python's str.isspace for one character. */
  predicate IsSpace(c: char) {
    || '\U{9}' <= c <= '\U{D}' || '\U{1C}' <= c <= '\U{20}' || c == '\U{85}' || c == '\U{A0}' || c == '\U{1680}'
    || '\U{2000}' <= c <= '\U{200A}' || c == '\U{2028}' || c == '\U{2029}' || c == '\U{202F}' || c == '\U{205F}' || c == '\U{3000}'
  }

  function Lstrip(s: string): string {
    if s != [] && IsSpace(s[0]) then Lstrip(s[1..]) else s
  }

  function Rstrip(s: string): string {
    if s != [] && IsSpace(s[|s| - 1]) then Rstrip(s[..|s| - 1]) else s
  }

  /** s.strip(). */
  function Strip(s: string): string {
    Rstrip(Lstrip(s))
  }
}
