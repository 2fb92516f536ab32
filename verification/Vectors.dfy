/** Real vectors: cosine similarity and the hash embedding (embedding_codec.py, embeddings.py).

    Floating point numbers are read as reals. The square root is whatever function squares back. */
module Vectors {
  import opened Basics

  type Vector = seq<real>

  ghost predicate IsRoot(sqrt: real -> real) {
    forall x: real :: x >= 0.0 ==> sqrt(x) >= 0.0 && sqrt(x) * sqrt(x) == x
  }

  function Dot(a: Vector, b: Vector): real
    requires |a| == |b|
  {
    if a == [] then 0.0 else a[0] * b[0] + Dot(a[1..], b[1..])
  }

  /** cosine_strict: defined only for nonempty, equally long, nonzero vectors. */
  function Cosine(a: Vector, b: Vector, sqrt: real -> real): Option<real> {
    if a == [] || b == [] || |a| != |b| then None
    else
      var na, nb := sqrt(Dot(a, a)), sqrt(Dot(b, b));
      var m := na * nb;
      if na == 0.0 || nb == 0.0 || m == 0.0 then None else Some(Dot(a, b) / m)
  }

  lemma {:induction false} DotSelfNonNegative(a: Vector)
    ensures Dot(a, a) >= 0.0
  {
    if a != [] {
      DotSelfNonNegative(a[1..]);
    }
  }

  lemma PositiveProduct(a: real, b: real)
    requires a > 0.0 && b > 0.0
    ensures a * b > 0.0
  {
  }

  lemma NonZeroProduct(a: real, b: real, m: real)
    requires a != 0.0 && b != 0.0 && m == a * b
    ensures m != 0.0
  {
  }

  lemma LargerSquare(a: real, b: real)
    requires a > b >= 0.0
    ensures a * a > b * b
  {
    PositiveProduct(a - b, a + b);
    assert (a - b) * (a + b) == a * a - b * b;
  }

  /** |a| <= b follows from the squares. */
  lemma AbsFromSquares(a: real, b: real)
    requires b >= 0.0 && a * a <= b * b
    ensures -b <= a <= b
  {
    var c := if a >= 0.0 then a else -a;
    assert c * c == a * a;
    if c > b {
      LargerSquare(c, b);
    }
  }

  /** A quotient is determined by what it multiplies back to. */
  lemma QuotientIs(q: real, x: real, m: real)
    requires m != 0.0 && q * m == x
    ensures q == x / m
  {
  }

  lemma NonNegativeProduct(a: real, b: real)
    requires a >= 0.0 && b >= 0.0
    ensures a * b >= 0.0
  {
  }

  lemma SquareNonNegative(a: real)
    ensures a * a >= 0.0
  {
  }

  lemma CrossTerm(s: real, p: real, q: real, x: real, y: real, u: real, v: real, cross: real)
    requires s * s <= p * q && p >= 0.0 && q >= 0.0
    requires u == x * x * q && v == y * y * p && cross == 2.0 * (s * (x * y))
    ensures u >= 0.0 && v >= 0.0 && cross * cross <= (u + v) * (u + v)
  {
    SquareNonNegative(x);
    SquareNonNegative(y);
    SquareNonNegative(x * y);
    SquareNonNegative(u - v);
    NonNegativeProduct(x * x, q);
    NonNegativeProduct(y * y, p);
    var xy := (x * y) * (x * y);
    NonNegativeProduct(p * q - s * s, xy);
    assert cross * cross == 4.0 * ((s * s) * xy);
    assert (p * q - s * s) * xy == (p * q) * xy - (s * s) * xy;
    assert u * v == (p * q) * xy;
    assert (u + v) * (u + v) - 4.0 * (u * v) == (u - v) * (u - v);
  }

  /** One more coordinate keeps the Cauchy-Schwarz inequality. */
  lemma CauchyStep(s: real, p: real, q: real, x: real, y: real)
    requires s * s <= p * q && p >= 0.0 && q >= 0.0
    ensures (x * y + s) * (x * y + s) <= (x * x + p) * (y * y + q)
  {
    var u, v := x * x * q, y * y * p;
    var cross := 2.0 * (s * (x * y));
    CrossTerm(s, p, q, x, y, u, v, cross);
    AbsFromSquares(cross, u + v);
    var a, b := x * y, x * x;
    assert (a + s) * (a + s) == a * a + cross + s * s;
    assert (b + p) * (y * y + q) == b * (y * y) + u + v + p * q;
    assert a * a == b * (y * y);
  }

  predicate Within(s: real, p: real, q: real) {
    s * s <= p * q
  }

  lemma WithinCons(x: real, y: real, s: real, p: real, q: real)
    requires Within(s, p, q) && p >= 0.0 && q >= 0.0
    ensures Within(x * y + s, x * x + p, y * y + q)
  {
    CauchyStep(s, p, q, x, y);
  }

  lemma DotCons(a: Vector, b: Vector, x: real, y: real, rest: real)
    requires |a| == |b| > 0 && a[0] == x && b[0] == y && Dot(a[1..], b[1..]) == rest
    ensures Dot(a, b) == x * y + rest
  {
  }

  lemma {:induction false} DotsWithin(a: Vector, b: Vector)
    requires |a| == |b|
    ensures Within(Dot(a, b), Dot(a, a), Dot(b, b))
  {
    if a != [] {
      DotsWithin(a[1..], b[1..]);
      DotSelfNonNegative(a[1..]);
      DotSelfNonNegative(b[1..]);
      WithinCons(a[0], b[0], Dot(a[1..], b[1..]), Dot(a[1..], a[1..]), Dot(b[1..], b[1..]));
    }
  }

  lemma CauchySchwarz(a: Vector, b: Vector)
    requires |a| == |b|
    ensures Dot(a, b) * Dot(a, b) <= Dot(a, a) * Dot(b, b)
  {
    DotsWithin(a, b);
  }

  lemma QuotientBound(d: real, m: real)
    requires m > 0.0 && -m <= d <= m
    ensures -1.0 <= d / m <= 1.0
  {
  }

  lemma ProductSquare(a: real, b: real)
    ensures (a * b) * (a * b) == (a * a) * (b * b)
  {
  }

  /** Cauchy-Schwarz, divided out. */
  lemma NormalizedBound(d: real, p: real, q: real, np: real, nq: real, m: real)
    requires d * d <= p * q && np >= 0.0 && nq >= 0.0 && np * np == p && nq * nq == q
    requires m == np * nq && m != 0.0
    ensures -1.0 <= d / m <= 1.0
  {
    NonNegativeProduct(np, nq);
    ProductSquare(np, nq);
    AbsFromSquares(d, m);
    QuotientBound(d, m);
  }

  /** Every similarity lies between -1 and 1. */
  lemma CosineBounded(a: Vector, b: Vector, sqrt: real -> real)
    requires IsRoot(sqrt)
    ensures Cosine(a, b, sqrt).Some? ==> -1.0 <= Cosine(a, b, sqrt).value <= 1.0
  {
    if Cosine(a, b, sqrt).Some? {
      DotSelfNonNegative(a);
      DotSelfNonNegative(b);
      CauchySchwarz(a, b);
      var na, nb := sqrt(Dot(a, a)), sqrt(Dot(b, b));
      NormalizedBound(Dot(a, b), Dot(a, a), Dot(b, b), na, nb, na * nb);
    }
  }

  /** A nonzero vector is perfectly similar to itself. */
  lemma CosineSelf(a: Vector, sqrt: real -> real)
    requires IsRoot(sqrt) && a != [] && Dot(a, a) != 0.0
    ensures Cosine(a, a, sqrt) == Some(1.0)
  {
    DotSelfNonNegative(a);
    var m := Dot(a, a);
    assert sqrt(m) * sqrt(m) == m;
    QuotientIs(1.0, m, m);
  }

  // ----- the hash embedding -----

  const HASH_DIMENSIONS := 128

  /** The first two bytes of a token's digest. */
  datatype TokenHash = TokenHash(first: nat, second: nat)

  function Bucket(h: TokenHash): nat {
    h.first % HASH_DIMENSIONS
  }

  function Sign(h: TokenHash): real {
    if h.second % 2 == 0 then 1.0 else -1.0
  }

  function Zeros(n: nat): Vector {
    seq(n, i => 0.0)
  }

  /** The signed bucket counts of a list of tokens. */
  function Counts(tokens: seq<TokenHash>): (v: Vector)
    ensures |v| == HASH_DIMENSIONS
  {
    if tokens == [] then Zeros(HASH_DIMENSIONS) else
      var v := Counts(tokens[..|tokens| - 1]);
      var h := tokens[|tokens| - 1];
      v[Bucket(h) := v[Bucket(h)] + Sign(h)]
  }

  function Scale(v: Vector, n: real): Vector
    requires n != 0.0
  {
    seq(|v|, i requires 0 <= i < |v| => v[i] / n)
  }

  /** _hash_embedding, from the digests of the tokens and of the whole text. */
  function HashEmbedding(tokens: seq<TokenHash>, whole: TokenHash, sqrt: real -> real): Vector {
    var v := Counts(tokens);
    var n := sqrt(Dot(v, v));
    if n == 0.0 then Scale(v[Bucket(whole) := Sign(whole)], 1.0) else Scale(v, n)
  }

  method ComputeHashEmbedding(tokens: seq<TokenHash>, whole: TokenHash, sqrt: real -> real) returns (r: Vector)
    ensures r == HashEmbedding(tokens, whole, sqrt)
  {
    var vec := new real[HASH_DIMENSIONS](_ => 0.0);
    assert vec[..] == Counts([]);
    var i := 0;
    while i < |tokens|
      invariant 0 <= i <= |tokens|
      invariant vec[..] == Counts(tokens[..i])
    {
      var h := tokens[i];
      assert tokens[..i + 1][..i] == tokens[..i];
      vec[Bucket(h)] := vec[Bucket(h)] + Sign(h);
      i := i + 1;
    }
    assert tokens[..i] == tokens;
    var norm := sqrt(Dot(vec[..], vec[..]));
    ghost var counts := vec[..];
    if norm == 0.0 {
      vec[Bucket(whole)] := Sign(whole);
      assert vec[..] == counts[Bucket(whole) := Sign(whole)];
      norm := 1.0;
    }
    r := Scale(vec[..], norm);
  }

  lemma ScaleCons(v: Vector, n: real)
    requires n != 0.0 && v != []
    ensures Scale(v, n) != [] && Scale(v, n)[0] == v[0] / n && Scale(v, n)[1..] == Scale(v[1..], n)
  {
  }

  lemma {:induction false} ScaleDot(v: Vector, n: real, m: real)
    requires n != 0.0 && m == n * n
    ensures m != 0.0 && Dot(Scale(v, n), Scale(v, n)) == Dot(v, v) / m
  {
    NonZeroProduct(n, n, m);
    if v != [] {
      ScaleDot(v[1..], n, m);
      ScaleCons(v, n);
      var x, y, rest := v[0], v[0] / n, Dot(v[1..], v[1..]);
      DotCons(v, v, x, x, rest);
      DotCons(Scale(v, n), Scale(v, n), y, y, rest / m);
      ScaleStep(x, rest, n, m);
    } else {
      QuotientIs(0.0, 0.0, m);
    }
  }

  lemma ScaleStep(x: real, d: real, n: real, m: real)
    requires n != 0.0 && m == n * n && m != 0.0
    ensures (x / n) * (x / n) + d / m == (x * x + d) / m
  {
  }

  lemma {:induction false} DotSelfZero(v: Vector)
    requires Dot(v, v) == 0.0
    ensures forall i :: 0 <= i < |v| ==> v[i] == 0.0
  {
    if v != [] {
      DotSelfNonNegative(v[1..]);
      if v[0] != 0.0 {
        NonZeroProduct(v[0], v[0], v[0] * v[0]);
      }
      DotSelfZero(v[1..]);
      assert forall i :: 1 <= i < |v| ==> v[i] == v[1..][i - 1];
    }
  }

  lemma {:induction false} UnitVector(v: Vector, k: nat, x: real)
    requires k < |v| && (forall i :: 0 <= i < |v| ==> v[i] == if i == k then x else 0.0)
    ensures Dot(v, v) == x * x
  {
    if k == 0 {
      ZeroVector(v[1..]);
    } else {
      UnitVector(v[1..], k - 1, x);
    }
  }

  lemma {:induction false} ZeroVector(v: Vector)
    requires forall i :: 0 <= i < |v| ==> v[i] == 0.0
    ensures Dot(v, v) == 0.0
  {
    if v != [] {
      ZeroVector(v[1..]);
    }
  }

  /** Every hash embedding has unit norm: even the text without tokens and the text whose tokens
      cancel out stay retrievable. */
  lemma HashEmbeddingIsUnit(tokens: seq<TokenHash>, whole: TokenHash, sqrt: real -> real)
    requires IsRoot(sqrt)
    ensures var e := HashEmbedding(tokens, whole, sqrt);
            |e| == HASH_DIMENSIONS && Dot(e, e) == 1.0
  {
    var v := Counts(tokens);
    DotSelfNonNegative(v);
    var n := sqrt(Dot(v, v));
    if n == 0.0 {
      assert Dot(v, v) == 0.0;
      DotSelfZero(v);
      var u := v[Bucket(whole) := Sign(whole)];
      UnitVector(u, Bucket(whole), Sign(whole));
      ScaleDot(u, 1.0, 1.0);
      assert Sign(whole) * Sign(whole) == 1.0;
      QuotientIs(1.0, 1.0, 1.0);
    } else {
      var m := Dot(v, v);
      ScaleDot(v, n, m);
      QuotientIs(1.0, m, m);
    }
  }
}
