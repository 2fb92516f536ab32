/** What the similarity of two vectors means: how it answers to mirroring, scaling and swapping, and when it is
    1, 0 or -1 (embedding_codec.py, embeddings.py). */
module Cosines {
  import opened Basics
  import opened Sorting
  import opened Vectors

  // ----- the dot product -----

  function Times(v: Vector, k: real): (r: Vector)
    ensures |r| == |v|
  {
    seq(|v|, i requires 0 <= i < |v| => v[i] * k)
  }

  function Opposite(v: Vector): Vector {
    Times(v, -1.0)
  }

  function Plus(a: Vector, b: Vector): (r: Vector)
    requires |a| == |b|
    ensures |r| == |a|
  {
    seq(|a|, i requires 0 <= i < |a| => a[i] + b[i])
  }

  /** The unit vector along coordinate k. */
  function Axis(n: nat, k: nat): (r: Vector)
    ensures |r| == n
  {
    seq(n, i => if i == k then 1.0 else 0.0)
  }

  lemma {:induction false} DotSymmetric(a: Vector, b: Vector)
    requires |a| == |b|
    ensures Dot(a, b) == Dot(b, a)
  {
    if a != [] {
      DotSymmetric(a[1..], b[1..]);
    }
  }

  lemma {:induction false} DotPlus(a: Vector, a': Vector, b: Vector)
    requires |a| == |a'| == |b|
    ensures Dot(Plus(a, a'), b) == Dot(a, b) + Dot(a', b)
  {
    if a != [] {
      var sum := Plus(a, a');
      assert sum[1..] == Plus(a[1..], a'[1..]);
      DotPlus(a[1..], a'[1..], b[1..]);
      DotCons(sum, b, a[0] + a'[0], b[0], Dot(a[1..], b[1..]) + Dot(a'[1..], b[1..]));
      Distribute(a[0], a'[0], b[0]);
    }
  }

  lemma Distribute(x: real, y: real, z: real)
    ensures (x + y) * z == x * z + y * z
  {
  }

  lemma TimesCons(v: Vector, k: real)
    requires v != []
    ensures Times(v, k)[0] == v[0] * k && Times(v, k)[1..] == Times(v[1..], k)
  {
    forall i | 0 <= i < |v| - 1
      ensures Times(v, k)[1..][i] == Times(v[1..], k)[i]
    {
      assert Times(v, k)[1..][i] == Times(v, k)[i + 1];
    }
  }

  /** Products go by name here: r is Dot(a, b) * k. */
  lemma {:induction false} DotTimes(a: Vector, k: real, b: Vector, d: real, r: real)
    requires |a| == |b| && d == Dot(a, b) && r == d * k
    ensures Dot(Times(a, k), b) == r
  {
    if a != [] {
      var x, y, rest := a[0], b[0], Dot(a[1..], b[1..]);
      TimesCons(a, k);
      DotTimes(a[1..], k, b[1..], rest, rest * k);
      DotCons(a, b, x, y, rest);
      DotCons(Times(a, k), b, x * k, y, rest * k);
      Distribute(x * y, rest, k);
      Reorder(x, y, k);
    }
  }

  lemma Reorder(x: real, y: real, z: real)
    ensures (x * z) * y == (x * y) * z
  {
  }

  lemma {:induction false} DotZero(a: Vector, z: Vector)
    requires |a| == |z| && forall i :: 0 <= i < |z| ==> z[i] == 0.0
    ensures Dot(a, z) == 0.0
  {
    if a != [] {
      DotZero(a[1..], z[1..]);
    }
  }

  /** The dot product with an axis reads off a coordinate: with symmetry and linearity this says what the dot product is. */
  lemma {:induction false} DotAxis(a: Vector, k: nat)
    requires k < |a|
    ensures Dot(a, Axis(|a|, k)) == a[k]
  {
    var e := Axis(|a|, k);
    if k == 0 {
      DotZero(a[1..], e[1..]);
      DotCons(a, e, a[0], 1.0, 0.0);
    } else {
      assert e[1..] == Axis(|a| - 1, k - 1);
      DotAxis(a[1..], k - 1);
      DotCons(a, e, a[0], 0.0, a[k]);
    }
  }

  /** Symmetric, additive, and the coordinates on the axes; by DotTimes it is homogeneous. */
  lemma DotProduct(a: Vector, a': Vector, b: Vector, i: nat)
    requires |a| == |a'| == |b| && i < |a|
    ensures Dot(a, b) == Dot(b, a) && Dot(Plus(a, a'), b) == Dot(a, b) + Dot(a', b) && Dot(a, Axis(|a|, i)) == a[i]
  {
    DotSymmetric(a, b);
    DotPlus(a, a', b);
    DotAxis(a, i);
  }

  // ----- when there is a similarity, and what it multiplies back to -----

  predicate NonZero(v: Vector) {
    exists i :: 0 <= i < |v| && v[i] != 0.0
  }

  predicate Comparable(a: Vector, b: Vector) {
    |a| == |b| && NonZero(a) && NonZero(b)
  }

  lemma NonZeroDot(v: Vector)
    ensures NonZero(v) <==> Dot(v, v) != 0.0
    ensures NonZero(v) ==> Dot(v, v) > 0.0
  {
    DotSelfNonNegative(v);
    if Dot(v, v) == 0.0 {
      DotSelfZero(v);
    }
    if !NonZero(v) {
      ZeroVector(v);
    }
  }

  lemma RootZero(n: real, p: real)
    requires n >= 0.0 && n * n == p
    ensures n == 0.0 <==> p == 0.0
  {
    if n != 0.0 {
      NonZeroProduct(n, n, p);
    }
  }

  lemma OneRoot(r: real, s: real)
    requires r >= 0.0 && s >= 0.0 && r * r == s * s
    ensures r == s
  {
    if r > s {
      LargerSquare(r, s);
    } else if s > r {
      LargerSquare(s, r);
    }
  }

  lemma Cancel(x: real, y: real, m: real)
    requires m != 0.0 && x * m == y * m
    ensures x == y
  {
  }

  lemma QuotientBack(x: real, m: real)
    requires m != 0.0
    ensures x / m * m == x
  {
  }

  /** The norm of a nonzero vector. */
  lemma NormOf(v: Vector, sqrt: real -> real)
    requires IsRoot(sqrt)
    ensures sqrt(Dot(v, v)) >= 0.0 && sqrt(Dot(v, v)) * sqrt(Dot(v, v)) == Dot(v, v)
    ensures NonZero(v) <==> sqrt(Dot(v, v)) > 0.0
  {
    DotSelfNonNegative(v);
    NonZeroDot(v);
    RootZero(sqrt(Dot(v, v)), Dot(v, v));
  }

  /** A similarity exists exactly for two nonzero vectors of one length. */
  lemma CosineDefined(a: Vector, b: Vector, sqrt: real -> real)
    requires IsRoot(sqrt)
    ensures Cosine(a, b, sqrt).Some? <==> Comparable(a, b)
  {
    NormOf(a, sqrt);
    NormOf(b, sqrt);
    if Comparable(a, b) {
      PositiveProduct(sqrt(Dot(a, a)), sqrt(Dot(b, b)));
    }
  }

  /** Times both norms it is the dot product. */
  lemma CosineScores(a: Vector, b: Vector, sqrt: real -> real)
    requires IsRoot(sqrt) && Comparable(a, b)
    ensures Cosine(a, b, sqrt).Some?
    ensures Scores(Cosine(a, b, sqrt).value, Dot(a, b), Dot(a, a), Dot(b, b), sqrt(Dot(a, a)), sqrt(Dot(b, b)))
  {
    NormOf(a, sqrt);
    NormOf(b, sqrt);
    var na, nb := sqrt(Dot(a, a)), sqrt(Dot(b, b));
    PositiveProduct(na, nb);
    QuotientBack(Dot(a, b), na * nb);
  }

  /** The score of two vectors with dot product d, squared norms p and q, and norms na and nb. */
  predicate Scores(s: real, d: real, p: real, q: real, na: real, nb: real) {
    na > 0.0 && nb > 0.0 && na * na == p && nb * nb == q && s * (na * nb) == d
  }

  lemma ScoreSwapped(s: real, s': real, d: real, p: real, q: real, na: real, nb: real)
    requires Scores(s, d, p, q, na, nb) && Scores(s', d, q, p, nb, na)
    ensures s' == s
  {
    PositiveProduct(na, nb);
    Cancel(s, s', na * nb);
  }

  lemma ScoreScaled(s: real, s': real, d: real, d': real, p: real, q: real, e: real, q': real, na: real, nb: real, nb': real, k: real)
    requires k > 0.0 && Scores(s, d, p, q, na, nb) && Scores(s', d', p, q', na, nb') && d' == d * k && e == q * k && q' == e * k
    ensures s' == s
  {
    PositiveProduct(nb, k);
    ProductSquare(nb, k);
    assert e * k == q * (k * k);
    OneRoot(nb', nb * k);
    var m := na * nb;
    PositiveProduct(na, nb);
    PositiveProduct(m, k);
    assert na * (nb * k) == m * k;
    assert s * (m * k) == s * m * k;
    Cancel(s, s', m * k);
  }

  lemma ScoreMirrored(s: real, s': real, d: real, d': real, p: real, q: real, na: real, nb: real)
    requires Scores(s, d, p, q, na, nb) && Scores(s', d', p, q, na, nb) && d' == -d
    ensures s' == -s
  {
    PositiveProduct(na, nb);
    var m := na * nb;
    assert (-s) * m == -(s * m);
    Cancel(-s, s', m);
  }

  // ----- the laws of the similarity -----

  /** Similarity is symmetric. */
  lemma CosineSymmetric(a: Vector, b: Vector, sqrt: real -> real)
    requires IsRoot(sqrt)
    ensures Cosine(a, b, sqrt) == Cosine(b, a, sqrt)
  {
    CosineDefined(a, b, sqrt);
    CosineDefined(b, a, sqrt);
    if Comparable(a, b) {
      CosineScores(a, b, sqrt);
      CosineScores(b, a, sqrt);
      DotSymmetric(a, b);
      ScoreSwapped(Cosine(a, b, sqrt).value, Cosine(b, a, sqrt).value, Dot(a, b), Dot(a, a), Dot(b, b),
                   sqrt(Dot(a, a)), sqrt(Dot(b, b)));
    }
  }

  lemma TimesNonZero(v: Vector, k: real)
    requires k != 0.0
    ensures NonZero(Times(v, k)) <==> NonZero(v)
  {
    forall i | 0 <= i < |v|
      ensures Times(v, k)[i] != 0.0 <==> v[i] != 0.0
    {
      if v[i] != 0.0 {
        NonZeroProduct(v[i], k, Times(v, k)[i]);
      }
    }
    if i :| 0 <= i < |v| && v[i] != 0.0 {
      assert Times(v, k)[i] != 0.0;
    }
  }

  lemma DotTimesRight(a: Vector, b: Vector, k: real, d: real, r: real)
    requires |a| == |b| && d == Dot(a, b) && r == d * k
    ensures Dot(a, Times(b, k)) == r
  {
    DotSymmetric(a, Times(b, k));
    DotSymmetric(b, a);
    DotTimes(b, k, a, d, r);
  }

  lemma DotTimesBoth(a: Vector, x: real, b: Vector, y: real, d: real, e: real, r: real)
    requires |a| == |b| && d == Dot(a, b) && e == d * y && r == e * x
    ensures Dot(Times(a, x), Times(b, y)) == r
  {
    DotTimesRight(a, b, y, d, e);
    DotTimes(a, x, Times(b, y), e, r);
  }

  /** Stretching a vector does not change its similarities. */
  lemma CosineScaled(a: Vector, b: Vector, k: real, sqrt: real -> real)
    requires IsRoot(sqrt) && k > 0.0
    ensures Cosine(a, Times(b, k), sqrt) == Cosine(a, b, sqrt)
  {
    CosineDefined(a, b, sqrt);
    CosineDefined(a, Times(b, k), sqrt);
    TimesNonZero(b, k);
    if Comparable(a, b) {
      ScaledScore(a, b, Times(b, k), k, sqrt);
    }
  }

  lemma ScaledScore(a: Vector, b: Vector, b': Vector, k: real, sqrt: real -> real)
    requires IsRoot(sqrt) && k > 0.0 && Comparable(a, b) && Comparable(a, b') && b' == Times(b, k)
    ensures Cosine(a, b, sqrt).Some? && Cosine(a, b', sqrt) == Some(Cosine(a, b, sqrt).value)
  {
    CosineScores(a, b, sqrt);
    CosineScores(a, b', sqrt);
    var d, q := Dot(a, b), Dot(b, b);
    var d', e := d * k, q * k;
    var q' := e * k;
    DotTimesRight(a, b, k, d, d');
    DotTimesBoth(b, k, b, k, q, e, q');
    ScoreScaled(Cosine(a, b, sqrt).value, Cosine(a, b', sqrt).value, d, d', Dot(a, a), q, e, q',
                sqrt(Dot(a, a)), sqrt(q), sqrt(q'), k);
  }

  function Negated(c: Option<real>): Option<real> {
    if c.Some? then Some(-c.value) else None
  }

  /** Turning a vector around negates its similarities. */
  lemma CosineOpposite(a: Vector, b: Vector, sqrt: real -> real)
    requires IsRoot(sqrt)
    ensures Cosine(a, Opposite(b), sqrt) == Negated(Cosine(a, b, sqrt))
  {
    CosineDefined(a, b, sqrt);
    CosineDefined(a, Opposite(b), sqrt);
    TimesNonZero(b, -1.0);
    if Comparable(a, b) {
      MirroredScore(a, b, Opposite(b), sqrt);
    }
  }

  lemma MirroredScore(a: Vector, b: Vector, b': Vector, sqrt: real -> real)
    requires IsRoot(sqrt) && Comparable(a, b) && Comparable(a, b') && b' == Opposite(b)
    ensures Cosine(a, b, sqrt).Some? && Cosine(a, b', sqrt) == Some(-Cosine(a, b, sqrt).value)
  {
    CosineScores(a, b, sqrt);
    CosineScores(a, b', sqrt);
    DotTimesRight(a, b, -1.0, Dot(a, b), -Dot(a, b));
    DotTimesBoth(b, -1.0, b, -1.0, Dot(b, b), -Dot(b, b), Dot(b, b));
    ScoreMirrored(Cosine(a, b, sqrt).value, Cosine(a, b', sqrt).value, Dot(a, b), Dot(a, b'), Dot(a, a), Dot(b, b),
                  sqrt(Dot(a, a)), sqrt(Dot(b, b)));
  }

  /** Only orthogonal vectors score 0. */
  lemma CosineZeroExactly(a: Vector, b: Vector, sqrt: real -> real)
    requires IsRoot(sqrt)
    ensures Cosine(a, b, sqrt) == Some(0.0) <==> Comparable(a, b) && Dot(a, b) == 0.0
  {
    CosineDefined(a, b, sqrt);
    if Comparable(a, b) {
      CosineScores(a, b, sqrt);
      var m := sqrt(Dot(a, a)) * sqrt(Dot(b, b));
      PositiveProduct(sqrt(Dot(a, a)), sqrt(Dot(b, b)));
      if Dot(a, b) == 0.0 {
        Cancel(Cosine(a, b, sqrt).value, 0.0, m);
      }
    }
  }

  // ----- the extreme similarities -----

  /** Some positive multiple of b is a. */
  ghost predicate SameDirection(a: Vector, b: Vector) {
    exists k: real :: k > 0.0 && a == Times(b, k)
  }

  ghost predicate OppositeDirection(a: Vector, b: Vector) {
    SameDirection(a, Opposite(b))
  }

  lemma DotOfSum(u: Vector, v: Vector)
    requires |u| == |v|
    ensures Dot(Plus(u, v), Plus(u, v)) == Dot(u, u) + Dot(v, v) + 2.0 * Dot(u, v)
  {
    var w := Plus(u, v);
    DotPlus(u, v, w);
    DotSymmetric(u, w);
    DotSymmetric(v, w);
    DotPlus(u, v, u);
    DotPlus(u, v, v);
    DotSymmetric(v, u);
  }

  /** The equality case of Cauchy-Schwarz. */
  lemma EqualityCase(a: Vector, b: Vector, na: real, nb: real)
    requires |a| == |b| && na > 0.0 && nb > 0.0
    requires na * na == Dot(a, a) && nb * nb == Dot(b, b) && na * nb == Dot(a, b)
    ensures a == Times(b, na / nb)
  {
    DifferenceIsZero(a, b, na, nb, Dot(a, a), Dot(b, b), Dot(a, b));
    DotSelfZero(Plus(Times(a, nb), Times(b, -na)));
    forall i | 0 <= i < |a|
      ensures a[i] == Times(b, na / nb)[i]
    {
      Coordinate(a, b, na, nb, na / nb, i);
    }
  }

  lemma DifferenceIsZero(a: Vector, b: Vector, na: real, nb: real, p: real, q: real, d: real)
    requires |a| == |b| && p == Dot(a, a) && q == Dot(b, b) && d == Dot(a, b)
    requires na * na == p && nb * nb == q && na * nb == d
    ensures var w := Plus(Times(a, nb), Times(b, -na)); Dot(w, w) == 0.0
  {
    var e, f, g := p * nb, q * -na, d * -na;
    var e', f', g' := e * nb, f * -na, g * nb;
    DotOfSum(Times(a, nb), Times(b, -na));
    DotTimesBoth(a, nb, a, nb, p, e, e');
    DotTimesBoth(b, -na, b, -na, q, f, f');
    DotTimesBoth(a, nb, b, -na, d, g, g');
    Collapse(p, q, d, na, nb, e, f, g, e', f', g');
  }

  lemma Collapse(p: real, q: real, d: real, na: real, nb: real, e: real, f: real, g: real, e': real, f': real, g': real)
    requires na * na == p && nb * nb == q && na * nb == d
    requires e == p * nb && f == q * -na && g == d * -na
    requires e' == e * nb && f' == f * -na && g' == g * nb
    ensures e' + f' + 2.0 * g' == 0.0
  {
    var pq := p * q;
    assert e' == p * (nb * nb);
    assert f' == q * (na * na);
    assert g' == -(d * (na * nb));
    ProductSquare(na, nb);
  }

  lemma Coordinate(a: Vector, b: Vector, na: real, nb: real, k: real, i: nat)
    requires |a| == |b| && i < |a| && nb > 0.0 && k == na / nb && Plus(Times(a, nb), Times(b, -na))[i] == 0.0
    ensures a[i] == Times(b, k)[i]
  {
    Proportion(a[i], b[i], na, nb, k, b[i] * k);
  }

  lemma Proportion(x: real, y: real, na: real, nb: real, k: real, r: real)
    requires nb > 0.0 && x * nb + y * -na == 0.0 && k == na / nb && r == y * k
    ensures x == r
  {
    QuotientBack(na, nb);
    assert r * nb == y * (k * nb);
    Cancel(x, r, nb);
  }

  /** The score is 1 exactly for a nonzero vector and its positive multiples. */
  lemma CosineOneExactly(a: Vector, b: Vector, sqrt: real -> real)
    requires IsRoot(sqrt)
    ensures Cosine(a, b, sqrt) == Some(1.0) <==> NonZero(b) && SameDirection(a, b)
  {
    CosineDefined(a, b, sqrt);
    if Cosine(a, b, sqrt) == Some(1.0) {
      CosineScores(a, b, sqrt);
      var na, nb := sqrt(Dot(a, a)), sqrt(Dot(b, b));
      EqualityCase(a, b, na, nb);
      assert na / nb > 0.0 by {
        QuotientBack(na, nb);
        PositiveQuotient(na, nb);
      }
    }
    if NonZero(b) && SameDirection(a, b) {
      var k: real :| k > 0.0 && a == Times(b, k);
      CosineScaled(b, b, k, sqrt);
      CosineSymmetric(a, b, sqrt);
      NonZeroDot(b);
      CosineSelf(b, sqrt);
    }
  }

  lemma PositiveQuotient(x: real, y: real)
    requires x > 0.0 && y > 0.0
    ensures x / y > 0.0
  {
  }

  /** The score is -1 exactly for the negative multiples. */
  lemma CosineMinusOneExactly(a: Vector, b: Vector, sqrt: real -> real)
    requires IsRoot(sqrt)
    ensures Cosine(a, b, sqrt) == Some(-1.0) <==> NonZero(b) && OppositeDirection(a, b)
  {
    CosineOpposite(a, b, sqrt);
    CosineOneExactly(a, Opposite(b), sqrt);
    TimesNonZero(b, -1.0);
  }

  // ----- the hash embedding -----

  /** The tokens of bucket k with the given parity of their second byte. */
  function InBucket(k: nat, even: bool): TokenHash -> bool {
    (h: TokenHash) => h.first % 128 == k && (h.second % 2 == 0) == even
  }

  /** Coordinate k counts the even tokens of bucket k up and the odd ones down. */
  lemma {:induction false} CountsMeaning(tokens: seq<TokenHash>, k: nat)
    requires k < HASH_DIMENSIONS
    ensures Counts(tokens)[k] == (|Filter(tokens, InBucket(k, true))| - |Filter(tokens, InBucket(k, false))|) as real
  {
    if tokens != [] {
      var front, h := tokens[..|tokens| - 1], tokens[|tokens| - 1];
      CountsMeaning(front, k);
      assert tokens == front + [h];
      FilterSnoc(front, h, InBucket(k, true));
      FilterSnoc(front, h, InBucket(k, false));
    }
  }

  predicate Cancels(h: TokenHash, h': TokenHash) {
    Bucket(h) == Bucket(h') && h.second % 2 != h'.second % 2
  }

  lemma CountsOfOne(h: TokenHash)
    ensures Counts([h]) == Zeros(HASH_DIMENSIONS)[Bucket(h) := Sign(h)]
  {
    assert [h][..0] == [];
  }

  lemma CountsOfTwo(h: TokenHash, h': TokenHash)
    requires Cancels(h, h')
    ensures Counts([h, h']) == Zeros(HASH_DIMENSIONS)
  {
    assert [h, h'][..1] == [h];
    CountsOfOne(h);
  }

  lemma EmbeddingOfOne(h: TokenHash, whole: TokenHash, sqrt: real -> real)
    requires IsRoot(sqrt)
    ensures HashEmbedding([h], whole, sqrt) == Times(Axis(HASH_DIMENSIONS, Bucket(h)), Sign(h))
  {
    CountsOfOne(h);
    UnitVector(Counts([h]), Bucket(h), Sign(h));
    NormOf(Counts([h]), sqrt);
    OneRoot(sqrt(1.0), 1.0);
    ScaledByOne(Counts([h]));
  }

  lemma ScaledByOne(v: Vector)
    ensures Scale(v, 1.0) == v
  {
  }

  /** A word is embedded as the signed axis of its bucket, so two words that share a bucket with opposite signs are
      embedded oppositely; a text in which nothing but such a pair occurs gets the axis of the whole text. */
  lemma OppositeWords(h: TokenHash, h': TokenHash, whole: TokenHash, sqrt: real -> real)
    requires IsRoot(sqrt) && Cancels(h, h')
    ensures HashEmbedding([h], whole, sqrt) == Opposite(HashEmbedding([h'], whole, sqrt))
    ensures HashEmbedding([h, h'], whole, sqrt) == Times(Axis(HASH_DIMENSIONS, Bucket(whole)), Sign(whole))
  {
    EmbeddingOfOne(h, whole, sqrt);
    EmbeddingOfOne(h', whole, sqrt);
    CountsOfTwo(h, h');
    ZeroVector(Counts([h, h']));
    OneRoot(sqrt(0.0), 0.0);
    ScaledByOne(Zeros(HASH_DIMENSIONS)[Bucket(whole) := Sign(whole)]);
  }

  lemma DividedIsTimes(v: Vector, n: real, k: real)
    requires n > 0.0 && k == 1.0 / n
    ensures Scale(v, n) == Times(v, k)
  {
    forall i | 0 <= i < |v|
      ensures Scale(v, n)[i] == Times(v, k)[i]
    {
      InverseQuotient(v[i], n, k);
    }
  }

  lemma InverseQuotient(x: real, n: real, k: real)
    requires n > 0.0 && k == 1.0 / n
    ensures x / n == x * k
  {
    QuotientBack(1.0, n);
    assert (x * k) * n == x * (k * n);
    QuotientIs(x * k, x, n);
  }

  /** The direction of a hash embedding: that of the token counts, or, where nothing is left of them, the axis of the
      whole text up or down. */
  lemma EmbeddingDirection(tokens: seq<TokenHash>, whole: TokenHash, sqrt: real -> real)
    requires IsRoot(sqrt)
    ensures var e, v := HashEmbedding(tokens, whole, sqrt), Counts(tokens);
            if NonZero(v) then SameDirection(e, v)
            else e == Times(Axis(HASH_DIMENSIONS, whole.first % 128), if whole.second % 2 == 0 then 1.0 else -1.0)
  {
    var v := Counts(tokens);
    var n := sqrt(Dot(v, v));
    NormOf(v, sqrt);
    if NonZero(v) {
      PositiveQuotient(1.0, n);
      DividedIsTimes(v, n, 1.0 / n);
    } else {
      ScaledByOne(v[Bucket(whole) := Sign(whole)]);
    }
  }
}
