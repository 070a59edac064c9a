/** What the BM25 score of src/rag/lexical/bm25_memory.py:77-89 means: rarity, frequency and length. */
module Relevance {
  import opened Schemas
  import opened Collections
  import opened Bm25

  /** `log` grows, where the score uses it. */
  ghost predicate Increasing(log: real -> real) {
    forall x: real, y: real :: 1.0 < x < y ==> log(x) < log(y)
  }

  /** How often the chunk holds the term. */
  function Frequency(p: Params, chunks: Chunks, id: string, t: Term): nat
    requires id in chunks.at
  {
    multiset(Tokens(p, chunks, id))[t]
  }

  function Length(p: Params, chunks: Chunks, id: string): nat
    requires id in chunks.at
  {
    |Tokens(p, chunks, id)|
  }

  // ---- The mean length ----

  /** All tokens of the chunks, one text after the other. */
  function AllTokens(p: Params, chunks: Chunks, keys: seq<string>): seq<Term>
    requires ToSet(keys) <= chunks.at.Keys
  {
    if keys == [] then []
    else
      assert keys[0] in ToSet(keys) && ToSet(keys[1..]) <= ToSet(keys);
      Tokens(p, chunks, keys[0]) + AllTokens(p, chunks, keys[1..])
  }

  lemma {:induction false} LengthsAdd(p: Params, chunks: Chunks, keys: seq<string>)
    requires ToSet(keys) <= chunks.at.Keys
    ensures SumLengths(keys, Lengths(p, chunks).at) == |AllTokens(p, chunks, keys)|
  {
    if keys != [] {
      assert keys[0] in ToSet(keys) && ToSet(keys[1..]) <= ToSet(keys);
      LengthsAdd(p, chunks, keys[1..]);
    }
  }

  /** The mean length is the number of all tokens over the number of chunks. */
  lemma MeanLengthIs(p: Params, chunks: Chunks)
    requires chunks.keys != []
    ensures ToSet(chunks.keys) == chunks.at.Keys && |chunks.keys| == |chunks.at|
    ensures MeanLength(Lengths(p, chunks)) == |AllTokens(p, chunks, chunks.keys)| as real / |chunks.keys| as real
  {
    KeysDistinct(chunks);
    LengthsAdd(p, chunks, chunks.keys);
    assert Lengths(p, chunks).keys == chunks.keys;
  }

  // ---- Arithmetic ----

  lemma ScaledLess(x: real, q: real, r: real)
    requires x > 0.0
    ensures x * q < x * r <==> q < r
    ensures x * q == x * r <==> q == r
  {
    if q < r {
      Product(x, r - q);
    }
    if q > r {
      Product(x, q - r);
    }
  }

  lemma Zeros(x: real, y: real, z: real)
    requires x == 0.0
    ensures x * y == 0.0 && x * z == 0.0
  {
  }

  lemma QuotientLess(x: real, y: real, v: real, w: real)
    requires y > 0.0 && w > 0.0
    ensures x / y < v / w <==> x * w < v * y
    ensures x / y == v / w <==> x * w == v * y
  {
    var q, r, g := x / y, v / w, y * w;
    Product(y, w);
    assert x == q * y && v == r * w;
    assert x * w == g * q && v * y == g * r;
    ScaledLess(g, q, r);
  }

  lemma Cross(x: real, y: real, v: real, w: real, strict: bool)
    requires y > 0.0 && w > 0.0
    requires strict ==> x * w < v * y
    requires !strict ==> x * w == v * y
    ensures x / y <= v / w && (x / y < v / w <==> strict)
  {
    QuotientLess(x, y, v, w);
  }

  /** More occurrences raise `f / (f + k)`, strictly exactly when `k` is positive. */
  lemma Saturates(f: real, g: real, k: real)
    requires 0.0 < g < f && k >= 0.0
    ensures g / (g + k) <= f / (f + k)
    ensures g / (g + k) < f / (f + k) <==> k > 0.0
  {
    CrossTerms(f, g, k);
    assert g + k > 0.0 && f + k > 0.0;
    assert k > 0.0 ==> g * (f + k) < f * (g + k);
    Cross(g, g + k, f, f + k, k > 0.0);
  }

  lemma CrossTerms(f: real, g: real, k: real)
    requires g < f && k >= 0.0
    ensures k > 0.0 ==> g * (f + k) < f * (g + k)
    ensures k == 0.0 ==> g * (f + k) == f * (g + k)
  {
    assert f * (g + k) - g * (f + k) == k * f - k * g;
    if k > 0.0 {
      ScaledLess(k, g, f);
    } else {
      assert k * f == 0.0 && k * g == 0.0;
    }
  }

  /** The weight `w`, saturated. */
  predicate Weighted(x: real, w: real, f: real, k: real) {
    f + k > 0.0 && x == w * (f / (f + k))
  }

  lemma SaturatesBy(w: real, f: real, g: real, k: real, x: real, y: real)
    requires w > 0.0 && 0.0 < g < f && k >= 0.0 && Weighted(x, w, f, k) && Weighted(y, w, g, k)
    ensures y <= x && (y < x <==> k > 0.0)
  {
    Saturates(f, g, k);
    ScaledLess(w, g / (g + k), f / (f + k));
  }

  /** A larger `k` lowers it. */
  lemma Dilutes(f: real, k: real, l: real)
    requires f > 0.0 && 0.0 <= k < l
    ensures f / (f + l) < f / (f + k)
  {
    ScaledLess(f, f + k, f + l);
    Cross(f, f + l, f, f + k, true);
  }

  lemma DilutesBy(w: real, f: real, k: real, l: real, x: real, y: real)
    requires w > 0.0 && f > 0.0 && 0.0 <= k <= l && Weighted(x, w, f, k) && Weighted(y, w, f, l)
    ensures y <= x && (y < x <==> k < l)
  {
    if k < l {
      Dilutes(f, k, l);
      ScaledLess(w, f / (f + l), f / (f + k));
    }
  }

  lemma WeighsBy(w: real, v: real, f: real, k: real, x: real, y: real)
    requires v < w && f > 0.0 && k >= 0.0 && Weighted(x, w, f, k) && Weighted(y, v, f, k)
    ensures y < x
  {
    Quotient(f, f + k);
    ScaledLess(f / (f + k), v, w);
  }

  lemma Scaled(x: real, y: real, z: real)
    requires z > 0.0
    ensures (x * y) / z == x * (y / z)
  {
    var q := y / z;
    assert y == q * z;
    assert x * y == (x * q) * z;
  }

  lemma Regrouped(x: real, y: real, z: real, d: real)
    requires d > 0.0
    ensures (x * (y * z)) / d == (x * z) * (y / d)
  {
    Scaled(x * z, y, d);
    assert x * (y * z) == (x * z) * y;
  }

  // ---- What one term contributes ----

  /** How much the term weighs, whatever chunk holds it. */
  function Weight(p: Params, n: nat, df: nat): real {
    Idf(p, n, df) * (p.k1 + 1.0)
  }

  lemma WeightPositive(p: Params, n: nat, df: nat)
    requires p.Sane() && 1 <= df <= n
    ensures Idf(p, n, df) > 0.0 && Weight(p, n, df) > 0.0
  {
    Quotient(n as real - df as real + 0.5, df as real + 0.5);
    Product(Idf(p, n, df), p.k1 + 1.0);
  }

  lemma ContributionIs(p: Params, n: nat, df: nat, freq: nat, dl: nat, avgdl: real)
    requires p.Sane() && avgdl >= 0.0 && freq >= 1
    ensures Norm(p, dl, avgdl) >= 0.0
    ensures Contribution(p, n, df, freq, dl, avgdl) ==
              Weight(p, n, df) * (freq as real / (freq as real + Norm(p, dl, avgdl)))
  {
    NormNonnegative(p, dl, avgdl);
    Regrouped(Idf(p, n, df), freq as real, p.k1 + 1.0, freq as real + Norm(p, dl, avgdl));
  }

  lemma RarerWeighsMore(p: Params, n: nat, df: nat, df': nat)
    requires p.Sane() && Increasing(p.log) && 1 <= df < df' <= n
    ensures Weight(p, n, df) > Weight(p, n, df')
  {
    var x, y := n as real - df as real + 0.5, df as real + 0.5;
    var v, w := n as real - df' as real + 0.5, df' as real + 0.5;
    Product(x - v, y);
    Product(v, w - y);
    assert x * w == v * y + (x - v) * w + v * (w - y);
    Product(x - v, w);
    QuotientLess(v, w, x, y);
    Quotient(v, w);
    ScaledLess(p.k1 + 1.0, Idf(p, n, df'), Idf(p, n, df));
  }

  /** What `k1` is multiplied by. */
  function Relative(p: Params, dl: nat, avgdl: real): real
    requires avgdl >= 0.0
  {
    1.0 - p.b + p.b * (dl as real / if avgdl == 0.0 then 1.0 else avgdl)
  }

  lemma NormIs(p: Params, dl: nat, avgdl: real)
    requires avgdl >= 0.0
    ensures Norm(p, dl, avgdl) == p.k1 * Relative(p, dl, avgdl)
  {
    Scaled(p.b, dl as real, if avgdl == 0.0 then 1.0 else avgdl);
  }

  lemma RelativeGrows(p: Params, dl: nat, dl': nat, avgdl: real)
    requires p.b >= 0.0 && avgdl >= 0.0 && dl < dl'
    ensures if p.b > 0.0 then Relative(p, dl, avgdl) < Relative(p, dl', avgdl)
            else Relative(p, dl, avgdl) == Relative(p, dl', avgdl)
  {
    var a := if avgdl == 0.0 then 1.0 else avgdl;
    QuotientLess(dl as real, a, dl' as real, a);
    ScaledLess(a, dl as real, dl' as real);
    if p.b > 0.0 {
      ScaledLess(p.b, dl as real / a, dl' as real / a);
    }
  }

  lemma RelativePositive(p: Params, dl: nat, avgdl: real)
    requires p.Sane() && avgdl >= 0.0 && dl >= 1
    ensures Relative(p, dl, avgdl) > 0.0
  {
    var r := dl as real / if avgdl == 0.0 then 1.0 else avgdl;
    Quotient(dl as real, if avgdl == 0.0 then 1.0 else avgdl);
    Product(p.b, r);
    if p.b == 1.0 {
      assert p.b * r == r;
    }
  }

  /** The length normaliser grows with the length, strictly exactly when both parameters are positive. */
  lemma NormGrows(p: Params, dl: nat, dl': nat, avgdl: real)
    requires p.Sane() && avgdl >= 0.0 && dl < dl'
    ensures if p.k1 > 0.0 && p.b > 0.0 then Norm(p, dl, avgdl) < Norm(p, dl', avgdl)
            else Norm(p, dl, avgdl) == Norm(p, dl', avgdl)
  {
    NormIs(p, dl, avgdl);
    NormIs(p, dl', avgdl);
    RelativeGrows(p, dl, dl', avgdl);
    ScaledBy(p.k1, Relative(p, dl, avgdl), Relative(p, dl', avgdl), Norm(p, dl, avgdl), Norm(p, dl', avgdl));
  }

  lemma ScaledBy(x: real, q: real, r: real, v: real, w: real)
    requires x >= 0.0 && v == x * q && w == x * r
    ensures if x > 0.0 && q < r then v < w else q <= r ==> v == w
  {
    if x > 0.0 {
      ScaledLess(x, q, r);
    } else {
      Zeros(x, q, r);
    }
  }

  /** A chunk that is not empty is normalised by a positive number exactly when `k1` is positive. */
  lemma NormPositive(p: Params, dl: nat, avgdl: real)
    requires p.Sane() && avgdl >= 0.0 && dl >= 1
    ensures Norm(p, dl, avgdl) >= 0.0 && (Norm(p, dl, avgdl) > 0.0 <==> p.k1 > 0.0)
  {
    NormIs(p, dl, avgdl);
    RelativePositive(p, dl, avgdl);
    Product(p.k1, Relative(p, dl, avgdl));
  }

  /** One occurrence in a chunk of mean length is worth just the rarity of the term. */
  lemma AverageOccurrence(p: Params, n: nat, df: nat, dl: nat, avgdl: real)
    requires p.Sane() && dl >= 1 && avgdl == dl as real
    ensures Norm(p, dl, avgdl) == p.k1
    ensures Contribution(p, n, df, 1, dl, avgdl) == Idf(p, n, df)
  {
    NormIs(p, dl, avgdl);
    SelfQuotient(avgdl);
    assert Relative(p, dl, avgdl) == 1.0;
    ContributionIs(p, n, df, 1, dl, avgdl);
    Cancels(Idf(p, n, df), p.k1 + 1.0);
  }

  lemma SelfQuotient(x: real)
    requires x > 0.0
    ensures x / x == 1.0
  {
  }

  lemma Cancels(x: real, y: real)
    requires y > 0.0
    ensures (x * y) * (1.0 / y) == x
  {
  }

  // ---- Scores ----

  /** What the term adds to the score of the chunk each time the query names it. */
  ghost function Share(p: Params, chunks: Chunks, id: string, t: Term): real
    requires id in chunks.at
  {
    var n, f, avgdl := |chunks.at|, Frequency(p, chunks, id, t), MeanLength(Lengths(p, chunks));
    if f == 0 || avgdl < 0.0 || f as real + Norm(p, Length(p, chunks, id), avgdl) <= 0.0 then 0.0
    else Contribution(p, n, |Containing(p, chunks, t)|, f, Length(p, chunks, id), avgdl)
  }

  lemma ShareIs(p: Params, chunks: Chunks, id: string, t: Term)
    requires p.Sane() && id in chunks.at
    ensures Frequency(p, chunks, id, t) == 0 ==> Share(p, chunks, id, t) == 0.0
    ensures var avgdl, f := MeanLength(Lengths(p, chunks)), Frequency(p, chunks, id, t) as real;
            && avgdl >= 0.0
            && (Frequency(p, chunks, id, t) >= 1 ==>
                  var k, w := Norm(p, Length(p, chunks, id), avgdl), Weight(p, |chunks.at|, |Containing(p, chunks, t)|);
                  && k >= 0.0 && (k > 0.0 <==> p.k1 > 0.0) && w > 0.0
                  && Weighted(Share(p, chunks, id, t), w, f, k) && Share(p, chunks, id, t) > 0.0)
  {
    MeanNonnegative(Lengths(p, chunks));
    var avgdl, f := MeanLength(Lengths(p, chunks)), Frequency(p, chunks, id, t);
    if f >= 1 {
      assert t in Tokens(p, chunks, id);
      ContainingBounds(p, chunks, id, t);
      NormPositive(p, Length(p, chunks, id), avgdl);
      WeightPositive(p, |chunks.at|, |Containing(p, chunks, t)|);
      ContributionIs(p, |chunks.at|, |Containing(p, chunks, t)|, f, Length(p, chunks, id), avgdl);
      Quotient(f as real, f as real + Norm(p, Length(p, chunks, id), avgdl));
      Product(Weight(p, |chunks.at|, |Containing(p, chunks, t)|),
              f as real / (f as real + Norm(p, Length(p, chunks, id), avgdl)));
    }
  }

  lemma ScoreAdds(p: Params, chunks: Chunks, query: seq<Term>, t: Term, id: string)
    requires p.Sane() && id in chunks.at
    ensures Score(p, chunks, query + [t], id) == Score(p, chunks, query, id) + Share(p, chunks, id, t)
  {
    ScoreSnoc(p, chunks, query, t, id);
  }

  /** A chunk to which every term of the query adds as much scores as much, and more if one term adds more. */
  lemma {:induction false} SharesDecide(p: Params, chunks: Chunks, query: seq<Term>, a: string, b: string)
    requires p.Sane() && a in chunks.at && b in chunks.at
    requires forall t <- query :: Share(p, chunks, a, t) >= Share(p, chunks, b, t)
    ensures Score(p, chunks, query, a) >= Score(p, chunks, query, b)
    ensures Score(p, chunks, query, a) > Score(p, chunks, query, b) <==>
            exists t :: t in query && Share(p, chunks, a, t) > Share(p, chunks, b, t)
  {
    if query != [] {
      var init, last := query[..|query| - 1], query[|query| - 1];
      assert query == init + [last];
      SharesDecide(p, chunks, init, a, b);
      ScoreAdds(p, chunks, init, last, a);
      ScoreAdds(p, chunks, init, last, b);
    }
  }

  /** The chunks hold each term of the query equally often. */
  ghost predicate EquallyOften(p: Params, chunks: Chunks, query: seq<Term>, a: string, b: string)
    requires a in chunks.at && b in chunks.at
  {
    forall t <- query :: Frequency(p, chunks, a, t) == Frequency(p, chunks, b, t)
  }

  /** The chunks hold each term of the query equally often, but perhaps for one. */
  ghost predicate OftenButFor(p: Params, chunks: Chunks, query: seq<Term>, u: Term, a: string, b: string)
    requires a in chunks.at && b in chunks.at
  {
    forall t <- query :: t != u ==> Frequency(p, chunks, a, t) == Frequency(p, chunks, b, t)
  }

  /**
   * Of two chunks of one length that hold the terms of the query equally often, but for one that the first holds
   * more often, the first scores higher; only if `k1` is zero does it not matter how often a term is held.
   */
  lemma FrequencyRaises(p: Params, chunks: Chunks, query: seq<Term>, u: Term, a: string, b: string)
    requires p.Sane() && a in chunks.at && b in chunks.at && u in query
    requires Length(p, chunks, a) == Length(p, chunks, b)
    requires OftenButFor(p, chunks, query, u, a, b)
    requires Frequency(p, chunks, a, u) > Frequency(p, chunks, b, u)
    ensures Score(p, chunks, query, a) >= Score(p, chunks, query, b)
    ensures Score(p, chunks, query, a) > Score(p, chunks, query, b) <==>
            p.k1 > 0.0 || Frequency(p, chunks, b, u) == 0
  {
    forall t | t in query
      ensures Share(p, chunks, a, t) >= Share(p, chunks, b, t)
      ensures Share(p, chunks, a, t) > Share(p, chunks, b, t) <==>
              t == u && (p.k1 > 0.0 || Frequency(p, chunks, b, u) == 0)
    {
      if t == u {
        MoreOftenMore(p, chunks, u, a, b);
      } else {
        SameShare(p, chunks, t, a, b);
      }
    }
    SharesDecide(p, chunks, query, a, b);
  }

  lemma SameShare(p: Params, chunks: Chunks, t: Term, a: string, b: string)
    requires a in chunks.at && b in chunks.at && Length(p, chunks, a) == Length(p, chunks, b)
    requires Frequency(p, chunks, a, t) == Frequency(p, chunks, b, t)
    ensures Share(p, chunks, a, t) == Share(p, chunks, b, t)
  {
  }

  lemma MoreOftenMore(p: Params, chunks: Chunks, u: Term, a: string, b: string)
    requires p.Sane() && a in chunks.at && b in chunks.at
    requires Length(p, chunks, a) == Length(p, chunks, b)
    requires Frequency(p, chunks, a, u) > Frequency(p, chunks, b, u)
    ensures Share(p, chunks, a, u) >= Share(p, chunks, b, u)
    ensures Share(p, chunks, a, u) > Share(p, chunks, b, u) <==> p.k1 > 0.0 || Frequency(p, chunks, b, u) == 0
  {
    ShareIs(p, chunks, a, u);
    ShareIs(p, chunks, b, u);
    if Frequency(p, chunks, b, u) > 0 {
      var f, g := Frequency(p, chunks, a, u) as real, Frequency(p, chunks, b, u) as real;
      var k := Norm(p, Length(p, chunks, a), MeanLength(Lengths(p, chunks)));
      SaturatesBy(Weight(p, |chunks.at|, |Containing(p, chunks, u)|), f, g, k, Share(p, chunks, a, u),
                  Share(p, chunks, b, u));
    }
  }

  /**
   * Of two chunks that hold the terms of the query equally often, and some term at all, the shorter scores higher,
   * exactly when both `k1` and `b` are positive; else length does not matter.
   */
  lemma LengthLowers(p: Params, chunks: Chunks, query: seq<Term>, a: string, b: string)
    requires p.Sane() && a in chunks.at && b in chunks.at
    requires EquallyOften(p, chunks, query, a, b) && Length(p, chunks, a) < Length(p, chunks, b)
    requires Shares(p, chunks, query, a)
    ensures Score(p, chunks, query, a) >= Score(p, chunks, query, b)
    ensures Score(p, chunks, query, a) > Score(p, chunks, query, b) <==> p.k1 > 0.0 && p.b > 0.0
  {
    var u :| u in query && u in Tokens(p, chunks, a);
    forall t | t in query
      ensures Share(p, chunks, a, t) >= Share(p, chunks, b, t)
      ensures Share(p, chunks, a, t) > Share(p, chunks, b, t) <==>
              Frequency(p, chunks, a, t) > 0 && p.k1 > 0.0 && p.b > 0.0
    {
      LongerLess(p, chunks, t, a, b);
    }
    assert Frequency(p, chunks, a, u) > 0;
    SharesDecide(p, chunks, query, a, b);
  }

  lemma LongerLess(p: Params, chunks: Chunks, t: Term, a: string, b: string)
    requires p.Sane() && a in chunks.at && b in chunks.at
    requires Frequency(p, chunks, a, t) == Frequency(p, chunks, b, t)
    requires Length(p, chunks, a) < Length(p, chunks, b)
    ensures Share(p, chunks, a, t) >= Share(p, chunks, b, t)
    ensures Share(p, chunks, a, t) > Share(p, chunks, b, t) <==>
            Frequency(p, chunks, a, t) > 0 && p.k1 > 0.0 && p.b > 0.0
  {
    ShareIs(p, chunks, a, t);
    ShareIs(p, chunks, b, t);
    if Frequency(p, chunks, a, t) > 0 {
      var f, avgdl := Frequency(p, chunks, a, t) as real, MeanLength(Lengths(p, chunks));
      var k, l := Norm(p, Length(p, chunks, a), avgdl), Norm(p, Length(p, chunks, b), avgdl);
      NormGrows(p, Length(p, chunks, a), Length(p, chunks, b), avgdl);
      DilutesBy(Weight(p, |chunks.at|, |Containing(p, chunks, t)|), f, k, l, Share(p, chunks, a, t),
                Share(p, chunks, b, t));
    }
  }

  /** The chunk holds this term of the query and no other. */
  ghost predicate HoldsOnly(p: Params, chunks: Chunks, query: seq<Term>, id: string, t: Term)
    requires id in chunks.at
  {
    t in query && Frequency(p, chunks, id, t) > 0 && forall u <- query :: u != t ==> Frequency(p, chunks, id, u) == 0
  }

  lemma NoShare(p: Params, chunks: Chunks, id: string, t: Term)
    requires p.Sane() && id in chunks.at && Frequency(p, chunks, id, t) == 0
    ensures Share(p, chunks, id, t) == 0.0
  {
  }

  /** `x` added up `m` times. */
  function Times(m: nat, x: real): real {
    if m == 0 then 0.0 else Times(m - 1, x) + x
  }

  lemma {:induction false} TimesLess(m: nat, x: real, y: real)
    requires m > 0 && x < y
    ensures Times(m, x) < Times(m, y)
  {
    if m > 1 {
      TimesLess(m - 1, x, y);
    }
  }

  lemma {:induction false} OneTermScore(p: Params, chunks: Chunks, query: seq<Term>, id: string, t: Term)
    requires p.Sane() && id in chunks.at
    requires forall u <- query :: u != t ==> Frequency(p, chunks, id, u) == 0
    ensures Score(p, chunks, query, id) == Times(multiset(query)[t], Share(p, chunks, id, t))
  {
    if query != [] {
      var init, last := query[..|query| - 1], query[|query| - 1];
      assert query == init + [last];
      OneTermScore(p, chunks, init, id, t);
      ScoreAdds(p, chunks, init, last, id);
      if last != t {
        NoShare(p, chunks, id, last);
      }
      assert multiset(query)[t] == multiset(init)[t] + if last == t then 1 else 0;
    }
  }

  lemma RarerMore(p: Params, chunks: Chunks, t: Term, u: Term, a: string, b: string)
    requires p.Sane() && Increasing(p.log) && a in chunks.at && b in chunks.at
    requires Length(p, chunks, a) == Length(p, chunks, b)
    requires Frequency(p, chunks, a, t) == Frequency(p, chunks, b, u) > 0
    requires |Containing(p, chunks, t)| < |Containing(p, chunks, u)|
    ensures Share(p, chunks, a, t) > Share(p, chunks, b, u)
  {
    ShareIs(p, chunks, a, t);
    ShareIs(p, chunks, b, u);
    ContainingBounds(p, chunks, a, t);
    ContainingBounds(p, chunks, b, u);
    RarerWeighsMore(p, |chunks.at|, |Containing(p, chunks, t)|, |Containing(p, chunks, u)|);
    WeighsBy(Weight(p, |chunks.at|, |Containing(p, chunks, t)|), Weight(p, |chunks.at|, |Containing(p, chunks, u)|),
             Frequency(p, chunks, a, t) as real, Norm(p, Length(p, chunks, a), MeanLength(Lengths(p, chunks))),
             Share(p, chunks, a, t), Share(p, chunks, b, u));
  }

  /**
   * Of two chunks of one length that each hold one term of the query, equally often, and the query names the two
   * terms equally often, the one whose term fewer chunks hold scores higher.
   */
  lemma RarerScoresHigher(p: Params, chunks: Chunks, query: seq<Term>, t: Term, u: Term, a: string, b: string)
    requires p.Sane() && Increasing(p.log) && a in chunks.at && b in chunks.at
    requires HoldsOnly(p, chunks, query, a, t) && HoldsOnly(p, chunks, query, b, u)
    requires Length(p, chunks, a) == Length(p, chunks, b)
    requires Frequency(p, chunks, a, t) == Frequency(p, chunks, b, u) && multiset(query)[t] == multiset(query)[u]
    requires |Containing(p, chunks, t)| < |Containing(p, chunks, u)|
    ensures Score(p, chunks, query, a) > Score(p, chunks, query, b)
  {
    OneTermScore(p, chunks, query, a, t);
    OneTermScore(p, chunks, query, b, u);
    RarerMore(p, chunks, t, u, a, b);
    TimesLess(multiset(query)[t], Share(p, chunks, b, u), Share(p, chunks, a, t));
  }
}
