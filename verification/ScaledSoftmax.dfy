/** Online softmax on logits that are scaled only when the maximum is subtracted: probabilities are
    exp2(x * (s - m) + b), for a scale x and a headroom b that puts a common factor on both sums. */
module ScaledSoftmax {
  import opened Softmax

  /** exp2(x * (s - m) + b), 0 for minus infinity. */
  function ScaledProb(e: real -> real, x: real, b: real, s: Score, m: real): real {
    if s.NegInf? then 0.0 else e(Mul(x, s.s - m) + b)
  }

  function ScaledProbs(e: real -> real, x: real, b: real, ks: seq<Key>, m: real): seq<real> {
    seq(|ks|, i requires 0 <= i < |ks| => ScaledProb(e, x, b, ks[i].score, m))
  }

  function ScaleScore(x: real, s: Score): Score { if s.NegInf? then NegInf else Fin(Mul(x, s.s)) }

  function ScaleKeys(x: real, ks: seq<Key>): seq<Key> {
    seq(|ks|, i requires 0 <= i < |ks| => Key(ScaleScore(x, ks[i].score), ks[i].value))
  }

  /** The headroom is a common factor: P is 2^b times the probability of the scaled logit. */
  lemma ScaledProbIs(e: real -> real, x: real, b: real, s: Score, m: real)
    requires IsExp2(e)
    ensures ScaledProb(e, x, b, s, m) == Mul(e(b), Prob(e, ScaleScore(x, s), Mul(x, m)))
  {
    hide IsExp2, Mul;
    if s.Fin? {
      ScaledDiff(x, s.s, m);
      Product(e, Mul(x, s.s) - Mul(x, m), b);
    } else {
      MulZero(e(b));
    }
  }

  lemma MulZero(a: real)
    ensures Mul(a, 0.0) == 0.0 == Mul(0.0, a)
  {
  }

  lemma ScaledDiff(x: real, a: real, b: real)
    ensures Mul(x, a - b) == Mul(x, a) - Mul(x, b)
  {
  }

  lemma Product(e: real -> real, x: real, y: real)
    requires IsExp2(e)
    ensures e(x + y) == Mul(e(y), e(x))
  {
    assert Adds(e, x, y);
  }

  lemma {:induction false} ScaledSums(e: real -> real, x: real, b: real, ks: seq<Key>, m: real)
    requires IsExp2(e)
    ensures var f, sk, sm := e(b), ScaleKeys(x, ks), Mul(x, m);
      Sum(ScaledProbs(e, x, b, ks, m)) == Mul(f, Mass(e, sk, sm)) && Dot(ScaledProbs(e, x, b, ks, m), Values(ks)) == Mul(f, Acc(e, sk, sm))
    decreases |ks|
  {
    hide *;
    var f, sk, sm := e(b), ScaleKeys(x, ks), Mul(x, m);
    if ks == [] {
      NoKeys(e, x, b, m, f, sm);
    } else {
      var k := |ks| - 1;
      ScaledSums(e, x, b, ks[..k], m);
      LastKey(e, x, b, ks, m);
      DotStep(ScaledProbs(e, x, b, ks, m), Values(ks));
      MassStep(e, sk, sm);
      ScaledProbIs(e, x, b, ks[k].score, m);
      DistributeMul(f, Mass(e, sk[..k], sm), Prob(e, sk[k].score, sm), sk[k].value, Acc(e, sk[..k], sm));
    }
  }

  lemma NoKeys(e: real -> real, x: real, b: real, m: real, f: real, sm: real)
    ensures Sum(ScaledProbs(e, x, b, [], m)) == Mul(f, Mass(e, ScaleKeys(x, []), sm))
    ensures |ScaledProbs(e, x, b, [], m)| == |Values([])| && Dot(ScaledProbs(e, x, b, [], m), Values([])) == Mul(f, Acc(e, ScaleKeys(x, []), sm))
  {
  }

  /** The pieces of the sums that come from the last key. */
  lemma LastKey(e: real -> real, x: real, b: real, ks: seq<Key>, m: real)
    requires ks != []
    ensures var k, sk := |ks| - 1, ScaleKeys(x, ks);
      && |ScaledProbs(e, x, b, ks, m)| == |Values(ks)| == |sk| == k + 1 && sk[k] == Key(ScaleScore(x, ks[k].score), ks[k].value)
      && ScaledProbs(e, x, b, ks, m)[..k] == ScaledProbs(e, x, b, ks[..k], m) && Values(ks)[..k] == Values(ks[..k]) && sk[..k] == ScaleKeys(x, ks[..k])
      && ScaledProbs(e, x, b, ks, m)[k] == ScaledProb(e, x, b, ks[k].score, m) && Values(ks)[k] == ks[k].value
  {
    hide ScaledProb, ScaleScore;
  }

  lemma DotStep(p: seq<real>, v: seq<real>)
    requires |p| == |v| > 0
    ensures var k := |p| - 1; Sum(p) == Sum(p[..k]) + p[k] && Dot(p, v) == Dot(p[..k], v[..k]) + Mul(p[k], v[k])
  {
    hide Dot, Mul;
    LastProduct(p, v);
  }

  lemma LastProduct(p: seq<real>, v: seq<real>)
    requires |p| == |v| > 0
    ensures var k := |p| - 1; Dot(p, v) == Dot(p[..k], v[..k]) + Mul(p[k], v[k])
  {
    hide Sum, Mul;
  }

  lemma MassStep(e: real -> real, ks: seq<Key>, m: real)
    requires ks != []
    ensures var k := |ks| - 1;
      && Mass(e, ks, m) == Mass(e, ks[..k], m) + Prob(e, ks[k].score, m)
      && Acc(e, ks, m) == Acc(e, ks[..k], m) + Mul(Prob(e, ks[k].score, m), ks[k].value)
  {
    hide Prob;
  }

  lemma DistributeMul(c: real, a: real, p: real, v: real, b: real)
    ensures Mul(c, a) + Mul(c, p) == Mul(c, a + p)
    ensures Mul(c, b) + Mul(Mul(c, p), v) == Mul(c, b + Mul(p, v))
  {
    Distribute(c, a, p, v, b);
  }

  // ------------------------------------------------------------------- running sums

  ghost predicate Sums(e: real -> real, f: real, done: seq<Key>, m: real, l: real, o: real) {
    l == Mul(f, Mass(e, done, m)) && o == Mul(f, Acc(e, done, m))
  }

  lemma NothingSummed(e: real -> real, f: real, m: real)
    ensures Sums(e, f, [], m, 0.0, 0.0)
  {
  }

  lemma SumsMoved(e: real -> real, f: real, done: seq<Key>, m: real, m': real, l: real, o: real, w: real)
    requires IsExp2(e) && Sums(e, f, done, m, l, o) && w == e(m - m')
    ensures Sums(e, f, done, m', Mul(l, w), Mul(o, w))
  {
    hide IsExp2, Mass, Acc;
    Rebased(e, done, m, m');
    Regroup(f, w, Mass(e, done, m));
    Regroup(f, w, Acc(e, done, m));
  }

  lemma Regroup(f: real, w: real, x: real)
    ensures Mul(f, w * x) == Mul(Mul(f, x), w)
  {
  }

  lemma SumsJoined(e: real -> real, f: real, done: seq<Key>, ks: seq<Key>, m: real, l: real, o: real)
    requires Sums(e, f, done, m, l, o)
    ensures Sums(e, f, done + ks, m, l + Mul(f, Mass(e, ks, m)), o + Mul(f, Acc(e, ks, m)))
  {
    hide Mass, Acc, Mul;
    Concat(e, done, ks, m);
    SumOfProducts(f, Mass(e, done, m), Mass(e, ks, m));
    SumOfProducts(f, Acc(e, done, m), Acc(e, ks, m));
  }

  lemma SumOfProducts(f: real, a: real, b: real)
    ensures Mul(f, a) + Mul(f, b) == Mul(f, a + b)
  {
  }
}
