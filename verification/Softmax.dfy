/** Softmax attention of one query row and one output column over exact reals: masses, weighted
    sums, how they change with the reference point, and the direct definition that all the
    online forms have to meet. `e` is base-2 exponentiation, known by its laws only. */
module Softmax {

  datatype Score = NegInf | Fin(s: real)

  /** One key as this row sees it: its (masked) logit and its value in this column. */
  datatype Key = Key(score: Score, value: real)

  ghost predicate IsExp2(e: real -> real) {
    && e(0.0) == 1.0
    && (forall x :: e(x) > 0.0)
    && (forall x, y :: Adds(e, x, y))
    && (forall x, y :: x <= y ==> e(x) <= e(y))
  }

  predicate Adds(e: real -> real, x: real, y: real) { e(x + y) == e(x) * e(y) }

  predicate Le(a: Score, b: Score) { a.NegInf? || (b.Fin? && a.s <= b.s) }

  function Max2(a: Score, b: Score): (m: Score)
    ensures Le(a, m) && Le(b, m) && (m == a || m == b)
  {
    if a.NegInf? then b else if b.NegInf? then a else if a.s <= b.s then b else a
  }

  /** exp2(score - m), where exp2(-inf) is 0. */
  function Prob(e: real -> real, s: Score, m: real): real {
    if s.NegInf? then 0.0 else e(s.s - m)
  }

  function RowMax(ks: seq<Key>): Score {
    if ks == [] then NegInf else Max2(RowMax(ks[..|ks| - 1]), ks[|ks| - 1].score)
  }

  function Mass(e: real -> real, ks: seq<Key>, m: real): real {
    if ks == [] then 0.0 else Mass(e, ks[..|ks| - 1], m) + Prob(e, ks[|ks| - 1].score, m)
  }

  function Acc(e: real -> real, ks: seq<Key>, m: real): real {
    if ks == [] then 0.0 else Acc(e, ks[..|ks| - 1], m) + Prob(e, ks[|ks| - 1].score, m) * ks[|ks| - 1].value
  }

  /** Some key is visible. */
  predicate HasLive(ks: seq<Key>) {
    ks != [] && (HasLive(ks[..|ks| - 1]) || ks[|ks| - 1].score.Fin?)
  }

  /** The definition: values weighted by exp2 of their logits, normalised; 0 if nothing is visible. */
  ghost function Direct(e: real -> real, ks: seq<Key>): real {
    if HasLive(ks) && Mass(e, ks, 0.0) > 0.0 then Acc(e, ks, 0.0) / Mass(e, ks, 0.0) else 0.0
  }

  /** The same with an attention sink: a logit that has mass but no value. */
  ghost function DirectWithSink(e: real -> real, ks: seq<Key>, sink: real): real
    requires IsExp2(e)
  {
    MassNonneg(e, ks, 0.0);
    Acc(e, ks, 0.0) / (Mass(e, ks, 0.0) + e(sink))
  }

  /** MAIN. What the specification means: the visible values' average, each weighted by exp2 of its logit; keys at minus
      infinity weigh nothing, a sink weighs without a value, and a row that sees nothing is 0. */
  lemma DirectIs(e: real -> real, ks: seq<Key>, k: Key, sink: real)
    requires IsExp2(e)
    ensures HasLive(ks) ==> Mass(e, ks, 0.0) > 0.0 && Direct(e, ks) * Mass(e, ks, 0.0) == Acc(e, ks, 0.0)
    ensures !HasLive(ks) ==> Direct(e, ks) == 0.0
    ensures Mass(e, ks, 0.0) + e(sink) > 0.0 && DirectWithSink(e, ks, sink) * (Mass(e, ks, 0.0) + e(sink)) == Acc(e, ks, 0.0)
    ensures Mass(e, [], 0.0) == 0.0 == Acc(e, [], 0.0)
    ensures Mass(e, ks + [k], 0.0) == Mass(e, ks, 0.0) + if k.score.Fin? then e(k.score.s - 0.0) else 0.0
    ensures Acc(e, ks + [k], 0.0) == Acc(e, ks, 0.0) + if k.score.Fin? then e(k.score.s - 0.0) * k.value else 0.0
  {
    hide IsExp2;
    MassNonneg(e, ks, 0.0);
    ExpPositive(e, sink);
    assert (ks + [k])[..|ks|] == ks;
  }

  /** A row that sees one key has its value. */
  lemma OneKey(e: real -> real, s: real, v: real)
    requires IsExp2(e)
    ensures Direct(e, [Key(Fin(s), v)]) == v
  {
    hide IsExp2;
    var ks := [Key(Fin(s), v)];
    ExpPositive(e, s - 0.0);
    var w := e(s - 0.0);
    assert ks[..0] == [] && Mass(e, ks, 0.0) == w && Acc(e, ks, 0.0) == w * v;
    assert (w * v) / w == v;
  }

  // -------------------------------------------------------------------------- sums

  lemma {:induction false} Concat(e: real -> real, a: seq<Key>, b: seq<Key>, m: real)
    ensures Mass(e, a + b, m) == Mass(e, a, m) + Mass(e, b, m)
    ensures Acc(e, a + b, m) == Acc(e, a, m) + Acc(e, b, m)
    ensures HasLive(a + b) <==> HasLive(a) || HasLive(b)
    decreases |b|
  {
    if b == [] {
      assert a + b == a;
    } else {
      var k := |b| - 1;
      Concat(e, a, b[..k], m);
      assert (a + b)[..|a| + k] == a + b[..k];
    }
  }

  lemma {:induction false} MassNonneg(e: real -> real, ks: seq<Key>, m: real)
    requires IsExp2(e)
    ensures Mass(e, ks, m) >= 0.0 && (HasLive(ks) ==> Mass(e, ks, m) > 0.0)
    ensures !HasLive(ks) ==> Mass(e, ks, m) == 0.0 && Acc(e, ks, m) == 0.0
    decreases |ks|
  {
    if ks != [] {
      var k := |ks| - 1;
      MassNonneg(e, ks[..k], m);
    }
  }

  /** The factor that moves the reference point from `m` to `m'`. */
  lemma ProbRebased(e: real -> real, s: Score, m: real, m': real)
    requires IsExp2(e)
    ensures Prob(e, s, m') == e(m - m') * Prob(e, s, m)
  {
    if s.Fin? {
      assert Adds(e, m - m', s.s - m);
      assert (m - m') + (s.s - m) == s.s - m';
    }
  }

  lemma {:induction false} Rebased(e: real -> real, ks: seq<Key>, m: real, m': real)
    requires IsExp2(e)
    ensures Mass(e, ks, m') == e(m - m') * Mass(e, ks, m)
    ensures Acc(e, ks, m') == e(m - m') * Acc(e, ks, m)
    decreases |ks|
  {
    hide IsExp2, Prob;
    if ks != [] {
      var k := |ks| - 1;
      var c, p, v := e(m - m'), Prob(e, ks[k].score, m), ks[k].value;
      Rebased(e, ks[..k], m, m');
      ProbRebased(e, ks[k].score, m, m');
      Distribute(c, Mass(e, ks[..k], m), p, v, Acc(e, ks[..k], m));
    }
  }

  lemma Distribute(c: real, a: real, p: real, v: real, b: real)
    ensures c * a + c * p == c * (a + p)
    ensures c * b + (c * p) * v == c * (b + p * v)
  {
  }

  /** safe_l_inv: rows without visible keys divide by nothing. */
  function SafeInverse(l: real): real { if l > 0.0 then 1.0 / l else 0.0 }

  /** MAIN. Online state normalises to the direct definition, whatever its reference point and
      common factor are. */
  lemma Normalised(e: real -> real, ks: seq<Key>, m: real, c: real, l: real, o: real)
    requires IsExp2(e) && c > 0.0 && l == c * Mass(e, ks, m) && o == c * Acc(e, ks, m)
    ensures o * SafeInverse(l) == Direct(e, ks)
  {
    hide IsExp2, Mass, Acc, HasLive, SafeInverse;
    MassNonneg(e, ks, m);
    MassNonneg(e, ks, 0.0);
    if HasLive(ks) {
      ExpPositive(e, 0.0 - m);
      Rebased(e, ks, 0.0, m);
      Quotient(c, e(0.0 - m), Acc(e, ks, 0.0), Mass(e, ks, 0.0), l, o);
    } else {
      assert o == 0.0;
    }
  }

  lemma Quotient(c: real, w: real, a: real, b: real, l: real, o: real)
    requires c > 0.0 && w > 0.0 && b > 0.0 && l == c * (w * b) && o == c * (w * a)
    ensures o * SafeInverse(l) == a / b
  {
    Cancel(c, w, a, b);
  }

  lemma ExpPositive(e: real -> real, x: real)
    requires IsExp2(e)
    ensures e(x) > 0.0
  {
  }

  lemma Cancel(c: real, w: real, a: real, b: real)
    requires c > 0.0 && w > 0.0 && b > 0.0
    ensures c * (w * b) > 0.0 && (c * (w * a)) * (1.0 / (c * (w * b))) == a / b
  {
    var d := c * w;
    assert c * (w * b) == d * b && c * (w * a) == d * a;
    PositiveProduct(c, w);
    PositiveProduct(d, b);
    assert (d * a) * (1.0 / (d * b)) == (d * a) / (d * b);
    CancelFactor(d, a, b);
  }

  lemma PositiveProduct(a: real, b: real)
    requires a > 0.0 && b > 0.0
    ensures a * b > 0.0
  {
  }

  lemma CancelFactor(d: real, a: real, b: real)
    requires d > 0.0 && b > 0.0 && d * b > 0.0
    ensures (d * a) / (d * b) == a / b
  {
    var q := a / b;
    assert q * b == a;
    assert (d * a) == q * (d * b) by {
      assert d * (q * b) == q * (d * b);
    }
  }

  // ----------------------------------------------------------- vectors of probabilities

  function Probs(e: real -> real, ks: seq<Key>, m: real): seq<real> {
    seq(|ks|, i requires 0 <= i < |ks| => Prob(e, ks[i].score, m))
  }

  function Sum(p: seq<real>): real {
    if p == [] then 0.0 else Sum(p[..|p| - 1]) + p[|p| - 1]
  }

  function Values(ks: seq<Key>): seq<real> {
    seq(|ks|, i requires 0 <= i < |ks| => ks[i].value)
  }

  /** Multiplication by a name, so that products of equal factors are seen to be equal. */
  function Mul(a: real, b: real): real { a * b }

  function Dot(p: seq<real>, v: seq<real>): real
    requires |p| == |v|
  {
    if p == [] then 0.0 else Dot(p[..|p| - 1], v[..|v| - 1]) + Mul(p[|p| - 1], v[|v| - 1])
  }

  function Scale(p: seq<real>, c: real): seq<real> {
    seq(|p|, i requires 0 <= i < |p| => p[i] * c)
  }

  lemma {:induction false} ProbsSum(e: real -> real, ks: seq<Key>, m: real)
    ensures Sum(Probs(e, ks, m)) == Mass(e, ks, m) && Dot(Probs(e, ks, m), Values(ks)) == Acc(e, ks, m)
    decreases |ks|
  {
    if ks != [] {
      ProbsSum(e, ks[..|ks| - 1], m);
      assert Probs(e, ks, m)[..|ks| - 1] == Probs(e, ks[..|ks| - 1], m);
      assert Values(ks)[..|ks| - 1] == Values(ks[..|ks| - 1]);
    }
  }

  lemma ProbsRebased(e: real -> real, ks: seq<Key>, m: real, m': real)
    requires IsExp2(e)
    ensures Probs(e, ks, m') == Scale(Probs(e, ks, m), e(m - m'))
  {
    hide IsExp2;
    forall i | 0 <= i < |ks| ensures Probs(e, ks, m')[i] == Scale(Probs(e, ks, m), e(m - m'))[i] {
      ProbRebased(e, ks[i].score, m, m');
    }
  }

  lemma {:induction false} MaxConcat(a: seq<Key>, b: seq<Key>)
    ensures RowMax(a + b) == Max2(RowMax(a), RowMax(b))
    decreases |b|
  {
    if b == [] {
      assert a + b == a;
    } else {
      var k := |b| - 1;
      MaxConcat(a, b[..k]);
      assert (a + b)[..|a| + k] == a + b[..k];
    }
  }

  /** The maximum is one of the scores. */
  lemma {:induction false} MaxAttained(ks: seq<Key>) returns (i: nat)
    requires HasLive(ks)
    ensures i < |ks| && ks[i].score == RowMax(ks)
    decreases |ks|
  {
    var k := |ks| - 1;
    if HasLive(ks[..k]) {
      i := MaxAttained(ks[..k]);
      if RowMax(ks) == ks[k].score { i := k; }
    } else {
      MaxBounds(ks[..k]);
      i := k;
    }
  }

  lemma {:induction false} MaxBounds(ks: seq<Key>)
    ensures forall i :: 0 <= i < |ks| ==> Le(ks[i].score, RowMax(ks))
    ensures RowMax(ks).Fin? <==> HasLive(ks)
    decreases |ks|
  {
    if ks != [] {
      var k := |ks| - 1;
      MaxBounds(ks[..k]);
      assert forall i :: 0 <= i < k ==> ks[..k][i] == ks[i];
    }
  }
}
