/** The policy-adaptation step of NRPA, as a function on the weight list. */
module Adaptation {
  import opened Moves

  /** The learning rate `alpha` of `adapt`. */
  const Alpha: real := 0.5

  /** The discount half of one pass of the `adapt` loop, on the weights
      `(bk, bd)` of one position after the `+Alpha` write: `z` is summed
      from `0.0` over both moves and each weight loses `Alpha * exp(weight) / z`.
      `polp` and `policy` are the same list in the source, so `z` and both
      discounts read the weights after the `+Alpha` write. */
  function Discount(exp: Exp, bk: real, bd: real): (r: (real, real))
    ensures r.0 < bk && r.1 < bd && r.0 + r.1 == bk + bd - Alpha
  {
    DiscountLoses(exp, bk, bd);
    var z := 0.0 + exp(bk) + exp(bd);
    (bk - Alpha * exp(bk) / z, bd - Alpha * exp(bd) / z)
  }

  /** Each discount is a positive share of `Alpha`, and the two shares make
      up `Alpha`. */
  lemma DiscountLoses(exp: Exp, bk: real, bd: real)
    ensures var z := 0.0 + exp(bk) + exp(bd);
      Alpha * exp(bk) / z > 0.0 && Alpha * exp(bd) / z > 0.0 &&
      Alpha * exp(bk) / z + Alpha * exp(bd) / z == Alpha
  {
    var ek, ed := exp(bk), exp(bd);
    ExpPositive(exp, bk);
    ExpPositive(exp, bd);
    var z := 0.0 + ek + ed;
    Shares(ek, ed, z);
    assert Alpha * ek / z == Alpha * (ek / z);
    assert Alpha * ed / z == Alpha * (ed / z);
    assert Alpha * (ek / z) + Alpha * (ed / z) == Alpha * (ek / z + ed / z);
  }

  /** Discounting the weights `(bk, bd)` by `z` summed over both is
      `Discount`. */
  lemma DiscountIs(exp: Exp, bk: real, bd: real, z: real, nk: real, nd: real)
    requires z == 0.0 + exp(bk) + exp(bd)
    requires nk == bk - Alpha * exp(bk) / z && nd == bd - Alpha * exp(bd) / z
    ensures (nk, nd) == Discount(exp, bk, bd)
  {
  }

  /** The two weights of one position after one pass of the `adapt` loop for
      the elite move `m`, from the weights `(keep, discard)` they had before:
      the taken move's weight gains `Alpha`, then both are discounted. */
  function Pass(exp: Exp, keep: real, discard: real, m: Move): (r: (real, real))
    ensures r.0 + r.1 == keep + discard
  {
    if m == Keep then Discount(exp, keep + Alpha, discard)
    else Discount(exp, keep, discard + Alpha)
  }

  /** A pass is the discount of the weights after the `+Alpha` write to the
      taken move. */
  lemma PassIs(exp: Exp, keep: real, discard: real, m: Move, bk: real, bd: real)
    requires (bk, bd) == if m == Keep then (keep + Alpha, discard) else (keep, discard + Alpha)
    ensures Pass(exp, keep, discard, m) == Discount(exp, bk, bd)
  {
  }

  /** One pass of the `adapt` loop at position `p` for the elite move `m`: it
      rewrites the two weights of position `p` and no others. */
  function AdaptAt(exp: Exp, w: seq<real>, p: nat, m: Move): (r: seq<real>)
    requires PolicyIndex(p, Discard) < |w|
    ensures |r| == |w|
    ensures forall i :: 0 <= i < |w| && i != PolicyIndex(p, Keep) && i != PolicyIndex(p, Discard) ==> r[i] == w[i]
    ensures r[PolicyIndex(p, Keep)] + r[PolicyIndex(p, Discard)] == w[PolicyIndex(p, Keep)] + w[PolicyIndex(p, Discard)]
  {
    var k, d := PolicyIndex(p, Keep), PolicyIndex(p, Discard);
    var pass := Pass(exp, w[k], w[d], m);
    w[k := pass.0][d := pass.1]
  }

  /** The discounts in terms of the softmax `q` of the weights they read:
      each weight loses `Alpha * q` with `q` in `(0, 1)`, so the two together
      lose exactly `Alpha`. */
  lemma DiscountShares(exp: Exp, bk: real, bd: real)
    ensures var z := 0.0 + exp(bk) + exp(bd);
      var qk, qd := exp(bk) / z, exp(bd) / z;
      var r := Discount(exp, bk, bd);
      0.0 < qk < 1.0 && 0.0 < qd < 1.0 &&
      r.0 == bk - Alpha * qk && r.1 == bd - Alpha * qd &&
      r.0 + r.1 == bk + bd - Alpha
  {
    var ek, ed := exp(bk), exp(bd);
    var z := 0.0 + ek + ed;
    Shares(ek, ed, z);
    assert Alpha * ek / z == Alpha * (ek / z);
    assert Alpha * ed / z == Alpha * (ed / z);
  }

  /** A pass for Keep, in terms of the softmax `q` after the `+Alpha` write:
      Keep gains `Alpha * (1 - q(Keep)) > 0`, Discard loses
      `Alpha * q(Discard) > 0`, and the sum of the two weights is unchanged. */
  lemma PassRewardsKeep(exp: Exp, keep: real, discard: real)
    ensures var z := 0.0 + exp(keep + Alpha) + exp(discard);
      var qk, qd := exp(keep + Alpha) / z, exp(discard) / z;
      var r := Pass(exp, keep, discard, Keep);
      0.0 < qk < 1.0 && 0.0 < qd < 1.0 &&
      r.0 == keep + Alpha * (1.0 - qk) && r.1 == discard - Alpha * qd &&
      r.0 + r.1 == keep + discard
  {
    DiscountShares(exp, keep + Alpha, discard);
  }

  /** A pass for Discard: Discard gains `Alpha * (1 - q(Discard)) > 0`, Keep
      loses `Alpha * q(Keep) > 0`, and the sum of the two weights is unchanged. */
  lemma PassRewardsDiscard(exp: Exp, keep: real, discard: real)
    ensures var z := 0.0 + exp(keep) + exp(discard + Alpha);
      var qk, qd := exp(keep) / z, exp(discard + Alpha) / z;
      var r := Pass(exp, keep, discard, Discard);
      0.0 < qk < 1.0 && 0.0 < qd < 1.0 &&
      r.0 == keep - Alpha * qk && r.1 == discard + Alpha * (1.0 - qd) &&
      r.0 + r.1 == keep + discard
  {
    DiscountShares(exp, keep, discard + Alpha);
  }

  /** `adapt(policy, sequence, ...)`: the passes of its loop over the elite
      sequence, position 0 first. */
  function Adapted(exp: Exp, w: seq<real>, s: seq<Move>): (r: seq<real>)
    requires 2 * |s| <= |w|
    ensures |r| == |w|
  {
    if s == [] then w
    else AdaptAt(exp, Adapted(exp, w, s[..|s| - 1]), |s| - 1, s[|s| - 1])
  }

  /** Adapting toward one more move is one more pass, at the next position. */
  lemma AdaptedSnoc(exp: Exp, w: seq<real>, s: seq<Move>, m: Move)
    requires 2 * (|s| + 1) <= |w|
    ensures Adapted(exp, w, s + [m]) == AdaptAt(exp, Adapted(exp, w, s), |s|, m)
  {
    assert (s + [m])[..|s|] == s;
  }

  /** `adapt` writes no weight beyond the positions the sequence visits. */
  lemma {:induction false} AdaptedUntouched(exp: Exp, w: seq<real>, s: seq<Move>, i: int)
    requires 2 * |s| <= i < |w|
    ensures Adapted(exp, w, s)[i] == w[i]
  {
    if s != [] {
      AdaptedUntouched(exp, w, s[..|s| - 1], i);
    }
  }

  /** At a visited position `p`, `adapt` leaves exactly what one pass over the
      incoming weights of `p` gives: the passes of other positions do not
      interfere. */
  lemma {:induction false} AdaptedPair(exp: Exp, w: seq<real>, s: seq<Move>, p: nat)
    requires 2 * |s| <= |w| && p < |s|
    ensures var pass := Pass(exp, w[PolicyIndex(p, Keep)], w[PolicyIndex(p, Discard)], s[p]);
      Adapted(exp, w, s)[PolicyIndex(p, Keep)] == pass.0 &&
      Adapted(exp, w, s)[PolicyIndex(p, Discard)] == pass.1
  {
    var prefix := s[..|s| - 1];
    if p == |s| - 1 {
      AdaptedUntouched(exp, w, prefix, PolicyIndex(p, Keep));
      AdaptedUntouched(exp, w, prefix, PolicyIndex(p, Discard));
    } else {
      AdaptedPair(exp, w, prefix, p);
    }
  }

  /** What `adapt` does at every visited position `p`: the elite move's weight
      rises, the other move's weight falls, and their sum is kept. */
  lemma AdaptRewardsElite(exp: Exp, w: seq<real>, s: seq<Move>, p: nat)
    requires 2 * |s| <= |w| && p < |s|
    ensures var r, t, o := Adapted(exp, w, s), PolicyIndex(p, s[p]), PolicyIndex(p, Other(s[p]));
      r[t] > w[t] && r[o] < w[o] &&
      r[PolicyIndex(p, Keep)] + r[PolicyIndex(p, Discard)] == w[PolicyIndex(p, Keep)] + w[PolicyIndex(p, Discard)]
  {
    AdaptedPair(exp, w, s, p);
    if s[p] == Keep {
      PassRewardsKeep(exp, w[PolicyIndex(p, Keep)], w[PolicyIndex(p, Discard)]);
    } else {
      PassRewardsDiscard(exp, w[PolicyIndex(p, Keep)], w[PolicyIndex(p, Discard)]);
    }
  }

  /** Multiplying by a positive number keeps a strict order. */
  lemma MulLess(x: real, y: real, c: real)
    requires x < y && c > 0.0
    ensures x * c < y * c && c * x < c * y
  {
  }

  /** The cross products of a share that rises. */
  lemma CrossLess(a: real, b: real, a': real, b': real)
    requires 0.0 < a < a' && 0.0 < b' < b
    ensures a * (a' + b') < a' * (a + b)
  {
    MulLess(a, a', b');
    assert a * b' < a' * b';
    MulLess(b', b, a');
    assert a' * b' < a' * b;
    assert a * (a' + b') == a * a' + a * b';
    assert a' * (a + b) == a' * a + a' * b;
  }

  /** Quotients over positive denominators compare as their cross products. */
  lemma QuotientLess(a: real, u: real, a': real, v: real)
    requires u > 0.0 && v > 0.0 && a * v < a' * u
    ensures a / u < a' / v
  {
    var x, y := a / u, a' / v;
    assert x * u == a && y * v == a';
    if x >= y {
      assert false;
    }
  }

  /** A share `a / (a + b)` rises when `a` rises and `b` falls. */
  lemma ShareGrows(a: real, b: real, a': real, b': real)
    requires 0.0 < a < a' && 0.0 < b' < b
    ensures a / (a + b) < a' / (a' + b')
  {
    CrossLess(a, b, a', b');
    QuotientLess(a, a + b, a', a' + b');
  }

  /** The probability of `m` is its share of the two exponentiated weights. */
  lemma ProbabilityIsShare(exp: Exp, w: seq<real>, p: nat, m: Move)
    requires PolicyIndex(p, Discard) < |w|
    ensures var a, b := exp(w[PolicyIndex(p, m)]), exp(w[PolicyIndex(p, Other(m))]);
      a + b > 0.0 && Probability(exp, w, p, m) == a / (a + b)
  {
    var a, b := exp(w[PolicyIndex(p, m)]), exp(w[PolicyIndex(p, Other(m))]);
    assert Normalizer(exp, w, p) == a + b;
  }

  /** Raising the exponentiated weight of move `m` at position `p` and lowering
      the other's raises the probability of `m`. */
  lemma ProbabilityRises(exp: Exp, w: seq<real>, v: seq<real>, p: nat, m: Move)
    requires PolicyIndex(p, Discard) < |w| == |v|
    requires exp(v[PolicyIndex(p, m)]) > exp(w[PolicyIndex(p, m)])
    requires exp(v[PolicyIndex(p, Other(m))]) < exp(w[PolicyIndex(p, Other(m))])
    ensures Probability(exp, v, p, m) > Probability(exp, w, p, m)
  {
    ProbabilityIsShare(exp, w, p, m);
    ProbabilityIsShare(exp, v, p, m);
    var t, o := PolicyIndex(p, m), PolicyIndex(p, Other(m));
    ShareGrows(exp(w[t]), exp(w[o]), exp(v[t]), exp(v[o]));
  }

  /** Monotonicity law: with a strictly increasing `exp`, `adapt` strictly
      raises the probability of drawing the elite move at every position the
      elite sequence visits. */
  lemma AdaptRaisesEliteProbability(exp: Exp, w: seq<real>, s: seq<Move>, p: nat)
    requires Increasing(exp)
    requires 2 * |s| <= |w| && p < |s|
    ensures Probability(exp, Adapted(exp, w, s), p, s[p]) > Probability(exp, w, p, s[p])
  {
    var v := Adapted(exp, w, s);
    var t, o := PolicyIndex(p, s[p]), PolicyIndex(p, Other(s[p]));
    AdaptRewardsElite(exp, w, s, p);
    IncreasingAt(exp, w[t], v[t]);
    IncreasingAt(exp, v[o], w[o]);
    ProbabilityRises(exp, w, v, p, s[p]);
  }
}
