/** Moves, the layout of the policy vector and the softmax move sampler of the
    feature-subset search. */
module Moves {

  /** The decision taken about one feature. The source passes the strings
      "Keep" and "Discard" and treats every string other than "Keep" as a
      discard, so two constructors cover it. */
  datatype Move = Keep | Discard

  /** `f` is positive everywhere, as the real exponential is. */
  ghost predicate Positive(f: real -> real)
  {
    forall x :: f(x) > 0.0
  }

  /** `math.exp`, abstracted to a real function that is positive everywhere
      (no overflow, no rounding). */
  type Exp = f: real -> real | Positive(f) witness (x: real) => 1.0

  /** The one fact about `exp` the sampler relies on. */
  lemma ExpPositive(exp: Exp, x: real)
    ensures exp(x) > 0.0
  {
  }

  /** Strictly increasing, as the real exponential is. Only the monotonicity
      law of the adaptation step needs it. */
  ghost predicate Increasing(exp: Exp)
  {
    forall x, y :: x < y ==> Rises(exp, x, y)
  }

  /** `exp` is larger at `y` than at `x`. */
  ghost predicate Rises(exp: Exp, x: real, y: real)
  {
    exp(x) < exp(y)
  }

  /** One instance of `Increasing`. */
  lemma IncreasingAt(exp: Exp, x: real, y: real)
    requires Increasing(exp) && x < y
    ensures exp(x) < exp(y)
  {
    assert Rises(exp, x, y);
  }

  /** The other move at the same position. */
  function Other(m: Move): Move
  {
    if m == Keep then Discard else Keep
  }

  /** Slot of the policy vector holding the weight of move `m` at decision
      position `p`: `2p` for Keep, `2p+1` for Discard. */
  function PolicyIndex(p: nat, m: Move): nat
  {
    if m == Keep then 2 * p else 2 * p + 1
  }

  /** The (position, move) pair a slot of the policy vector stands for. */
  function SlotOf(i: nat): (nat, Move)
  {
    (i / 2, if i % 2 == 0 then Keep else Discard)
  }

  /** A slot lies in `[0, 2N)` exactly when its position lies in `[0, N)`. */
  lemma PolicyIndexInRange(n: nat, p: nat, m: Move)
    ensures PolicyIndex(p, m) < 2 * n <==> p < n
  {
  }

  /** Distinct (position, move) pairs get distinct slots ... */
  lemma PolicyIndexInjective(p: nat, m: Move, q: nat, k: Move)
    requires PolicyIndex(p, m) == PolicyIndex(q, k)
    ensures p == q && m == k
  {
  }

  /** ... and every slot is the slot of the pair it stands for. */
  lemma PolicyIndexRoundTrip(i: nat, p: nat, m: Move)
    ensures PolicyIndex(SlotOf(i).0, SlotOf(i).1) == i
    ensures SlotOf(PolicyIndex(p, m)) == (p, m)
  {
  }

  /** The normaliser `z` that `playout` accumulates over the two moves of
      position `p`, starting from `0.0`. */
  function Normalizer(exp: Exp, w: seq<real>, p: nat): (z: real)
    requires PolicyIndex(p, Discard) < |w|
    ensures z > exp(w[PolicyIndex(p, Keep)]) && z > exp(w[PolicyIndex(p, Discard)])
  {
    ExpPositive(exp, w[PolicyIndex(p, Keep)]);
    ExpPositive(exp, w[PolicyIndex(p, Discard)]);
    0.0 + exp(w[PolicyIndex(p, Keep)]) + exp(w[PolicyIndex(p, Discard)])
  }

  /** Two positive numbers split their sum into two shares in `(0, 1)` that add
      up to one. */
  lemma Shares(a: real, b: real, z: real)
    requires a > 0.0 && b > 0.0 && z == a + b
    ensures 0.0 < a / z < 1.0 && 0.0 < b / z < 1.0 && a / z + b / z == 1.0
  {
    assert a / z + b / z == (a + b) / z;
    var q := a / z;
    assert q * z == a;
    if q >= 1.0 {
      assert false;
    }
    var r := b / z;
    assert r * z == b;
    if r >= 1.0 {
      assert false;
    }
  }

  /** Softmax probability of move `m` at position `p`: `exp(w[code]) / z`. */
  function Probability(exp: Exp, w: seq<real>, p: nat, m: Move): (r: real)
    requires PolicyIndex(p, Discard) < |w|
    ensures 0.0 < r < 1.0
  {
    Shares(exp(w[PolicyIndex(p, Keep)]), exp(w[PolicyIndex(p, Discard)]), Normalizer(exp, w, p));
    exp(w[PolicyIndex(p, m)]) / Normalizer(exp, w, p)
  }

  /** The two probabilities of a position form a distribution. */
  lemma ProbabilitiesSumToOne(exp: Exp, w: seq<real>, p: nat)
    requires PolicyIndex(p, Discard) < |w|
    ensures Probability(exp, w, p, Keep) + Probability(exp, w, p, Discard) == 1.0
  {
    Shares(exp(w[PolicyIndex(p, Keep)]), exp(w[PolicyIndex(p, Discard)]), Normalizer(exp, w, p));
  }

  /** Below a share of a positive total exactly when below it after scaling
      by the total. */
  lemma BelowShare(a: real, t: real, u: real)
    ensures t > 0.0 ==> (u * t < a <==> u < a / t)
  {
    if t > 0.0 {
      var q := a / t;
      assert q * t == a;
      if u < q {
        assert u * t < q * t;
      } else {
        assert u * t >= q * t;
      }
    }
  }

  /** `random.choices(["Keep", "Discard"], weights=[keep, discard], k=1)` given
      the uniform draw `u = random()`: CPython bisects `u * total` into the
      cumulative weights `[keep, keep + discard]`, so the first entry is taken
      exactly when `u * total < keep`. */
  function WeightedChoice(keep: real, discard: real, u: real): (m: Move)
    ensures keep + discard > 0.0 ==> (m == Keep <==> u < keep / (keep + discard))
  {
    BelowShare(keep, keep + discard, u);
    if u * (keep + discard) < keep then Keep else Discard
  }

  /** The move `choose_a_move` draws at position `p` from the uniform draw `u`. */
  function Sample(exp: Exp, w: seq<real>, p: nat, u: real): (m: Move)
    requires PolicyIndex(p, Discard) < |w|
    ensures m == Keep <==> u < Probability(exp, w, p, Keep)
  {
    ProbabilitiesSumToOne(exp, w, p);
    WeightedChoice(Probability(exp, w, p, Keep), Probability(exp, w, p, Discard), u)
  }

  /** Keep is drawn exactly when the uniform draw falls below Keep's softmax
      probability, so a uniform `u` in `[0, 1)` draws Keep with that
      probability and Discard with the rest. */
  lemma SampleFollowsProbability(exp: Exp, w: seq<real>, p: nat, u: real)
    requires PolicyIndex(p, Discard) < |w|
    ensures Sample(exp, w, p, u) == Keep <==> u < Probability(exp, w, p, Keep)
    ensures Sample(exp, w, p, u) == Discard <==> 1.0 - Probability(exp, w, p, Discard) <= u
  {
    ProbabilitiesSumToOne(exp, w, p);
  }
}
