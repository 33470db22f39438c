/** The feature-subset search as the source runs it: a rollout loop over a
    selection state, an in-place policy update, and the two nested searches
    over a policy array they all share. Each is proved to do what the
    functions of `Search` say. */
module Selection {
  import opened Moves
  import opened Decisions
  import opened Adaptation
  import opened Search

  /** Python's `random` module: a fixed stream of `random()` draws and the
      number of draws taken so far. */
  class RandomSource {
    const stream: nat -> real
    var drawn: nat

    constructor (stream: nat -> real)
      ensures this.stream == stream && drawn == 0
    {
      this.stream := stream;
      drawn := 0;
    }

    /** `random.choices(["Keep", "Discard"], weights=[keep, discard], k=1)[0]`:
        one draw; a total weight that is not positive raises `ValueError`. */
    method Choices(keep: real, discard: real) returns (m: Move)
      requires keep + discard > 0.0
      modifies this
      ensures m == WeightedChoice(keep, discard, stream(old(drawn))) && drawn == old(drawn) + 1
    {
      var u := stream(drawn);
      drawn := drawn + 1;
      var total := keep + discard;
      m := if u * total < keep then Keep else Discard;
    }
  }

  /** `score(state, learning_algorithm)`: fits and evaluates a model on the
      selected features. Here an abstract function of the selected list, and
      the list of every selected list it was called on. */
  class Scorer {
    const score: seq<int> -> real
    ghost var log: seq<seq<int>>

    constructor (score: seq<int> -> real)
      ensures this.score == score && log == []
    {
      this.score := score;
      log := [];
    }

    method Score(state: SelectionState) returns (r: real)
      modifies this
      ensures r == score(state.selected) && log == old(log) + [state.selected]
    {
      r := score(state.selected);
      log := log + [state.selected];
    }
  }

  /** `code(move, state)`: the policy slot of `move` at the number of
      decisions made so far; it lies inside `[0, 2N)` exactly while a
      decision is left. */
  function Code(move: Move, state: SelectionState): (index: nat)
    reads state
    requires state.Valid()
    ensures index == PolicyIndex(state.Position(), move)
    ensures index < 2 * state.featureSpaceSize <==> !state.IsTerminal()
  {
    var position := state.featureSpaceSize - |state.toSelect|;
    if move == Keep then position * 2 else position * 2 + 1
  }

  /** `choose_a_move(policy, z, state)`: draws Keep or Discard with weights
      `exp(policy[code]) / z`. A `z` that is not positive makes the division
      or `random.choices` fail. */
  method ChooseAMove(policy: array<real>, z: real, state: SelectionState, rng: RandomSource, exp: Exp) returns (move: Move)
    requires state.Valid() && Code(Discard, state) < policy.Length
    requires z > 0.0
    modifies rng
    ensures move == WeightedChoice(exp(policy[Code(Keep, state)]) / z, exp(policy[Code(Discard, state)]) / z, rng.stream(old(rng.drawn)))
    ensures rng.drawn == old(rng.drawn) + 1
  {
    var probability := [exp(policy[Code(Keep, state)]) / z, exp(policy[Code(Discard, state)]) / z];
    ExpPositive(exp, policy[Code(Keep, state)]);
    ExpPositive(exp, policy[Code(Discard, state)]);
    PositiveShares(exp(policy[Code(Keep, state)]), exp(policy[Code(Discard, state)]), z);
    move := rng.Choices(probability[0], probability[1]);
  }

  /** Two positive weights over a positive `z` have a positive total. */
  lemma PositiveShares(a: real, b: real, z: real)
    requires a > 0.0 && b > 0.0 && z > 0.0
    ensures a / z + b / z > 0.0
  {
    assert a / z + b / z == (a + b) / z;
  }

  /** `play(state, move)`: applies `pick_feature` and hands back the same
      state. */
  method Play(state: SelectionState, move: Move)
    requires state.Valid() && !state.IsTerminal()
    modifies state
    ensures state.Valid() && state.Position() == old(state.Position()) + 1
    ensures state.selected == old(state.selected) + (if move == Keep then [old(state.toSelect[0])] else [])
    ensures state.notSelected == old(state.notSelected) + (if move == Keep then [] else [old(state.toSelect[0])])
    ensures state.toSelect == old(state.toSelect[1..])
    ensures old(state.Partitions()) ==> state.Partitions()
  {
    state.PickFeature(move);
  }

  /** The move the loop of `playout` draws: `choose_a_move` with the `z` it
      sums is the softmax draw. */
  lemma ChooseIsSoftmax(env: Env, exp: Exp, w: seq<real>, p: nat, z: real, u: real)
    requires SoftmaxEnv(env, exp) && PolicyIndex(p, Discard) < |w|
    requires z == 0.0 + exp(w[PolicyIndex(p, Keep)]) + exp(w[PolicyIndex(p, Discard)])
    ensures z > 0.0
    ensures WeightedChoice(exp(w[PolicyIndex(p, Keep)]) / z, exp(w[PolicyIndex(p, Discard)]) / z, u) == env.choose(w, p, u)
  {
    assert z == Normalizer(exp, w, p);
    assert env.choose(w, p, u) == Sample(exp, w, p, u);
  }

  /** A prefix one longer is the prefix and the next element. */
  lemma PrefixSnoc<T>(s: seq<T>, i: int)
    requires 0 <= i < |s|
    ensures s[..i + 1] == s[..i] + [s[i]]
  {
  }

  /** The prefix of a sequence up to its length is the sequence. */
  lemma Whole<T>(s: seq<T>, i: int)
    requires i == |s|
    ensures s[..i] == s
  {
  }

  /** Concatenation regroups. */
  lemma Regroup<T>(a: seq<T>, b: seq<T>, c: seq<T>)
    ensures a + (b + c) == a + b + c
  {
  }

  /** Deciding one more feature appends it to the list of its move. */
  lemma ChosenStep(base: seq<int>, decided: seq<int>, moves: seq<Move>, feature: int, move: Move, m: Move)
    requires |decided| == |moves|
    ensures base + Chosen(decided, moves, m) + (if move == m then [feature] else []) == base + Chosen(decided + [feature], moves + [move], m)
  {
    ChosenSnoc(decided, moves, feature, move, m);
  }

  /** One pass of the loop of `playout`: `z` summed from `0.0` over the
      weights of both moves at the current position, `choose_a_move`, then
      `play`. The move is the draw `env.choose` makes from the next random
      number, and the lowest undecided feature goes to the list of that
      move. */
  method PlayoutStep(state: SelectionState, policy: array<real>, rng: RandomSource, exp: Exp, ghost env: Env)
    returns (move: Move)
    requires SoftmaxEnv(env, exp) && env.stream == rng.stream
    requires state.Valid() && !state.IsTerminal() && 2 * state.featureSpaceSize <= policy.Length
    modifies state, rng
    ensures move == env.choose(policy[..], old(state.Position()), env.stream(old(rng.drawn)))
    ensures rng.drawn == old(rng.drawn) + 1
    ensures state.Valid()
    ensures state.selected == old(state.selected) + (if move == Keep then [old(state.toSelect[0])] else [])
    ensures state.notSelected == old(state.notSelected) + (if move == Keep then [] else [old(state.toSelect[0])])
    ensures state.toSelect == old(state.toSelect[1..])
  {
    var z := 0.0;
    z := z + exp(policy[Code(Keep, state)]);
    z := z + exp(policy[Code(Discard, state)]);
    ChooseIsSoftmax(env, exp, policy[..], state.Position(), z, rng.stream(rng.drawn));
    move := ChooseAMove(policy, z, state, rng, exp);
    Play(state, move);
  }

  /** The loop of `playout`: while a feature is undecided, draw a move for it
      and play it. The moves are the rollout of the policy from the current
      position, and each decision moves its feature to the kept or the
      discarded list. */
  method PlayoutMoves(state: SelectionState, policy: array<real>, rng: RandomSource, exp: Exp, ghost env: Env)
    returns (sequence: seq<Move>)
    requires SoftmaxEnv(env, exp) && env.stream == rng.stream && env.n == state.featureSpaceSize
    requires state.Valid()
    requires state.IsTerminal() || 2 * state.featureSpaceSize <= policy.Length
    modifies state, rng
    ensures state.Valid() && state.IsTerminal() && |sequence| == old(|state.toSelect|)
    ensures sequence == Rollout(env.choose, policy[..], env.stream, env.n, old(state.Position()), old(rng.drawn))
    ensures rng.drawn == old(rng.drawn) + |sequence|
    ensures state.selected == old(state.selected) + Chosen(old(state.toSelect), sequence, Keep)
    ensures state.notSelected == old(state.notSelected) + Chosen(old(state.toSelect), sequence, Discard)
  {
    ghost var w := policy[..];
    ghost var start, cursor, toSelect := state.Position(), rng.drawn, state.toSelect;
    ghost var selected, notSelected := state.selected, state.notSelected;
    ghost var decided: seq<int> := [];
    ghost var draws := Rollout(env.choose, w, env.stream, env.n, start, cursor);
    sequence := [];
    while !state.IsTerminal()
      invariant state.Valid() && |decided| == |sequence|
      invariant rng.drawn == cursor + |sequence|
      invariant decided + state.toSelect == toSelect
      invariant state.selected == selected + Chosen(decided, sequence, Keep)
      invariant state.notSelected == notSelected + Chosen(decided, sequence, Discard)
      invariant sequence == draws[..|sequence|]
      decreases |state.toSelect|
    {
      ghost var position, rest, feature := state.Position(), state.toSelect, state.toSelect[0];
      assert rest == [feature] + rest[1..];
      Regroup(decided, [feature], rest[1..]);
      ghost var drawn := rng.drawn;
      var move := PlayoutStep(state, policy, rng, exp, env);
      RolloutPrefixStep(env.choose, w, env.stream, env.n, start, cursor, sequence, position, drawn, move);
      ChosenStep(selected, decided, sequence, feature, move, Keep);
      ChosenStep(notSelected, decided, sequence, feature, move, Discard);
      decided, sequence := decided + [feature], sequence + [move];
    }
    assert decided == toSelect;
    assert sequence == draws;
  }

  /** `playout(state, policy, learning_algorithm)`: decides every remaining
      feature by a softmax draw, then scores the state once. The moves are
      the rollout of the policy from the current position, the state keeps
      its partition of the features, and the scorer sees the final kept
      list. */
  method Playout(state: SelectionState, policy: array<real>, scorer: Scorer, rng: RandomSource, exp: Exp, ghost env: Env)
    returns (score: real, sequence: seq<Move>)
    requires SoftmaxEnv(env, exp) && env.stream == rng.stream && env.n == state.featureSpaceSize
    requires state.Valid()
    requires state.IsTerminal() || 2 * state.featureSpaceSize <= policy.Length
    modifies state, scorer, rng
    ensures state.Valid() && state.IsTerminal() && |sequence| == old(|state.toSelect|)
    ensures sequence == Rollout(env.choose, policy[..], env.stream, env.n, old(state.Position()), old(rng.drawn))
    ensures rng.drawn == old(rng.drawn) + |sequence|
    ensures state.selected == old(state.selected) + Chosen(old(state.toSelect), sequence, Keep)
    ensures state.notSelected == old(state.notSelected) + Chosen(old(state.toSelect), sequence, Discard)
    ensures old(state.Partitions()) ==> state.Partitions()
    ensures score == scorer.score(state.selected) && scorer.log == old(scorer.log) + [state.selected]
  {
    ghost var selected, notSelected, toSelect := state.selected, state.notSelected, state.toSelect;
    sequence := PlayoutMoves(state, policy, rng, exp, env);
    score := scorer.Score(state);
    DecidingKeepsFeatures(selected, notSelected, toSelect, sequence);
  }

  /** One pass of the loop of `adapt` for the elite move `move`: the
      `+alpha` write through `polp`, `z` summed over both moves from `policy`,
      the two discount writes through `polp`, then `play`. `polp` and `policy`
      are one list, so `z` and the discounts read the weights the earlier
      writes left. The pass rewrites the two weights of the current position
      as `AdaptAt` says and moves the state one decision on. */
  method AdaptStep(polp: array<real>, policy: array<real>, state: SelectionState, move: Move, exp: Exp)
    requires polp == policy
    requires state.Valid() && !state.IsTerminal() && Code(Discard, state) < policy.Length
    modifies policy, state
    ensures policy[..] == AdaptAt(exp, old(policy[..]), old(state.Position()), move)
    ensures state.Valid() && state.Position() == old(state.Position()) + 1
  {
    ghost var w, k, d := policy[..], Code(Keep, state), Code(Discard, state);
    polp[Code(move, state)] := polp[Code(move, state)] + Alpha;
    ghost var bk, bd := policy[k], policy[d];
    assert (bk, bd) == if move == Keep then (w[k] + Alpha, w[d]) else (w[k], w[d] + Alpha);
    var z := 0.0;
    z := z + exp(policy[Code(Keep, state)]);
    z := z + exp(policy[Code(Discard, state)]);
    polp[Code(Keep, state)] := polp[Code(Keep, state)] - Alpha * exp(policy[Code(Keep, state)]) / z;
    polp[Code(Discard, state)] := polp[Code(Discard, state)] - Alpha * exp(policy[Code(Discard, state)]) / z;
    DiscountIs(exp, bk, bd, z, policy[k], policy[d]);
    PassIs(exp, w[k], w[d], move, bk, bd);
    assert policy[..] == w[k := policy[k]][d := policy[d]];
    Play(state, move);
  }

  /** `adapt(policy, sequence, feature_space_size, ...)`: walks a fresh root
      state along the elite sequence and makes one pass per move, so the
      policy ends as `Adapted` says. `polp` is `policy` itself, so every
      write lands in the caller's list. The root state needs a feature, a
      sequence longer than N fails in `remove`, and every slot it visits must
      exist. */
  method Adapt(policy: array<real>, sequence: seq<Move>, featureSpaceSize: nat, exp: Exp)
    requires 0 < featureSpaceSize && |sequence| <= featureSpaceSize && 2 * |sequence| <= policy.Length
    modifies policy
    ensures policy[..] == Adapted(exp, old(policy[..]), sequence)
  {
    ghost var w := policy[..];
    var polp := policy;
    var state := new SelectionState([], [], Iota(featureSpaceSize));
    ghost var done: seq<Move> := [];
    var i := 0;
    while i < |sequence|
      invariant 0 <= i <= |sequence| && done == sequence[..i]
      invariant state.Valid() && state.featureSpaceSize == featureSpaceSize && state.Position() == i
      invariant policy[..] == Adapted(exp, w, done)
    {
      var move := sequence[i];
      PrefixSnoc(sequence, i);
      AdaptedSnoc(exp, w, done, move);
      AdaptStep(polp, policy, state, move, exp);
      done := done + [move];
      i := i + 1;
    }
    Whole(sequence, i);
  }

  /** What the searches change, read off the shared policy list, the random
      source and the scorer. */
  ghost function WorldOf(policy: array<real>, rng: RandomSource, scorer: Scorer): World
    reads policy, rng, scorer
  {
    World(policy[..], rng.drawn, scorer.log)
  }

  /** The playout of a fresh root state: the rollout of the whole policy
      from position 0, scored once on its kept features. */
  method RootPlayout(featureSpaceSize: nat, policy: array<real>, scorer: Scorer, rng: RandomSource, exp: Exp, ghost env: Env)
    returns (score: real, sequence: seq<Move>)
    requires SoftmaxEnv(env, exp) && env.stream == rng.stream && env.score == scorer.score && env.n == featureSpaceSize
    requires 0 < featureSpaceSize && 2 * featureSpaceSize <= policy.Length
    modifies scorer, rng
    ensures var f := PlayoutOf(env, old(WorldOf(policy, rng, scorer)));
      score == f.score && sequence == f.moves && WorldOf(policy, rng, scorer) == f.world
  {
    ghost var w, cursor, log := policy[..], rng.drawn, scorer.log;
    var root := new SelectionState([], [], Iota(featureSpaceSize));
    assert root.Position() == 0;
    score, sequence := Playout(root, policy, scorer, rng, exp, env);
    PlayoutOfRoot(env, w, cursor, log, sequence, root.selected);
  }

  /** A playout from the root of the features `0..N-1`: the kept list is
      `Kept` of the moves. */
  lemma PlayoutOfRoot(env: Env, w: seq<real>, cursor: nat, log: seq<seq<int>>, moves: seq<Move>, selected: seq<int>)
    requires moves == Rollout(env.choose, w, env.stream, env.n, 0, cursor)
    requires selected == [] + Chosen(Iota(env.n), moves, Keep)
    ensures PlayoutOf(env, World(w, cursor, log)) ==
      Outcome(env.score(selected), moves, World(w, cursor + |moves|, log + [selected]))
  {
    assert [] + Chosen(Iota(env.n), moves, Keep) == Kept(moves);
  }

  /** `nrpa_feature_selector(level, iterations, ..., policy)`: builds a root
      state (which needs a feature; above level 0 it is never used); at
      level 0 plays it out; otherwise runs `iterations` rounds, each a
      search one level down followed by an adaptation of the shared policy.
      Returns what `Search` says, and leaves the policy, the random source
      and the scorer as `Search` says. A level above 0 with no iteration
      would return an unbound `seq`. */
  method NrpaFeatureSelector(level: nat, iterations: nat, featureSpaceSize: nat, policy: array<real>,
                             scorer: Scorer, rng: RandomSource, exp: Exp, ghost env: Env)
    returns (bestScore: real, sequence: seq<Move>)
    requires SoftmaxEnv(env, exp) && env.stream == rng.stream && env.score == scorer.score && env.n == featureSpaceSize
    requires 0 < featureSpaceSize && 2 * featureSpaceSize <= policy.Length
    requires Budgeted(Plain, level, iterations)
    modifies policy, scorer, rng
    ensures var f := Search.Search(env, Plain, level, iterations, old(WorldOf(policy, rng, scorer)));
      bestScore == f.score && sequence == f.moves && WorldOf(policy, rng, scorer) == f.world
    decreases level, 1
  {
    if level == 0 {
      bestScore, sequence := RootPlayout(featureSpaceSize, policy, scorer, rng, exp, env);
      return;
    }
    ghost var start := WorldOf(policy, rng, scorer);
    var best := NoElite;
    var i := 0;
    while i < iterations
      invariant i <= iterations
      invariant (i > 0 ==> best.Elite?) && (best.Elite? ==> |best.moves| == featureSpaceSize)
      invariant Loop(env, Plain, level, iterations, iterations - i, WorldOf(policy, rng, scorer), best) ==
                Search.Search(env, Plain, level, iterations, start)
    {
      ghost var before, held := WorldOf(policy, rng, scorer), best;
      best := NrpaRound(level, iterations, featureSpaceSize, policy, scorer, rng, exp, env, best);
      assert Loop(env, Plain, level, iterations, iterations - i, before, held) ==
             Loop(env, Plain, level, iterations, iterations - (i + 1), WorldOf(policy, rng, scorer), best);
      i := i + 1;
    }
    bestScore, sequence := best.score, best.moves;
  }

  /** One pass of the loop of `nrpa_feature_selector` holding `best`: the
      search one level down, `result >= best_score` (every score beats the
      `-inf` of `NoElite`), and `adapt` toward the best sequence so far. */
  method NrpaRound(level: nat, iterations: nat, featureSpaceSize: nat, policy: array<real>,
                   scorer: Scorer, rng: RandomSource, exp: Exp, ghost env: Env, best: Elite)
    returns (elite: Elite)
    requires SoftmaxEnv(env, exp) && env.stream == rng.stream && env.score == scorer.score && env.n == featureSpaceSize
    requires 0 < featureSpaceSize && 2 * featureSpaceSize <= policy.Length
    requires level >= 1 && Budgeted(Plain, level, iterations)
    requires best.Elite? ==> |best.moves| == featureSpaceSize
    modifies policy, scorer, rng
    ensures (elite, WorldOf(policy, rng, scorer)) == Round(env, Plain, level, iterations, old(WorldOf(policy, rng, scorer)), best)
    decreases level, 0
  {
    var result, moves := NrpaFeatureSelector(level - 1, iterations, featureSpaceSize, policy, scorer, rng, exp, env);
    elite := best;
    if AtLeast(result, best) {
      elite := Elite(result, moves);
    }
    Adapt(policy, elite.moves, featureSpaceSize, exp);
  }

  /** `snrpa_feature_selector(level, iterations, P, ..., policy)`: at level 0
      builds a root state (which needs a feature) and plays it out; at level
      1 runs `P` level-0 searches and keeps the best without adapting; above
      runs `iterations` rounds of a search one level down followed by an
      adaptation of the shared policy. Returns what `Search` says for
      `Stratified(P)`, and leaves the policy, the random source and the
      scorer as it says. A loop level that runs no round would return an
      unbound `seq`. */
  method SnrpaFeatureSelector(level: nat, iterations: nat, pool: nat, featureSpaceSize: nat, policy: array<real>,
                              scorer: Scorer, rng: RandomSource, exp: Exp, ghost env: Env)
    returns (bestScore: real, sequence: seq<Move>)
    requires SoftmaxEnv(env, exp) && env.stream == rng.stream && env.score == scorer.score && env.n == featureSpaceSize
    requires 0 < featureSpaceSize && 2 * featureSpaceSize <= policy.Length
    requires Budgeted(Stratified(pool), level, iterations)
    modifies policy, scorer, rng
    ensures var f := Search.Search(env, Stratified(pool), level, iterations, old(WorldOf(policy, rng, scorer)));
      bestScore == f.score && sequence == f.moves && WorldOf(policy, rng, scorer) == f.world
    decreases level, 1
  {
    var v := Stratified(pool);
    if level == 0 {
      bestScore, sequence := RootPlayout(featureSpaceSize, policy, scorer, rng, exp, env);
      return;
    }
    ghost var start := WorldOf(policy, rng, scorer);
    var best := NoElite;
    if level == 1 {
      var i := 0;
      while i < pool
        invariant i <= pool
        invariant (i > 0 ==> best.Elite?) && (best.Elite? ==> |best.moves| == featureSpaceSize)
        invariant Loop(env, v, level, iterations, pool - i, WorldOf(policy, rng, scorer), best) ==
                  Search.Search(env, v, level, iterations, start)
      {
        ghost var before, held := WorldOf(policy, rng, scorer), best;
        best := SnrpaRound(level, iterations, pool, featureSpaceSize, policy, scorer, rng, exp, env, best);
        assert Loop(env, v, level, iterations, pool - i, before, held) ==
               Loop(env, v, level, iterations, pool - (i + 1), WorldOf(policy, rng, scorer), best);
        i := i + 1;
      }
    } else {
      var i := 0;
      while i < iterations
        invariant i <= iterations
        invariant (i > 0 ==> best.Elite?) && (best.Elite? ==> |best.moves| == featureSpaceSize)
        invariant Loop(env, v, level, iterations, iterations - i, WorldOf(policy, rng, scorer), best) ==
                  Search.Search(env, v, level, iterations, start)
      {
        ghost var before, held := WorldOf(policy, rng, scorer), best;
        best := SnrpaRound(level, iterations, pool, featureSpaceSize, policy, scorer, rng, exp, env, best);
        assert Loop(env, v, level, iterations, iterations - i, before, held) ==
               Loop(env, v, level, iterations, iterations - (i + 1), WorldOf(policy, rng, scorer), best);
        i := i + 1;
      }
    }
    bestScore, sequence := best.score, best.moves;
  }

  /** One pass of a loop of `snrpa_feature_selector` holding `best`: the
      search one level down and `result >= best_score`, then, in the loop
      above level 1 only, `adapt` toward the best sequence so far. */
  method SnrpaRound(level: nat, iterations: nat, pool: nat, featureSpaceSize: nat, policy: array<real>,
                    scorer: Scorer, rng: RandomSource, exp: Exp, ghost env: Env, best: Elite)
    returns (elite: Elite)
    requires SoftmaxEnv(env, exp) && env.stream == rng.stream && env.score == scorer.score && env.n == featureSpaceSize
    requires 0 < featureSpaceSize && 2 * featureSpaceSize <= policy.Length
    requires level >= 1 && Budgeted(Stratified(pool), level, iterations)
    requires best.Elite? ==> |best.moves| == featureSpaceSize
    modifies policy, scorer, rng
    ensures (elite, WorldOf(policy, rng, scorer)) == Round(env, Stratified(pool), level, iterations, old(WorldOf(policy, rng, scorer)), best)
    decreases level, 0
  {
    var result, moves := SnrpaFeatureSelector(level - 1, iterations, pool, featureSpaceSize, policy, scorer, rng, exp, env);
    elite := best;
    if AtLeast(result, best) {
      elite := Elite(result, moves);
    }
    if level != 1 {
      Adapt(policy, elite.moves, featureSpaceSize, exp);
    }
  }
}
