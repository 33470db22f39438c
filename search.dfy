/** The nested searches as functions: one rollout, one level of NRPA or
    SNRPA, and what a whole search does to the shared policy, the random
    stream and the scorer. */
module Search {
  import opened Moves
  import opened Decisions
  import opened Adaptation

  /** What a search reads but never changes: how a move is drawn at a
      position of a policy from a uniform draw, how the policy is adapted
      toward an elite sequence, the stream of `random()` draws, the scorer of
      a selected-feature list, and the number N of features. The lemmas of
      this module hold for every chooser and every adapter; `Softmax` builds
      the ones of the source. */
  datatype Env = Env(
    choose: (seq<real>, nat, real) -> Move,
    adapt: (seq<real>, seq<Move>) -> seq<real>,
    stream: nat -> real,
    score: seq<int> -> real,
    n: nat)

  /** What a search changes: the shared policy list, how many draws it has
      taken from the stream, and every selected list handed to the scorer so
      far, in call order. */
  datatype World = World(policy: seq<real>, drawn: nat, log: seq<seq<int>>)

  /** `nrpa_feature_selector` (Plain), or `snrpa_feature_selector` with its
      pool size `P` (Stratified). */
  datatype Variant = Plain | Stratified(pool: nat)

  /** The pair `(best_score, seq)` a level keeps; `NoElite` is the start
      state, `best_score = -inf` with `seq` unbound. */
  datatype Elite = NoElite | Elite(score: real, moves: seq<Move>)

  /** What a call returns, `(score, sequence)`, with the world it leaves. */
  datatype Outcome = Outcome(score: real, moves: seq<Move>, world: World)

  /** `result >= best_score`: every score beats `-inf`, and a score equal to
      the best so far replaces it, so the last tie wins. */
  function AtLeast(s: real, best: Elite): (r: bool)
    ensures best.NoElite? ==> r
    ensures best.Elite? && s == best.score ==> r
  {
    best.NoElite? || s >= best.score
  }

  /** A loop level runs at least once, so that `seq` is bound when it
      returns: `iterations > 0` at every adapting level, `P > 0` at level 1
      of SNRPA. */
  function Budgeted(v: Variant, level: nat, iters: nat): (r: bool)
    ensures r && level > 0 ==> Width(v, level, iters) > 0
  {
    match v
    case Plain => level > 0 ==> iters > 0
    case Stratified(pool) => (level >= 1 ==> pool > 0) && (level >= 2 ==> iters > 0)
  }

  /** Level 1 of SNRPA pools `P` level-0 playouts and never adapts; every
      other loop level runs `iterations` children and adapts after each. */
  predicate Adapts(v: Variant, level: nat)
  {
    !(v.Stratified? && level == 1)
  }

  /** How many children a loop level runs. */
  function Width(v: Variant, level: nat, iters: nat): nat
  {
    if v.Stratified? && level == 1 then v.pool else iters
  }

  /** The moves `playout` draws under the policy `w` from position `p` to N,
      the `i`-th of them from the draw `stream(cursor + i)`; the policy does
      not change during a rollout. */
  function Rollout(choose: (seq<real>, nat, real) -> Move, w: seq<real>, stream: nat -> real, n: nat, p: nat, cursor: nat): (ms: seq<Move>)
    ensures |ms| == if p <= n then n - p else 0
    decreases n - p
  {
    if p >= n then []
    else [choose(w, p, stream(cursor))] + Rollout(choose, w, stream, n, p + 1, cursor + 1)
  }

  /** Decision `i` of a rollout is drawn at position `p + i` from the draw
      `stream(cursor + i)`. */
  lemma {:induction false} RolloutAt(choose: (seq<real>, nat, real) -> Move, w: seq<real>, stream: nat -> real, n: nat, p: nat, cursor: nat, i: nat)
    requires p + i < n
    ensures Rollout(choose, w, stream, n, p, cursor)[i] == choose(w, p + i, stream(cursor + i))
    decreases i
  {
    if i > 0 {
      RolloutAt(choose, w, stream, n, p + 1, cursor + 1, i - 1);
    }
  }

  /** The first `|done| + 1` moves of a rollout are its first `|done|` moves
      and the draw at position `q = p + |done|` from `stream(c)`,
      `c = cursor + |done|`. */
  lemma RolloutPrefixStep(choose: (seq<real>, nat, real) -> Move, w: seq<real>, stream: nat -> real, n: nat, p: nat, cursor: nat, done: seq<Move>, q: nat, c: nat, m: Move)
    requires q == p + |done| && c == cursor + |done| && q < n
    requires done == Rollout(choose, w, stream, n, p, cursor)[..|done|]
    requires m == choose(w, q, stream(c))
    ensures done + [m] == Rollout(choose, w, stream, n, p, cursor)[..|done| + 1]
  {
    var ms := Rollout(choose, w, stream, n, p, cursor);
    RolloutAt(choose, w, stream, n, p, cursor, |done|);
    assert ms[..|done| + 1] == ms[..|done|] + [ms[|done|]];
  }

  /** A list of moves whose `i`-th move is drawn at position `p + i` from the
      draw `stream(cursor + i)`, one for each position from `p` to N, is the
      rollout from `p`. */
  lemma RolloutOfDraws(choose: (seq<real>, nat, real) -> Move, w: seq<real>, stream: nat -> real, n: nat, p: nat, cursor: nat, ms: seq<Move>)
    requires p <= n && |ms| == n - p
    requires forall i :: 0 <= i < |ms| ==> ms[i] == choose(w, p + i, stream(cursor + i))
    ensures ms == Rollout(choose, w, stream, n, p, cursor)
  {
    forall i | 0 <= i < |ms|
      ensures ms[i] == Rollout(choose, w, stream, n, p, cursor)[i]
    {
      RolloutAt(choose, w, stream, n, p, cursor, i);
    }
  }

  /** `playout(root, policy, ...)`: a full rollout from position 0, then one
      call of the scorer on the kept features. */
  function PlayoutOf(env: Env, world: World): (f: Outcome)
    ensures |f.moves| == env.n
  {
    var moves := Rollout(env.choose, world.policy, env.stream, env.n, 0, world.drawn);
    var kept := Kept(moves);
    Outcome(env.score(kept), moves, World(world.policy, world.drawn + env.n, world.log + [kept]))
  }

  /** One call of `nrpa_feature_selector` / `snrpa_feature_selector` at
      `level`. */
  function Search(env: Env, v: Variant, level: nat, iters: nat, world: World): (f: Outcome)
    requires Budgeted(v, level, iters)
    ensures |f.moves| == env.n
    decreases level, 1
  {
    if level == 0 then PlayoutOf(env, world)
    else Loop(env, v, level, iters, Width(v, level, iters), world, NoElite)
  }

  /** The last `k` rounds of a loop level that holds `best` so far: run a
      child one level down, keep it if it scores at least the best, and (at
      an adapting level) adapt the policy the child left toward the best. */
  function Loop(env: Env, v: Variant, level: nat, iters: nat, k: nat, world: World, best: Elite): (f: Outcome)
    requires level >= 1 && Budgeted(v, level, iters)
    requires best.Elite? ==> |best.moves| == env.n
    requires k > 0 || best.Elite?
    ensures |f.moves| == env.n
    decreases level, 0, k
  {
    if k == 0 then Outcome(best.score, best.moves, world)
    else
      var (elite, next) := Round(env, v, level, iters, world, best);
      Loop(env, v, level, iters, k - 1, next, elite)
  }

  /** One round of a loop level holding `best`: run a child one level down,
      keep it if it scores at least the best (`>=`, so the last tie wins),
      and at an adapting level adapt the policy the child left toward the
      best so far. Returns the new best and the world after the round. */
  function Round(env: Env, v: Variant, level: nat, iters: nat, world: World, best: Elite): (r: (Elite, World))
    requires level >= 1 && Budgeted(v, level, iters)
    requires best.Elite? ==> |best.moves| == env.n
    ensures r.0.Elite? && |r.0.moves| == env.n
    decreases level, 0, 0
  {
    var child := Search(env, v, level - 1, iters, world);
    var elite := if AtLeast(child.score, best) then Elite(child.score, child.moves) else best;
    var next := if Adapts(v, level) then child.world.(policy := env.adapt(child.world.policy, elite.moves))
                else child.world;
    (elite, next)
  }

  /** A completed playout returns N decisions, scores once, and records
      exactly the ascending list of the positions it decided Keep. */
  lemma PlayoutConsistent(env: Env, world: World, i: int)
    ensures var f := PlayoutOf(env, world);
      f.world.log == world.log + [Kept(f.moves)] && f.score == env.score(Kept(f.moves)) &&
      (i in Kept(f.moves) <==> 0 <= i < env.n && f.moves[i] == Keep) &&
      (forall a, b :: 0 <= a < b < |Kept(f.moves)| ==> Kept(f.moves)[a] < Kept(f.moves)[b])
  {
    var f := PlayoutOf(env, world);
    KeptMembers(f.moves, i);
    KeptAscending(f.moves);
  }

  /** `b^e`. */
  function Pow(b: nat, e: nat): nat
  {
    if e == 0 then 1 else b * Pow(b, e - 1)
  }

  /** The number of playouts (scorer calls) of a call at `level`:
      `iterations^L` for NRPA, `iterations^(L-1) * P` for SNRPA at L >= 1, and
      one at level 0 whatever the budget. */
  function Playouts(v: Variant, level: nat, iters: nat): nat
  {
    match v
    case Plain => Pow(iters, level)
    case Stratified(pool) => if level == 0 then 1 else Pow(iters, level - 1) * pool
  }

  /** A loop level runs `Width` children of one level down. */
  lemma WidthTimesChildren(v: Variant, level: nat, iters: nat)
    requires level >= 1
    ensures Width(v, level, iters) * Playouts(v, level - 1, iters) == Playouts(v, level, iters)
  {
    if v.Stratified? && level >= 2 {
      var c := Pow(iters, level - 2);
      assert iters * (c * v.pool) == (iters * c) * v.pool;
    }
  }

  /** `k` rounds are one round and `k - 1` more. */
  lemma Rounds(n: nat, k: nat, one: nat)
    requires k > 0
    ensures k * one == one + (k - 1) * one
    ensures n * (k * one) == n * one + n * ((k - 1) * one)
  {
    assert k * one == one + (k - 1) * one;
  }

  /** The scorer log and the draw cursor of a search: the log only grows, by
      one entry per playout, and every playout takes exactly N draws. */
  lemma {:induction false} SearchLedger(env: Env, v: Variant, level: nat, iters: nat, world: World)
    requires Budgeted(v, level, iters)
    ensures var f := Search(env, v, level, iters, world);
      |f.world.log| == |world.log| + Playouts(v, level, iters) && f.world.log[..|world.log|] == world.log &&
      f.world.drawn == world.drawn + env.n * Playouts(v, level, iters)
    decreases level, 1
  {
    if level > 0 {
      LoopLedger(env, v, level, iters, Width(v, level, iters), world, NoElite);
      WidthTimesChildren(v, level, iters);
    }
  }

  /** The same for the last `k` rounds of a loop level. */
  lemma {:induction false} LoopLedger(env: Env, v: Variant, level: nat, iters: nat, k: nat, world: World, best: Elite)
    requires level >= 1 && Budgeted(v, level, iters)
    requires best.Elite? ==> |best.moves| == env.n
    requires k > 0 || best.Elite?
    ensures var f := Loop(env, v, level, iters, k, world, best);
      var c := k * Playouts(v, level - 1, iters);
      |f.world.log| == |world.log| + c && f.world.log[..|world.log|] == world.log &&
      f.world.drawn == world.drawn + env.n * c
    decreases level, 0, k
  {
    if k > 0 {
      var child := Search(env, v, level - 1, iters, world);
      var (elite, next) := Round(env, v, level, iters, world, best);
      SearchLedger(env, v, level - 1, iters, world);
      LoopLedger(env, v, level, iters, k - 1, next, elite);
      var f := Loop(env, v, level, iters, k - 1, next, elite);
      var one := Playouts(v, level - 1, iters);
      assert f.world.log[..|world.log|] == next.log[..|next.log|][..|world.log|];
      Rounds(env.n, k, one);
    }
  }

  /** `s` is the largest score in `log`, `kept` reaches it, and every entry
      after the last one that is `kept` and reaches it scores strictly less:
      `(s, kept)` is what a `>=` scan from `-inf` over `log` ends with. */
  ghost predicate LastBest(score: seq<int> -> real, log: seq<seq<int>>, s: real, kept: seq<int>)
  {
    (forall j :: 0 <= j < |log| ==> score(log[j]) <= s) &&
    exists j :: 0 <= j < |log| && log[j] == kept && score(kept) == s &&
      forall i :: j < i < |log| ==> score(log[i]) < s
  }

  /** A later segment whose best reaches at least the earlier best takes over. */
  lemma LastBestThenHigher(score: seq<int> -> real, prev: seq<seq<int>>, b: real, kb: seq<int>,
                           seg: seq<seq<int>>, c: real, kc: seq<int>)
    requires LastBest(score, prev, b, kb) && LastBest(score, seg, c, kc) && c >= b
    ensures LastBest(score, prev + seg, c, kc)
  {
    var log := prev + seg;
    var j :| 0 <= j < |seg| && seg[j] == kc && score(kc) == c && forall i :: j < i < |seg| ==> score(seg[i]) < c;
    assert log[|prev| + j] == kc;
    forall i | 0 <= i < |log|
      ensures score(log[i]) <= c
    {
      if i >= |prev| {
        assert log[i] == seg[i - |prev|];
      }
    }
    forall i | |prev| + j < i < |log|
      ensures score(log[i]) < c
    {
      assert log[i] == seg[i - |prev|];
    }
  }

  /** A later segment whose best stays below the earlier best changes nothing. */
  lemma LastBestThenLower(score: seq<int> -> real, prev: seq<seq<int>>, b: real, kb: seq<int>,
                          seg: seq<seq<int>>, c: real, kc: seq<int>)
    requires LastBest(score, prev, b, kb) && LastBest(score, seg, c, kc) && c < b
    ensures LastBest(score, prev + seg, b, kb)
  {
    var log := prev + seg;
    var j :| 0 <= j < |prev| && prev[j] == kb && score(kb) == b && forall i :: j < i < |prev| ==> score(prev[i]) < b;
    assert log[j] == kb;
    forall i | 0 <= i < |log|
      ensures score(log[i]) <= b
    {
      if i >= |prev| {
        assert log[i] == seg[i - |prev|];
      }
    }
    forall i | j < i < |log|
      ensures score(log[i]) < b
    {
      if i >= |prev| {
        assert log[i] == seg[i - |prev|];
      }
    }
  }

  /** What a loop level holding `best` has seen in `log`, the scorer calls
      since it started: nothing while it holds no elite, otherwise `log`
      ends its best as a `>=` scan does. */
  ghost predicate Holds(score: seq<int> -> real, log: seq<seq<int>>, best: Elite)
  {
    if best.NoElite? then log == [] else LastBest(score, log, best.score, Kept(best.moves))
  }

  /** Keeping a child whose playouts `seg` end at its best `c` when it scores
      at least the best so far, and the best so far otherwise. */
  lemma HoldsStep(score: seq<int> -> real, prev: seq<seq<int>>, best: Elite, seg: seq<seq<int>>, c: real, moves: seq<Move>)
    requires Holds(score, prev, best) && LastBest(score, seg, c, Kept(moves))
    ensures Holds(score, prev + seg, if AtLeast(c, best) then Elite(c, moves) else best)
  {
    if best.NoElite? {
      assert prev + seg == seg;
    } else if AtLeast(c, best) {
      LastBestThenHigher(score, prev, best.score, Kept(best.moves), seg, c, Kept(moves));
    } else {
      LastBestThenLower(score, prev, best.score, Kept(best.moves), seg, c, Kept(moves));
    }
  }

  /** Best-of selection: what a call returns is the best score among the
      playouts it ran, and the sequence of the last playout reaching it. */
  lemma {:induction false} SearchBest(env: Env, v: Variant, level: nat, iters: nat, world: World)
    requires Budgeted(v, level, iters)
    ensures var f := Search(env, v, level, iters, world);
      |world.log| <= |f.world.log| &&
      LastBest(env.score, f.world.log[|world.log|..], f.score, Kept(f.moves))
    decreases level, 1
  {
    SearchLedger(env, v, level, iters, world);
    var f := Search(env, v, level, iters, world);
    if level == 0 {
      var seg := f.world.log[|world.log|..];
      assert seg == [Kept(f.moves)];
      assert seg[0] == Kept(f.moves) && env.score(Kept(f.moves)) == f.score;
    } else {
      assert world.log[|world.log|..] == [];
      LoopBest(env, v, level, iters, Width(v, level, iters), world, NoElite, |world.log|);
    }
  }

  /** One round of a loop level keeps what it holds: the log since `start`
      grows by the child's playouts and the new best is their `>=` scan. */
  lemma {:induction false} RoundBest(env: Env, v: Variant, level: nat, iters: nat, world: World, best: Elite, start: nat)
    requires level >= 1 && Budgeted(v, level, iters)
    requires best.Elite? ==> |best.moves| == env.n
    requires start <= |world.log| && Holds(env.score, world.log[start..], best)
    ensures var r := Round(env, v, level, iters, world, best);
      start <= |r.1.log| && Holds(env.score, r.1.log[start..], r.0)
    decreases level, 0, 0
  {
    var child := Search(env, v, level - 1, iters, world);
    var r := Round(env, v, level, iters, world, best);
    assert r.0 == (if AtLeast(child.score, best) then Elite(child.score, child.moves) else best);
    assert r.1.log == child.world.log;
    SearchBest(env, v, level - 1, iters, world);
    SearchLedger(env, v, level - 1, iters, world);
    LogSince(world.log, child.world.log, start);
    HoldsStep(env.score, world.log[start..], best, child.world.log[|world.log|..], child.score, child.moves);
  }

  /** What a log holds since `start`, after it grew past `|before|`: what it
      held since `start` before, then the new entries. */
  lemma LogSince(before: seq<seq<int>>, after: seq<seq<int>>, start: nat)
    requires start <= |before| <= |after| && after[..|before|] == before
    ensures after[start..] == before[start..] + after[|before|..]
  {
    assert after == before + after[|before|..];
  }

  /** The same for the last `k` rounds of a loop level whose best so far is
      the last best of the log since `start`. */
  lemma {:induction false} LoopBest(env: Env, v: Variant, level: nat, iters: nat, k: nat, world: World, best: Elite, start: nat)
    requires level >= 1 && Budgeted(v, level, iters)
    requires best.Elite? ==> |best.moves| == env.n
    requires k > 0 || best.Elite?
    requires start <= |world.log| && Holds(env.score, world.log[start..], best)
    ensures var f := Loop(env, v, level, iters, k, world, best);
      start <= |f.world.log| && LastBest(env.score, f.world.log[start..], f.score, Kept(f.moves))
    decreases level, 0, k
  {
    var f := Loop(env, v, level, iters, k, world, best);
    if k == 0 {
      assert f == Outcome(best.score, best.moves, world);
    } else {
      var (elite, next) := Round(env, v, level, iters, world, best);
      RoundBest(env, v, level, iters, world, best, start);
      LoopBest(env, v, level, iters, k - 1, next, elite, start);
      assert f == Loop(env, v, level, iters, k - 1, next, elite);
    }
  }

  /** The policy after adapting `w` toward each sequence of `es` in turn. */
  function Fold(adapt: (seq<real>, seq<Move>) -> seq<real>, w: seq<real>, es: seq<seq<Move>>): seq<real>
  {
    if es == [] then w else adapt(Fold(adapt, w, es[..|es| - 1]), es[|es| - 1])
  }

  /** Adapting toward `a` and then toward `b` is adapting toward `a + b`. */
  lemma {:induction false} FoldAppend(adapt: (seq<real>, seq<Move>) -> seq<real>, w: seq<real>, a: seq<seq<Move>>, b: seq<seq<Move>>)
    ensures Fold(adapt, w, a + b) == Fold(adapt, Fold(adapt, w, a), b)
  {
    if b == [] {
      assert a + b == a;
    } else {
      var last := |b| - 1;
      assert (a + b)[..|a + b| - 1] == a + b[..last];
      FoldAppend(adapt, w, a, b[..last]);
    }
  }

  /** `k * r`, counted round by round. */
  function Times(k: nat, r: nat): nat
  {
    if k == 0 then 0 else r + Times(k - 1, r)
  }

  /** `Times` is multiplication. */
  lemma {:induction false} TimesIsProduct(k: nat, r: nat)
    ensures Times(k, r) == k * r
  {
    if k > 0 {
      TimesIsProduct(k - 1, r);
      Rounds(1, k, r);
    }
  }

  /** `to` is `from` adapted toward `count` sequences of N moves each, in
      turn. */
  ghost predicate Trace(adapt: (seq<real>, seq<Move>) -> seq<real>, from: seq<real>, to: seq<real>, count: nat, n: nat)
  {
    exists es: seq<seq<Move>> :: |es| == count && (forall e | e in es :: |e| == n) && to == Fold(adapt, from, es)
  }

  /** No adaptation leaves the policy as it is. */
  lemma TraceNone(adapt: (seq<real>, seq<Move>) -> seq<real>, w: seq<real>, n: nat)
    ensures Trace(adapt, w, w, 0, n)
  {
    assert w == Fold(adapt, w, []);
  }

  /** One adaptation toward an N-move sequence. */
  lemma TraceOne(adapt: (seq<real>, seq<Move>) -> seq<real>, w: seq<real>, e: seq<Move>, n: nat)
    requires |e| == n
    ensures Trace(adapt, w, adapt(w, e), 1, n)
  {
    var es := [e];
    assert es[..0] == [];
    assert adapt(w, e) == Fold(adapt, w, es);
  }

  /** Two runs of adaptations, one after the other, are one run. */
  lemma TraceChain(adapt: (seq<real>, seq<Move>) -> seq<real>, a: seq<real>, b: seq<real>, c: seq<real>, x: nat, y: nat, n: nat)
    requires Trace(adapt, a, b, x, n) && Trace(adapt, b, c, y, n)
    ensures Trace(adapt, a, c, x + y, n)
  {
    var first: seq<seq<Move>> :| |first| == x && (forall e | e in first :: |e| == n) && b == Fold(adapt, a, first);
    var second: seq<seq<Move>> :| |second| == y && (forall e | e in second :: |e| == n) && c == Fold(adapt, b, second);
    FoldAppend(adapt, a, first, second);
    var es := first + second;
    assert forall e | e in es :: |e| == n;
  }

  /** How many times a call at `level` adapts the shared policy: each round
      of a loop level adapts once if the level adapts, after the adaptations
      of its child. */
  function Adaptations(v: Variant, level: nat, iters: nat): nat
    decreases level, 1
  {
    if level == 0 then 0
    else Times(Width(v, level, iters), RoundAdaptations(v, level, iters))
  }

  /** How many times one round of a loop level adapts the shared policy. */
  function RoundAdaptations(v: Variant, level: nat, iters: nat): nat
    requires level >= 1
    decreases level, 0
  {
    (if Adapts(v, level) then 1 else 0) + Adaptations(v, level - 1, iters)
  }

  /** The only writes to the shared policy are adaptations toward N-move
      sequences, `Adaptations` of them, in call order. */
  lemma {:induction false} SearchPolicy(env: Env, v: Variant, level: nat, iters: nat, world: World)
    requires Budgeted(v, level, iters)
    ensures Trace(env.adapt, world.policy, Search(env, v, level, iters, world).world.policy, Adaptations(v, level, iters), env.n)
    decreases level, 1
  {
    if level == 0 {
      TraceNone(env.adapt, world.policy, env.n);
    } else {
      LoopPolicy(env, v, level, iters, Width(v, level, iters), world, NoElite);
    }
  }

  /** One round writes the policy only by the adaptations of its child and,
      at an adapting level, one more toward the new best. */
  lemma {:induction false} RoundPolicy(env: Env, v: Variant, level: nat, iters: nat, world: World, best: Elite)
    requires level >= 1 && Budgeted(v, level, iters)
    requires best.Elite? ==> |best.moves| == env.n
    ensures Trace(env.adapt, world.policy, Round(env, v, level, iters, world, best).1.policy, RoundAdaptations(v, level, iters), env.n)
    decreases level, 0, 0
  {
    var child := Search(env, v, level - 1, iters, world);
    var (elite, next) := Round(env, v, level, iters, world, best);
    SearchPolicy(env, v, level - 1, iters, world);
    if Adapts(v, level) {
      TraceOne(env.adapt, child.world.policy, elite.moves, env.n);
      TraceChain(env.adapt, world.policy, child.world.policy, next.policy, Adaptations(v, level - 1, iters), 1, env.n);
    }
  }

  /** The same for the last `k` rounds of a loop level. */
  lemma {:induction false} LoopPolicy(env: Env, v: Variant, level: nat, iters: nat, k: nat, world: World, best: Elite)
    requires level >= 1 && Budgeted(v, level, iters)
    requires best.Elite? ==> |best.moves| == env.n
    requires k > 0 || best.Elite?
    ensures Trace(env.adapt, world.policy, Loop(env, v, level, iters, k, world, best).world.policy,
                  Times(k, RoundAdaptations(v, level, iters)), env.n)
    decreases level, 0, k
  {
    if k == 0 {
      TraceNone(env.adapt, world.policy, env.n);
    } else {
      var (elite, next) := Round(env, v, level, iters, world, best);
      RoundPolicy(env, v, level, iters, world, best);
      LoopPolicy(env, v, level, iters, k - 1, next, elite);
      TraceChain(env.adapt, world.policy, next.policy, Loop(env, v, level, iters, k - 1, next, elite).world.policy,
                 RoundAdaptations(v, level, iters), Times(k - 1, RoundAdaptations(v, level, iters)), env.n);
    }
  }

  /** `playout` and level 1 of SNRPA never write the policy. */
  lemma PoolingKeepsPolicy(env: Env, v: Variant, level: nat, iters: nat, world: World)
    requires Budgeted(v, level, iters)
    requires level == 0 || (v.Stratified? && level == 1)
    ensures Search(env, v, level, iters, world).world.policy == world.policy
  {
    SearchPolicy(env, v, level, iters, world);
    if level == 1 {
      TimesIsProduct(Width(v, level, iters), RoundAdaptations(v, level, iters));
    }
    var es: seq<seq<Move>> :| |es| == 0 &&
      Search(env, v, level, iters, world).world.policy == Fold(env.adapt, world.policy, es);
    assert es == [];
  }

  /** `choose_a_move` on a policy: the softmax draw at every position the
      policy has slots for. No position past them is ever drawn; `Discard`
      stands in there. */
  function SoftmaxChoose(exp: Exp): (seq<real>, nat, real) -> Move
  {
    (w: seq<real>, p: nat, u: real) => if PolicyIndex(p, Discard) < |w| then Sample(exp, w, p, u) else Discard
  }

  /** `adapt` on a policy: `Adapted` whenever the policy has slots for the
      whole sequence, which every call of the source guarantees; the
      unchanged policy stands in otherwise. */
  function SoftmaxAdapt(exp: Exp): (seq<real>, seq<Move>) -> seq<real>
  {
    (w: seq<real>, s: seq<Move>) => if 2 * |s| <= |w| then Adapted(exp, w, s) else w
  }

  /** The environment of the source, with `math.exp` as `exp`. */
  function Softmax(exp: Exp, stream: nat -> real, score: seq<int> -> real, n: nat): Env
  {
    Env(SoftmaxChoose(exp), SoftmaxAdapt(exp), stream, score, n)
  }

  /** `env` draws and adapts as the source does with `math.exp` as `exp`:
      its chooser is the softmax draw and its adapter is `adapt` wherever the
      policy has the slots they read. */
  ghost predicate SoftmaxEnv(env: Env, exp: Exp)
  {
    (forall w, p, u {:trigger Sample(exp, w, p, u)} ::
       PolicyIndex(p, Discard) < |w| ==> env.choose(w, p, u) == Sample(exp, w, p, u)) &&
    (forall w, s {:trigger Adapted(exp, w, s)} ::
       2 * |s| <= |w| ==> env.adapt(w, s) == Adapted(exp, w, s))
  }

  /** The environment of the source is such an environment. */
  lemma SoftmaxIsSoftmaxEnv(exp: Exp, stream: nat -> real, score: seq<int> -> real, n: nat)
    ensures SoftmaxEnv(Softmax(exp, stream, score, n), exp)
  {
  }
}
