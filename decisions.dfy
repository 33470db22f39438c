/** The decision state of one rollout: which features have been kept, which
    discarded, and which are still to be decided, lowest index first. */
module Decisions {
  import opened Moves

  /** `list(range(n))`. */
  function Iota(n: nat): seq<int>
  {
    seq(n, i => i)
  }

  /** `features[i]` for every `i` with `moves[i] == m`, in order: the features a
      run of decisions appends to the kept (m = Keep) or discarded
      (m = Discard) list. */
  function Chosen(features: seq<int>, moves: seq<Move>, m: Move): seq<int>
    requires |features| == |moves|
  {
    if moves == [] then []
    else
      var last := |moves| - 1;
      Chosen(features[..last], moves[..last], m) + (if moves[last] == m then [features[last]] else [])
  }

  /** One more decision appends its feature to the list of its move. */
  lemma ChosenSnoc(features: seq<int>, moves: seq<Move>, f: int, move: Move, m: Move)
    requires |features| == |moves|
    ensures Chosen(features + [f], moves + [move], m) == Chosen(features, moves, m) + (if move == m then [f] else [])
  {
    assert (features + [f])[..|features|] == features;
    assert (moves + [move])[..|moves|] == moves;
  }

  /** The kept and the discarded features of a run of decisions together are
      the features decided, each once. */
  lemma {:induction false} ChosenSplit(features: seq<int>, moves: seq<Move>)
    requires |features| == |moves|
    ensures multiset(Chosen(features, moves, Keep)) + multiset(Chosen(features, moves, Discard)) == multiset(features)
  {
    if moves != [] {
      var last := |moves| - 1;
      var f, x := features[..last], features[last];
      ChosenSplit(f, moves[..last]);
      assert features == f + [x];
      var k, d := Chosen(f, moves[..last], Keep), Chosen(f, moves[..last], Discard);
      if moves[last] == Keep {
        assert Chosen(features, moves, Keep) == k + [x] && Chosen(features, moves, Discard) == d;
      } else {
        assert Chosen(features, moves, Keep) == k && Chosen(features, moves, Discard) == d + [x];
      }
    }
  }

  /** Deciding every undecided feature keeps the features the three lists
      hold together. */
  lemma DecidingKeepsFeatures(selected: seq<int>, notSelected: seq<int>, toSelect: seq<int>, moves: seq<Move>)
    requires |toSelect| == |moves|
    ensures multiset(selected + notSelected + toSelect) ==
      multiset((selected + Chosen(toSelect, moves, Keep)) + (notSelected + Chosen(toSelect, moves, Discard)) + [])
  {
    ChosenSplit(toSelect, moves);
  }

  /** The kept feature indices of a decision sequence over `0..|moves|-1`. */
  function Kept(moves: seq<Move>): seq<int>
  {
    Chosen(Iota(|moves|), moves, Keep)
  }

  /** One more decision appends its index to the kept list exactly when it is a Keep. */
  lemma KeptSnoc(moves: seq<Move>, m: Move)
    ensures Kept(moves + [m]) == Kept(moves) + (if m == Keep then [|moves|] else [])
  {
    var ms := moves + [m];
    assert ms[..|moves|] == moves;
    assert Iota(|ms|)[..|moves|] == Iota(|moves|);
  }

  /** The kept list holds exactly the positions decided Keep ... */
  lemma {:induction false} KeptMembers(moves: seq<Move>, i: int)
    ensures i in Kept(moves) <==> 0 <= i < |moves| && moves[i] == Keep
  {
    if moves != [] {
      var last := |moves| - 1;
      KeptSnoc(moves[..last], moves[last]);
      assert moves[..last] + [moves[last]] == moves;
      KeptMembers(moves[..last], i);
    }
  }

  /** ... in strictly ascending order. */
  lemma {:induction false} KeptAscending(moves: seq<Move>)
    ensures forall a, b :: 0 <= a < b < |Kept(moves)| ==> Kept(moves)[a] < Kept(moves)[b]
  {
    if moves != [] {
      var last := |moves| - 1;
      var prefix := moves[..last];
      KeptSnoc(prefix, moves[last]);
      assert prefix + [moves[last]] == moves;
      KeptAscending(prefix);
      forall a | 0 <= a < |Kept(prefix)|
        ensures Kept(prefix)[a] < last
      {
        KeptMembers(prefix, Kept(prefix)[a]);
      }
    }
  }

  /** Two decision sequences over the same features with the same kept list
      are the same sequence: the kept list identifies the sequence. */
  lemma KeptInjective(a: seq<Move>, b: seq<Move>)
    requires |a| == |b| && Kept(a) == Kept(b)
    ensures a == b
  {
    forall i | 0 <= i < |a|
      ensures a[i] == b[i]
    {
      KeptMembers(a, i);
      KeptMembers(b, i);
    }
  }

  /** Every index of `0..n-1` occurs once in `Iota(n)`, and nothing else occurs. */
  lemma {:induction false} IotaCount(n: nat, x: int)
    ensures multiset(Iota(n))[x] == if 0 <= x < n then 1 else 0
  {
    if n > 0 {
      assert Iota(n) == Iota(n - 1) + [n - 1];
      IotaCount(n - 1, x);
    }
  }

  /** Three lists whose joint multiset is that of `0..n-1` are pairwise
      disjoint, cover `0..n-1` and have total length n. */
  lemma PartitionMeans(a: seq<int>, b: seq<int>, c: seq<int>, n: nat)
    requires multiset(a + b + c) == multiset(Iota(n))
    ensures |a| + |b| + |c| == n
    ensures forall x :: x in a + b + c <==> 0 <= x < n
    ensures forall x :: x in a ==> x !in b && x !in c
    ensures forall x :: x in b ==> x !in c
  {
    assert |multiset(a + b + c)| == |a| + |b| + |c|;
    forall x
      ensures x in a + b + c <==> 0 <= x < n
    {
      IotaCount(n, x);
      assert x in a + b + c <==> x in multiset(a + b + c);
    }
    forall x | x in a || x in b
      ensures multiset(a + b + c)[x] >= (if x in a then 1 else 0) + (if x in b then 1 else 0) + (if x in c then 1 else 0)
    {
      assert multiset(a + b + c) == multiset(a) + multiset(b) + multiset(c);
    }
    forall x | x in a || x in b
      ensures multiset(a + b + c)[x] <= 1
    {
      IotaCount(n, x);
    }
  }

  /** Python's `list.remove(x)`: drops the first occurrence of `x`; a missing
      `x` raises `ValueError`. */
  function RemoveFirst(s: seq<int>, x: int): (r: seq<int>)
    requires x in s
    ensures |r| == |s| - 1
    ensures multiset(r) == multiset(s) - multiset{x}
    ensures s[0] == x ==> r == s[1..]
  {
    assert s == [s[0]] + s[1..];
    if s[0] == x then s[1..]
    else [s[0]] + RemoveFirst(s[1..], x)
  }

  /** Moving the first undecided feature to the kept or the discarded list
      keeps the features the three lists hold together. */
  lemma PickKeepsFeatures(selected: seq<int>, notSelected: seq<int>, toSelect: seq<int>, m: Move)
    requires toSelect != []
    ensures var x := [toSelect[0]];
      multiset(selected + notSelected + toSelect) ==
      multiset((if m == Keep then selected + x else selected) + (if m == Keep then notSelected else notSelected + x) + toSelect[1..])
  {
    assert toSelect == [toSelect[0]] + toSelect[1..];
  }

  /** `SelectionState`: the feature lists of one rollout. The dataframes the
      source also stores here are only handed on to the scorer, which this
      model abstracts, so they are not fields. */
  class SelectionState {
    var selected: seq<int>
    var notSelected: seq<int>
    var toSelect: seq<int>
    var next: int
    const featureSpaceSize: nat

    /** What every state keeps: the three lists account for all N features and
        `next` is the lowest undecided one while any is left. */
    ghost predicate Valid()
      reads this
    {
      |selected| + |notSelected| + |toSelect| == featureSpaceSize &&
      (toSelect != [] ==> next == toSelect[0])
    }

    /** The three lists hold every feature of `0..N-1` exactly once. */
    ghost predicate Partitions()
      reads this
    {
      multiset(selected + notSelected + toSelect) == multiset(Iota(featureSpaceSize))
    }

    /** `SelectionState(selected, not_selected, to_select, ...)`: reading
        `to_select_features[0]` fails on an empty list. */
    constructor (selected: seq<int>, notSelected: seq<int>, toSelect: seq<int>)
      requires toSelect != []
      ensures Valid()
      ensures this.selected == selected && this.notSelected == notSelected && this.toSelect == toSelect
      ensures featureSpaceSize == |selected| + |notSelected| + |toSelect|
    {
      this.selected := selected;
      this.notSelected := notSelected;
      this.toSelect := toSelect;
      this.next := toSelect[0];
      this.featureSpaceSize := |toSelect + notSelected + selected|;
    }

    /** Number of decisions made: `feature_space_size - len(to_select_features)`. */
    function Position(): (p: nat)
      reads this
      requires Valid()
      ensures p == |selected| + |notSelected| && p <= featureSpaceSize
    {
      featureSpaceSize - |toSelect|
    }

    /** `isTerminal`: no feature is left to decide. */
    function IsTerminal(): (r: bool)
      reads this
      ensures Valid() ==> (r <==> Position() == featureSpaceSize)
    {
      |toSelect| == 0
    }

    /** `pick_feature`: the lowest undecided feature goes to the kept list on
        Keep, to the discarded list otherwise, and leaves the undecided list.
        On a terminal state the source fails in `remove`. */
    method PickFeature(move: Move)
      requires Valid() && !IsTerminal()
      modifies this
      ensures Valid() && Position() == old(Position()) + 1
      ensures selected == old(selected) + (if move == Keep then [old(toSelect[0])] else [])
      ensures notSelected == old(notSelected) + (if move == Keep then [] else [old(toSelect[0])])
      ensures toSelect == old(toSelect[1..])
      ensures old(Partitions()) ==> Partitions()
    {
      PickKeepsFeatures(selected, notSelected, toSelect, move);
      if move == Keep {
        selected := selected + [next];
      } else {
        notSelected := notSelected + [next];
      }
      toSelect := RemoveFirst(toSelect, next);
      if |toSelect| > 0 {
        next := toSelect[0];
      }
    }
  }
}
