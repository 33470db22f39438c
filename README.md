# NRPA feature-subset search, modelled in Dafny

This project models the feature-subset search of
`automl_iasd/feature_engineering/selection.py` and proves what it does.
The search is Nested Rollout Policy Adaptation (NRPA) and a stratified, pooled
variant (SNRPA). It decides, for the features `0..N-1` in ascending order,
whether to Keep or Discard each one. Each decision is drawn from the softmax
of two weights of a policy list of `2N` reals, and the policy is adapted in
place toward the best decision sequence found so far.

Layout, one module per file:

- `moves.dfy` (`Moves`): the two moves, the slot `2p` / `2p+1` of a move in the
  policy, the softmax probabilities, and the draw `random.choices` makes from
  one uniform number.
- `decisions.dfy` (`Decisions`): the `SelectionState` class (three lists and
  the next feature, updated in place by `PickFeature`), and the kept and
  discarded lists a run of decisions produces.
- `adaptation.dfy` (`Adaptation`): `adapt` as a function on the weight list,
  with the law of each pass and the monotonicity law.
- `search.dfy` (`Search`): playout, NRPA and SNRPA as functions from a
  `World` (the policy, the number of random draws taken, the scorer's call
  log) to an `Outcome`, with the ledger, best-of and policy-write lemmas.
- `selection.dfy` (`Selection`): the source's imperative code. `playout`,
  `adapt`, `nrpa_feature_selector` and `snrpa_feature_selector` are methods
  over one shared `array<real>` policy, a `RandomSource` and a `Scorer`. Each
  method is proved to do exactly what the functions of `Search` and
  `Adaptation` say.

Abstractions:

- `math.exp` is a parameter `exp` of type `Exp`, a real function that is
  positive everywhere. Only the monotonicity law also assumes it is
  increasing.
- `random()` is a fixed stream `stream: nat -> real` read through a cursor.
  `random.choices` with two weights picks the first one exactly when
  `u * (keep + discard) < keep`. This is how CPython bisects the cumulative
  weights.
- `score` is an abstract function of the selected-feature list. The scorer
  keeps a ghost log of every list it was called on.
- The search functions are stated for any chooser and adapter, collected in
  an `Env`. `SoftmaxEnv(env, exp)` says the chooser and adapter are the
  source's softmax draw and `adapt`, and `Softmax` builds such an
  environment.

The policy update follows the code. `polp = policy` (selection.py:105) is
an alias, so the `+alpha` written at line 109 is already in place when `z`
and the discounts read the weights at lines 112 and 114. Each pass
therefore discounts by the softmax of the weights after the `+alpha`
write, not the weights the pass started from.

Error paths of the source are preconditions:
- a state built on an empty feature list fails at `to_select_features[0]`,
  and `nrpa_feature_selector` builds one at every level, so `N > 0`;
- `pick_feature` on a terminal state fails in `remove`;
- a loop level that runs no round returns an unbound `seq`, hence
  `Budgeted`;
- a policy shorter than `2N` fails on indexing;
- a non-positive `z` fails in the division or in `random.choices`.

## Model

| member | source | states |
|---|---|---|
| Decisions.SelectionState.constructor | automl_iasd/feature_engineering/selection.py:12-19 | the state holds the three given lists, `next` is the first undecided feature, N is the total length; an empty undecided list is refused |
| Decisions.SelectionState.IsTerminal | automl_iasd/feature_engineering/selection.py:21-22 | a valid state is terminal exactly when all N decisions have been made |
| Decisions.SelectionState.Position | automl_iasd/feature_engineering/selection.py:88 | `feature_space_size - len(to_select_features)` is the number of features already kept or discarded, at most N |
| Decisions.SelectionState.PickFeature | automl_iasd/feature_engineering/selection.py:24-32 | the lowest undecided feature is appended to the kept list on Keep and to the discarded list otherwise, and leaves the undecided list; the lengths still sum to N, one more decision is made, and a partition of `0..N-1` stays a partition |
| Decisions.PartitionMeans | automl_iasd/feature_engineering/selection.py:19 | three lists whose joint multiset is `0..N-1` are pairwise disjoint, cover exactly `0..N-1` and have total length N |
| Decisions.RemoveFirst | automl_iasd/feature_engineering/selection.py:30 | `list.remove` drops one occurrence of the value, the first one when it is at the head, and shortens the list by one |
| Decisions.PickKeepsFeatures | automl_iasd/feature_engineering/selection.py:24-32 | moving the first undecided feature to either list keeps the joint multiset of the three lists |
| Decisions.ChosenSplit | automl_iasd/feature_engineering/selection.py:72-82 | the features a run of decisions keeps and those it discards are together the features decided, each once |
| Decisions.DecidingKeepsFeatures | automl_iasd/feature_engineering/selection.py:72-82 | deciding every undecided feature keeps the joint multiset of the three lists |
| Decisions.KeptSnoc | automl_iasd/feature_engineering/selection.py:24-28 | one more decision appends its position to the kept list exactly when it is Keep |
| Decisions.KeptMembers | automl_iasd/feature_engineering/selection.py:72-82 | a position is in the kept list exactly when it was decided Keep |
| Decisions.KeptAscending | automl_iasd/feature_engineering/selection.py:72-82 | the kept list is strictly ascending |
| Decisions.KeptInjective | automl_iasd/feature_engineering/selection.py:72-82 | the kept list determines the decision sequence of a given length |
| Decisions.IotaCount | automl_iasd/feature_engineering/selection.py:36 | `list(range(n))` holds each of `0..n-1` once and nothing else |
| Moves.PolicyIndexInRange | automl_iasd/feature_engineering/selection.py:84-91 | a slot lies in `[0, 2N)` exactly when its position lies in `[0, N)` |
| Moves.PolicyIndexInjective | automl_iasd/feature_engineering/selection.py:84-91 | distinct (position, move) pairs get distinct slots |
| Moves.PolicyIndexRoundTrip | automl_iasd/feature_engineering/selection.py:84-91 | every slot is the slot of the pair it decodes to, and every pair decodes from its slot |
| Selection.Code | automl_iasd/feature_engineering/selection.py:84-91 | `code` is the slot of the move at the number of decisions made, and lies in `[0, 2N)` exactly while a decision is left |
| Moves.Normalizer | automl_iasd/feature_engineering/selection.py:77-79 | the `z` of `playout` exceeds each of the two exponentiated weights |
| Moves.Shares | automl_iasd/feature_engineering/selection.py:96 | two positive numbers over their sum give two shares in `(0, 1)` that add up to one |
| Moves.Probability | automl_iasd/feature_engineering/selection.py:96 | each move probability lies strictly between 0 and 1 |
| Moves.WeightedChoice | automl_iasd/feature_engineering/selection.py:97 | with a positive total weight, `random.choices` picks Keep exactly when the uniform draw is below Keep's share of the total |
| Moves.Sample | automl_iasd/feature_engineering/selection.py:93-98 | the move `choose_a_move` draws is Keep exactly when the uniform draw is below the softmax probability of Keep |
| Moves.ProbabilitiesSumToOne | automl_iasd/feature_engineering/selection.py:77-96 | the two probabilities of a position sum to 1 |
| Moves.SampleFollowsProbability | automl_iasd/feature_engineering/selection.py:96-97 | Keep is drawn exactly when the uniform draw is below Keep's probability, and Discard exactly when it is at least `1 - P(Discard)` |
| Selection.RandomSource.Choices | automl_iasd/feature_engineering/selection.py:97 | `random.choices` with two weights takes one draw and picks Keep exactly when the draw times the total is below Keep's weight |
| Selection.Scorer.Score | automl_iasd/feature_engineering/selection.py:119-150 | the score is the scorer's function of the selected list, and the call is logged |
| Selection.ChooseAMove | automl_iasd/feature_engineering/selection.py:93-98 | the move is the weighted draw of the two exponentiated weights over `z`, from the next random number |
| Selection.ChooseIsSoftmax | automl_iasd/feature_engineering/selection.py:77-80 | `z` summed from `0.0` is positive, and `choose_a_move` with it is the softmax draw of the environment |
| Selection.Play | automl_iasd/feature_engineering/selection.py:100-102 | `play` is `pick_feature` on the same state |
| Selection.PlayoutStep | automl_iasd/feature_engineering/selection.py:77-82 | one pass of the `playout` loop draws the environment's move at the current position from the next random number and moves the lowest undecided feature to that move's list |
| Selection.PlayoutMoves | automl_iasd/feature_engineering/selection.py:73-82 | the loop of `playout` ends terminal, takes one draw per decision, and returns the rollout of the policy from the current position; the kept and discarded lists grow by the features decided Keep and Discard |
| Selection.Playout | automl_iasd/feature_engineering/selection.py:72-82 | `playout` returns the rollout, scores the final kept list once and logs it, and keeps the partition of the features |
| Selection.RootPlayout | automl_iasd/feature_engineering/selection.py:36-38 | a playout of a fresh root state is `PlayoutOf`: the rollout from position 0, N draws, one scorer call on the kept positions |
| Selection.PlayoutOfRoot | automl_iasd/feature_engineering/selection.py:72-82 | the rollout from position 0 of a root over `0..N-1`, with its kept list, is exactly `PlayoutOf` |
| Selection.AdaptStep | automl_iasd/feature_engineering/selection.py:109-115 | one pass of the `adapt` loop, through the alias, rewrites the policy as `AdaptAt` says and moves the state one decision on |

| Selection.Adapt | automl_iasd/feature_engineering/selection.py:104-117 | `adapt` leaves the shared policy array as `Adapted` of its old contents and the elite sequence |
| Selection.NrpaFeatureSelector | automl_iasd/feature_engineering/selection.py:34-46 | `nrpa_feature_selector` returns the score and sequence `Search` gives for NRPA, and leaves the policy, the random cursor and the scorer log as it says |
| Selection.NrpaRound | automl_iasd/feature_engineering/selection.py:41-45 | one iteration: the child search, the `>=` update of the best, `adapt` toward the best, as `Round` says |
| Selection.SnrpaFeatureSelector | automl_iasd/feature_engineering/selection.py:49-69 | `snrpa_feature_selector` returns what `Search` gives for SNRPA with pool P, and leaves the world as it says |
| Selection.SnrpaRound | automl_iasd/feature_engineering/selection.py:56-68 | one iteration of either SNRPA loop, with `adapt` only above level 1, as `Round` says |
| Adaptation.DiscountShares | automl_iasd/feature_engineering/selection.py:110-114 | each weight loses `alpha` times its softmax share, a number in `(0, 1)`, so the pair loses `alpha` in total |
| Adaptation.DiscountLoses | automl_iasd/feature_engineering/selection.py:110-114 | each discount `alpha * exp(w) / z` is positive and the two discounts of a position add up to `alpha` |
| Adaptation.Discount | automl_iasd/feature_engineering/selection.py:110-114 | the discount writes lower both weights of the position, by `alpha` in total |
| Adaptation.Pass | automl_iasd/feature_engineering/selection.py:109-114 | one pass of the `adapt` loop keeps the sum of the two weights of its position |
| Adaptation.AdaptAt | automl_iasd/feature_engineering/selection.py:108-115 | one pass at position `p` keeps the length and every weight outside slots `2p` and `2p+1`, and keeps the sum of those two |
| Adaptation.PassRewardsKeep | automl_iasd/feature_engineering/selection.py:108-114 | a Keep pass raises Keep by `alpha * (1 - q(Keep)) > 0`, lowers Discard by `alpha * q(Discard) > 0`, shares taken after the `+alpha` write, and keeps the pair sum |
| Adaptation.PassRewardsDiscard | automl_iasd/feature_engineering/selection.py:108-114 | the same for a Discard pass |
| Adaptation.Adapted | automl_iasd/feature_engineering/selection.py:104-117 | `adapt` keeps the length of the policy |
| Adaptation.AdaptedSnoc | automl_iasd/feature_engineering/selection.py:108 | adapting toward one more move is one more pass at the next position |
| Adaptation.AdaptedUntouched | automl_iasd/feature_engineering/selection.py:104-117 | `adapt` leaves every weight past the visited positions unchanged |
| Adaptation.AdaptedPair | automl_iasd/feature_engineering/selection.py:104-117 | at each visited position `adapt` leaves exactly one pass over that position's incoming weights |
| Adaptation.AdaptRewardsElite | automl_iasd/feature_engineering/selection.py:104-117 | at each visited position the elite move's weight rises, the other's falls, and their sum is kept |
| Adaptation.ShareGrows | automl_iasd/feature_engineering/selection.py:96 | a share `a / (a + b)` rises when `a` rises and `b` falls |
| Adaptation.ProbabilityIsShare | automl_iasd/feature_engineering/selection.py:96 | a move's probability is its share of the two exponentiated weights |
| Adaptation.ProbabilityRises | automl_iasd/feature_engineering/selection.py:96 | raising a move's exponentiated weight and lowering the other's raises its probability |
| Adaptation.AdaptRaisesEliteProbability | automl_iasd/feature_engineering/selection.py:104-117 | with an increasing `exp`, `adapt` strictly raises the probability of the elite move at every visited position |
| Search.Rollout | automl_iasd/feature_engineering/selection.py:74-82 | a rollout from position `p` has one move per position left |
| Search.RolloutAt | automl_iasd/feature_engineering/selection.py:77-82 | decision `i` of a rollout is drawn at position `p + i` from draw `cursor + i` |
| Search.RolloutPrefixStep | automl_iasd/feature_engineering/selection.py:80-82 | appending the next draw to a prefix of the rollout gives the next prefix |
| Search.RolloutOfDraws | automl_iasd/feature_engineering/selection.py:74-82 | any move list drawn position by position from consecutive draws up to N is the rollout |
| Search.PlayoutOf | automl_iasd/feature_engineering/selection.py:72-82 | a playout returns N moves |
| Search.PlayoutConsistent | automl_iasd/feature_engineering/selection.py:72-82 | a playout scores once, on the strictly ascending list of exactly the positions decided Keep, and returns that score |
| Search.Search | automl_iasd/feature_engineering/selection.py:34-69 | every search returns N moves |
| Search.Round | automl_iasd/feature_engineering/selection.py:41-68 | after a round the best is an elite of N moves |
| Search.Loop | automl_iasd/feature_engineering/selection.py:40-46 | whatever rounds of a loop level remain, what it returns is an N-move sequence |
| Search.AtLeast | automl_iasd/feature_engineering/selection.py:42 | `result >= best_score`: every score beats the `-inf` start, and a score equal to the best replaces it, so the last tie wins |
| Search.Budgeted | automl_iasd/feature_engineering/selection.py:46 | an admitted call at a level above 0 runs at least one round, so `seq` is bound when its loop returns |
| Search.WidthTimesChildren | automl_iasd/feature_engineering/selection.py:40-63 | a loop level runs `Width` children, which multiplies the playouts of one level down |
| Search.SearchLedger | automl_iasd/feature_engineering/selection.py:34-69 | NRPA at level L makes `iterations^L` playouts, SNRPA `iterations^(L-1) * P` at L >= 1, level 0 one; the scorer log only grows by that many entries, and N draws are taken per playout |
| Search.LoopLedger | automl_iasd/feature_engineering/selection.py:40-68 | the same for the remaining rounds of a loop level |
| Search.LastBestThenHigher | automl_iasd/feature_engineering/selection.py:42-44 | a later run of playouts whose best is at least the earlier best takes over as the last best |
| Search.LastBestThenLower | automl_iasd/feature_engineering/selection.py:42-44 | a later run whose best is lower leaves the last best as it was |
| Search.HoldsStep | automl_iasd/feature_engineering/selection.py:42-67 | the `>=` update from `-inf` keeps the best of all playouts so far, last tie winning |
| Search.SearchBest | automl_iasd/feature_engineering/selection.py:39-69 | a search returns the largest score of its playouts and the sequence of the last playout reaching it |
| Search.RoundBest | automl_iasd/feature_engineering/selection.py:41-44 | one round extends the log since the level started by its child's playouts, and the new best is the `>=` scan of all of them |
| Search.LoopBest | automl_iasd/feature_engineering/selection.py:40-69 | the same for the remaining rounds of a loop level |
| Search.FoldAppend | automl_iasd/feature_engineering/selection.py:45 | adapting toward one list of sequences and then another is adapting toward both in turn |
| Search.TimesIsProduct | automl_iasd/feature_engineering/selection.py:40 | counting adaptations round by round is multiplication |
| Search.TraceNone | automl_iasd/feature_engineering/selection.py:37-38 | no adaptation leaves the policy as it is |
| Search.TraceOne | automl_iasd/feature_engineering/selection.py:45 | one `adapt` toward an N-move sequence is one adaptation |
| Search.TraceChain | automl_iasd/feature_engineering/selection.py:41-45 | two runs of adaptations in turn are one run of the summed length |
| Search.SearchPolicy | automl_iasd/feature_engineering/selection.py:34-69 | the only writes to the shared policy are `Adaptations` adaptations toward N-move sequences, in call order |
| Search.RoundPolicy | automl_iasd/feature_engineering/selection.py:41-68 | a round writes the policy by its child's adaptations and, at an adapting level, one more |
| Search.LoopPolicy | automl_iasd/feature_engineering/selection.py:40-68 | the remaining rounds of a loop level write the policy by that many rounds of adaptations |
| Search.PoolingKeepsPolicy | automl_iasd/feature_engineering/selection.py:50-60 | `playout`, and level 1 of SNRPA, never write the policy |
| Search.SoftmaxIsSoftmaxEnv | automl_iasd/feature_engineering/selection.py:77-117 | the environment built from `exp` draws by the softmax and adapts as `adapt` does |

## Left out

- `score` (selection.py:119-150) fits and evaluates a Spark model and prints twice. It is an abstract function of the selected list.
- The two dataframes a `SelectionState` carries (selection.py:17-18) are only handed to `score`, so they are not modelled.
- `math.exp` is modelled as an exact positive real function. IEEE overflow and rounding are not modelled, and real arithmetic replaces floating point throughout.
- `random.choices` is a deterministic function of a fixed stream of uniform draws. The distribution of the draws is not modelled. `SampleFollowsProbability` states which draws give which move.
- `automl_iasd/automl_controller_process.py` is not part of this model. It holds process, thread-pool, command-line and S3 plumbing.
- The `for m in ["Keep", "Discard"]` loops of `playout` and `adapt` are unrolled into their two passes, in the same order.
- `play` returning its state is not modelled, because the same object is used afterwards. The same holds for `adapt` returning the policy list: the caller's own array is updated.
- `iterations` and `P` are natural numbers. Python's `range` of a negative number is empty, so the source also accepts a negative count wherever it ignores it: `iterations` at level 0 of both searches and at level 1 of SNRPA, and `P` at level 0 of SNRPA. The model does not cover those inputs.
- `-inf` as the initial best score is the constructor `NoElite`. Every score is at least it.
- `nrpa_feature_selector` builds a root state at every level. Above level 0 that state is never used, so the model builds it only at level 0. Its one effect above level 0, failing on `N = 0`, is kept as the precondition `0 < featureSpaceSize`.
- The two loops of `snrpa_feature_selector` share one round method, `SnrpaRound`. It calls `adapt` only above level 1, as the level-1 loop of the source has no `adapt` line.
- The contracts of the search methods state draws and adaptations through a ghost environment `env`. It agrees with the softmax draw and with `adapt` on every policy long enough to have the slots they read (`SoftmaxEnv`). The methods themselves call `exp` and the random source directly.
- Only the monotonicity law `AdaptRaisesEliteProbability` assumes `exp` is increasing. All other results only use its positivity.
