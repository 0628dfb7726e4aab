# Twelve balls on a balance, and the middle of a linked list

This project models two exercises of a collection of programming challenges.

**Weighing balls.** Twelve balls look alike, but one of them (the outlier) is
either heavier or lighter than the others. A strategy must find it with a
balance scale.

- **The contract.** `Strategy` (weighing-balls/Strategy.js) holds the hidden
  truth. It refuses illegal weighings, answers legal ones, records every
  weighing it accepts, and closes the run when a ball is submitted.
- **The reference strategy.** `OptimalStrategy` (weighing-balls/OptimalStrategy.js)
  walks a hard-coded decision tree. Each internal node is a weighing; each leaf
  names a ball or is a null child that should never be reached.
- **The trials.** The test generator runs the reference strategy on all 24
  ground truths: each of the twelve balls, heavy and light.

The Dafny modules:

- `Strategy` holds the contract as a class whose methods update its fields.
- `Balance` is an independent physical reference: ball masses summed per pan.
- `DecisionTrees` holds the tree as data and its walk on ball positions.
- `OptimalStrategy` holds the `runStrategy` loop as a method, proved against a
  recursive specification `Walk`.
- `Trials` holds the test generator's trials.

The constants `DecisionTrees.DecisionTree`, `BalancedBranch`, `LeftDownBranch`
and `RightDownBranch` transcribe `DECISION_TREE`
(weighing-balls/OptimalStrategy.js:55-61, 62-144, 146-235 and 236-325). The
lemmas `DecisionTreeShape`, `DecisionTreeWeighings` and the per-branch
`...Shape` and `...Trace` lemmas in the table below state what those
constants hold.

The main results:

- The as-written tree always weighs exactly three times and never reaches a
  null child.
- It names the outlier for 19 of the 24 ground truths. For the other five it
  names a different ball; see "## Findings".
- A corrected tree names the outlier in all 24 cases.

**Middle of a linked list.** `find_middle` (middle_of_linked_list/solution.py)
uses a slow and a fast pointer. `MiddleOfLinkedList.FindMiddle` is a read-only
method over heap nodes. It returns the node at position n / 2, and its loop
runs n / 2 rounds.

Where the code and its surrounding descriptions disagree, the model follows
the code:

- `__submitOutlierBall` does not check the status. A submission before
  `initialize`, or a second submission, also sets `RUN_COMPLETE`.
- The size test in `__useScale` compares the right side's length with itself.
  The rule that the fuller pan goes down therefore never applies.
- The JavaScript class's fields start undefined. The model's constructor sets
  the status to `NotInitialized`, which every other member treats as "not
  running". It also sets the list of balls and the history to empty lists
  where JavaScript leaves them undefined. Nothing reads them before
  `initialize` sets them, except the `scaleRuns` getter.

## Model

| member | source | states |
|---|---|---|
| Strategy.NoLaterDuplicateIsDistinct | weighing-balls/Strategy.js:134-139 | The duplicate check "no ball occurs again later in the list" holds exactly when all identifiers are pairwise distinct |
| Strategy.CheckSetup | weighing-balls/Strategy.js:129-143 | `initialize` accepts exactly when there are 12 balls, no identifier repeats and the outlier is among them; a wrong count is reported before a duplicate |
| Strategy.CheckScale | weighing-balls/Strategy.js:41-56 | A weighing is accepted exactly when a run is in progress, both sides hold only balls of the run and no ball is on both sides; outside a run the refusal is always "not running" |
| Strategy.ScaleResult | weighing-balls/Strategy.js:63-100 | The scale balances exactly when the outlier is on neither pan |
| Strategy.ScaleResultSwap | weighing-balls/Strategy.js:77-95 | Exchanging the pans mirrors the answer: tipping left becomes tipping right and balanced stays balanced |
| Strategy.Strategy.constructor | weighing-balls/Strategy.js:18-24 | A new contract is not running, has recorded no weighing and holds no balls |
| Strategy.Strategy.Initialize | weighing-balls/Strategy.js:123-151 | On acceptance, the hidden truth becomes the arguments, the history is emptied and the run starts; on refusal nothing changes; the invariant is kept either way |
| Strategy.Strategy.UseScale | weighing-balls/Strategy.js:37-101 | A refused weighing returns the first failed check and records nothing; an accepted one is appended to the history (left side, right side) and answered from the hidden truth; the invariant that the history holds only legal weighings is kept |
| Strategy.Strategy.SubmitOutlierBall | weighing-balls/Strategy.js:103-111 | Whatever the status, the run is complete afterwards and nothing else changes |
| Strategy.SubmitClosesRun | weighing-balls/Strategy.js:103-111 | After a submission the scale refuses every weighing as "not running" and the history is unchanged |
| Balance.MassByCount | weighing-balls/Strategy.js:64-66 | A pan weighs ten per ball, plus the outlier's offset once per copy of the outlier on it |
| Balance.ScaleResultIsPhysical | weighing-balls/Strategy.js:77-100 | On pans of equal size that do not both hold the outlier, the contract's answer is the way a real balance tips |
| Balance.IntendedScaleResultIsPhysical | weighing-balls/Strategy.js:63-75 | The size rule the comment describes, followed by the outlier rule, is the physical answer for every pair of pans holding the outlier at most once |
| Balance.SizeTestIsDead | weighing-balls/Strategy.js:63 | As written, two genuine balls against one balance, although a real balance (and the intended rule) tips toward the two |
| DecisionTrees.Trace | weighing-balls/OptimalStrategy.js:40-49 | Following the scale's answers from any node stops at a verdict or a null child, never at a weighing |
| DecisionTrees.AsWrittenVerdict | weighing-balls/OptimalStrategy.js:55-327 | The ball the tree names differs from the outlier exactly for ball positions 4 to 7 light and position 5 heavy |
| DecisionTrees.FirstWeighingTrace | weighing-balls/OptimalStrategy.js:55-62 | Balls 0-3 against 4-7 sends an outlier among 8-11 to the balanced branch, and a heavy one among 0-3 or a light one among 4-7 to the tipped-left branch; the other cases go to the tipped-right branch |
| DecisionTrees.BalancedBranchTrace | weighing-balls/OptimalStrategy.js:62-144 | In the balanced branch, an outlier among positions 8 to 11 is named after two more weighings |
| DecisionTrees.LeftDownBranchTrace | weighing-balls/OptimalStrategy.js:146-235 | In the tipped-left branch every ground truth that reaches it is answered, after two more weighings, with AsWrittenVerdict |
| DecisionTrees.RightDownBranchTrace | weighing-balls/OptimalStrategy.js:236-325 | The same for the tipped-right branch |
| DecisionTrees.DecisionTreeTrace | weighing-balls/OptimalStrategy.js:55-327 | For each of the 24 ground truths the tree weighs exactly three times, never reaches a null child, and names the ball AsWrittenVerdict gives |
| DecisionTrees.DecisionTreeFindsOutlier | weighing-balls/OptimalStrategy.js:55-327 | For the 19 ground truths outside the misidentified five, the tree names the outlier |
| DecisionTrees.DecisionTreeMisidentifies | weighing-balls/OptimalStrategy.js:149-309 | For positions 4-7 light and position 5 heavy, the tree names a ball other than the outlier |
| DecisionTrees.CorrectedLeftDownBranchTrace | weighing-balls/OptimalStrategy.js:154-206 | With the second weighing the comments describe (0, 1, 4 against 2, 3, 5) and the answers of 6 against 0 put right, the tipped-left branch names the outlier |
| DecisionTrees.CorrectedRightDownBranchTrace | weighing-balls/OptimalStrategy.js:296-309 | With ball 5 named when 0 against 1 balances, the tipped-right branch names the outlier |
| DecisionTrees.CorrectedTreeTrace | weighing-balls/OptimalStrategy.js:55-327 | The corrected tree names the outlier after exactly three weighings for all 24 ground truths |
| DecisionTrees.DecisionTreeShape | weighing-balls/OptimalStrategy.js:55-327 | The tree has 13 weighings, 23 verdicts and 4 null children, all verdicts and null children three answers below the root |
| DecisionTrees.BalancedBranchShape | weighing-balls/OptimalStrategy.js:62-144 | The balanced branch has 4 weighings, 7 verdicts and 2 null children, all two answers below it |
| DecisionTrees.LeftDownBranchShape | weighing-balls/OptimalStrategy.js:146-235 | The tipped-left branch has 4 weighings, 8 verdicts and 1 null child, all two answers below it |
| DecisionTrees.RightDownBranchShape | weighing-balls/OptimalStrategy.js:236-325 | The tipped-right branch has 4 weighings, 8 verdicts and 1 null child, all two answers below it |
| DecisionTrees.DecisionTreeWeighings | weighing-balls/OptimalStrategy.js:55-327 | Every weighing of the tree uses positions 0 to 11, with pans of equal size that share no position |
| DecisionTrees.CorrectedTreeWeighings | weighing-balls/OptimalStrategy.js:55-327 | The same for the corrected tree |
| OptimalStrategy.Pick | weighing-balls/OptimalStrategy.js:57-60 | A pan of `getRun` holds the ball at each of the node's positions, in order; on distinct balls, a ball is on the pan exactly when its position is among the node's |
| OptimalStrategy.GetRun | weighing-balls/OptimalStrategy.js:44-46 | The pans have as many balls as the node has positions, and on distinct balls a node whose positions do not repeat yields a weighing that passes every check of `__useScale` |
| OptimalStrategy.Walk | weighing-balls/OptimalStrategy.js:34-52 | The run from a node: a submitted ball is always one of the balls, every weighing it records passes the contract's checks, and a contract that is not running refuses the first weighing and records nothing |
| OptimalStrategy.RunTree | weighing-balls/OptimalStrategy.js:34-52 | The loop's result and the weighings it records are the ones Walk gives from the initial state; a successful run is submitted and completes, a failed one leaves the status as it was, and the hidden truth never changes |
| OptimalStrategy.RunStrategy | weighing-balls/OptimalStrategy.js:34-52 | The run of DecisionTree, as Walk gives it. Once `initialize` has accepted these balls, it records exactly three more weighings, completes, and submits the ball AsWrittenVerdict names. A failed run leaves the status as it was, and the hidden truth never changes |
| OptimalStrategy.PickedPansLegal | weighing-balls/OptimalStrategy.js:44-46 | The pans a node with no repeated position picks from distinct balls pass every check of `__useScale` |
| OptimalStrategy.WalkByPosition | weighing-balls/OptimalStrategy.js:40-49 | On distinct balls in a running contract, the loop records one weighing per step of Trace and stops where Trace stops: a null child is an error, a verdict submits the ball at its position |
| OptimalStrategy.IndexOfDistinct | weighing-balls/testGenerator.js:25 | In a list of distinct balls, a ball's position is where it is found |
| OptimalStrategy.DecisionTreeRun | weighing-balls/OptimalStrategy.js:34-327 | On any twelve distinct balls with the outlier at position p, the run weighs three times and submits the ball at AsWrittenVerdict(p, weight) |
| OptimalStrategy.CorrectedTreeRun | weighing-balls/OptimalStrategy.js:34-52 | The corrected tree, run by the same loop, submits the outlier itself after three weighings |
| Trials.TrialsAreGroundTruths | weighing-balls/testGenerator.js:23-26 | Every position with each weight is one of the 24 trials |
| Trials.TrialsInRange | weighing-balls/testGenerator.js:25 | Every trial's outlier is one of the twelve balls |
| Trials.BallsAccepted | weighing-balls/testGenerator.js:15 | The trial balls and each trial's outlier pass `initialize` |
| Trials.OptimalTrial | weighing-balls/testGenerator.js:23-38 | Each trial completes the run (the status the test generator demands) with three weighings and submits the ball AsWrittenVerdict names |
| Trials.Ball5LightSubmits8 | weighing-balls/OptimalStrategy.js:164 | Ball "5" light: "8" is submitted |
| Trials.Ball6LightSubmits8 | weighing-balls/OptimalStrategy.js:164 | Ball "6" light: "8" is submitted |
| Trials.Ball7LightSubmits5 | weighing-balls/OptimalStrategy.js:216 | Ball "7" light: "5" is submitted |
| Trials.Ball8LightSubmits6 | weighing-balls/OptimalStrategy.js:188 | Ball "8" light: "6" is submitted |
| Trials.Ball6HeavySubmits5 | weighing-balls/OptimalStrategy.js:306 | Ball "6" heavy: "5" is submitted |
| MiddleOfLinkedList.MiddleIndex | middle_of_linked_list/solution.py:3-9 | Position n / 2 is the middle: as many nodes before it as after, or one more before when n is even |
| MiddleOfLinkedList.FindMiddle | middle_of_linked_list/solution.py:2-21 | On a non-empty, null-terminated list, it returns the node at position n / 2 without changing the list; the check that the slow pointer is a node never fails; the loop runs n / 2 rounds |
| MiddleOfLinkedList.FindMiddleExamples | middle_of_linked_list/solution.py:26-46 | On A -> B -> C -> D -> E: from A the middle is the node C itself, from E the node E, from D the node E (one of the two nodes the third check accepts) |

## Left out

- Logging (`logType`, the console output in `__useScale` and `__submitOutlierBall`) is not modelled. It does not affect any result.
- The `scaleRuns` and `strategyStatus` getters are reads of the class fields.
- The base `runStrategy` that must be overridden is not modelled; only the reference strategy's override is.
- The honour rule that a strategy must not read the hidden fields is not modelled. `RunTree` reads only `balls` and the scale's answers.
- `getOutlierBall` returns null or a ball, and the loop tests the ball for JavaScript truthiness. The model uses an Option instead, so an empty-string identifier is treated as a ball.
- `NO_MORE_RUN` and `NO_MORE_NEXT` at leaves are not modelled. The loop never asks a verdict node for its weighing or its children. At weighing-balls/OptimalStrategy.js:217 the leaf's `getRun` returns the function rather than calling it, which is equally unreachable.
- OptimalStrategy.RunStrategy: requires a list of exactly twelve balls. `RunTree` covers any list long enough for the tree's positions, so longer lists too. What JavaScript does with a shorter list is not modelled: `__useScale` refuses an undefined ball (weighing-balls/Strategy.js:46-51), and an undefined verdict makes the loop go on into `NO_MORE_RUN` (weighing-balls/OptimalStrategy.js:14-19, 43-44).
- The test generator's part that runs a user-supplied strategy, its maximum-weighings comparison and its three closing messages (weighing-balls/testGenerator.js:62-76) are not modelled. Only the enumeration of the 24 trials and the run of the reference strategy are.
- The overlapping-rectangles exercise is not part of this model.
- JavaScript arrays are shared by reference, and the model copies them by value. `initialize` keeps the caller's `balls` array (weighing-balls/Strategy.js:145). `__useScale` stores the caller's pan arrays in the history (weighing-balls/Strategy.js:58). The `scaleRuns` getter returns the live history. The test generator passes the same array to `initialize` and `runStrategy`. The model does not capture later mutation through these aliases; the reference strategy and the test generator never mutate them.
- MiddleOfLinkedList.FindMiddle: Python's dictionary nodes are modelled as a class with `value` and `next`. A list is given with its ghost sequence of nodes, which excludes cycles, as the function's docstring assumes.

## Findings

| source | as written | input that shows it | evidently intended | confidence | as-written member | corrected member |
|---|---|---|---|---|---|---|
| weighing-balls/Strategy.js:63 | The size test compares `rightSide.length` with itself, so it is never true | Right pan `["1", "2"]`, left pan `["3"]`, outlier `"4"` heavy: the answer is balanced | The pan with more balls goes down (tip to right here), as the comment at lines 64-66 says | high; not executed | Balance.SizeTestIsDead | Balance.IntendedScaleResultIsPhysical |
| weighing-balls/OptimalStrategy.js:149-175 | The second weighing of the tipped-left branch is 0, 1, 6 against 2, 3, 7, although its comments describe 0, 1, 4 against 2, 3, 5; the children of 6 against 0 then name 7 on balance and 4 on tipping left | Balls "5", "6", "7", "8" light: "8", "8", "5", "6" are submitted | 0, 1, 4 against 2, 3, 5, with 6 against 0 naming 7 on balance and 6 on tipping right | high; not executed | DecisionTrees.DecisionTreeMisidentifies | DecisionTrees.CorrectedTreeTrace |
| weighing-balls/OptimalStrategy.js:305-306 | When 0, 1, 4 against 2, 3, 5 tips right and 0 against 1 balances, the leaf names position 4 | Ball "6" heavy: "5" is submitted | Position 5, the only heavy ball left on the heavier pan | high; not executed | Trials.Ball6HeavySubmits5 | OptimalStrategy.CorrectedTreeRun |
