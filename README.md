# Maze traverser: a Dafny model

This project models the engine of a letter-collecting maze walker. The
input is a track drawn in text:
- `@` is the start and `x` is an end;
- `-` and `|` are straight segments and `+` is a turn;
- uppercase letters are stations to collect.

The walker starts on the `@`. It goes straight on wherever it can. At a
turn or a blocked cell, it picks the single way on. It stops with a
diagnosis when the track is broken, forks, fakes a turn, leads off the
grid, or has no start, no end or several starts.

The model follows the code module by module:

- `Utils` (`src/utils.ts`, `transformMap`). The text of a track becomes a
  rectangular grid of characters:
  - split into lines on `\n` or `\r\n`;
  - drop one leading empty line;
  - pad every row with spaces to the longest row.

  `Normalize` is that function. `TransformMap` is the method with its
  padding loop, proved to compute `Normalize`. The lemmas prove:
  - the shape of the grid;
  - the round trip between splitting and joining lines;
  - that `\r\n` and `\n` give the same grid.
- `Track`: the cells, positions, headings and errors of
  `src/hooks/useMazeTraverser.ts`. This includes the exact error messages.
- `Resolver` (`findDirection`). `Resolve` is the decision as a function:
  - straight through when the next cell is open;
  - otherwise the candidate headings, filtered;
  - then the decision on how many remain.

  `FindDirection` and `TryCandidates` are the method and its candidate loop,
  proved to compute `Resolve`. The lemmas say what the decision means in
  terms of the exits of a cell: one exit is taken, none halts (fake turn or
  broken path), two or more halt (several starting paths or a fork).
- `Traverser` (`traverse`, `startTraversal`). The hook's refs become the
  fields of class `MazeTraverser`, and `Traverse` and `StartTraversal` are
  its methods. The same state as a value is `RunState`. `StepState`,
  `StartState` and the fuel-bounded run `RunFor` specify the methods. `Inv`
  is the invariant every reachable state keeps: the walker stays on the grid,
  the path ends on the current cell, and every credited letter sits at its
  own coordinate, credited once.
- `TraverserProperties`: what a step, a run and a start promise.
- `Scenarios`: the failing tracks of the hook's test suite. Each is
  started and run step by step from `StartState` until it stops with the
  error the suite expects, and the path and letters at that point are
  proved. A short track `@-A-x` is walked to its end. The one-line test
  texts are proved to give their grids through `Normalize`.

## Model

| member | source | states |
|---|---|---|
| Utils.TransformMap | src/utils.ts:1-16 | the grid the loop builds is `Normalize` of the text: split into lines, the leading empty line dropped, every row padded with spaces to the longest |
| Utils.NormalizeShape | src/utils.ts:6-14 | every row has the width of the longest line; each row starts with its line and is filled out with spaces only |
| Utils.SplitLinesNoLineFeed | src/utils.ts:2 | no line produced by the split contains a `\n` |
| Utils.SplitJoinCrlf | src/utils.ts:2 | one or more lines free of `\n`, joined with `\r\n`, split back into exactly those lines |
| Utils.SplitJoinLf | src/utils.ts:2 | one or more lines free of `\n`, none but the last ending in `\r`, joined with `\n`, split back into exactly those lines |
| Utils.JoinSplitLf | src/utils.ts:2 | text without `\r` is recovered by joining its lines with `\n` |
| Utils.CrlfAndLfAgree | src/utils.ts:2 | a track written with `\r\n` gives the same grid as one written with `\n` |
| Utils.LeadingBreakDropped | src/utils.ts:3-5 | a track written after an opening line break has exactly its own lines as rows: the empty first line is dropped |
| Utils.NoLineFeedCell | src/utils.ts:6 | no cell of the grid is a line feed |
| Utils.EmptyTextEmptyGrid | src/utils.ts:1-16 | the empty text gives the empty grid |
| Resolver.ValidAmongExactly | src/hooks/useMazeTraverser.ts:116-133 | the valid headings are exactly the candidates tried that are neither a U-turn nor, at `+`, straight on, and that land on an open cell |
| Resolver.OffGridAmongExactly | src/hooks/useMazeTraverser.ts:134-136 | an `OutOfBounds` is recorded only for a tried candidate that leaves the grid |
| Resolver.TryCandidates | src/hooks/useMazeTraverser.ts:116-137 | the loop over the candidates returns the valid headings and the `OutOfBounds` errors that the specification of the filters gives |
| Resolver.FindDirection | src/hooks/useMazeTraverser.ts:91-158 | the method returns the heading and diagnoses that `Resolve` gives |
| Resolver.ResolveSound | src/hooks/useMazeTraverser.ts:91-158 | a heading other than `Idle` leads to an open cell, is never a U-turn, and at `+` is never straight on; `Idle` comes with one or two diagnoses, and only `Idle` does |
| Resolver.ValidAmongDistinct | src/hooks/useMazeTraverser.ts:107-133 | the valid headings contain no repeats |
| Resolver.ExitsDecide | src/hooks/useMazeTraverser.ts:107-157 | when the walker cannot go straight on, the valid headings are exactly the exits, without repeats, and decide: one is taken with no diagnosis; none gives the off-grid errors recorded on the way followed by the dead-end diagnosis; two or more give the ambiguity diagnosis alone |
| Resolver.ValidAreExits | src/hooks/useMazeTraverser.ts:107-133 | the valid headings are exactly the ways on of the cell, each listed once |
| Resolver.OneValidNoneOffGrid | src/hooks/useMazeTraverser.ts:128-139 | a single valid heading comes with no off-grid error |
| Resolver.NoneAdmissible | src/hooks/useMazeTraverser.ts:116-133 | when no candidate tried passes the filters onto an open cell, no heading is valid |
| Resolver.DeadEndHalts | src/hooks/useMazeTraverser.ts:134-148 | with no way on, the walker stops; the diagnoses are the off-grid errors recorded on the way followed by a fake turn at `+` or a broken path elsewhere; that last diagnosis is the only one away from a straight segment |
| Resolver.UniqueExitTaken | src/hooks/useMazeTraverser.ts:138-139 | a single way on is taken and nothing is reported |
| Resolver.TwoExitsHalt | src/hooks/useMazeTraverser.ts:149-157 | two different ways on stop the walker with one diagnosis: multiple starting paths at `@`, a fork elsewhere |
| Resolver.StraightOffGrid | src/hooks/useMazeTraverser.ts:129-136 | a straight segment whose next cell is off the grid stops the walker with `OutOfBounds` followed by a broken path |
| Traverser.IndexOf | src/hooks/useMazeTraverser.ts:171 | the result is -1 exactly when the character is absent, and otherwise the index of its first occurrence |
| Traverser.FindStart | src/hooks/useMazeTraverser.ts:168-177 | the row-by-row search returns the first `@` in scan order, or nothing |
| Traverser.ScanVisited | src/hooks/useMazeTraverser.ts:71-78 | the scan answers true exactly when the coordinate has been credited before |
| Traverser.StepKeepsInv | src/hooks/useMazeTraverser.ts:43-89 | one step keeps the invariant: on the grid, the path ending on the current cell, letters credited once at their own coordinates |
| Traverser.StartState | src/hooks/useMazeTraverser.ts:160-193 | starting never takes a walker off the grid: a failed start keeps the old position, a successful one stands on the `@` found |
| Traverser.StartKeepsInv | src/hooks/useMazeTraverser.ts:160-196 | starting keeps the invariant |
| Traverser.MazeTraverser.constructor | src/hooks/useMazeTraverser.ts:23-30 | the refs start empty and halted, with no position and an idle heading |
| Traverser.MazeTraverser.Traverse | src/hooks/useMazeTraverser.ts:43-89 | the new state is `StepState` of the old one, and the invariant is kept |
| Traverser.MazeTraverser.StartTraversal | src/hooks/useMazeTraverser.ts:160-196 | the new state is `StartState` of the old one, and the invariant is kept |
| TraverserProperties.StepOutcome | src/hooks/useMazeTraverser.ts:43-67 | a halted walker stays put; a running one either stops with a diagnosis and keeps its place, path and letters, or moves to an open neighbour (never back), adds that cell to the path, and stops exactly when the cell is `x` |
| TraverserProperties.StepCredit | src/hooks/useMazeTraverser.ts:69-83 | stepping onto an uppercase letter marks its coordinate as credited; the letter is collected exactly when the coordinate is new; other cells collect nothing |
| TraverserProperties.StepGrows | src/hooks/useMazeTraverser.ts:43-89 | a step only appends: to the path (at most one cell), the letters, the credited coordinates and the errors |
| TraverserProperties.RunKeepsInv | src/hooks/useMazeTraverser.ts:43-89 | every state of a run keeps the invariant |
| TraverserProperties.RunExtends | src/hooks/useMazeTraverser.ts:43-89 | a run only appends; its path grows by at most one cell per step; a halted walker never resumes |
| TraverserProperties.StepStraight | src/hooks/useMazeTraverser.ts:53-67 | a walker that can go straight on keeps its heading and arrives on the next cell |
| TraverserProperties.StepTurn | src/hooks/useMazeTraverser.ts:53-67 | a walker that cannot go straight on and has a single way on turns to it, records nothing and arrives on the cell it leads to |
| TraverserProperties.StepHalts | src/hooks/useMazeTraverser.ts:47-67 | a step that stops a walker ends on `x` with no error, or idle with an error |
| TraverserProperties.RunEnds | src/hooks/useMazeTraverser.ts:43-89 | a run that stops ends on `x` with no error, or idle with at least one error |
| TraverserProperties.FirstStartIsFirst | src/hooks/useMazeTraverser.ts:168-177 | the `@` found comes first in scan order; when none is found, the scanned rows hold no `@` |
| TraverserProperties.TwoCellsCounted | src/hooks/useMazeTraverser.ts:186 | two different `@` cells make the count of starts at least two |
| TraverserProperties.CountInRowFinds | src/hooks/useMazeTraverser.ts:186 | a row counted as holding `c` once has it at some index, one counted twice has it at two different indices |
| TraverserProperties.CountCellFinds | src/hooks/useMazeTraverser.ts:186 | the converse of `TwoCellsCounted`: a grid counted as holding `c` once has it in some cell, one counted twice has it in two different cells |
| TraverserProperties.StartSucceeds | src/hooks/useMazeTraverser.ts:160-193 | a grid with an `x` and a single `@` starts: the walker runs from that `@`, which is the whole path, with nothing collected and no error |
| TraverserProperties.StartOutcome | src/hooks/useMazeTraverser.ts:160-193 | start clears the run, then reports, in order, a missing `@`, a missing `x` and several `@`s, each the only error of a halted walker; otherwise the walker runs from the unique `@`, which is the whole path |
| TraverserProperties.StartResets | src/hooks/useMazeTraverser.ts:160-166 | starting twice is starting once, and only the old position survives a start |
| Scenarios.NoStartTrack | src/hooks/useMateTraverser.test.ts:214-237 | the track without `@` fails to start with the missing-start error alone |
| Scenarios.NoEndTrack | src/hooks/useMateTraverser.test.ts:239-262 | the track without `x` fails to start with the missing-end error alone |
| Scenarios.TwoStartsTrack | src/hooks/useMateTraverser.test.ts:264-287 | the track with two `@`s fails to start with the multiple-starts error alone |
| Scenarios.MultipleStarts2Track | src/hooks/useMateTraverser.test.ts:289-312 | the track with an `@` at a dead end below the first fails to start with the multiple-starts error alone |
| Scenarios.MultipleStarts3Track | src/hooks/useMateTraverser.test.ts:314-337 | the track with two `@`s separated by a blank row fails to start with the multiple-starts error alone |
| Scenarios.MultipleStartingPathsTrack | src/hooks/useMateTraverser.test.ts:390-409 | on `x-B-@-A-x` the first step stops with the multiple-starting-paths error alone |
| Scenarios.FakeTurnTrack | src/hooks/useMateTraverser.test.ts:411-430 | on `@-A-+-B-x` the step at the `+` stops with the fake-turn error alone |
| Scenarios.OutOfBoundsTrack | src/hooks/useMateTraverser.test.ts:432-455 | at the bottom of the vertical segment the walker stops with the out-of-bounds error, then a broken path |
| Scenarios.ForkTrack | src/hooks/useMateTraverser.test.ts:339-364 | at the `+` with ways on up and down the walker stops with the fork error alone |
| Scenarios.BrokenPathTrack | src/hooks/useMateTraverser.test.ts:366-388 | on the vertical segment above the blank row the walker stops with the broken-path error alone |
| Scenarios.TwoWaysFromStartRun | src/hooks/useMateTraverser.test.ts:390-409 | started and run, `x-B-@-A-x` stops at the first step with the multiple-starting-paths error alone and the path `@` |
| Scenarios.FakeTurnRun | src/hooks/useMateTraverser.test.ts:411-430 | started and run, `@-A-+-B-x` stops after five steps with the fake-turn error alone, path `@-A-+` and letters `A` |
| Scenarios.ForkRun | src/hooks/useMateTraverser.test.ts:339-364 | started and run, the fork track stops after eight steps with the fork error alone, path `@--A---+` and letters `A` |
| Scenarios.BrokenPathRun | src/hooks/useMateTraverser.test.ts:366-388 | started and run, the broken track stops after seven steps with the broken-path error alone, path `@--A-+` then the bar below the `+`, and letters `A` |
| Scenarios.OutOfBoundsRun | src/hooks/useMateTraverser.test.ts:432-455 | started and run, the track stops after twelve steps with the out-of-bounds error then a broken path, path `@--A---+` then the column down through `C`, and letters `AC` |
| Scenarios.ShortTrackRun | src/hooks/useMazeTraverser.ts:43-89 | starting and then four steps walk `@-A-x` to its end, with path `@-A-x`, letters `A` and no error |
| Scenarios.OneLineText | src/utils.ts:1-16 | a track written as one line after a leading line break is the one-row grid of that line |
| Scenarios.PaddedText | src/utils.ts:1-16 | a track written after a leading line break is its lines, each padded with spaces to the widest |
| Scenarios.FakeTurnText | src/hooks/useMateTraverser.test.ts:411-414 | the fake-turn test text gives the grid the fake-turn run walks |
| Scenarios.TwoWaysFromStartText | src/hooks/useMateTraverser.test.ts:390-393 | the multiple-starting-paths test text gives the grid that run walks |

## Left out

- Timers are left out: `setTimeout`, `delayTime` and the chain of delayed steps. A run is `RunFor` with a step count (fuel). The model makes no termination claim, since a track can loop forever.
- Callbacks are left out: `sendUpdate` and `onUpdate`. Snapshots are the `RunState` values themselves.
- React itself is left out: `useRef`, re-rendering and a new grid passed to a live hook. A walker's grid is fixed when it is constructed.
- Overlapping runs are left out: a `startTraversal` that fires while earlier timers are pending would interleave them.
- Cells are single characters. The hook's test for an empty-string cell has no counterpart, because `transformMap` only produces one-character cells.
- Characters are Dafny `char`s. UTF-16 surrogate pairs are not modelled.
- `Utils.Width`: `Math.max()` of no lines is minus infinity in the source. Here it is 0, and since there are no rows either, the grid is empty either way.
- The start-up checks are modelled on the cells: `HasCell` and `CountCell`. The source searches the JSON text of the grid (`JSON.stringify(...).includes` / `split`). JSON escaping never produces `x` or `@`, so the two agree.
- Coordinates are mathematical integers. A missing position is `None`, where the source has its empty-ref sentinel.
- Errors are an enumeration. `Track.Message` gives each error's exact text; `Error` objects and their stack traces are not modelled.
- `src/useMazeTraverser.ts` is not part of this model. Neither are the React components, the rendering of cells and the buttons.
- The passing tracks of the test suite are not proved end to end. Only the short track `@-A-x` is walked in full.
- The multi-line test texts are written in `Scenarios` as the padded grids `transformMap` gives. Only the one-line texts are proved to give their grids. `PaddedText` states the padding for every text.
- `transformMap` is modelled on `seq<seq<char>>`, with the rows built one after another. Arrays mutated in place are not modelled.

## Notes on the code

Where the code and its design notes differ, the model follows the code:

- A failed start leaves the old position in place, since `startTraversal` resets everything except the position.
- The same letter is collected once per coordinate, not once per letter value. A letter at two different places is collected twice.
- The walker is marked running before the start checks and halted again when one of them fails. The end result is the same as setting it only on success.
