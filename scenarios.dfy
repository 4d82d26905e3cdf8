/**
  The tracks of the hook's own test suite (src/hooks/useMateTraverser.test.ts),
  laid out as `transformMap` lays them out. Each start-up failure is
  diagnosed by `StartState`; each path failure is started and run step by
  step until it stops with the suite's error, path and letters. A short
  track is walked end to end, and the one-line test texts are proved to
  give their grids.
 */
module Scenarios {
  import opened Wrappers
  import opened Utils
  import opened Track
  import opened Resolver
  import opened Traverser
  import opened TraverserProperties

  // ---------------------------------------------------------------------------
  // From the test text to the grid

  /** A track written as one line after a leading line break is that line. */
  lemma OneLineText(line: string)
    requires '\n' !in line && '\r' !in line
    ensures Normalize("\n" + line) == [line]
  {
    LeadingBreakDropped([line]);
    assert Join([line], "\n") == line;
    assert Width([line]) == |line|;
    assert Pad(line, |line|) == line;
  }

  /**
    A track written after a leading line break is its lines, each padded
    with spaces to the widest one.
   */
  lemma PaddedText(lines: seq<string>, w: nat)
    requires |lines| >= 1
    requires forall i :: 0 <= i < |lines| ==> '\n' !in lines[i] && '\r' !in lines[i]
    requires Width(lines) == w
    ensures Normalize("\n" + Join(lines, "\n")) == seq(|lines|, i requires 0 <= i < |lines| => Pad(lines[i], w))
  {
    LeadingBreakDropped(lines);
  }

  /** The fake-turn test text gives the one-row grid walked below. */
  lemma FakeTurnText()
    ensures Normalize("\n  @-A-+-B-x") == ["  @-A-+-B-x"]
  {
    OneLineText("  @-A-+-B-x");
  }

  /** The multiple-starting-paths test text gives the one-row grid walked below. */
  lemma TwoWaysFromStartText()
    ensures Normalize("\n  x-B-@-A-x") == ["  x-B-@-A-x"]
  {
    OneLineText("  x-B-@-A-x");
  }

  // ---------------------------------------------------------------------------
  // Start-up failures

  /** A track without `@` fails to start with a missing start. */
  lemma NoStartTrack(g: Grid, s: RunState)
    requires g == ["     -A---+", "          |", "  x-B-+   C", "      |   |", "      +---+"]
    ensures StartState(g, s).errors == [StartNotFound]
    ensures !StartState(g, s).isTraversing
  {
    hide StartState, FirstStart, FirstStartFrom, CountCell, CountInRow, IndexOf;
    assert '@' !in g[0] && '@' !in g[1] && '@' !in g[2] && '@' !in g[3] && '@' !in g[4];
    StartOutcome(g, s);
  }

  /** A track with `@` but no `x` fails to start with a missing end. */
  lemma NoEndTrack(g: Grid, s: RunState)
    requires g == ["   @--A---+", "          |", "    B-+   C", "      |   |", "      +---+"]
    ensures StartState(g, s).errors == [EndNotFound]
    ensures !StartState(g, s).isTraversing
  {
    hide StartState, FirstStart, FirstStartFrom, CountCell, CountInRow, IndexOf;
    assert g[0][3] == '@';
    assert !HasCell(g, 'x') by {
      forall y, x | 0 <= y < |g| && 0 <= x < |g[y]| ensures g[y][x] != 'x' {
        assert g[y][x] in g[y];
        assert 'x' !in g[y] by {
          assert 'x' !in g[0] && 'x' !in g[1] && 'x' !in g[2] && 'x' !in g[3] && 'x' !in g[4];
        }
      }
    }
    StartOutcome(g, s);
  }

  /** A track with two `@` fails to start with multiple starts. */
  lemma TwoStartsTrack(g: Grid, s: RunState)
    requires g == ["   @--A-@-+", "          |", "  x-B-+   C", "      |   |", "      +---+"]
    ensures StartState(g, s).errors == [MultipleStarts]
    ensures !StartState(g, s).isTraversing
  {
    hide StartState, FirstStart, FirstStartFrom, CountCell, CountInRow, IndexOf;
    assert g[0][3] == '@' && g[0][8] == '@' && g[2][2] == 'x';
    TwoCellsCounted(g, '@', Position(3, 0), Position(8, 0));
    StartOutcome(g, s);
  }

  /** Two `@` on different rows, one of them at a dead end, fail to start with multiple starts. */
  lemma MultipleStarts2Track(g: Grid, s: RunState)
    requires g == ["   @--A---+", "          |", "          C", "          x", "      @-B-+"]
    ensures StartState(g, s).errors == [MultipleStarts]
    ensures !StartState(g, s).isTraversing
  {
    hide StartState, FirstStart, FirstStartFrom, CountCell, CountInRow, IndexOf;
    assert g[0][3] == '@' && g[4][6] == '@' && g[3][10] == 'x';
    TwoCellsCounted(g, '@', Position(3, 0), Position(6, 4));
    StartOutcome(g, s);
  }

  /** Two `@` separated by a blank row fail to start with multiple starts. */
  lemma MultipleStarts3Track(g: Grid, s: RunState)
    requires g == ["   @--A--x", "          ", "  x-B-+   ", "      |   ", "      @   "]
    ensures StartState(g, s).errors == [MultipleStarts]
    ensures !StartState(g, s).isTraversing
  {
    hide StartState, FirstStart, FirstStartFrom, CountCell, CountInRow, IndexOf;
    assert g[0][3] == '@' && g[4][6] == '@' && g[0][9] == 'x';
    TwoCellsCounted(g, '@', Position(3, 0), Position(6, 4));
    StartOutcome(g, s);
  }

  // ---------------------------------------------------------------------------
  // Path failures

  /** A step is `Advance` on what `Resolve` answers. */
  lemma StepBy(g: Grid, s: RunState, r: Resolution)
    requires PositionOnGrid(g, s) && s.isTraversing && s.currentPosition.Some?
    requires Resolve(g, s.currentPosition.value, s.direction) == r
    requires r.heading != Idle ==> OnGrid(g, Target(s.currentPosition.value, r.heading))
    ensures StepState(g, s) == Advance(g, s, r)
  {
  }

  /** The `@` of `  x-B-@-A-x` has track on both sides. */
  lemma TwoWaysFromStartFacts(g: Grid)
    requires g == ["  x-B-@-A-x"]
    ensures OnGrid(g, Position(6, 0)) && CellAt(g, Position(6, 0)) == '@'
    ensures !StraightThrough(g, Position(6, 0), Idle)
    ensures IsExit(g, Position(6, 0), Idle, Left) && IsExit(g, Position(6, 0), Idle, Right)
  {
    assert Open(g, Position(5, 0)) && Open(g, Position(7, 0));
  }

  /** So the walker cannot choose where to go from it. */
  lemma TwoWaysFromStart(g: Grid)
    requires g == ["  x-B-@-A-x"]
    ensures Resolve(g, Position(6, 0), Idle) == Resolution(Idle, [MultipleStartingPaths])
  {
    TwoWaysFromStartFacts(g);
    TwoExitsHalt(g, Position(6, 0), Idle, Left, Right);
  }

  /** An `@` with track on both sides stops the first step with multiple starting paths. */
  lemma MultipleStartingPathsTrack(g: Grid, s: RunState)
    requires g == ["  x-B-@-A-x"]
    requires s == RunState(Some(Position(6, 0)), Idle, ['@'], [], [], [], true)
    ensures Inv(g, s)
    ensures StepState(g, s) == s.(direction := Idle, errors := [MultipleStartingPaths], isTraversing := false)
  {
    TwoWaysFromStart(g);
    hide Resolve;
    StepBy(g, s, Resolution(Idle, [MultipleStartingPaths]));
  }

  /** None of the four turning candidates is admissible: none is valid, and no error is recorded. */
  lemma NothingValid(g: Grid, p: Position, d: Direction)
    requires OnGrid(g, p) && !IsStraight(CellAt(g, p))
    requires !Admissible(g, p, d, Left) && !Admissible(g, p, d, Right)
    requires !Admissible(g, p, d, Up) && !Admissible(g, p, d, Down)
    ensures ValidAmong(g, p, d, [Left, Right, Up, Down], 4) == []
    ensures OffGridAmong(g, p, d, [Left, Right, Up, Down], 4) == []
  {
    var cs := [Left, Right, Up, Down];
    assert ValidAmong(g, p, d, cs, 1) == [];
    assert ValidAmong(g, p, d, cs, 2) == [];
    assert ValidAmong(g, p, d, cs, 3) == [];
  }

  /**
    Reaching the `+` of `  @-A-+-B-x` heading right, going back and going on
    are filtered out, and up and down are off the grid.
   */
  lemma FakeTurnFacts(g: Grid)
    requires g == ["  @-A-+-B-x"]
    ensures OnGrid(g, Position(6, 0)) && CellAt(g, Position(6, 0)) == '+'
    ensures !Admissible(g, Position(6, 0), Right, Left) && !Admissible(g, Position(6, 0), Right, Right)
    ensures !Admissible(g, Position(6, 0), Right, Up) && !Admissible(g, Position(6, 0), Right, Down)
    ensures !StraightThrough(g, Position(6, 0), Right)
  {
    assert !OnGrid(g, Position(6, -1)) && !OnGrid(g, Position(6, 1));
  }

  /** So that `+` is a fake turn. */
  lemma FakeTurnAtPlus(g: Grid)
    requires g == ["  @-A-+-B-x"]
    ensures Resolve(g, Position(6, 0), Right) == Resolution(Idle, [FakeTurn])
  {
    FakeTurnFacts(g);
    NothingValid(g, Position(6, 0), Right);
  }

  /** A `+` in a straight line is a fake turn. */
  lemma FakeTurnTrack(g: Grid, s: RunState)
    requires g == ["  @-A-+-B-x"]
    requires s == RunState(Some(Position(6, 0)), Right, "@-A-+", ['A'], [Position(4, 0)], [], true)
    ensures Inv(g, s)
    ensures StepState(g, s) == s.(direction := Idle, errors := [FakeTurn], isTraversing := false)
  {
    FakeTurnAtPlus(g);
    hide Resolve;
    StepBy(g, s, Resolution(Idle, [FakeTurn]));
  }

  /** A `|` on the last row, heading down, leads off the grid and breaks the path. */
  lemma OutOfBoundsTrack(g: Grid, s: RunState)
    requires g == ["   @--A---+", "          |", "          C", "          |", "         x|"]
    requires s == RunState(Some(Position(10, 4)), Down, "@--A---+|C||", ['A', 'C'],
                           [Position(6, 0), Position(10, 2)], [], true)
    ensures Inv(g, s)
    ensures StepState(g, s) == s.(direction := Idle, errors := [OutOfBounds, BrokenPath], isTraversing := false)
  {
    assert !OnGrid(g, Position(10, 5));
    StraightOffGrid(g, Position(10, 4), Down);
    hide Resolve;
    StepBy(g, s, Resolution(Idle, [OutOfBounds, BrokenPath]));
  }

  /** The `+` at the end of the first straight of the fork track has track above and below. */
  lemma TwoWaysAtPlusFacts(g: Grid)
    requires g == ["        x-B", "          |", "   @--A---+", "          |", "     x+   C", "      |   |", "      +---+"]
    ensures OnGrid(g, Position(10, 2)) && CellAt(g, Position(10, 2)) == '+'
    ensures !StraightThrough(g, Position(10, 2), Right)
    ensures IsExit(g, Position(10, 2), Right, Up) && IsExit(g, Position(10, 2), Right, Down)
  {
    assert Open(g, Position(10, 1)) && Open(g, Position(10, 3));
  }

  /** So the walker cannot choose where to go from it. */
  lemma TwoWaysAtPlus(g: Grid)
    requires g == ["        x-B", "          |", "   @--A---+", "          |", "     x+   C", "      |   |", "      +---+"]
    ensures Resolve(g, Position(10, 2), Right) == Resolution(Idle, [Fork])
  {
    TwoWaysAtPlusFacts(g);
    TwoExitsHalt(g, Position(10, 2), Right, Up, Down);
  }

  /** A `+` with track above and below, reached heading right, is a fork. */
  lemma ForkTrack(g: Grid, s: RunState)
    requires g == ["        x-B", "          |", "   @--A---+", "          |", "     x+   C", "      |   |", "      +---+"]
    requires s == RunState(Some(Position(10, 2)), Right, "@--A---+", ['A'], [Position(6, 2)], [], true)
    ensures Inv(g, s)
    ensures StepState(g, s) == s.(direction := Idle, errors := [Fork], isTraversing := false)
  {
    TwoWaysAtPlus(g);
    hide Resolve;
    StepBy(g, s, Resolution(Idle, [Fork]));
  }

  /** Below the `|` of the broken track there is a blank cell. */
  lemma BlankBelowBar(g: Grid)
    requires g == ["    @--A-+  ", "         |  ", "            ", "         B-x"]
    ensures Resolve(g, Position(9, 1), Down) == Resolution(Idle, [BrokenPath])
  {
    var p := Position(9, 1);
    var cs := Candidates('|', Down);
    assert cs == [Down];
    assert OnGrid(g, Position(9, 2)) && !Open(g, Position(9, 2));
    assert !StraightThrough(g, p, Down);
    TryOneMore(g, p, Down, cs, 0);
    assert ValidAmong(g, p, Down, cs, 1) == [];
    assert OffGridAmong(g, p, Down, cs, 1) == [];
  }

  /** A `|` with a blank cell below is a broken path, inside the grid. */
  lemma BrokenPathTrack(g: Grid, s: RunState)
    requires g == ["    @--A-+  ", "         |  ", "            ", "         B-x"]
    requires s == RunState(Some(Position(9, 1)), Down, "@--A-+|", ['A'], [Position(7, 0)], [], true)
    ensures Inv(g, s)
    ensures StepState(g, s) == s.(direction := Idle, errors := [BrokenPath], isTraversing := false)
  {
    BlankBelowBar(g);
    hide Resolve;
    StepBy(g, s, Resolution(Idle, [BrokenPath]));
  }

  // ---------------------------------------------------------------------------
  // Tools for walking a track

  /** A character found in no row but one, and there only at column `p.x`, is at `p` alone. */
  lemma OnlyCellAt(g: Grid, c: char, p: Position)
    requires OnGrid(g, p) && CellAt(g, p) == c
    requires forall y :: 0 <= y < |g| && y != p.y ==> c !in g[y]
    requires c !in g[p.y][..p.x] && c !in g[p.y][p.x + 1..]
    ensures forall q :: OnGrid(g, q) && CellAt(g, q) == c ==> q == p
  {
    forall q | OnGrid(g, q) && q != p
      ensures CellAt(g, q) != c
    {
      if q.y != p.y {
        assert g[q.y][q.x] in g[q.y];
      } else if q.x < p.x {
        assert g[p.y][q.x] == g[p.y][..p.x][q.x];
      } else {
        assert g[p.y][q.x] == g[p.y][p.x + 1..][q.x - p.x - 1];
      }
    }
  }

  /**
    At a cell that turns, a candidate that passes the filters and leads to an
    open cell, when every other candidate is filtered out or leads nowhere,
    is the heading taken, with nothing reported.
   */
  lemma OnlyWayOn(g: Grid, p: Position, d: Direction, c: Direction)
    requires OnGrid(g, p) && !IsStraight(CellAt(g, p)) && (CellAt(g, p) == '+' || d == Idle)
    requires c in [Left, Right, Up, Down] && PassesFilters(CellAt(g, p), d, c) && Open(g, Target(p, c))
    requires c == Left || !PassesFilters(CellAt(g, p), d, Left) || !Open(g, Target(p, Left))
    requires c == Right || !PassesFilters(CellAt(g, p), d, Right) || !Open(g, Target(p, Right))
    requires c == Up || !PassesFilters(CellAt(g, p), d, Up) || !Open(g, Target(p, Up))
    requires c == Down || !PassesFilters(CellAt(g, p), d, Down) || !Open(g, Target(p, Down))
    ensures OnGrid(g, Target(p, c)) && Resolve(g, p, d) == Resolution(c, [])
  {
    assert Candidates(CellAt(g, p), d) == [Left, Right, Up, Down];
    forall k | IsExit(g, p, d, k)
      ensures k == c
    {
      assert k == Left || k == Right || k == Up || k == Down;
    }
    UniqueExitTaken(g, p, d, c);
  }

  /** A step that resolves to a single heading takes it and arrives on the cell it leads to. */
  lemma StepTurnsTo(g: Grid, s: RunState, c: Direction)
    requires PositionOnGrid(g, s) && s.isTraversing && s.currentPosition.Some?
    requires c != Idle && OnGrid(g, Target(s.currentPosition.value, c))
    requires Resolve(g, s.currentPosition.value, s.direction) == Resolution(c, [])
    ensures StepState(g, s) == Arrive(g, s.(direction := c), Target(s.currentPosition.value, c))
  {
    StepBy(g, s, Resolution(c, []));
    assert s.(direction := c, errors := s.errors + []) == s.(direction := c);
  }

  /** An `@` with track to its right alone is left to the right. */
  lemma LeaveToRight(g: Grid, p: Position)
    requires OnGrid(g, p) && CellAt(g, p) == '@'
    requires !Open(g, Position(p.x - 1, p.y)) && Open(g, Position(p.x + 1, p.y))
    requires !Open(g, Position(p.x, p.y - 1)) && !Open(g, Position(p.x, p.y + 1))
    ensures Resolve(g, p, Idle) == Resolution(Right, [])
  {
    OnlyWayOn(g, p, Idle, Right);
  }

  /** A `+` reached heading right, with track below it and none above, turns down. */
  lemma TurnDownAtPlus(g: Grid, p: Position)
    requires OnGrid(g, p) && CellAt(g, p) == '+'
    requires !Open(g, Position(p.x, p.y - 1)) && Open(g, Position(p.x, p.y + 1))
    ensures Resolve(g, p, Right) == Resolution(Down, [])
  {
    OnlyWayOn(g, p, Right, Down);
  }

  // ---------------------------------------------------------------------------
  // Two ways from the start, from the start

  /** `  x-B-@-A-x` starts on its `@`. */
  lemma TwoWaysFromStartStart(g: Grid)
    requires g == ["  x-B-@-A-x"]
    ensures StartState(g, Initial) == RunState(Some(Position(6, 0)), Idle, "@", [], [], [], true)
  {
    assert g[0][2] == 'x';
    assert '@' !in g[0][..6] && '@' !in g[0][7..];
    OnlyCellAt(g, '@', Position(6, 0));
    StartSucceeds(g, Initial, Position(6, 0));
  }

  /** Started and run, `  x-B-@-A-x` stops on its `@` at the first step. */
  lemma TwoWaysFromStartRun(g: Grid)
    requires g == ["  x-B-@-A-x"]
    ensures var t := RunFor(g, StartState(g, Initial), 1);
      t.errors == [MultipleStartingPaths] && !t.isTraversing && t.pathLetters == "@"
  {
    hide StepState, StartState, Resolve, Inv;
    var s0 := RunState(Some(Position(6, 0)), Idle, "@", [], [], [], true);
    var s1 := s0.(direction := Idle, errors := [MultipleStartingPaths], isTraversing := false);
    TwoWaysFromStartStart(g);
    MultipleStartingPathsTrack(g, s0);
    assert RunFor(g, s1, 0) == s1;
    assert RunFor(g, s0, 1) == s1;
  }

  // ---------------------------------------------------------------------------
  // The fake turn, from the start

  /** The track starts on its `@`. */
  lemma FakeTurnStart(g: Grid)
    requires g == ["  @-A-+-B-x"]
    ensures StartState(g, Initial) == RunState(Some(Position(2, 0)), Idle, "@", [], [], [], true)
  {
    assert g[0][10] == 'x';
    assert '@' !in g[0][..2] && '@' !in g[0][3..];
    OnlyCellAt(g, '@', Position(2, 0));
    StartSucceeds(g, Initial, Position(2, 0));
  }

  /** Heading idle, the walker leaves the `@` at (2, 0) to the right. */
  lemma FakeTurnLeaveStart(g: Grid)
    requires g == ["  @-A-+-B-x"]
    ensures Resolve(g, Position(2, 0), Idle) == Resolution(Right, [])
  {
    LeaveToRight(g, Position(2, 0));
  }

  /** Step 1 takes that turn. */
  lemma FakeTurnStep1(g: Grid)
    requires g == ["  @-A-+-B-x"]
    ensures StepState(g, RunState(Some(Position(2, 0)), Idle, "@", "", [], [], true))
         == RunState(Some(Position(3, 0)), Right, "@-", "", [], [], true)
  {
    var s := RunState(Some(Position(2, 0)), Idle, "@", "", [], [], true);
    FakeTurnLeaveStart(g);
    hide Resolve;
    StepTurnsTo(g, s, Right);
    hide StepState;
    assert s.pathLetters + [CellAt(g, Position(3, 0))] == "@-";
  }

  /** Along its straight runs the walker goes straight on. */
  lemma FakeTurnStraight(g: Grid, s: RunState)
    requires g == ["  @-A-+-B-x"]
    requires s.isTraversing
    requires (s.currentPosition == Some(Position(3, 0)) && s.direction == Right)
          || (s.currentPosition == Some(Position(4, 0)) && s.direction == Right)
          || (s.currentPosition == Some(Position(5, 0)) && s.direction == Right)
    ensures StepState(g, s) == Arrive(g, s, Target(s.currentPosition.value, s.direction))
  {
    assert StraightThrough(g, s.currentPosition.value, s.direction);
    hide StepState, Resolve;
    StepStraight(g, s);
  }

  /** Step 2 goes straight on to (4, 0). */
  lemma FakeTurnStep2(g: Grid)
    requires g == ["  @-A-+-B-x"]
    ensures StepState(g, RunState(Some(Position(3, 0)), Right, "@-", "", [], [], true))
         == RunState(Some(Position(4, 0)), Right, "@-A", "A", [Position(4, 0)], [], true)
  {
    var s := RunState(Some(Position(3, 0)), Right, "@-", "", [], [], true);
    FakeTurnStraight(g, s);
    hide StepState, Resolve;
    assert s.pathLetters + [CellAt(g, Position(4, 0))] == "@-A";
  }

  /** Step 3 goes straight on to (5, 0). */
  lemma FakeTurnStep3(g: Grid)
    requires g == ["  @-A-+-B-x"]
    ensures StepState(g, RunState(Some(Position(4, 0)), Right, "@-A", "A", [Position(4, 0)], [], true))
         == RunState(Some(Position(5, 0)), Right, "@-A-", "A", [Position(4, 0)], [], true)
  {
    var s := RunState(Some(Position(4, 0)), Right, "@-A", "A", [Position(4, 0)], [], true);
    FakeTurnStraight(g, s);
    hide StepState, Resolve;
    assert s.pathLetters + [CellAt(g, Position(5, 0))] == "@-A-";
  }

  /** Step 4 goes straight on to (6, 0). */
  lemma FakeTurnStep4(g: Grid)
    requires g == ["  @-A-+-B-x"]
    ensures StepState(g, RunState(Some(Position(5, 0)), Right, "@-A-", "A", [Position(4, 0)], [], true))
         == RunState(Some(Position(6, 0)), Right, "@-A-+", "A", [Position(4, 0)], [], true)
  {
    var s := RunState(Some(Position(5, 0)), Right, "@-A-", "A", [Position(4, 0)], [], true);
    FakeTurnStraight(g, s);
    hide StepState, Resolve;
    assert s.pathLetters + [CellAt(g, Position(6, 0))] == "@-A-+";
  }

  /** Started and run, `  @-A-+-B-x` stops at the `+` with a fake turn. */
  lemma FakeTurnRun(g: Grid)
    requires g == ["  @-A-+-B-x"]
    ensures var t := RunFor(g, StartState(g, Initial), 5);
      t.errors == [FakeTurn] && !t.isTraversing && t.pathLetters == "@-A-+" && t.collectedLetters == "A"
  {
    hide StepState, StartState, Resolve, Inv;
    var s0 := RunState(Some(Position(2, 0)), Idle, "@", "", [], [], true);
    var s1 := RunState(Some(Position(3, 0)), Right, "@-", "", [], [], true);
    var s2 := RunState(Some(Position(4, 0)), Right, "@-A", "A", [Position(4, 0)], [], true);
    var s3 := RunState(Some(Position(5, 0)), Right, "@-A-", "A", [Position(4, 0)], [], true);
    var s4 := RunState(Some(Position(6, 0)), Right, "@-A-+", "A", [Position(4, 0)], [], true);
    var s5 := s4.(direction := Idle, errors := [FakeTurn], isTraversing := false);
    FakeTurnStart(g);
    FakeTurnStep1(g);
    FakeTurnStep2(g);
    FakeTurnStep3(g);
    FakeTurnStep4(g);
    FakeTurnTrack(g, s4);
    assert RunFor(g, s5, 0) == s5;
    assert RunFor(g, s4, 1) == s5;
    assert RunFor(g, s3, 2) == s5;
    assert RunFor(g, s2, 3) == s5;
    assert RunFor(g, s1, 4) == s5;
    assert RunFor(g, s0, 5) == s5;
  }

  // ---------------------------------------------------------------------------
  // The fork, from the start

  /** The track starts on its `@`. */
  lemma ForkStart(g: Grid)
    requires g == ["        x-B", "          |", "   @--A---+", "          |", "     x+   C", "      |   |", "      +---+"]
    ensures StartState(g, Initial) == RunState(Some(Position(3, 2)), Idle, "@", [], [], [], true)
  {
    assert g[0][8] == 'x';
    assert '@' !in g[0] && '@' !in g[1] && '@' !in g[3] && '@' !in g[4] && '@' !in g[5] && '@' !in g[6];
    assert '@' !in g[2][..3] && '@' !in g[2][4..];
    OnlyCellAt(g, '@', Position(3, 2));
    StartSucceeds(g, Initial, Position(3, 2));
  }

  /** Heading idle, the walker leaves the `@` at (3, 2) to the right. */
  lemma ForkLeaveStart(g: Grid)
    requires g == ["        x-B", "          |", "   @--A---+", "          |", "     x+   C", "      |   |", "      +---+"]
    ensures Resolve(g, Position(3, 2), Idle) == Resolution(Right, [])
  {
    LeaveToRight(g, Position(3, 2));
  }

  /** Step 1 takes that turn. */
  lemma ForkStep1(g: Grid)
    requires g == ["        x-B", "          |", "   @--A---+", "          |", "     x+   C", "      |   |", "      +---+"]
    ensures StepState(g, RunState(Some(Position(3, 2)), Idle, "@", "", [], [], true))
         == RunState(Some(Position(4, 2)), Right, "@-", "", [], [], true)
  {
    var s := RunState(Some(Position(3, 2)), Idle, "@", "", [], [], true);
    ForkLeaveStart(g);
    hide Resolve;
    StepTurnsTo(g, s, Right);
    hide StepState;
    assert s.pathLetters + [CellAt(g, Position(4, 2))] == "@-";
  }

  /** Along its straight runs the walker goes straight on. */
  lemma ForkStraight(g: Grid, s: RunState)
    requires g == ["        x-B", "          |", "   @--A---+", "          |", "     x+   C", "      |   |", "      +---+"]
    requires s.isTraversing
    requires (s.currentPosition == Some(Position(4, 2)) && s.direction == Right)
          || (s.currentPosition == Some(Position(5, 2)) && s.direction == Right)
          || (s.currentPosition == Some(Position(6, 2)) && s.direction == Right)
          || (s.currentPosition == Some(Position(7, 2)) && s.direction == Right)
          || (s.currentPosition == Some(Position(8, 2)) && s.direction == Right)
          || (s.currentPosition == Some(Position(9, 2)) && s.direction == Right)
    ensures StepState(g, s) == Arrive(g, s, Target(s.currentPosition.value, s.direction))
  {
    assert StraightThrough(g, s.currentPosition.value, s.direction);
    hide StepState, Resolve;
    StepStraight(g, s);
  }

  /** Step 2 goes straight on to (5, 2). */
  lemma ForkStep2(g: Grid)
    requires g == ["        x-B", "          |", "   @--A---+", "          |", "     x+   C", "      |   |", "      +---+"]
    ensures StepState(g, RunState(Some(Position(4, 2)), Right, "@-", "", [], [], true))
         == RunState(Some(Position(5, 2)), Right, "@--", "", [], [], true)
  {
    var s := RunState(Some(Position(4, 2)), Right, "@-", "", [], [], true);
    ForkStraight(g, s);
    hide StepState, Resolve;
    assert s.pathLetters + [CellAt(g, Position(5, 2))] == "@--";
  }

  /** Step 3 goes straight on to (6, 2). */
  lemma ForkStep3(g: Grid)
    requires g == ["        x-B", "          |", "   @--A---+", "          |", "     x+   C", "      |   |", "      +---+"]
    ensures StepState(g, RunState(Some(Position(5, 2)), Right, "@--", "", [], [], true))
         == RunState(Some(Position(6, 2)), Right, "@--A", "A", [Position(6, 2)], [], true)
  {
    var s := RunState(Some(Position(5, 2)), Right, "@--", "", [], [], true);
    ForkStraight(g, s);
    hide StepState, Resolve;
    assert s.pathLetters + [CellAt(g, Position(6, 2))] == "@--A";
  }

  /** Step 4 goes straight on to (7, 2). */
  lemma ForkStep4(g: Grid)
    requires g == ["        x-B", "          |", "   @--A---+", "          |", "     x+   C", "      |   |", "      +---+"]
    ensures StepState(g, RunState(Some(Position(6, 2)), Right, "@--A", "A", [Position(6, 2)], [], true))
         == RunState(Some(Position(7, 2)), Right, "@--A-", "A", [Position(6, 2)], [], true)
  {
    var s := RunState(Some(Position(6, 2)), Right, "@--A", "A", [Position(6, 2)], [], true);
    ForkStraight(g, s);
    hide StepState, Resolve;
    assert s.pathLetters + [CellAt(g, Position(7, 2))] == "@--A-";
  }

  /** Step 5 goes straight on to (8, 2). */
  lemma ForkStep5(g: Grid)
    requires g == ["        x-B", "          |", "   @--A---+", "          |", "     x+   C", "      |   |", "      +---+"]
    ensures StepState(g, RunState(Some(Position(7, 2)), Right, "@--A-", "A", [Position(6, 2)], [], true))
         == RunState(Some(Position(8, 2)), Right, "@--A--", "A", [Position(6, 2)], [], true)
  {
    var s := RunState(Some(Position(7, 2)), Right, "@--A-", "A", [Position(6, 2)], [], true);
    ForkStraight(g, s);
    hide StepState, Resolve;
    assert s.pathLetters + [CellAt(g, Position(8, 2))] == "@--A--";
  }

  /** Step 6 goes straight on to (9, 2). */
  lemma ForkStep6(g: Grid)
    requires g == ["        x-B", "          |", "   @--A---+", "          |", "     x+   C", "      |   |", "      +---+"]
    ensures StepState(g, RunState(Some(Position(8, 2)), Right, "@--A--", "A", [Position(6, 2)], [], true))
         == RunState(Some(Position(9, 2)), Right, "@--A---", "A", [Position(6, 2)], [], true)
  {
    var s := RunState(Some(Position(8, 2)), Right, "@--A--", "A", [Position(6, 2)], [], true);
    ForkStraight(g, s);
    hide StepState, Resolve;
    assert s.pathLetters + [CellAt(g, Position(9, 2))] == "@--A---";
  }

  /** Step 7 goes straight on to (10, 2). */
  lemma ForkStep7(g: Grid)
    requires g == ["        x-B", "          |", "   @--A---+", "          |", "     x+   C", "      |   |", "      +---+"]
    ensures StepState(g, RunState(Some(Position(9, 2)), Right, "@--A---", "A", [Position(6, 2)], [], true))
         == RunState(Some(Position(10, 2)), Right, "@--A---+", "A", [Position(6, 2)], [], true)
  {
    var s := RunState(Some(Position(9, 2)), Right, "@--A---", "A", [Position(6, 2)], [], true);
    ForkStraight(g, s);
    hide StepState, Resolve;
    assert s.pathLetters + [CellAt(g, Position(10, 2))] == "@--A---+";
  }

  /** Started and run, the fork track stops at its `+` with a fork. */
  lemma ForkRun(g: Grid)
    requires g == ["        x-B", "          |", "   @--A---+", "          |", "     x+   C", "      |   |", "      +---+"]
    ensures var t := RunFor(g, StartState(g, Initial), 8);
      t.errors == [Fork] && !t.isTraversing && t.pathLetters == "@--A---+" && t.collectedLetters == "A"
  {
    hide StepState, StartState, Resolve, Inv;
    var s0 := RunState(Some(Position(3, 2)), Idle, "@", "", [], [], true);
    var s1 := RunState(Some(Position(4, 2)), Right, "@-", "", [], [], true);
    var s2 := RunState(Some(Position(5, 2)), Right, "@--", "", [], [], true);
    var s3 := RunState(Some(Position(6, 2)), Right, "@--A", "A", [Position(6, 2)], [], true);
    var s4 := RunState(Some(Position(7, 2)), Right, "@--A-", "A", [Position(6, 2)], [], true);
    var s5 := RunState(Some(Position(8, 2)), Right, "@--A--", "A", [Position(6, 2)], [], true);
    var s6 := RunState(Some(Position(9, 2)), Right, "@--A---", "A", [Position(6, 2)], [], true);
    var s7 := RunState(Some(Position(10, 2)), Right, "@--A---+", "A", [Position(6, 2)], [], true);
    var s8 := s7.(direction := Idle, errors := [Fork], isTraversing := false);
    ForkStart(g);
    ForkStep1(g);
    ForkStep2(g);
    ForkStep3(g);
    ForkStep4(g);
    ForkStep5(g);
    ForkStep6(g);
    ForkStep7(g);
    ForkTrack(g, s7);
    assert RunFor(g, s8, 0) == s8;
    assert RunFor(g, s7, 1) == s8;
    assert RunFor(g, s6, 2) == s8;
    assert RunFor(g, s5, 3) == s8;
    assert RunFor(g, s4, 4) == s8;
    assert RunFor(g, s3, 5) == s8;
    assert RunFor(g, s2, 6) == s8;
    assert RunFor(g, s1, 7) == s8;
    assert RunFor(g, s0, 8) == s8;
  }

  // ---------------------------------------------------------------------------
  // The broken path, from the start

  /** The track starts on its `@`. */
  lemma BrokenPathStart(g: Grid)
    requires g == ["    @--A-+  ", "         |  ", "            ", "         B-x"]
    ensures StartState(g, Initial) == RunState(Some(Position(4, 0)), Idle, "@", [], [], [], true)
  {
    assert g[3][11] == 'x';
    assert '@' !in g[1] && '@' !in g[2] && '@' !in g[3];
    assert '@' !in g[0][..4] && '@' !in g[0][5..];
    OnlyCellAt(g, '@', Position(4, 0));
    StartSucceeds(g, Initial, Position(4, 0));
  }

  /** Heading idle, the walker leaves the `@` at (4, 0) to the right. */
  lemma BrokenPathLeaveStart(g: Grid)
    requires g == ["    @--A-+  ", "         |  ", "            ", "         B-x"]
    ensures Resolve(g, Position(4, 0), Idle) == Resolution(Right, [])
  {
    LeaveToRight(g, Position(4, 0));
  }

  /** Step 1 takes that turn. */
  lemma BrokenPathStep1(g: Grid)
    requires g == ["    @--A-+  ", "         |  ", "            ", "         B-x"]
    ensures StepState(g, RunState(Some(Position(4, 0)), Idle, "@", "", [], [], true))
         == RunState(Some(Position(5, 0)), Right, "@-", "", [], [], true)
  {
    var s := RunState(Some(Position(4, 0)), Idle, "@", "", [], [], true);
    BrokenPathLeaveStart(g);
    hide Resolve;
    StepTurnsTo(g, s, Right);
    hide StepState;
    assert s.pathLetters + [CellAt(g, Position(5, 0))] == "@-";
  }

  /** Heading right, the walker turns down at the `+` at (9, 0). */
  lemma BrokenPathTurnAt9x0(g: Grid)
    requires g == ["    @--A-+  ", "         |  ", "            ", "         B-x"]
    ensures Resolve(g, Position(9, 0), Right) == Resolution(Down, [])
  {
    TurnDownAtPlus(g, Position(9, 0));
  }

  /** Step 6 takes that turn. */
  lemma BrokenPathStep6(g: Grid)
    requires g == ["    @--A-+  ", "         |  ", "            ", "         B-x"]
    ensures StepState(g, RunState(Some(Position(9, 0)), Right, "@--A-+", "A", [Position(7, 0)], [], true))
         == RunState(Some(Position(9, 1)), Down, "@--A-+|", "A", [Position(7, 0)], [], true)
  {
    var s := RunState(Some(Position(9, 0)), Right, "@--A-+", "A", [Position(7, 0)], [], true);
    BrokenPathTurnAt9x0(g);
    hide Resolve;
    StepTurnsTo(g, s, Down);
    hide StepState;
    assert s.pathLetters + [CellAt(g, Position(9, 1))] == "@--A-+|";
  }

  /** Along its straight runs the walker goes straight on. */
  lemma BrokenPathStraight(g: Grid, s: RunState)
    requires g == ["    @--A-+  ", "         |  ", "            ", "         B-x"]
    requires s.isTraversing
    requires (s.currentPosition == Some(Position(5, 0)) && s.direction == Right)
          || (s.currentPosition == Some(Position(6, 0)) && s.direction == Right)
          || (s.currentPosition == Some(Position(7, 0)) && s.direction == Right)
          || (s.currentPosition == Some(Position(8, 0)) && s.direction == Right)
    ensures StepState(g, s) == Arrive(g, s, Target(s.currentPosition.value, s.direction))
  {
    assert StraightThrough(g, s.currentPosition.value, s.direction);
    hide StepState, Resolve;
    StepStraight(g, s);
  }

  /** Step 2 goes straight on to (6, 0). */
  lemma BrokenPathStep2(g: Grid)
    requires g == ["    @--A-+  ", "         |  ", "            ", "         B-x"]
    ensures StepState(g, RunState(Some(Position(5, 0)), Right, "@-", "", [], [], true))
         == RunState(Some(Position(6, 0)), Right, "@--", "", [], [], true)
  {
    var s := RunState(Some(Position(5, 0)), Right, "@-", "", [], [], true);
    BrokenPathStraight(g, s);
    hide StepState, Resolve;
    assert s.pathLetters + [CellAt(g, Position(6, 0))] == "@--";
  }

  /** Step 3 goes straight on to (7, 0). */
  lemma BrokenPathStep3(g: Grid)
    requires g == ["    @--A-+  ", "         |  ", "            ", "         B-x"]
    ensures StepState(g, RunState(Some(Position(6, 0)), Right, "@--", "", [], [], true))
         == RunState(Some(Position(7, 0)), Right, "@--A", "A", [Position(7, 0)], [], true)
  {
    var s := RunState(Some(Position(6, 0)), Right, "@--", "", [], [], true);
    BrokenPathStraight(g, s);
    hide StepState, Resolve;
    assert s.pathLetters + [CellAt(g, Position(7, 0))] == "@--A";
  }

  /** Step 4 goes straight on to (8, 0). */
  lemma BrokenPathStep4(g: Grid)
    requires g == ["    @--A-+  ", "         |  ", "            ", "         B-x"]
    ensures StepState(g, RunState(Some(Position(7, 0)), Right, "@--A", "A", [Position(7, 0)], [], true))
         == RunState(Some(Position(8, 0)), Right, "@--A-", "A", [Position(7, 0)], [], true)
  {
    var s := RunState(Some(Position(7, 0)), Right, "@--A", "A", [Position(7, 0)], [], true);
    BrokenPathStraight(g, s);
    hide StepState, Resolve;
    assert s.pathLetters + [CellAt(g, Position(8, 0))] == "@--A-";
  }

  /** Step 5 goes straight on to (9, 0). */
  lemma BrokenPathStep5(g: Grid)
    requires g == ["    @--A-+  ", "         |  ", "            ", "         B-x"]
    ensures StepState(g, RunState(Some(Position(8, 0)), Right, "@--A-", "A", [Position(7, 0)], [], true))
         == RunState(Some(Position(9, 0)), Right, "@--A-+", "A", [Position(7, 0)], [], true)
  {
    var s := RunState(Some(Position(8, 0)), Right, "@--A-", "A", [Position(7, 0)], [], true);
    BrokenPathStraight(g, s);
    hide StepState, Resolve;
    assert s.pathLetters + [CellAt(g, Position(9, 0))] == "@--A-+";
  }

  /** Started and run, the broken track stops on its `|` with a broken path. */
  lemma BrokenPathRun(g: Grid)
    requires g == ["    @--A-+  ", "         |  ", "            ", "         B-x"]
    ensures var t := RunFor(g, StartState(g, Initial), 7);
      t.errors == [BrokenPath] && !t.isTraversing && t.pathLetters == "@--A-+|" && t.collectedLetters == "A"
  {
    hide StepState, StartState, Resolve, Inv;
    var s0 := RunState(Some(Position(4, 0)), Idle, "@", "", [], [], true);
    var s1 := RunState(Some(Position(5, 0)), Right, "@-", "", [], [], true);
    var s2 := RunState(Some(Position(6, 0)), Right, "@--", "", [], [], true);
    var s3 := RunState(Some(Position(7, 0)), Right, "@--A", "A", [Position(7, 0)], [], true);
    var s4 := RunState(Some(Position(8, 0)), Right, "@--A-", "A", [Position(7, 0)], [], true);
    var s5 := RunState(Some(Position(9, 0)), Right, "@--A-+", "A", [Position(7, 0)], [], true);
    var s6 := RunState(Some(Position(9, 1)), Down, "@--A-+|", "A", [Position(7, 0)], [], true);
    var s7 := s6.(direction := Idle, errors := [BrokenPath], isTraversing := false);
    BrokenPathStart(g);
    BrokenPathStep1(g);
    BrokenPathStep2(g);
    BrokenPathStep3(g);
    BrokenPathStep4(g);
    BrokenPathStep5(g);
    BrokenPathStep6(g);
    BrokenPathTrack(g, s6);
    assert RunFor(g, s7, 0) == s7;
    assert RunFor(g, s6, 1) == s7;
    assert RunFor(g, s5, 2) == s7;
    assert RunFor(g, s4, 3) == s7;
    assert RunFor(g, s3, 4) == s7;
    assert RunFor(g, s2, 5) == s7;
    assert RunFor(g, s1, 6) == s7;
    assert RunFor(g, s0, 7) == s7;
  }

  // ---------------------------------------------------------------------------
  // The path off the grid, from the start

  /** The track starts on its `@`. */
  lemma OutOfBoundsStart(g: Grid)
    requires g == ["   @--A---+", "          |", "          C", "          |", "         x|"]
    ensures StartState(g, Initial) == RunState(Some(Position(3, 0)), Idle, "@", [], [], [], true)
  {
    assert g[4][9] == 'x';
    assert '@' !in g[1] && '@' !in g[2] && '@' !in g[3] && '@' !in g[4];
    assert '@' !in g[0][..3] && '@' !in g[0][4..];
    OnlyCellAt(g, '@', Position(3, 0));
    StartSucceeds(g, Initial, Position(3, 0));
  }

  /** Heading idle, the walker leaves the `@` at (3, 0) to the right. */
  lemma OutOfBoundsLeaveStart(g: Grid)
    requires g == ["   @--A---+", "          |", "          C", "          |", "         x|"]
    ensures Resolve(g, Position(3, 0), Idle) == Resolution(Right, [])
  {
    LeaveToRight(g, Position(3, 0));
  }

  /** Step 1 takes that turn. */
  lemma OutOfBoundsStep1(g: Grid)
    requires g == ["   @--A---+", "          |", "          C", "          |", "         x|"]
    ensures StepState(g, RunState(Some(Position(3, 0)), Idle, "@", "", [], [], true))
         == RunState(Some(Position(4, 0)), Right, "@-", "", [], [], true)
  {
    var s := RunState(Some(Position(3, 0)), Idle, "@", "", [], [], true);
    OutOfBoundsLeaveStart(g);
    hide Resolve;
    StepTurnsTo(g, s, Right);
    hide StepState;
    assert s.pathLetters + [CellAt(g, Position(4, 0))] == "@-";
  }

  /** Heading right, the walker turns down at the `+` at (10, 0). */
  lemma OutOfBoundsTurnAt10x0(g: Grid)
    requires g == ["   @--A---+", "          |", "          C", "          |", "         x|"]
    ensures Resolve(g, Position(10, 0), Right) == Resolution(Down, [])
  {
    TurnDownAtPlus(g, Position(10, 0));
  }

  /** Step 8 takes that turn. */
  lemma OutOfBoundsStep8(g: Grid)
    requires g == ["   @--A---+", "          |", "          C", "          |", "         x|"]
    ensures StepState(g, RunState(Some(Position(10, 0)), Right, "@--A---+", "A", [Position(6, 0)], [], true))
         == RunState(Some(Position(10, 1)), Down, "@--A---+|", "A", [Position(6, 0)], [], true)
  {
    var s := RunState(Some(Position(10, 0)), Right, "@--A---+", "A", [Position(6, 0)], [], true);
    OutOfBoundsTurnAt10x0(g);
    hide Resolve;
    StepTurnsTo(g, s, Down);
    hide StepState;
    assert s.pathLetters + [CellAt(g, Position(10, 1))] == "@--A---+|";
  }

  /** Along its straight runs the walker goes straight on. */
  lemma OutOfBoundsStraight(g: Grid, s: RunState)
    requires g == ["   @--A---+", "          |", "          C", "          |", "         x|"]
    requires s.isTraversing
    requires (s.currentPosition == Some(Position(4, 0)) && s.direction == Right)
          || (s.currentPosition == Some(Position(5, 0)) && s.direction == Right)
          || (s.currentPosition == Some(Position(6, 0)) && s.direction == Right)
          || (s.currentPosition == Some(Position(7, 0)) && s.direction == Right)
          || (s.currentPosition == Some(Position(8, 0)) && s.direction == Right)
          || (s.currentPosition == Some(Position(9, 0)) && s.direction == Right)
          || (s.currentPosition == Some(Position(10, 1)) && s.direction == Down)
          || (s.currentPosition == Some(Position(10, 2)) && s.direction == Down)
          || (s.currentPosition == Some(Position(10, 3)) && s.direction == Down)
    ensures StepState(g, s) == Arrive(g, s, Target(s.currentPosition.value, s.direction))
  {
    assert StraightThrough(g, s.currentPosition.value, s.direction);
    hide StepState, Resolve;
    StepStraight(g, s);
  }

  /** Step 2 goes straight on to (5, 0). */
  lemma OutOfBoundsStep2(g: Grid)
    requires g == ["   @--A---+", "          |", "          C", "          |", "         x|"]
    ensures StepState(g, RunState(Some(Position(4, 0)), Right, "@-", "", [], [], true))
         == RunState(Some(Position(5, 0)), Right, "@--", "", [], [], true)
  {
    var s := RunState(Some(Position(4, 0)), Right, "@-", "", [], [], true);
    OutOfBoundsStraight(g, s);
    hide StepState, Resolve;
    assert s.pathLetters + [CellAt(g, Position(5, 0))] == "@--";
  }

  /** Step 3 goes straight on to (6, 0). */
  lemma OutOfBoundsStep3(g: Grid)
    requires g == ["   @--A---+", "          |", "          C", "          |", "         x|"]
    ensures StepState(g, RunState(Some(Position(5, 0)), Right, "@--", "", [], [], true))
         == RunState(Some(Position(6, 0)), Right, "@--A", "A", [Position(6, 0)], [], true)
  {
    var s := RunState(Some(Position(5, 0)), Right, "@--", "", [], [], true);
    OutOfBoundsStraight(g, s);
    hide StepState, Resolve;
    assert s.pathLetters + [CellAt(g, Position(6, 0))] == "@--A";
  }

  /** Step 4 goes straight on to (7, 0). */
  lemma OutOfBoundsStep4(g: Grid)
    requires g == ["   @--A---+", "          |", "          C", "          |", "         x|"]
    ensures StepState(g, RunState(Some(Position(6, 0)), Right, "@--A", "A", [Position(6, 0)], [], true))
         == RunState(Some(Position(7, 0)), Right, "@--A-", "A", [Position(6, 0)], [], true)
  {
    var s := RunState(Some(Position(6, 0)), Right, "@--A", "A", [Position(6, 0)], [], true);
    OutOfBoundsStraight(g, s);
    hide StepState, Resolve;
    assert s.pathLetters + [CellAt(g, Position(7, 0))] == "@--A-";
  }

  /** Step 5 goes straight on to (8, 0). */
  lemma OutOfBoundsStep5(g: Grid)
    requires g == ["   @--A---+", "          |", "          C", "          |", "         x|"]
    ensures StepState(g, RunState(Some(Position(7, 0)), Right, "@--A-", "A", [Position(6, 0)], [], true))
         == RunState(Some(Position(8, 0)), Right, "@--A--", "A", [Position(6, 0)], [], true)
  {
    var s := RunState(Some(Position(7, 0)), Right, "@--A-", "A", [Position(6, 0)], [], true);
    OutOfBoundsStraight(g, s);
    hide StepState, Resolve;
    assert s.pathLetters + [CellAt(g, Position(8, 0))] == "@--A--";
  }

  /** Step 6 goes straight on to (9, 0). */
  lemma OutOfBoundsStep6(g: Grid)
    requires g == ["   @--A---+", "          |", "          C", "          |", "         x|"]
    ensures StepState(g, RunState(Some(Position(8, 0)), Right, "@--A--", "A", [Position(6, 0)], [], true))
         == RunState(Some(Position(9, 0)), Right, "@--A---", "A", [Position(6, 0)], [], true)
  {
    var s := RunState(Some(Position(8, 0)), Right, "@--A--", "A", [Position(6, 0)], [], true);
    OutOfBoundsStraight(g, s);
    hide StepState, Resolve;
    assert s.pathLetters + [CellAt(g, Position(9, 0))] == "@--A---";
  }

  /** Step 7 goes straight on to (10, 0). */
  lemma OutOfBoundsStep7(g: Grid)
    requires g == ["   @--A---+", "          |", "          C", "          |", "         x|"]
    ensures StepState(g, RunState(Some(Position(9, 0)), Right, "@--A---", "A", [Position(6, 0)], [], true))
         == RunState(Some(Position(10, 0)), Right, "@--A---+", "A", [Position(6, 0)], [], true)
  {
    var s := RunState(Some(Position(9, 0)), Right, "@--A---", "A", [Position(6, 0)], [], true);
    OutOfBoundsStraight(g, s);
    hide StepState, Resolve;
    assert s.pathLetters + [CellAt(g, Position(10, 0))] == "@--A---+";
  }

  /** Step 9 goes straight on to (10, 2). */
  lemma OutOfBoundsStep9(g: Grid)
    requires g == ["   @--A---+", "          |", "          C", "          |", "         x|"]
    ensures StepState(g, RunState(Some(Position(10, 1)), Down, "@--A---+|", "A", [Position(6, 0)], [], true))
         == RunState(Some(Position(10, 2)), Down, "@--A---+|C", "AC", [Position(6, 0), Position(10, 2)], [], true)
  {
    var s := RunState(Some(Position(10, 1)), Down, "@--A---+|", "A", [Position(6, 0)], [], true);
    OutOfBoundsStraight(g, s);
    hide StepState, Resolve;
    assert s.pathLetters + [CellAt(g, Position(10, 2))] == "@--A---+|C";
  }

  /** Step 10 goes straight on to (10, 3). */
  lemma OutOfBoundsStep10(g: Grid)
    requires g == ["   @--A---+", "          |", "          C", "          |", "         x|"]
    ensures StepState(g, RunState(Some(Position(10, 2)), Down, "@--A---+|C", "AC", [Position(6, 0), Position(10, 2)], [], true))
         == RunState(Some(Position(10, 3)), Down, "@--A---+|C|", "AC", [Position(6, 0), Position(10, 2)], [], true)
  {
    var s := RunState(Some(Position(10, 2)), Down, "@--A---+|C", "AC", [Position(6, 0), Position(10, 2)], [], true);
    OutOfBoundsStraight(g, s);
    hide StepState, Resolve;
    assert s.pathLetters + [CellAt(g, Position(10, 3))] == "@--A---+|C|";
  }

  /** Step 11 goes straight on to (10, 4). */
  lemma OutOfBoundsStep11(g: Grid)
    requires g == ["   @--A---+", "          |", "          C", "          |", "         x|"]
    ensures StepState(g, RunState(Some(Position(10, 3)), Down, "@--A---+|C|", "AC", [Position(6, 0), Position(10, 2)], [], true))
         == RunState(Some(Position(10, 4)), Down, "@--A---+|C||", "AC", [Position(6, 0), Position(10, 2)], [], true)
  {
    var s := RunState(Some(Position(10, 3)), Down, "@--A---+|C|", "AC", [Position(6, 0), Position(10, 2)], [], true);
    OutOfBoundsStraight(g, s);
    hide StepState, Resolve;
    assert s.pathLetters + [CellAt(g, Position(10, 4))] == "@--A---+|C||";
  }

  /** Started and run, the track stops on its bottom `|`: the way on leaves the grid and the path is broken. */
  lemma OutOfBoundsRun(g: Grid)
    requires g == ["   @--A---+", "          |", "          C", "          |", "         x|"]
    ensures var t := RunFor(g, StartState(g, Initial), 12);
      t.errors == [OutOfBounds, BrokenPath] && !t.isTraversing && t.pathLetters == "@--A---+|C||" && t.collectedLetters == "AC"
  {
    hide StepState, StartState, Resolve, Inv;
    var s0 := RunState(Some(Position(3, 0)), Idle, "@", "", [], [], true);
    var s1 := RunState(Some(Position(4, 0)), Right, "@-", "", [], [], true);
    var s2 := RunState(Some(Position(5, 0)), Right, "@--", "", [], [], true);
    var s3 := RunState(Some(Position(6, 0)), Right, "@--A", "A", [Position(6, 0)], [], true);
    var s4 := RunState(Some(Position(7, 0)), Right, "@--A-", "A", [Position(6, 0)], [], true);
    var s5 := RunState(Some(Position(8, 0)), Right, "@--A--", "A", [Position(6, 0)], [], true);
    var s6 := RunState(Some(Position(9, 0)), Right, "@--A---", "A", [Position(6, 0)], [], true);
    var s7 := RunState(Some(Position(10, 0)), Right, "@--A---+", "A", [Position(6, 0)], [], true);
    var s8 := RunState(Some(Position(10, 1)), Down, "@--A---+|", "A", [Position(6, 0)], [], true);
    var s9 := RunState(Some(Position(10, 2)), Down, "@--A---+|C", "AC", [Position(6, 0), Position(10, 2)], [], true);
    var s10 := RunState(Some(Position(10, 3)), Down, "@--A---+|C|", "AC", [Position(6, 0), Position(10, 2)], [], true);
    var s11 := RunState(Some(Position(10, 4)), Down, "@--A---+|C||", "AC", [Position(6, 0), Position(10, 2)], [], true);
    var s12 := s11.(direction := Idle, errors := [OutOfBounds, BrokenPath], isTraversing := false);
    OutOfBoundsStart(g);
    OutOfBoundsStep1(g);
    OutOfBoundsStep2(g);
    OutOfBoundsStep3(g);
    OutOfBoundsStep4(g);
    OutOfBoundsStep5(g);
    OutOfBoundsStep6(g);
    OutOfBoundsStep7(g);
    OutOfBoundsStep8(g);
    OutOfBoundsStep9(g);
    OutOfBoundsStep10(g);
    OutOfBoundsStep11(g);
    OutOfBoundsTrack(g, s11);
    assert RunFor(g, s12, 0) == s12;
    assert RunFor(g, s11, 1) == s12;
    assert RunFor(g, s10, 2) == s12;
    assert RunFor(g, s9, 3) == s12;
    assert RunFor(g, s8, 4) == s12;
    assert RunFor(g, s7, 5) == s12;
    assert RunFor(g, s6, 6) == s12;
    assert RunFor(g, s5, 7) == s12;
    assert RunFor(g, s4, 8) == s12;
    assert RunFor(g, s3, 9) == s12;
    assert RunFor(g, s2, 10) == s12;
    assert RunFor(g, s1, 11) == s12;
    assert RunFor(g, s0, 12) == s12;
  }

  // ---------------------------------------------------------------------------
  // A whole walk, from the start

  /** The track starts on its `@`. */
  lemma ShortTrackStart(g: Grid)
    requires g == ["@-A-x"]
    ensures StartState(g, Initial) == RunState(Some(Position(0, 0)), Idle, "@", [], [], [], true)
  {
    assert g[0][4] == 'x';
    assert '@' !in g[0][..0] && '@' !in g[0][1..];
    OnlyCellAt(g, '@', Position(0, 0));
    StartSucceeds(g, Initial, Position(0, 0));
  }

  /** Heading idle, the walker leaves the `@` at (0, 0) to the right. */
  lemma ShortTrackLeaveStart(g: Grid)
    requires g == ["@-A-x"]
    ensures Resolve(g, Position(0, 0), Idle) == Resolution(Right, [])
  {
    LeaveToRight(g, Position(0, 0));
  }

  /** Step 1 takes that turn. */
  lemma ShortTrackStep1(g: Grid)
    requires g == ["@-A-x"]
    ensures StepState(g, RunState(Some(Position(0, 0)), Idle, "@", "", [], [], true))
         == RunState(Some(Position(1, 0)), Right, "@-", "", [], [], true)
  {
    var s := RunState(Some(Position(0, 0)), Idle, "@", "", [], [], true);
    ShortTrackLeaveStart(g);
    hide Resolve;
    StepTurnsTo(g, s, Right);
    hide StepState;
    assert s.pathLetters + [CellAt(g, Position(1, 0))] == "@-";
  }

  /** Along its straight runs the walker goes straight on. */
  lemma ShortTrackStraight(g: Grid, s: RunState)
    requires g == ["@-A-x"]
    requires s.isTraversing
    requires (s.currentPosition == Some(Position(1, 0)) && s.direction == Right)
          || (s.currentPosition == Some(Position(2, 0)) && s.direction == Right)
          || (s.currentPosition == Some(Position(3, 0)) && s.direction == Right)
    ensures StepState(g, s) == Arrive(g, s, Target(s.currentPosition.value, s.direction))
  {
    assert StraightThrough(g, s.currentPosition.value, s.direction);
    hide StepState, Resolve;
    StepStraight(g, s);
  }

  /** Step 2 goes straight on to (2, 0). */
  lemma ShortTrackStep2(g: Grid)
    requires g == ["@-A-x"]
    ensures StepState(g, RunState(Some(Position(1, 0)), Right, "@-", "", [], [], true))
         == RunState(Some(Position(2, 0)), Right, "@-A", "A", [Position(2, 0)], [], true)
  {
    var s := RunState(Some(Position(1, 0)), Right, "@-", "", [], [], true);
    ShortTrackStraight(g, s);
    hide StepState, Resolve;
    assert s.pathLetters + [CellAt(g, Position(2, 0))] == "@-A";
  }

  /** Step 3 goes straight on to (3, 0). */
  lemma ShortTrackStep3(g: Grid)
    requires g == ["@-A-x"]
    ensures StepState(g, RunState(Some(Position(2, 0)), Right, "@-A", "A", [Position(2, 0)], [], true))
         == RunState(Some(Position(3, 0)), Right, "@-A-", "A", [Position(2, 0)], [], true)
  {
    var s := RunState(Some(Position(2, 0)), Right, "@-A", "A", [Position(2, 0)], [], true);
    ShortTrackStraight(g, s);
    hide StepState, Resolve;
    assert s.pathLetters + [CellAt(g, Position(3, 0))] == "@-A-";
  }

  /** Step 4 goes straight on to (4, 0). */
  lemma ShortTrackStep4(g: Grid)
    requires g == ["@-A-x"]
    ensures StepState(g, RunState(Some(Position(3, 0)), Right, "@-A-", "A", [Position(2, 0)], [], true))
         == RunState(Some(Position(4, 0)), Right, "@-A-x", "A", [Position(2, 0)], [], false)
  {
    var s := RunState(Some(Position(3, 0)), Right, "@-A-", "A", [Position(2, 0)], [], true);
    ShortTrackStraight(g, s);
    hide StepState, Resolve;
    assert s.pathLetters + [CellAt(g, Position(4, 0))] == "@-A-x";
  }

  /** Four steps walk `@-A-x` to its end, collecting `A`, with no error. */
  lemma ShortTrackRun(g: Grid)
    requires g == ["@-A-x"]
    ensures var t := RunFor(g, StartState(g, Initial), 4);
      t.errors == [] && !t.isTraversing && t.pathLetters == "@-A-x" && t.collectedLetters == "A"
  {
    hide StepState, StartState, Resolve, Inv;
    var s0 := RunState(Some(Position(0, 0)), Idle, "@", "", [], [], true);
    var s1 := RunState(Some(Position(1, 0)), Right, "@-", "", [], [], true);
    var s2 := RunState(Some(Position(2, 0)), Right, "@-A", "A", [Position(2, 0)], [], true);
    var s3 := RunState(Some(Position(3, 0)), Right, "@-A-", "A", [Position(2, 0)], [], true);
    var s4 := RunState(Some(Position(4, 0)), Right, "@-A-x", "A", [Position(2, 0)], [], false);
    ShortTrackStart(g);
    ShortTrackStep1(g);
    ShortTrackStep2(g);
    ShortTrackStep3(g);
    ShortTrackStep4(g);
    assert RunFor(g, s4, 0) == s4;
    assert RunFor(g, s3, 1) == s4;
    assert RunFor(g, s2, 2) == s4;
    assert RunFor(g, s1, 3) == s4;
    assert RunFor(g, s0, 4) == s4;
  }
}
