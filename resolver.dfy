/**
  `findDirection` of src/hooks/useMazeTraverser.ts: which heading to take
  next from a cell.
 */
module Resolver {
  import opened Track

  /** The outcome of `findDirection`: the heading and the errors it records. */
  datatype Resolution = Resolution(heading: Direction, diagnoses: seq<MazeError>)

  /** The headings tried when going straight on is not possible. */
  function Candidates(cell: char, d: Direction): seq<Direction>
  {
    if IsStraight(cell) then [d] else [Left, Right, Up, Down]
  }

  /** Neither a U-turn nor, at a `+`, going straight on. */
  predicate PassesFilters(cell: char, d: Direction, c: Direction)
  {
    !IsReverse(c, d) && !(cell == '+' && c == d)
  }

  /** Candidate `c` leads, from `p` heading `d`, to an open cell. */
  predicate Admissible(g: Grid, p: Position, d: Direction, c: Direction)
    requires OnGrid(g, p)
  {
    PassesFilters(CellAt(g, p), d, c) && Open(g, Target(p, c))
  }

  /** `c` is a way on from `p`: a candidate that is admissible. */
  predicate IsExit(g: Grid, p: Position, d: Direction, c: Direction)
    requires OnGrid(g, p)
  {
    c in Candidates(CellAt(g, p), d) && Admissible(g, p, d, c)
  }

  /** Keep the heading: not at a `+`, moving, and the next cell is open. */
  predicate StraightThrough(g: Grid, p: Position, d: Direction)
    requires OnGrid(g, p)
  {
    CellAt(g, p) != '+' && Open(g, Target(p, d)) && Target(p, d) != p
  }

  /** The admissible candidates among the first `n` of `cs`, in order. */
  function ValidAmong(g: Grid, p: Position, d: Direction, cs: seq<Direction>, n: nat): (valid: seq<Direction>)
    requires OnGrid(g, p) && n <= |cs|
    ensures |valid| <= n
  {
    if n == 0 then []
    else
      var c := cs[n - 1];
      ValidAmong(g, p, d, cs, n - 1) + (if Admissible(g, p, d, c) then [c] else [])
  }

  /** The valid candidates are exactly the admissible ones among those tried. */
  lemma {:induction false} ValidAmongExactly(g: Grid, p: Position, d: Direction, cs: seq<Direction>, n: nat)
    requires OnGrid(g, p) && n <= |cs|
    ensures forall c :: c in ValidAmong(g, p, d, cs, n) <==> c in cs[..n] && Admissible(g, p, d, c)
  {
    if n > 0 {
      var last := cs[n - 1];
      ValidAmongExactly(g, p, d, cs, n - 1);
      assert cs[..n] == cs[..n - 1] + [last];
      forall c ensures c in ValidAmong(g, p, d, cs, n) <==> c in cs[..n] && Admissible(g, p, d, c) {
        assert c in cs[..n] <==> c in cs[..n - 1] || c == last;
      }
    }
  }

  /** Candidate `c` passes the filters but leaves the grid, at a straight segment. */
  predicate LeavesGrid(g: Grid, p: Position, d: Direction, c: Direction)
    requires OnGrid(g, p)
  {
    IsStraight(CellAt(g, p)) && PassesFilters(CellAt(g, p), d, c) && !OnGrid(g, Target(p, c))
  }

  /**
    The `OutOfBounds` errors recorded while trying the first `n` of `cs`: one
    for each candidate that passes the filters but leaves the grid, and only
    at a straight segment.
   */
  function OffGridAmong(g: Grid, p: Position, d: Direction, cs: seq<Direction>, n: nat): (errs: seq<MazeError>)
    requires OnGrid(g, p) && n <= |cs|
    ensures |errs| <= n
    ensures !IsStraight(CellAt(g, p)) ==> errs == []
  {
    if n == 0 then []
    else
      OffGridAmong(g, p, d, cs, n - 1) + (if LeavesGrid(g, p, d, cs[n - 1]) then [OutOfBounds] else [])
  }

  /** Each recorded error is an `OutOfBounds` for a tried candidate that leaves the grid. */
  lemma {:induction false} OffGridAmongExactly(g: Grid, p: Position, d: Direction, cs: seq<Direction>, n: nat)
    requires OnGrid(g, p) && n <= |cs|
    ensures forall e :: e in OffGridAmong(g, p, d, cs, n) ==> e == OutOfBounds
    ensures OffGridAmong(g, p, d, cs, n) != [] ==> exists k :: 0 <= k < n && LeavesGrid(g, p, d, cs[k])
  {
    if n > 0 {
      OffGridAmongExactly(g, p, d, cs, n - 1);
    }
  }

  /** Trying one more candidate extends both lists by what it contributes. */
  lemma TryOneMore(g: Grid, p: Position, d: Direction, cs: seq<Direction>, i: nat)
    requires OnGrid(g, p) && i < |cs|
    ensures ValidAmong(g, p, d, cs, i + 1)
      == ValidAmong(g, p, d, cs, i) + (if Admissible(g, p, d, cs[i]) then [cs[i]] else [])
    ensures OffGridAmong(g, p, d, cs, i + 1)
      == OffGridAmong(g, p, d, cs, i) + (if LeavesGrid(g, p, d, cs[i]) then [OutOfBounds] else [])
  {
  }

  /** The dead-end diagnosis: a `+` with no way on is a fake turn. */
  function DeadEnd(cell: char): MazeError
  {
    if cell == '+' then FakeTurn else BrokenPath
  }

  /** The ambiguity diagnosis: several ways on from the start cell, or a fork. */
  function Ambiguity(cell: char): MazeError
  {
    if cell == '@' then MultipleStartingPaths else Fork
  }

  /** `findDirection`: the heading to take from `p` when arriving with heading `d`. */
  function Resolve(g: Grid, p: Position, d: Direction): Resolution
    requires OnGrid(g, p)
  {
    var cell := CellAt(g, p);
    if StraightThrough(g, p, d) then Resolution(d, [])
    else
      var cs := Candidates(cell, d);
      Decide(cell, ValidAmong(g, p, d, cs, |cs|), OffGridAmong(g, p, d, cs, |cs|))
  }

  /** `Resolve` unfolded: straight on, or a decision on the candidates. */
  lemma ResolveCases(g: Grid, p: Position, d: Direction)
    requires OnGrid(g, p)
    ensures var cs := Candidates(CellAt(g, p), d);
      Resolve(g, p, d)
        == if StraightThrough(g, p, d) then Resolution(d, [])
           else Decide(CellAt(g, p), ValidAmong(g, p, d, cs, |cs|), OffGridAmong(g, p, d, cs, |cs|))
  {
  }

  /**
    A heading other than `Idle` leads to an open cell, is never a U-turn and,
    at a `+`, is never straight on; `Idle` comes with one or two diagnoses and
    is the only result that does.
   */
  lemma ResolveSound(g: Grid, p: Position, d: Direction)
    requires OnGrid(g, p)
    ensures var r := Resolve(g, p, d);
      && (r.heading != Idle <==> r.diagnoses == [])
      && (r.heading != Idle ==> Open(g, Target(p, r.heading)) && !IsReverse(r.heading, d))
      && (r.heading != Idle && CellAt(g, p) == '+' ==> r.heading != d)
      && (r.heading == Idle ==> 1 <= |r.diagnoses| <= 2)
  {
    if !StraightThrough(g, p, d) {
      var cs := Candidates(CellAt(g, p), d);
      var valid := ValidAmong(g, p, d, cs, |cs|);
      ValidAmongExactly(g, p, d, cs, |cs|);
      OffGridAmongExactly(g, p, d, cs, |cs|);
      assert cs[..|cs|] == cs;
      assert |valid| == 1 ==> valid[0] in cs;
    }
  }

  /**
    The decision that closes `findDirection`: a single valid candidate is
    the heading; none is a dead end and several are an ambiguity, both
    reported after the errors recorded while trying the candidates.
   */
  function Decide(cell: char, valid: seq<Direction>, oob: seq<MazeError>): Resolution
  {
    if |valid| == 1 then Resolution(valid[0], oob)
    else if |valid| == 0 then Resolution(Idle, oob + [DeadEnd(cell)])
    else Resolution(Idle, oob + [Ambiguity(cell)])
  }

  /**
    `findDirection` as the hook runs it: the straight-through test, then one
    pass over the candidates that collects the valid ones and records
    `OutOfBounds` for a straight segment leading off the grid, then the
    decision on how many are valid (`Decide`).
   */
  method FindDirection(mazeGrid: Grid, currentPosition: Position, currentDirection: Direction)
    returns (r: Resolution)
    requires OnGrid(mazeGrid, currentPosition)
    ensures r == Resolve(mazeGrid, currentPosition, currentDirection)
  {
    hide Resolve;
    ResolveCases(mazeGrid, currentPosition, currentDirection);
    var p, d := currentPosition, currentDirection;
    var currentValue := mazeGrid[p.y][p.x];
    var shouldTurn := currentValue == '+';
    var goStraight := currentValue == '-' || currentValue == '|';

    if !shouldTurn {
      var optimistic := Position(p.x + d.x, p.y + d.y);
      if 0 <= optimistic.y < |mazeGrid| && 0 <= optimistic.x < |mazeGrid[optimistic.y]| {
        var stepSameDirection := mazeGrid[optimistic.y][optimistic.x];
        if stepSameDirection != ' ' && (optimistic.x != p.x || optimistic.y != p.y) {
          return Resolution(d, []);
        }
      }
    }

    assert !StraightThrough(mazeGrid, p, d);

    var directions := if goStraight then [d] else [Left, Right, Up, Down];
    assert directions == Candidates(currentValue, d);
    var validDirections, errors := TryCandidates(mazeGrid, p, d, directions);
    return Decide(currentValue, validDirections, errors);
  }

  /**
    The candidate loop of `findDirection`: skip a U-turn and, at a `+`, the
    heading kept; keep a candidate that lands on an open cell; at a straight
    segment, record `OutOfBounds` for one that leaves the grid.
   */
  method TryCandidates(mazeGrid: Grid, p: Position, d: Direction, directions: seq<Direction>)
    returns (validDirections: seq<Direction>, errors: seq<MazeError>)
    requires OnGrid(mazeGrid, p)
    ensures validDirections == ValidAmong(mazeGrid, p, d, directions, |directions|)
    ensures errors == OffGridAmong(mazeGrid, p, d, directions, |directions|)
  {
    var currentValue := mazeGrid[p.y][p.x];
    var shouldTurn := currentValue == '+';
    var goStraight := currentValue == '-' || currentValue == '|';
    validDirections, errors := [], [];
    for i := 0 to |directions|
      invariant validDirections == ValidAmong(mazeGrid, p, d, directions, i)
      invariant errors == OffGridAmong(mazeGrid, p, d, directions, i)
    {
      var c := directions[i];
      var n := Position(p.x + c.x, p.y + c.y);
      assert n == Target(p, c);
      TryOneMore(mazeGrid, p, d, directions, i);
      if c.x == -d.x && c.y == -d.y {
        // the heading we came from: no U-turns
        assert !PassesFilters(currentValue, d, c);
      } else if shouldTurn && c == d {
        // a `+` must change heading
        assert !PassesFilters(currentValue, d, c);
      } else if 0 <= n.y < |mazeGrid| && 0 <= n.x < |mazeGrid[n.y]| {
        assert !LeavesGrid(mazeGrid, p, d, c);
        var currentTile := mazeGrid[n.y][n.x];
        if currentTile != ' ' {
          validDirections := validDirections + [c];
        }
      } else if goStraight {
        assert LeavesGrid(mazeGrid, p, d, c);
        errors := errors + [OutOfBounds];
      }
    }
  }

  predicate Distinct(s: seq<Direction>)
  {
    forall i, j :: 0 <= i < j < |s| ==> s[i] != s[j]
  }

  /** A value not yet in a sequence of distinct values can be appended. */
  lemma DistinctSnoc(s: seq<Direction>, c: Direction)
    requires Distinct(s) && c !in s
    ensures Distinct(s + [c])
  {
  }

  /** Among distinct candidates, the valid ones are distinct too. */
  lemma {:induction false} ValidAmongDistinct(g: Grid, p: Position, d: Direction, cs: seq<Direction>, n: nat)
    requires OnGrid(g, p) && n <= |cs|
    requires Distinct(cs)
    ensures Distinct(ValidAmong(g, p, d, cs, n))
  {
    if n > 0 {
      var v := ValidAmong(g, p, d, cs, n - 1);
      ValidAmongDistinct(g, p, d, cs, n - 1);
      ValidAmongExactly(g, p, d, cs, n - 1);
      assert cs[n - 1] !in cs[..n - 1];
      if Admissible(g, p, d, cs[n - 1]) {
        DistinctSnoc(v, cs[n - 1]);
      }
    }
  }

  /**
    What `Resolve` decides when it cannot go straight on: the valid headings
    are exactly the exits, without repeats; a single one is taken with
    nothing reported, none is a dead end reported after the off-grid errors,
    and several are an ambiguity reported alone.
   */
  lemma ExitsDecide(g: Grid, p: Position, d: Direction)
    requires OnGrid(g, p) && !StraightThrough(g, p, d)
    ensures var cell := CellAt(g, p);
      var cs := Candidates(cell, d);
      var valid := ValidAmong(g, p, d, cs, |cs|);
      && (forall c :: c in valid <==> IsExit(g, p, d, c))
      && Distinct(valid)
      && (|valid| == 1 ==> Resolve(g, p, d) == Resolution(valid[0], []))
      && (|valid| == 0 ==> Resolve(g, p, d) == Resolution(Idle, OffGridAmong(g, p, d, cs, |cs|) + [DeadEnd(cell)]))
      && (|valid| >= 2 ==> Resolve(g, p, d) == Resolution(Idle, [Ambiguity(cell)]))
  {
    ValidAreExits(g, p, d);
    OneValidNoneOffGrid(g, p, d);
  }

  /** Without going straight on, the valid headings are exactly the exits, without repeats. */
  lemma ValidAreExits(g: Grid, p: Position, d: Direction)
    requires OnGrid(g, p)
    ensures var cs := Candidates(CellAt(g, p), d);
      var valid := ValidAmong(g, p, d, cs, |cs|);
      && (forall c :: c in valid <==> IsExit(g, p, d, c))
      && Distinct(valid)
  {
    var cs := Candidates(CellAt(g, p), d);
    ValidAmongExactly(g, p, d, cs, |cs|);
    ValidAmongDistinct(g, p, d, cs, |cs|);
    assert cs[..|cs|] == cs;
  }

  /** A single valid heading comes with no off-grid error. */
  lemma OneValidNoneOffGrid(g: Grid, p: Position, d: Direction)
    requires OnGrid(g, p)
    ensures var cs := Candidates(CellAt(g, p), d);
      |ValidAmong(g, p, d, cs, |cs|)| == 1 ==> OffGridAmong(g, p, d, cs, |cs|) == []
  {
    var cell := CellAt(g, p);
    var cs := Candidates(cell, d);
    if IsStraight(cell) && |ValidAmong(g, p, d, cs, |cs|)| == 1 {
      // The one candidate is the heading itself, and it stays on the grid.
      TryOneMore(g, p, d, cs, 0);
      assert !LeavesGrid(g, p, d, d);
    }
  }

  /**
    With no way on, the walker stops: a `+` reports a fake turn, any other
    cell a broken path, after the off-grid errors recorded on the way, so
    as the last diagnosis, and away from a `-` or `|` as the only one.
   */
  lemma DeadEndHalts(g: Grid, p: Position, d: Direction)
    requires OnGrid(g, p) && !StraightThrough(g, p, d)
    requires forall c :: !IsExit(g, p, d, c)
    ensures var cs := Candidates(CellAt(g, p), d);
      Resolve(g, p, d) == Resolution(Idle, OffGridAmong(g, p, d, cs, |cs|) + [DeadEnd(CellAt(g, p))])
    ensures var r := Resolve(g, p, d);
      r.heading == Idle && |r.diagnoses| >= 1 && r.diagnoses[|r.diagnoses| - 1] == DeadEnd(CellAt(g, p))
    ensures !IsStraight(CellAt(g, p)) ==> Resolve(g, p, d) == Resolution(Idle, [DeadEnd(CellAt(g, p))])
  {
    ExitsDecide(g, p, d);
    var cell := CellAt(g, p);
    var cs := Candidates(cell, d);
    forall k | 0 <= k < |cs|
      ensures !Admissible(g, p, d, cs[k])
    {
      assert !IsExit(g, p, d, cs[k]);
    }
    NoneAdmissible(g, p, d, cs, |cs|);
    var oob := OffGridAmong(g, p, d, cs, |cs|);
    assert (oob + [DeadEnd(cell)])[|oob|] == DeadEnd(cell);
  }

  /** A single way on is taken, and nothing is reported. */
  lemma UniqueExitTaken(g: Grid, p: Position, d: Direction, c: Direction)
    requires OnGrid(g, p) && !StraightThrough(g, p, d)
    requires IsExit(g, p, d, c)
    requires forall c' :: IsExit(g, p, d, c') ==> c' == c
    ensures Resolve(g, p, d) == Resolution(c, [])
  {
    ExitsDecide(g, p, d);
    var cs := Candidates(CellAt(g, p), d);
    SingleMember(ValidAmong(g, p, d, cs, |cs|), c);
  }

  /**
    Two ways on stop the walker with a single diagnosis: several starting
    paths at the `@`, a fork anywhere else.
   */
  lemma TwoExitsHalt(g: Grid, p: Position, d: Direction, c1: Direction, c2: Direction)
    requires OnGrid(g, p) && !StraightThrough(g, p, d)
    requires IsExit(g, p, d, c1) && IsExit(g, p, d, c2) && c1 != c2
    ensures Resolve(g, p, d) == Resolution(Idle, [Ambiguity(CellAt(g, p))])
  {
    ExitsDecide(g, p, d);
    var cs := Candidates(CellAt(g, p), d);
    TwoMembers(ValidAmong(g, p, d, cs, |cs|), c1, c2);
  }

  /** When no candidate tried is admissible, none is valid. */
  lemma {:induction false} NoneAdmissible(g: Grid, p: Position, d: Direction, cs: seq<Direction>, n: nat)
    requires OnGrid(g, p) && n <= |cs|
    requires forall k :: 0 <= k < n ==> !Admissible(g, p, d, cs[k])
    ensures ValidAmong(g, p, d, cs, n) == []
  {
    if n > 0 {
      NoneAdmissible(g, p, d, cs, n - 1);
    }
  }

  /** A sequence without repeats whose every element is `c`, and which holds `c`, is `[c]`. */
  lemma SingleMember(s: seq<Direction>, c: Direction)
    requires Distinct(s) && c in s
    requires forall x :: x in s ==> x == c
    ensures s == [c]
  {
    assert s[0] in s && s[|s| - 1] in s;
  }

  /** A sequence holding two different values has at least two elements. */
  lemma TwoMembers(s: seq<Direction>, a: Direction, b: Direction)
    requires a in s && b in s && a != b
    ensures |s| >= 2
  {
  }

  /**
    A `-` or `|` whose next cell, heading on, is off the grid: the walker
    stops, reporting the path leaving the grid and then a broken path.
   */
  lemma StraightOffGrid(g: Grid, p: Position, d: Direction)
    requires OnGrid(g, p) && IsStraight(CellAt(g, p)) && d != Idle
    requires !OnGrid(g, Target(p, d))
    ensures Resolve(g, p, d) == Resolution(Idle, [OutOfBounds, BrokenPath])
  {
    assert LeavesGrid(g, p, d, d);
  }
}
