/**
  What the walker of src/hooks/useMazeTraverser.ts promises over one step,
  over a whole run and at the start.
 */
module TraverserProperties {
  import opened Wrappers
  import opened Track
  import opened Resolver
  import opened Traverser

  // ---------------------------------------------------------------------------
  // One step

  /**
    A halted walker stays put. A running one either stops with at least one
    diagnosis, keeping its place, path and letters; or it moves to an open
    neighbour (never back the way it came), appends that cell to the path,
    and keeps running unless the cell is `x`.
   */
  lemma StepOutcome(g: Grid, s: RunState)
    requires Inv(g, s)
    ensures var t := StepState(g, s);
      && (!s.isTraversing ==> t == s)
      && (s.isTraversing && t.direction == Idle ==>
            && !t.isTraversing && |t.errors| >= 1
            && t.currentPosition == s.currentPosition && t.pathLetters == s.pathLetters
            && t.collectedLetters == s.collectedLetters && t.visited == s.visited)
      && (s.isTraversing && t.direction != Idle ==>
            && t.errors == []
            && t.currentPosition == Some(Target(s.currentPosition.value, t.direction))
            && Open(g, t.currentPosition.value)
            && !IsReverse(t.direction, s.direction)
            && t.pathLetters == s.pathLetters + [CellAt(g, t.currentPosition.value)]
            && (t.isTraversing <==> CellAt(g, t.currentPosition.value) != 'x'))
  {
    if s.isTraversing {
      ResolveSound(g, s.currentPosition.value, s.direction);
    }
  }

  /**
    Stepping onto an uppercase letter credits it unless that coordinate was
    credited before: afterwards the coordinate is among the credited ones,
    and the letters grow by that letter exactly when the coordinate is new.
    Any other cell credits nothing.
   */
  lemma StepCredit(g: Grid, s: RunState)
    requires Inv(g, s) && s.isTraversing
    ensures var t := StepState(g, s);
      t.direction != Idle ==>
        var q := t.currentPosition.value;
        var cell := CellAt(g, q);
        && (IsUppercase(cell) ==> q in t.visited)
        && (IsUppercase(cell) && q !in s.visited ==> t.collectedLetters == s.collectedLetters + [cell])
        && (q in s.visited || !IsUppercase(cell) ==> t.collectedLetters == s.collectedLetters)
  {
    ResolveSound(g, s.currentPosition.value, s.direction);
  }

  /** One step only adds, and at most one cell to the path. */
  lemma StepGrows(g: Grid, s: RunState)
    requires Inv(g, s)
    ensures var t := StepState(g, s);
      && s.pathLetters <= t.pathLetters
      && s.collectedLetters <= t.collectedLetters
      && s.visited <= t.visited
      && s.errors <= t.errors
      && |t.pathLetters| <= |s.pathLetters| + 1
  {
    StepOutcome(g, s);
  }

  /**
    Away from a `+`, a walker whose next cell ahead is open goes straight on:
    it keeps its heading, records nothing and arrives on that cell.
   */
  lemma StepStraight(g: Grid, s: RunState)
    requires PositionOnGrid(g, s) && s.isTraversing && s.currentPosition.Some?
    requires StraightThrough(g, s.currentPosition.value, s.direction)
    ensures StepState(g, s) == Arrive(g, s, Target(s.currentPosition.value, s.direction))
  {
    assert s.(direction := s.direction, errors := s.errors + []) == s;
  }

  /**
    A walker that cannot go straight on and has a single way on turns to it,
    records nothing and arrives on the cell it leads to.
   */
  lemma StepTurn(g: Grid, s: RunState, c: Direction)
    requires PositionOnGrid(g, s) && s.isTraversing && s.currentPosition.Some?
    requires !StraightThrough(g, s.currentPosition.value, s.direction)
    requires IsExit(g, s.currentPosition.value, s.direction, c)
    requires forall c' :: IsExit(g, s.currentPosition.value, s.direction, c') ==> c' == c
    ensures OnGrid(g, Target(s.currentPosition.value, c))
    ensures StepState(g, s) == Arrive(g, s.(direction := c), Target(s.currentPosition.value, c))
  {
    UniqueExitTaken(g, s.currentPosition.value, s.direction, c);
    assert s.(direction := c, errors := s.errors + []) == s.(direction := c);
  }

  // ---------------------------------------------------------------------------
  // A run

  /** Every state of a run satisfies the invariant. */
  lemma {:induction false} RunKeepsInv(g: Grid, s: RunState, fuel: nat)
    requires Inv(g, s)
    ensures Inv(g, RunFor(g, s, fuel))
    decreases fuel
  {
    hide StepState;
    if fuel == 0 || !s.isTraversing {
      assert RunFor(g, s, fuel) == s;
    } else {
      var u := StepState(g, s);
      assert RunFor(g, s, fuel) == RunFor(g, u, fuel - 1);
      StepKeepsInv(g, s);
      RunKeepsInv(g, u, fuel - 1);
    }
  }

  /**
    A run only adds: the path, the letters, the credited coordinates and
    the errors of the earlier state are prefixes of the later ones, the path
    grows by at most one cell per step, and a halted walker stays as it is.
   */
  lemma {:induction false} RunExtends(g: Grid, s: RunState, fuel: nat)
    requires Inv(g, s)
    ensures var t := RunFor(g, s, fuel);
      && s.pathLetters <= t.pathLetters
      && s.collectedLetters <= t.collectedLetters
      && s.visited <= t.visited
      && s.errors <= t.errors
      && |t.pathLetters| <= |s.pathLetters| + fuel
      && (!s.isTraversing ==> t == s)
    decreases fuel
  {
    hide StepState;
    if fuel == 0 || !s.isTraversing {
      assert RunFor(g, s, fuel) == s;
    } else {
      var u := StepState(g, s);
      assert RunFor(g, s, fuel) == RunFor(g, u, fuel - 1);
      StepGrows(g, s);
      StepKeepsInv(g, s);
      RunExtends(g, u, fuel - 1);
    }
  }

  /** A step that halts a running walker ends on `x` with no error, or idle with an error. */
  lemma StepHalts(g: Grid, s: RunState)
    requires Inv(g, s) && s.isTraversing && !StepState(g, s).isTraversing
    ensures var t := StepState(g, s);
      || (t.errors == [] && t.pathLetters != [] && t.pathLetters[|t.pathLetters| - 1] == 'x')
      || (t.errors != [] && t.direction == Idle)
  {
    StepOutcome(g, s);
  }

  /**
    A walk that stops ends either on `x` with no error, or with a heading of
    `Idle` and at least one error.
   */
  lemma {:induction false} RunEnds(g: Grid, s: RunState, fuel: nat)
    requires Inv(g, s) && s.isTraversing
    ensures var t := RunFor(g, s, fuel);
      !t.isTraversing ==>
        || (t.errors == [] && t.pathLetters != [] && t.pathLetters[|t.pathLetters| - 1] == 'x')
        || (t.errors != [] && t.direction == Idle)
    decreases fuel
  {
    hide StepState;
    if fuel == 0 {
      assert RunFor(g, s, fuel) == s;
    } else {
      var u := StepState(g, s);
      assert RunFor(g, s, fuel) == RunFor(g, u, fuel - 1);
      if u.isTraversing {
        StepKeepsInv(g, s);
        RunEnds(g, u, fuel - 1);
      } else {
        StepHalts(g, s);
      }
    }
  }

  // ---------------------------------------------------------------------------
  // The start

  /** `FirstStartFrom` finds the first `@` of rows `y` onwards, in scan order. */
  lemma {:induction false} FirstStartIsFirst(g: Grid, y: nat)
    requires y <= |g|
    ensures var start := FirstStartFrom(g, y);
      && (start.Some? ==> forall q :: OnGrid(g, q) && y <= q.y && Before(q, start.value) ==> CellAt(g, q) != '@')
      && (start.None? ==> forall q :: OnGrid(g, q) && y <= q.y ==> CellAt(g, q) != '@')
    decreases |g| - y
  {
    if y < |g| {
      var x := IndexOf(g[y], '@');
      if x == -1 {
        FirstStartIsFirst(g, y + 1);
        assert forall q :: OnGrid(g, q) && q.y == y ==> CellAt(g, q) in g[y];
      } else {
        assert forall q :: OnGrid(g, q) && q.y == y && q.x < x ==> CellAt(g, q) in g[y][..x];
      }
    }
  }

  /** The row count sees the cell at index `i`, and another one at index `j`. */
  lemma {:induction false} CountInRowSees(row: seq<char>, c: char, i: nat, j: nat)
    requires i < |row| && row[i] == c && j <= |row|
    requires j < |row| ==> i < j && row[j] == c
    ensures CountInRow(row, c) >= (if j < |row| then 2 else 1)
    decreases |row|
  {
    var last := |row| - 1;
    var front := row[..last];
    if j < |row| && j < last {
      CountInRowSees(front, c, i, j);
    } else if j == last {
      CountInRowSees(front, c, i, |front|);
    } else if i < last {
      CountInRowSees(front, c, i, |front|);
    }
  }

  /** The grid count is at least what rows `y1` and, if different, `y2` hold. */
  lemma {:induction false} CountCellSees(g: Grid, c: char, y1: nat, y2: nat)
    requires y1 < |g| && y2 <= |g|
    requires y2 < |g| ==> y1 < y2
    ensures CountCell(g, c) >= CountInRow(g[y1], c) + (if y2 < |g| then CountInRow(g[y2], c) else 0)
    decreases |g|
  {
    var last := |g| - 1;
    var front := g[..last];
    if y2 < |g| && y2 < last {
      CountCellSees(front, c, y1, y2);
    } else if y2 == last {
      CountCellSees(front, c, y1, |front|);
    } else if y1 < last {
      CountCellSees(front, c, y1, |front|);
    }
  }

  /** A row counted once holds `c`; a row counted twice holds it at two indices. */
  lemma {:induction false} CountInRowFinds(row: seq<char>, c: char)
    ensures CountInRow(row, c) >= 1 ==> exists i :: 0 <= i < |row| && row[i] == c
    ensures CountInRow(row, c) >= 2 ==> exists i, j :: 0 <= i < j < |row| && row[i] == c && row[j] == c
    decreases |row|
  {
    if row != [] {
      var last := |row| - 1;
      var front := row[..last];
      CountInRowFinds(front, c);
      if CountInRow(front, c) >= 1 {
        var i :| 0 <= i < |front| && front[i] == c;
        assert row[i] == c;
        if row[last] == c {
          assert row[i] == c && row[last] == c;
        }
      }
      if CountInRow(front, c) >= 2 {
        var i, j :| 0 <= i < j < |front| && front[i] == c && front[j] == c;
        assert row[i] == c && row[j] == c;
      }
      if row[last] == c {
        assert row[last] == c;
      }
    }
  }

  /**
    The converse of `TwoCellsCounted`: a grid counted once holds `c`
    somewhere, and one counted twice holds it in two different cells.
   */
  lemma {:induction false} CountCellFinds(g: Grid, c: char)
    ensures CountCell(g, c) >= 1 ==> exists p :: OnGrid(g, p) && CellAt(g, p) == c
    ensures CountCell(g, c) >= 2 ==>
      exists p, q :: p != q && OnGrid(g, p) && OnGrid(g, q) && CellAt(g, p) == c && CellAt(g, q) == c
    decreases |g|
  {
    if g != [] {
      var last := |g| - 1;
      var front := g[..last];
      var row := g[last];
      CountCellFinds(front, c);
      CountInRowFinds(row, c);
      if CountCell(front, c) >= 1 {
        var p :| OnGrid(front, p) && CellAt(front, p) == c;
        assert OnGrid(g, p) && CellAt(g, p) == c;
        if CountInRow(row, c) >= 1 {
          var i :| 0 <= i < |row| && row[i] == c;
          assert OnGrid(g, Position(i, last)) && CellAt(g, Position(i, last)) == c;
          assert p != Position(i, last);
        }
      }
      if CountCell(front, c) >= 2 {
        var p, q :| p != q && OnGrid(front, p) && OnGrid(front, q) && CellAt(front, p) == c && CellAt(front, q) == c;
        assert OnGrid(g, p) && OnGrid(g, q) && CellAt(g, p) == c && CellAt(g, q) == c;
      }
      if CountInRow(row, c) >= 1 {
        var i :| 0 <= i < |row| && row[i] == c;
        assert OnGrid(g, Position(i, last)) && CellAt(g, Position(i, last)) == c;
      }
      if CountInRow(row, c) >= 2 {
        var i, j :| 0 <= i < j < |row| && row[i] == c && row[j] == c;
        assert OnGrid(g, Position(i, last)) && CellAt(g, Position(i, last)) == c;
        assert OnGrid(g, Position(j, last)) && CellAt(g, Position(j, last)) == c;
      }
    }
  }

  /** Two different cells holding `c` are both counted. */
  lemma TwoCellsCounted(g: Grid, c: char, p: Position, q: Position)
    requires OnGrid(g, p) && OnGrid(g, q) && p != q
    requires CellAt(g, p) == c && CellAt(g, q) == c
    ensures CountCell(g, c) >= 2
  {
    if p.y == q.y {
      var row := g[p.y];
      if p.x < q.x {
        CountInRowSees(row, c, p.x, q.x);
      } else {
        CountInRowSees(row, c, q.x, p.x);
      }
      CountCellSees(g, c, p.y, |g|);
    } else {
      CountInRowSees(g[p.y], c, p.x, |g[p.y]|);
      CountInRowSees(g[q.y], c, q.x, |g[q.y]|);
      if p.y < q.y {
        CountCellSees(g, c, p.y, q.y);
      } else {
        CountCellSees(g, c, q.y, p.y);
      }
    }
  }

  /**
    `startTraversal` forgets the previous run and checks, in this order,
    that there is an `@`, that there is an `x` and that there is only one
    `@`; the first check that fails is the only error, and the walker is
    left halted with an empty path where it stood. When all pass, the walker
    runs from the one `@` of the grid, which is the whole path so far.
   */
  lemma StartOutcome(g: Grid, s: RunState)
    ensures var t := StartState(g, s);
      && t.collectedLetters == [] && t.visited == [] && t.direction == Idle
      && (t.isTraversing <==> t.errors == [])
      && (t.errors == [StartNotFound] <==> !HasCell(g, '@'))
      && (t.errors == [EndNotFound] <==> HasCell(g, '@') && !HasCell(g, 'x'))
      && (t.errors == [MultipleStarts] <==> HasCell(g, '@') && HasCell(g, 'x') && CountCell(g, '@') > 1)
      && (!t.isTraversing ==> |t.errors| == 1 && t.pathLetters == [] && t.currentPosition == s.currentPosition)
      && (t.isTraversing ==>
            && t.currentPosition.Some? && OnGrid(g, t.currentPosition.value)
            && CellAt(g, t.currentPosition.value) == '@'
            && (forall q :: OnGrid(g, q) && CellAt(g, q) == '@' ==> q == t.currentPosition.value)
            && t.pathLetters == ['@'])
  {
    var start := FirstStart(g);
    FirstStartIsFirst(g, 0);
    if start.None? {
      assert !HasCell(g, '@') by {
        assert forall y, x | 0 <= y < |g| && 0 <= x < |g[y]| :: g[y][x] == CellAt(g, Position(x, y));
      }
    } else {
      var p := start.value;
      assert g[p.y][p.x] == '@';
      forall q | OnGrid(g, q) && CellAt(g, q) == '@' && CountCell(g, '@') <= 1
        ensures q == p
      {
        if q != p {
          TwoCellsCounted(g, '@', p, q);
        }
      }
    }
  }

  /**
    A grid with an `x` and a single `@` starts: the walker runs from that
    `@`, which is the whole path, with nothing collected and no error.
   */
  lemma StartSucceeds(g: Grid, s: RunState, p: Position)
    requires OnGrid(g, p) && CellAt(g, p) == '@' && HasCell(g, 'x')
    requires forall q :: OnGrid(g, q) && CellAt(g, q) == '@' ==> q == p
    ensures StartState(g, s) == RunState(Some(p), Idle, ['@'], [], [], [], true)
  {
    FirstStartIsFirst(g, 0);
    CountCellFinds(g, '@');
    assert OnGrid(g, p) && 0 <= p.y && CellAt(g, p) == '@';
  }

  /** Starting twice is starting once, and the previous run leaves no trace but the place. */
  lemma StartResets(g: Grid, s: RunState, s': RunState)
    requires s.currentPosition == s'.currentPosition
    ensures StartState(g, StartState(g, s)) == StartState(g, s)
    ensures StartState(g, s) == StartState(g, s')
  {
  }
}
