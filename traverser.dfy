/**
  The walker of src/hooks/useMazeTraverser.ts: `traverse` takes one step
  along the track, `startTraversal` finds the start and resets the run.

  The hook keeps its run state in refs; here they are the fields of class
  `MazeTraverser`, and `RunState` is the same state as a value, so that
  functions (`StepState`, `StartState`, `RunFor`) and lemmas can speak of
  it. The grid is fixed for the life of a walker.
 */
module Traverser {
  import opened Wrappers
  import opened Track
  import opened Resolver

  /** The refs of the hook, except the timer handle. */
  datatype RunState = RunState(
    currentPosition: Option<Position>,
    direction: Direction,
    pathLetters: seq<char>,
    collectedLetters: seq<char>,
    visited: seq<Position>,
    errors: seq<MazeError>,
    isTraversing: bool)

  /** The refs as the hook creates them. */
  const Initial := RunState(None, Idle, [], [], [], [], false)

  predicate PositionOnGrid(g: Grid, s: RunState)
  {
    s.currentPosition.Some? ==> OnGrid(g, s.currentPosition.value)
  }

  /**
    Every collected letter is the uppercase cell of its own coordinate, and
    no coordinate is credited twice.
   */
  predicate LettersInv(g: Grid, collectedLetters: seq<char>, visited: seq<Position>)
  {
    && |collectedLetters| == |visited|
    && (forall i :: 0 <= i < |visited| ==>
          OnGrid(g, visited[i]) && CellAt(g, visited[i]) == collectedLetters[i]
          && IsUppercase(collectedLetters[i]))
    && (forall i, j :: 0 <= i < j < |visited| ==> visited[i] != visited[j])
  }

  /**
    What every reachable state satisfies: the walker stands on the grid; a
    running walker has recorded no error and has a path; the last character
    of the path is the cell the walker stands on; and the letters are
    credited as `LettersInv` says.
   */
  predicate Inv(g: Grid, s: RunState)
  {
    && PositionOnGrid(g, s)
    && (s.isTraversing ==> s.currentPosition.Some? && s.errors == [] && s.pathLetters != [])
    && (s.pathLetters != [] ==>
          s.currentPosition.Some? && s.pathLetters[|s.pathLetters| - 1] == CellAt(g, s.currentPosition.value))
    && LettersInv(g, s.collectedLetters, s.visited)
  }

  /** Crediting an uppercase cell at a fresh coordinate keeps `LettersInv`. */
  lemma CreditKeepsLettersInv(g: Grid, collectedLetters: seq<char>, visited: seq<Position>, q: Position)
    requires LettersInv(g, collectedLetters, visited)
    requires OnGrid(g, q) && IsUppercase(CellAt(g, q)) && q !in visited
    ensures LettersInv(g, collectedLetters + [CellAt(g, q)], visited + [q])
  {
  }

  // ---------------------------------------------------------------------------
  // traverse

  /**
    `traverse`: nothing happens unless the walker is running and placed.
    Otherwise the heading is resolved and its diagnoses recorded; `Idle`
    halts the walker. Else it moves one cell and appends that cell to the
    path; `x` halts it, and an uppercase letter is collected unless its
    coordinate was credited before.
   */
  function StepState(g: Grid, s: RunState): (t: RunState)
    requires PositionOnGrid(g, s)
    ensures PositionOnGrid(g, t)
  {
    if !s.isTraversing || s.currentPosition.None? then s
    else
      var p := s.currentPosition.value;
      ResolveSound(g, p, s.direction);
      Advance(g, s, Resolve(g, p, s.direction))
  }

  /**
    The rest of a step once `findDirection` has answered `r`: its
    diagnoses are recorded and its heading kept; `Idle` halts the walker,
    any other heading moves it.
   */
  function Advance(g: Grid, s: RunState, r: Resolution): (t: RunState)
    requires s.currentPosition.Some?
    requires r.heading != Idle ==> OnGrid(g, Target(s.currentPosition.value, r.heading))
  {
    var decided := s.(direction := r.heading, errors := s.errors + r.diagnoses);
    if r.heading == Idle then decided.(isTraversing := false)
    else Arrive(g, decided, Target(s.currentPosition.value, r.heading))
  }

  /**
    The walker moves onto `q` and appends its cell to the path; `x` halts
    it, and an uppercase letter is collected unless `q` was credited before.
   */
  function Arrive(g: Grid, s: RunState, q: Position): (t: RunState)
    requires OnGrid(g, q)
    ensures t.currentPosition == Some(q)
  {
    var content := CellAt(g, q);
    var moved := s.(currentPosition := Some(q), pathLetters := s.pathLetters + [content]);
    if content == 'x' then moved.(isTraversing := false)
    else if IsUppercase(content) && q !in s.visited then
      moved.(collectedLetters := s.collectedLetters + [content], visited := s.visited + [q])
    else moved
  }

  /** Moving onto a cell keeps the invariant. */
  lemma ArriveKeepsInv(g: Grid, s: RunState, q: Position)
    requires Inv(g, s) && OnGrid(g, q)
    ensures Inv(g, Arrive(g, s, q))
  {
    var content := CellAt(g, q);
    if content != 'x' && IsUppercase(content) && q !in s.visited {
      CreditKeepsLettersInv(g, s.collectedLetters, s.visited, q);
    }
  }

  /** Recording an answer of `findDirection` and acting on it keeps the invariant. */
  lemma AdvanceKeepsInv(g: Grid, s: RunState, r: Resolution)
    requires Inv(g, s) && s.currentPosition.Some?
    requires r.heading != Idle ==> OnGrid(g, Target(s.currentPosition.value, r.heading)) && r.diagnoses == []
    ensures Inv(g, Advance(g, s, r))
  {
    if r.heading != Idle {
      var decided := s.(direction := r.heading, errors := s.errors + r.diagnoses);
      assert Inv(g, decided);
      ArriveKeepsInv(g, decided, Target(s.currentPosition.value, r.heading));
    }
  }

  /** A step keeps the invariant. */
  lemma StepKeepsInv(g: Grid, s: RunState)
    requires Inv(g, s)
    ensures Inv(g, StepState(g, s))
  {
    hide Resolve;
    if s.isTraversing && s.currentPosition.Some? {
      var p := s.currentPosition.value;
      ResolveSound(g, p, s.direction);
      AdvanceKeepsInv(g, s, Resolve(g, p, s.direction));
    }
  }

  /**
    The timer chain of `traverse`: up to `fuel` further steps, stopping
    as soon as the walker halts.
   */
  function RunFor(g: Grid, s: RunState, fuel: nat): (t: RunState)
    requires PositionOnGrid(g, s)
    ensures PositionOnGrid(g, t)
    decreases fuel
  {
    if fuel == 0 || !s.isTraversing then s else RunFor(g, StepState(g, s), fuel - 1)
  }

  // ---------------------------------------------------------------------------
  // startTraversal

  /** `row.indexOf(c)`: the first index holding `c`, or -1. */
  function IndexOf(row: seq<char>, c: char): (k: int)
    ensures -1 <= k < |row|
    ensures k == -1 <==> c !in row
    ensures k >= 0 ==> row[k] == c && c !in row[..k]
  {
    if row == [] then -1
    else if row[0] == c then 0
    else
      var k := IndexOf(row[1..], c);
      if k == -1 then -1
      else
        assert row[..k + 1] == [row[0]] + row[1..][..k];
        k + 1
  }

  /** `q` comes before `p` in the order rows are scanned. */
  predicate Before(q: Position, p: Position)
  {
    q.y < p.y || (q.y == p.y && q.x < p.x)
  }

  /** The first `@` of rows `y` onwards, rows top to bottom, each left to right. */
  function FirstStartFrom(g: Grid, y: nat): (start: Option<Position>)
    requires y <= |g|
    ensures start.Some? ==> OnGrid(g, start.value) && CellAt(g, start.value) == '@' && y <= start.value.y
    decreases |g| - y
  {
    if y == |g| then None
    else
      var x := IndexOf(g[y], '@');
      if x != -1 then Some(Position(x, y)) else FirstStartFrom(g, y + 1)
  }

  function FirstStart(g: Grid): Option<Position>
  {
    FirstStartFrom(g, 0)
  }

  /** Some cell holds `c` (`JSON.stringify(mazeGrid).includes(c)`). */
  predicate HasCell(g: Grid, c: char)
  {
    exists y, x | 0 <= y < |g| && 0 <= x < |g[y]| :: g[y][x] == c
  }

  function CountInRow(row: seq<char>, c: char): nat
  {
    if row == [] then 0
    else CountInRow(row[..|row| - 1], c) + (if row[|row| - 1] == c then 1 else 0)
  }

  /** How many cells hold `c` (`JSON.stringify(mazeGrid).split(c).length - 1`). */
  function CountCell(g: Grid, c: char): nat
  {
    if g == [] then 0 else CountCell(g[..|g| - 1], c) + CountInRow(g[|g| - 1], c)
  }

  /**
    `startTraversal`: forget the previous run, then look for the start. A
    missing `@`, a missing `x` and more than one `@` are reported in that
    order and leave the walker halted where it stood; otherwise it stands on
    the first `@`, which begins the path.
   */
  function StartState(g: Grid, s: RunState): (t: RunState)
    ensures PositionOnGrid(g, s) ==> PositionOnGrid(g, t)
  {
    var reset := s.(collectedLetters := [], pathLetters := [], errors := [], visited := [],
                    isTraversing := true, direction := Idle);
    var start := FirstStart(g);
    if start.None? then reset.(isTraversing := false, errors := [StartNotFound])
    else if !HasCell(g, 'x') then reset.(isTraversing := false, errors := [EndNotFound])
    else if CountCell(g, '@') > 1 then reset.(isTraversing := false, errors := [MultipleStarts])
    else reset.(currentPosition := start, pathLetters := [CellAt(g, start.value)])
  }

  /** Starting keeps the invariant. */
  lemma StartKeepsInv(g: Grid, s: RunState)
    requires Inv(g, s)
    ensures Inv(g, StartState(g, s))
  {
  }

  /** The row-by-row search for the start, as `startTraversal` runs it. */
  method FindStart(mazeGrid: Grid) returns (start: Option<Position>)
    ensures start == FirstStart(mazeGrid)
    ensures start.Some? ==> OnGrid(mazeGrid, start.value) && CellAt(mazeGrid, start.value) == '@'
  {
    for y := 0 to |mazeGrid|
      invariant FirstStart(mazeGrid) == FirstStartFrom(mazeGrid, y)
    {
      var x := IndexOf(mazeGrid[y], '@');
      if x != -1 {
        return Some(Position(x, y));
      }
    }
    return None;
  }

  /** The scan of `visitedRef` for a coordinate credited before. */
  method ScanVisited(visited: seq<Position>, p: Position) returns (alreadyIncludes: bool)
    ensures alreadyIncludes <==> p in visited
  {
    alreadyIncludes := false;
    for i := 0 to |visited|
      invariant p !in visited[..i]
    {
      if visited[i].x == p.x && visited[i].y == p.y {
        alreadyIncludes := true;
        break;
      }
      assert visited[..i + 1] == visited[..i] + [visited[i]];
    }
  }

  /** The hook: its refs as fields, `traverse` and `startTraversal` as methods. */
  class MazeTraverser {
    const mazeGrid: Grid
    var errors: seq<MazeError>
    var isTraversing: bool
    var collectedLetters: seq<char>
    var pathLetters: seq<char>
    var currentPosition: Option<Position>
    var direction: Direction
    var visited: seq<Position>

    function State(): RunState
      reads this
    {
      RunState(currentPosition, direction, pathLetters, collectedLetters, visited, errors, isTraversing)
    }

    ghost predicate Valid()
      reads this
    {
      Inv(mazeGrid, State())
    }

    constructor (mazeGrid: Grid)
      ensures this.mazeGrid == mazeGrid
      ensures State() == Initial
      ensures Valid()
    {
      this.mazeGrid := mazeGrid;
      errors := [];
      isTraversing := false;
      collectedLetters := [];
      pathLetters := [];
      currentPosition := None;
      direction := Idle;
      visited := [];
    }

    /** One step of the walk; see `StepState`. */
    method Traverse()
      requires Valid()
      modifies this
      ensures State() == StepState(mazeGrid, old(State()))
      ensures Valid()
    {
      hide Resolve;
      StepKeepsInv(mazeGrid, State());
      if !isTraversing || currentPosition.None? {
        return;
      }
      var p := currentPosition.value;
      var r := FindDirection(mazeGrid, p, direction);
      ResolveSound(mazeGrid, p, direction);
      errors := errors + r.diagnoses;
      direction := r.heading;
      if direction.x == 0 && direction.y == 0 {
        isTraversing := false;
        return;
      }

      // Move to the next position
      var next := Position(p.x + direction.x, p.y + direction.y);
      assert next == Target(p, r.heading) && OnGrid(mazeGrid, next);
      ghost var decided := State();
      currentPosition := Some(next);
      var content := mazeGrid[next.y][next.x];
      pathLetters := pathLetters + [content];
      if content == 'x' {
        isTraversing := false;
        assert State() == Arrive(mazeGrid, decided, next);
      } else if 'A' <= content <= 'Z' {
        var alreadyIncludes := ScanVisited(visited, next);
        if !alreadyIncludes {
          collectedLetters := collectedLetters + [content];
          visited := visited + [next];
        }
        assert State() == Arrive(mazeGrid, decided, next);
      } else {
        assert State() == Arrive(mazeGrid, decided, next);
      }
    }

    /** Reset and place the walker on the start; see `StartState`. */
    method StartTraversal()
      requires Valid()
      modifies this
      ensures State() == StartState(mazeGrid, old(State()))
      ensures Valid()
    {
      hide Inv;
      hide FirstStartFrom;
      hide CountCell;
      hide HasCell;
      StartKeepsInv(mazeGrid, State());
      collectedLetters := [];
      pathLetters := [];
      errors := [];
      visited := [];
      isTraversing := true;
      direction := Idle;
      var start := FindStart(mazeGrid);
      if start.None? {
        isTraversing := false;
        errors := errors + [StartNotFound];
      } else if !HasCell(mazeGrid, 'x') {
        isTraversing := false;
        errors := errors + [EndNotFound];
      } else if CountCell(mazeGrid, '@') > 1 {
        isTraversing := false;
        errors := errors + [MultipleStarts];
      } else {
        currentPosition := start;
        pathLetters := pathLetters + [mazeGrid[start.value.y][start.value.x]];
      }
    }
  }
}
