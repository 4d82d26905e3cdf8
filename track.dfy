/**
  The shapes the walker of src/hooks/useMazeTraverser.ts works on: the grid,
  positions, headings and the diagnoses it records.

  A grid is a sequence of rows of single-character cells, indexed
  `grid[y][x]` with `x` the column and `y` the row; rows need not have equal
  length.
 */
module Track {

  type Grid = seq<seq<char>>

  /** A cell coordinate: `x` is the column, `y` the row. */
  datatype Position = Position(x: int, y: int)

  type DirectionValue = i: int | -1 <= i <= 1

  /** A heading; `Idle` (0, 0) means "not yet moving" or "no way on". */
  datatype Direction = Direction(x: DirectionValue, y: DirectionValue)

  const Idle := Direction(0, 0)
  const Left := Direction(-1, 0)
  const Right := Direction(1, 0)
  const Up := Direction(0, -1)
  const Down := Direction(0, 1)

  /** One value per diagnosis the walker can record. */
  datatype MazeError =
    | StartNotFound
    | EndNotFound
    | MultipleStarts
    | MultipleStartingPaths
    | Fork
    | BrokenPath
    | FakeTurn
    | OutOfBounds

  /** The message of the `Error` the walker records for each diagnosis. */
  function Message(e: MazeError): string
  {
    match e
    case StartNotFound => "Invalid maze: Start character \"@\" not found."
    case EndNotFound => "Invalid maze: End character \"x\" not found."
    case MultipleStarts => "Invalid maze: Multiple starts \"@\" found."
    case MultipleStartingPaths => "Invalid maze: Multiple starting paths found."
    case Fork => "Invalid maze: Fork in path found."
    case BrokenPath => "Invalid maze: Broken path found."
    case FakeTurn => "Invalid maze: Fake turn found."
    case OutOfBounds => "Invalid maze: Path leades outside bounds."
  }

  predicate OnGrid(g: Grid, p: Position)
  {
    0 <= p.y < |g| && 0 <= p.x < |g[p.y]|
  }

  function CellAt(g: Grid, p: Position): char
    requires OnGrid(g, p)
  {
    g[p.y][p.x]
  }

  /** A blank cell is not part of the track. */
  predicate IsBlank(c: char)
  {
    c == ' '
  }

  /** `/[A-Z]/.test(content)` on a one-character cell. */
  predicate IsUppercase(c: char)
  {
    'A' <= c <= 'Z'
  }

  /** A `-` or `|` segment cannot turn. */
  predicate IsStraight(c: char)
  {
    c == '-' || c == '|'
  }

  function Target(p: Position, d: Direction): Position
  {
    Position(p.x + d.x, p.y + d.y)
  }

  /** `q` is on the grid and is not blank. */
  predicate Open(g: Grid, q: Position)
  {
    OnGrid(g, q) && !IsBlank(CellAt(g, q))
  }

  /** `c` points back the way `d` came (for `d == Idle`, only `Idle` does). */
  predicate IsReverse(c: Direction, d: Direction)
  {
    c.x == -d.x && c.y == -d.y
  }
}
