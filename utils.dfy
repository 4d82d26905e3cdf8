/**
  The grid builder `transformMap` (src/utils.ts): raw track text becomes a
  rectangular grid of single-character cells, one row per line, short rows
  padded on the right with spaces.
 */
module Utils {

  /** Index of the first line feed of `text`, or `|text|` when there is none. */
  function LineEnd(text: string): (k: nat)
    ensures k <= |text|
    ensures forall i :: 0 <= i < k ==> text[i] != '\n'
    ensures k < |text| ==> text[k] == '\n'
  {
    if text == [] || text[0] == '\n' then 0 else 1 + LineEnd(text[1..])
  }

  /** A line that was followed by "\r\n" loses the carriage return. */
  function DropCr(line: string): string
  {
    if |line| > 0 && line[|line| - 1] == '\r' then line[..|line| - 1] else line
  }

  /**
    `text.split(/\r?\n/)`: every line feed ends a line, and a carriage return
    just before it belongs to the separator. The last line keeps a trailing
    carriage return, since no line feed follows it.
   */
  function SplitLines(text: string): (lines: seq<string>)
    ensures |lines| >= 1
    decreases |text|
  {
    var k := LineEnd(text);
    if k == |text| then [text]
    else [DropCr(text[..k])] + SplitLines(text[k + 1..])
  }

  /** The lines glued back together with `sep` between consecutive lines. */
  function Join(lines: seq<string>, sep: string): string
    requires |lines| >= 1
  {
    if |lines| == 1 then lines[0] else lines[0] + sep + Join(lines[1..], sep)
  }

  /** The rows of the grid: the lines, without the first one when it is empty. */
  function Rows(text: string): seq<string>
  {
    var lines := SplitLines(text);
    if lines[0] == "" then lines[1..] else lines
  }

  /** `Math.max(...lines.map(l => l.length))`, taken as 0 when there are no lines. */
  function Width(lines: seq<string>): (w: nat)
    ensures forall i :: 0 <= i < |lines| ==> |lines[i]| <= w
    ensures lines != [] ==> exists i :: 0 <= i < |lines| && |lines[i]| == w
    ensures lines == [] ==> w == 0
  {
    if lines == [] then 0
    else
      var w := Width(lines[..|lines| - 1]);
      var last := |lines[|lines| - 1]|;
      if last > w then last else w
  }

  function Spaces(n: nat): (s: string)
    ensures |s| == n
    ensures forall i :: 0 <= i < n ==> s[i] == ' '
  {
    seq(n, _ => ' ')
  }

  /** `line` padded on the right with spaces up to `width` cells. */
  function Pad(line: string, width: nat): (row: string)
    requires |line| <= width
    ensures |row| == width
    ensures line <= row
    ensures forall j :: |line| <= j < width ==> row[j] == ' '
  {
    line + Spaces(width - |line|)
  }

  /** The grid `transformMap` returns for `text`. */
  function Normalize(text: string): seq<seq<char>>
  {
    var rows := Rows(text);
    var w := Width(rows);
    seq(|rows|, i requires 0 <= i < |rows| => Pad(rows[i], w))
  }

  /**
    `transformMap`: split, drop an empty first line (`lines.shift()`), split
    every line into characters, then pad each row cell by cell with ' ' up to
    the widest line.
   */
  method TransformMap(flatMap: string) returns (result: seq<seq<char>>)
    ensures result == Normalize(flatMap)
  {
    var lines := SplitLines(flatMap);
    if lines[0] == "" {
      lines := lines[1..];
    }
    result := lines;
    var numCols := Width(lines);
    for i := 0 to |result|
      invariant |result| == |lines|
      invariant forall k :: 0 <= k < i ==> result[k] == Pad(lines[k], numCols)
      invariant forall k :: i <= k < |result| ==> result[k] == lines[k]
    {
      // result[i][j] = ' ' for every missing cell j < numCols, cell by cell
      var row := result[i];
      for j := 0 to numCols
        invariant |row| == if j < |lines[i]| then |lines[i]| else j
        invariant row == lines[i] + Spaces(|row| - |lines[i]|)
      {
        if j >= |row| {
          SpacesSnoc(|row| - |lines[i]|);
          row := row + [' '];
        }
      }
      assert |lines[i]| <= numCols;
      result := result[i := row];
    }
    assert lines == Rows(flatMap) && numCols == Width(Rows(flatMap));
  }

  /**
    The grid has one row per line; every row is as wide as the widest line,
    starts with its line and is blank after it.
   */
  lemma NormalizeShape(text: string)
    ensures |Normalize(text)| == |Rows(text)|
    ensures forall i :: 0 <= i < |Rows(text)| ==> |Normalize(text)[i]| == Width(Rows(text))
    ensures forall i :: 0 <= i < |Rows(text)| ==> Rows(text)[i] <= Normalize(text)[i]
    ensures forall i, j :: 0 <= i < |Rows(text)| && |Rows(text)[i]| <= j < Width(Rows(text)) ==> Normalize(text)[i][j] == ' '
  {
  }

  /** One more space at the end is one more space. */
  lemma SpacesSnoc(n: nat)
    ensures Spaces(n) + [' '] == Spaces(n + 1)
  {
  }

  /** A line feed right after a line-feed-free prefix ends the first line. */
  lemma LineEndAfter(a: string, b: string)
    requires '\n' !in a
    ensures LineEnd(a + "\n" + b) == |a|
    ensures (a + "\n" + b)[..|a|] == a
    ensures (a + "\n" + b)[|a| + 1..] == b
  {
    var t := a + "\n" + b;
    assert t[|a|] == '\n';
  }

  /** Text without a line feed is one line. */
  lemma LineEndNone(a: string)
    requires '\n' !in a
    ensures LineEnd(a) == |a|
  {
  }

  /** Splitting at the first line feed: the first line, then the rest split. */
  lemma SplitAtBreak(a: string, b: string)
    requires '\n' !in a
    ensures SplitLines(a + "\n" + b) == [DropCr(a)] + SplitLines(b)
  {
    LineEndAfter(a, b);
  }

  /** Joining a line in front of at least one more line puts one separator between them. */
  lemma JoinCons(line: string, rest: seq<string>, sep: string)
    requires |rest| >= 1
    ensures Join([line] + rest, sep) == line + sep + Join(rest, sep)
  {
    assert ([line] + rest)[1..] == rest;
  }

  /** No line that `SplitLines` produces holds a line feed. */
  lemma {:induction false} SplitLinesNoLineFeed(text: string)
    ensures forall i :: 0 <= i < |SplitLines(text)| ==> '\n' !in SplitLines(text)[i]
    decreases |text|
  {
    var k := LineEnd(text);
    if k < |text| {
      var head := text[..k];
      assert '\n' !in head;
      assert '\n' !in DropCr(head);
      SplitLinesNoLineFeed(text[k + 1..]);
    } else {
      assert SplitLines(text) == [text];
    }
  }

  /** Lines joined with "\r\n" split back into exactly those lines. */
  lemma {:induction false} SplitJoinCrlf(lines: seq<string>)
    requires |lines| >= 1
    requires forall i :: 0 <= i < |lines| ==> '\n' !in lines[i]
    ensures SplitLines(Join(lines, "\r\n")) == lines
  {
    if |lines| == 1 {
      LineEndNone(lines[0]);
    } else {
      var rest := Join(lines[1..], "\r\n");
      var a := lines[0] + "\r";
      assert Join(lines, "\r\n") == a + "\n" + rest;
      SplitAtBreak(a, rest);
      assert DropCr(a) == lines[0];
      SplitJoinCrlf(lines[1..]);
    }
  }

  /**
    Lines joined with "\n" split back into exactly those lines, provided no
    line but the last ends in a carriage return (it would be taken for the
    first half of a "\r\n").
   */
  lemma {:induction false} SplitJoinLf(lines: seq<string>)
    requires |lines| >= 1
    requires forall i :: 0 <= i < |lines| ==> '\n' !in lines[i]
    requires forall i :: 0 <= i < |lines| - 1 ==> lines[i] == [] || lines[i][|lines[i]| - 1] != '\r'
    ensures SplitLines(Join(lines, "\n")) == lines
  {
    if |lines| == 1 {
      LineEndNone(lines[0]);
    } else {
      var rest := Join(lines[1..], "\n");
      SplitAtBreak(lines[0], rest);
      assert DropCr(lines[0]) == lines[0];
      SplitJoinLf(lines[1..]);
    }
  }

  /** Without carriage returns, splitting loses nothing: joining restores the text. */
  lemma {:induction false} JoinSplitLf(text: string)
    requires '\r' !in text
    ensures Join(SplitLines(text), "\n") == text
    decreases |text|
  {
    var k := LineEnd(text);
    if k < |text| {
      var head, tail := text[..k], text[k + 1..];
      assert text == head + "\n" + tail;
      assert DropCr(head) == head by {
        assert '\r' !in head;
      }
      SplitAtBreak(head, tail);
      JoinSplitLf(tail);
      JoinCons(head, SplitLines(tail), "\n");
    }
  }

  /** Both "\n" and "\r\n" separate rows: the two spellings give the same grid. */
  lemma CrlfAndLfAgree(lines: seq<string>)
    requires |lines| >= 1
    requires forall i :: 0 <= i < |lines| ==> '\n' !in lines[i] && '\r' !in lines[i]
    ensures Normalize(Join(lines, "\r\n")) == Normalize(Join(lines, "\n"))
  {
    SplitJoinCrlf(lines);
    SplitJoinLf(lines);
  }

  /**
    A track written after a leading line break, as a template literal is:
    the empty first line is dropped and the rows are the written lines.
   */
  lemma LeadingBreakDropped(lines: seq<string>)
    requires |lines| >= 1
    requires forall i :: 0 <= i < |lines| ==> '\n' !in lines[i] && '\r' !in lines[i]
    ensures Rows("\n" + Join(lines, "\n")) == lines
  {
    var joined := Join(lines, "\n");
    SplitJoinLf(lines);
    SplitAtBreak("", joined);
    assert "\n" + joined == "" + "\n" + joined;
    assert SplitLines("\n" + joined) == [""] + lines;
  }

  /** No cell of the grid is a line feed. */
  lemma NoLineFeedCell(text: string, i: nat, j: nat)
    requires i < |Normalize(text)| && j < |Normalize(text)[i]|
    ensures Normalize(text)[i][j] != '\n'
  {
    var row := Rows(text)[i];
    if j < |row| {
      assert Normalize(text)[i][j] == row[j];
      SplitLinesNoLineFeed(text);
      assert row == SplitLines(text)[if SplitLines(text)[0] == "" then i + 1 else i];
    }
  }

  /** Empty text gives a grid without rows. */
  lemma EmptyTextEmptyGrid()
    ensures Normalize("") == []
  {
    assert SplitLines("") == [""];
  }
}
