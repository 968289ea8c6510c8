/**
  The compatibility matrix of the README: printing a row and reading its cells back, and replacing or
  inserting a row between the two markers of a text.
*/
module CompatMatrix {
  import opened Prelude
  import M = SymbolMapper
  import D = TradeIds

  const MATRIX_START := "<!-- ib-compat-matrix:start -->"
  const MATRIX_END := "<!-- ib-compat-matrix:end -->"

  datatype Error = MissingMarkers | EndBeforeStart

  datatype MatrixRow = MatrixRow(
    date: string, channel: string, gatewayBuild: string, serverVersion: int, maxClientVersion: int,
    atClientCeiling: bool, suite: string, gitSha: string)

  // ---- trimming -------------------------------------------------------------------------------

  predicate IsSpace(c: char) { c == ' ' || c == '\t' || c == '\n' || c == '\r' }

  predicate IsPipe(c: char) { c == '|' }

  predicate IsNewline(c: char) { c == '\n' }

  function TrimLeft(s: string, drop: char -> bool): string {
    if s != "" && drop(s[0]) then TrimLeft(s[1..], drop) else s
  }

  function TrimRight(s: string, drop: char -> bool): string {
    if s != "" && drop(s[|s| - 1]) then TrimRight(s[..|s| - 1], drop) else s
  }

  /** str.strip. */
  function Trim(s: string, drop: char -> bool): string { TrimRight(TrimLeft(s, drop), drop) }

  predicate Trimmed(s: string, drop: char -> bool) {
    s != "" ==> !drop(s[0]) && !drop(s[|s| - 1])
  }

  predicate All(s: string, drop: char -> bool) { forall i :: 0 <= i < |s| ==> drop(s[i]) }

  lemma {:induction false} TrimLeftWrapped(a: string, s: string, drop: char -> bool)
    requires All(a, drop) && (s != "" ==> !drop(s[0]))
    ensures TrimLeft(a + s, drop) == s
  {
    if a == "" {
      assert a + s == s;
    } else {
      assert (a + s)[1..] == a[1..] + s;
      TrimLeftWrapped(a[1..], s, drop);
    }
  }

  lemma {:induction false} TrimRightWrapped(s: string, b: string, drop: char -> bool)
    requires All(b, drop) && (s != "" ==> !drop(s[|s| - 1]))
    ensures TrimRight(s + b, drop) == s
  {
    if b == "" {
      assert s + b == s;
    } else {
      assert (s + b)[..|s + b| - 1] == s + b[..|b| - 1];
      TrimRightWrapped(s, b[..|b| - 1], drop);
    }
  }

  /** Only what was wrapped around comes off. */
  lemma TrimWrapped(a: string, s: string, b: string, drop: char -> bool)
    requires All(a, drop) && All(b, drop) && Trimmed(s, drop)
    ensures Trim(a + s + b, drop) == s
  {
    if s == "" {
      assert a + s + b == (a + b) + "";
      TrimLeftWrapped(a + b, "", drop);
    } else {
      assert a + s + b == a + (s + b);
      TrimLeftWrapped(a, s + b, drop);
      TrimRightWrapped(s, b, drop);
    }
  }

  lemma {:induction false} TrimLeftIsSuffix(s: string, drop: char -> bool)
    ensures var t := TrimLeft(s, drop);
      |t| <= |s| && t == s[|s| - |t|..] && All(s[..|s| - |t|], drop) && (t != "" ==> !drop(t[0]))
  {
    if s != "" && drop(s[0]) { TrimLeftIsSuffix(s[1..], drop); }
  }

  lemma {:induction false} TrimRightIsPrefix(s: string, drop: char -> bool)
    ensures var t := TrimRight(s, drop);
      |t| <= |s| && t == s[..|t|] && All(s[|t|..], drop) && (t != "" ==> !drop(t[|t| - 1]))
  {
    if s != "" && drop(s[|s| - 1]) { TrimRightIsPrefix(s[..|s| - 1], drop); }
  }

  /** What is left is a piece of the string, with nothing to drop at either end. */
  lemma TrimIsPiece(s: string, drop: char -> bool) returns (k: nat)
    ensures var t := Trim(s, drop); k + |t| <= |s| && t == s[k..k + |t|] && Trimmed(t, drop)
  {
    TrimLeftIsSuffix(s, drop);
    var u := TrimLeft(s, drop);
    TrimRightIsPrefix(u, drop);
    k := |s| - |u|;
  }

  // ---- rows -----------------------------------------------------------------------------------

  function Cells(row: MatrixRow): seq<string> {
    [row.date, row.channel, row.gatewayBuild, D.Decimal(row.serverVersion), D.Decimal(row.maxClientVersion),
     if row.atClientCeiling then "yes" else "no", row.suite, row.gitSha]
  }

  function FormatCells(cells: seq<string>): string
    requires |cells| > 0
  {
    "| " + M.Join(cells, " | ") + " |"
  }

  function FormatRow(row: MatrixRow): string { FormatCells(Cells(row)) }

  function TrimEach(parts: seq<string>): (r: seq<string>)
    ensures |r| == |parts|
  {
    seq(|parts|, k requires 0 <= k < |parts| => Trim(parts[k], IsSpace))
  }

  /** The cells that upsert_row reads off a line. */
  function ParseCells(line: string): seq<string> {
    TrimEach(M.Split(Trim(Trim(line, IsSpace), IsPipe), "|"))
  }

  /** A cell that survives printing: trimmed, and without a pipe. */
  predicate PlainCell(c: string) { Trimmed(c, IsSpace) && '|' !in c }

  function Padded(cells: seq<string>): (r: seq<string>)
    ensures |r| == |cells|
  {
    seq(|cells|, k requires 0 <= k < |cells| => " " + cells[k] + " ")
  }

  lemma {:induction false} JoinPadded(cells: seq<string>)
    requires |cells| > 0
    ensures " " + M.Join(cells, " | ") + " " == M.Join(Padded(cells), "|")
  {
    if |cells| > 1 {
      var rest := cells[1..];
      JoinPadded(rest);
      assert Padded(cells)[1..] == Padded(rest);
      calc {
        " " + (cells[0] + " | " + M.Join(rest, " | ")) + " ";
        (" " + cells[0] + " ") + "|" + (" " + M.Join(rest, " | ") + " ");
      }
    }
  }

  lemma {:induction false} SplitJoin(parts: seq<string>, c: char)
    requires |parts| > 0 && forall k :: 0 <= k < |parts| ==> c !in parts[k]
    ensures M.Split(M.Join(parts, [c]), [c]) == parts
  {
    var a := parts[0];
    if |parts| == 1 {
      M.NoneBeforeChar(a, c, |a|);
      assert a[..|a|] == a;
      M.SplitNone(a, [c]);
    } else {
      var rest := M.Join(parts[1..], [c]);
      SplitJoin(parts[1..], c);
      var s := a + [c] + rest;
      M.NoneBeforeChar(s, c, |a|);
      assert s[..|a|] == a;
      M.SplitFirst(a, rest, [c]);
    }
  }

  /** Printed cells read back as they were. */
  lemma CellsRoundTrip(cells: seq<string>)
    requires |cells| > 0 && forall k :: 0 <= k < |cells| ==> PlainCell(cells[k])
    ensures ParseCells(FormatCells(cells)) == cells
  {
    var line, padded := FormatCells(cells), Padded(cells);
    var inner := M.Join(padded, "|");
    JoinPadded(cells);
    assert line == "|" + inner + "|";
    assert line == "" + line + "";
    TrimWrapped("", line, "", IsSpace);
    assert inner[0] == ' ' && inner[|inner| - 1] == ' ' by {
      assert inner == " " + M.Join(cells, " | ") + " ";
    }
    TrimWrapped("|", inner, "|", IsPipe);
    forall k | 0 <= k < |padded| ensures '|' !in padded[k] && Trim(padded[k], IsSpace) == cells[k] {
      assert PlainCell(cells[k]);
      TrimWrapped(" ", cells[k], " ", IsSpace);
    }
    SplitJoin(padded, '|');
  }

  // ---- lines ----------------------------------------------------------------------------------

  /** Whether a line is a row of this channel and build. */
  predicate HasKey(line: string, channel: string, build: string) {
    var cells := ParseCells(line);
    |cells| > 2 && cells[1] == channel && cells[2] == build
  }

  /** The first line behind the two header lines with the row's key, or the number of lines. */
  function RowIndex(lines: seq<string>, row: MatrixRow, i: nat): (r: nat)
    requires i <= |lines|
    ensures i <= r <= |lines|
    ensures r < |lines| ==> HasKey(lines[r], row.channel, row.gatewayBuild)
    ensures forall k :: i <= k < r ==> !HasKey(lines[k], row.channel, row.gatewayBuild)
    decreases |lines| - i
  {
    if i == |lines| || HasKey(lines[i], row.channel, row.gatewayBuild) then i else RowIndex(lines, row, i + 1)
  }

  /** lines.insert(2, line): at the end when there are fewer than two. */
  function InsertAtTwo(lines: seq<string>, line: string): seq<string> {
    if |lines| < 2 then lines + [line] else lines[..2] + [line] + lines[2..]
  }

  function UpsertLines(lines: seq<string>, row: MatrixRow): seq<string> {
    var i := if |lines| < 2 then |lines| else RowIndex(lines, row, 2);
    if i < |lines| then lines[i := FormatRow(row)] else InsertAtTwo(lines, FormatRow(row))
  }

  /** The search loop of upsert_row with its for/else. */
  method UpsertLinesLoop(lines: seq<string>, row: MatrixRow) returns (r: seq<string>)
    ensures r == UpsertLines(lines, row)
  {
    var newLine := FormatRow(row);
    var i := 2;
    while i < |lines|
      invariant i >= 2 && (|lines| >= 2 ==> i <= |lines| && RowIndex(lines, row, 2) == RowIndex(lines, row, i))
    {
      var cells := ParseCells(lines[i]);
      if |cells| > 2 && cells[1] == row.channel && cells[2] == row.gatewayBuild {
        return lines[i := newLine];
      }
      i := i + 1;
    }
    return InsertAtTwo(lines, newLine);
  }

  /** A row whose cells survive printing. */
  ghost predicate PlainRow(row: MatrixRow) {
    PlainCell(row.date) && PlainCell(row.channel) && PlainCell(row.gatewayBuild) && PlainCell(row.suite) && PlainCell(row.gitSha)
  }

  lemma NumberCell(n: int)
    ensures PlainCell(D.Decimal(n))
  {
    var m: nat := if n < 0 then -n else n;
    NumberChars(m);
    D.DigitsPlain(m);
  }

  lemma {:induction false} NumberChars(n: nat)
    ensures forall i :: 0 <= i < |D.Digits(n)| ==> !IsSpace(D.Digits(n)[i]) && D.Digits(n)[i] != '|'
  {
    if n >= 10 { NumberChars(n / 10); }
  }

  /** A plain row is found under its own channel and build, and under no other pair of them. */
  lemma RowHasItsKey(row: MatrixRow, channel: string, build: string)
    requires PlainRow(row)
    ensures HasKey(FormatRow(row), channel, build) <==> channel == row.channel && build == row.gatewayBuild
  {
    hide ParseCells, FormatRow, PlainRow;
    RowReadsBack(row);
  }

  /** Every field of a printed row reads back from its own column. */
  lemma RowReadsBack(row: MatrixRow)
    requires PlainRow(row)
    ensures var cells := ParseCells(FormatRow(row));
      && |cells| == 8 && cells[0] == row.date && cells[1] == row.channel && cells[2] == row.gatewayBuild
      && cells[3] == D.Decimal(row.serverVersion) && cells[4] == D.Decimal(row.maxClientVersion)
      && cells[5] == (if row.atClientCeiling then "yes" else "no") && cells[6] == row.suite && cells[7] == row.gitSha
  {
    hide PlainCell, D.Decimal, ParseCells, FormatCells;
    NumberCell(row.serverVersion);
    NumberCell(row.maxClientVersion);
    assert PlainCell("yes") && PlainCell("no") by { YesNoCells(); }
    CellsRoundTrip(Cells(row));
  }

  lemma YesNoCells()
    ensures PlainCell("yes") && PlainCell("no")
  {
  }

  /** Upserting twice is upserting once, if and only if the two header lines are there. */
  lemma LinesIdempotentExactly(lines: seq<string>, row: MatrixRow)
    requires PlainRow(row)
    ensures UpsertLines(UpsertLines(lines, row), row) == UpsertLines(lines, row) <==> |lines| >= 2
  {
    hide HasKey, FormatRow, PlainRow;
    RowHasItsKey(row, row.channel, row.gatewayBuild);
    var once := UpsertLines(lines, row);
    if |lines| >= 2 {
      var i := RowIndex(lines, row, 2);
      if i < |lines| {
        forall k | 2 <= k < i ensures !HasKey(once[k], row.channel, row.gatewayBuild) { assert once[k] == lines[k]; }
        assert once[i] == FormatRow(row);
        assert RowIndex(once, row, 2) == i;
        assert once[i := FormatRow(row)] == once;
      } else {
        assert once[2] == FormatRow(row);
        assert RowIndex(once, row, 2) == 2;
        assert once[2 := FormatRow(row)] == once;
      }
    } else {
      assert |once| == |lines| + 1;
      assert |UpsertLines(once, row)| == |lines| + 2;
    }
  }

  /** The header and all other rows stay, in order: one line is replaced or one is inserted. */
  lemma OthersKeepOrder(lines: seq<string>, row: MatrixRow) returns (i: nat)
    requires |lines| >= 2
    ensures var r := UpsertLines(lines, row);
      && 2 <= i < |r| && r[i] == FormatRow(row) && r[..i] == lines[..i]
      && (forall k :: 2 <= k < i ==> !HasKey(lines[k], row.channel, row.gatewayBuild))
      && (if |r| == |lines| then r[i + 1..] == lines[i + 1..] && HasKey(lines[i], row.channel, row.gatewayBuild)
          else i == 2 && r[i + 1..] == lines[i..] && |r| == |lines| + 1
               && forall k :: 2 <= k < |lines| ==> !HasKey(lines[k], row.channel, row.gatewayBuild))
  {
    hide HasKey, FormatRow;
    i := RowIndex(lines, row, 2);
    if i == |lines| { i := 2; }
  }

  // ---- the whole text -------------------------------------------------------------------------

  predicate At(s: string, pat: string, i: nat) { i + |pat| <= |s| && s[i..i + |pat|] == pat }

  /** str.find: the first place where the pattern stands, at or behind i. */
  function Find(s: string, pat: string, i: nat): (r: Option<nat>)
    ensures r.Some? ==> i <= r.value && At(s, pat, r.value) && forall j :: i <= j < r.value ==> !At(s, pat, j)
    ensures r.None? ==> forall j :: i <= j ==> !At(s, pat, j)
    decreases |s| - i
  {
    if At(s, pat, i) then Some(i)
    else if i >= |s| then None
    else Find(s, pat, i + 1)
  }

  ghost predicate Occurs(s: string, pat: string) { exists i: nat :: At(s, pat, i) }

  /** splitlines of a text that neither begins nor ends with a newline. */
  function Lines(s: string): seq<string> { if s == "" then [] else M.Split(s, "\n") }

  function JoinLines(lines: seq<string>): string { if lines == [] then "" else M.Join(lines, "\n") }

  /** upsert_row. */
  function Upsert(text: string, row: MatrixRow): Result<string, Error> {
    var start, end := Find(text, MATRIX_START, 0), Find(text, MATRIX_END, 0);
    if start.None? || end.None? then Err(MissingMarkers)
    else if end.value < start.value then Err(EndBeforeStart)
    else
      var bodyStart := start.value + |MATRIX_START|;
      var body := if end.value < bodyStart then "" else text[bodyStart..end.value];
      Ok(Around(text[..bodyStart], UpsertLines(Lines(Trim(body, IsNewline)), row), text[end.value..]))
  }

  function Around(before: string, lines: seq<string>, after: string): string {
    before + "\n" + JoinLines(lines) + "\n" + after
  }

  /** The table lines that upsert_row works on. */
  function BodyLines(text: string): seq<string> {
    var start, end := Find(text, MATRIX_START, 0), Find(text, MATRIX_END, 0);
    if start.None? || end.None? || end.value < start.value + |MATRIX_START| then []
    else Lines(Trim(text[start.value + |MATRIX_START|..end.value], IsNewline))
  }

  /** When upsert_row refuses: a marker is missing, or the first end marker stands before the first start marker. */
  lemma UpsertFailsExactly(text: string, row: MatrixRow)
    ensures Upsert(text, row) == Err(MissingMarkers) <==> !Occurs(text, MATRIX_START) || !Occurs(text, MATRIX_END)
    ensures Upsert(text, row) == Err(EndBeforeStart) <==>
      && Occurs(text, MATRIX_START) && Occurs(text, MATRIX_END)
      && exists e: nat :: At(text, MATRIX_END, e) && forall s: nat :: s <= e ==> !At(text, MATRIX_START, s)
  {
    hide Around, UpsertLines, Lines, Trim;
    var start, end := Find(text, MATRIX_START, 0), Find(text, MATRIX_END, 0);
    if Occurs(text, MATRIX_START) { var i: nat :| At(text, MATRIX_START, i); assert start.Some?; }
    if Occurs(text, MATRIX_END) { var i: nat :| At(text, MATRIX_END, i); assert end.Some?; }
    if start.Some? && end.Some? && end.value < start.value {
      assert At(text, MATRIX_END, end.value) && forall s: nat :: s <= end.value ==> !At(text, MATRIX_START, s);
    }
    if start.Some? && end.Some? && start.value == end.value { MarkersDiffer(text, start.value); }
  }

  lemma MarkersDiffer(text: string, i: nat)
    requires At(text, MATRIX_START, i)
    ensures !At(text, MATRIX_END, i)
  {
    assert MATRIX_START[22] != MATRIX_END[22];
    assert text[i..i + |MATRIX_START|][22] == text[i + 22];
  }

  lemma NoNewlineInMarkers()
    ensures '\n' !in MATRIX_END && '\n' !in MATRIX_START && |MATRIX_END| > 0
  {
  }

  lemma SliceOfSlice(s: string, b: nat, e: nat, i: nat, j: nat)
    requires b <= e <= |s| && i <= j <= e - b
    ensures s[b..e][i..j] == s[b + i..b + j]
  {
    forall m | 0 <= m < j - i ensures s[b..e][i..j][m] == s[b + i..b + j][m] {}
  }

  /** What stands in a piece of a text stands in the text. */
  lemma InPiece(text: string, o: nat, piece: string, pat: string, i: nat)
    requires o + |piece| <= |text| && text[o..o + |piece|] == piece
    ensures At(piece, pat, i) ==> At(text, pat, o + i)
  {
    if At(piece, pat, i) {
      SliceOfSlice(text, o, o + |piece|, i, i + |pat|);
    }
  }

  /** A pattern without newline that stands in two joined texts stands in one of them. */
  lemma OccursInOne(a: string, b: string, pat: string, i: nat)
    requires '\n' !in pat && |pat| > 0 && At(a + "\n" + b, pat, i)
    ensures At(a, pat, i) || (i > |a| && At(b, pat, i - |a| - 1))
  {
    var s := a + "\n" + b;
    assert s[|a|] == '\n';
    forall m | i <= m < i + |pat| ensures s[m] != '\n' { assert s[i..i + |pat|][m - i] == pat[m - i]; }
    if i + |pat| <= |a| {
      assert s[i..i + |pat|] == a[i..i + |pat|];
    }
    if i > |a| {
      assert s[i..i + |pat|] == b[i - |a| - 1..i - |a| - 1 + |pat|];
    }
  }

  lemma {:induction false} OccursInLine(lines: seq<string>, pat: string, i: nat) returns (k: nat)
    requires '\n' !in pat && |pat| > 0 && lines != [] && At(M.Join(lines, "\n"), pat, i)
    ensures k < |lines| && Occurs(lines[k], pat)
  {
    if |lines| == 1 {
      k := 0;
      assert At(lines[0], pat, i);
    } else {
      var rest := M.Join(lines[1..], "\n");
      OccursInOne(lines[0], rest, pat, i);
      if At(lines[0], pat, i) {
        k := 0;
      } else {
        var j := OccursInLine(lines[1..], pat, i - |lines[0]| - 1);
        k := j + 1;
      }
    }
  }

  lemma {:induction false} LineInJoin(lines: seq<string>, pat: string, k: nat)
    requires k < |lines| && Occurs(lines[k], pat)
    ensures Occurs(M.Join(lines, "\n"), pat)
  {
    var i: nat :| At(lines[k], pat, i);
    var s := M.Join(lines, "\n");
    if |lines| == 1 {
      assert At(s, pat, i);
    } else if k == 0 {
      assert s[i..i + |pat|] == lines[0][i..i + |pat|];
      assert At(s, pat, i);
    } else {
      var rest := M.Join(lines[1..], "\n");
      LineInJoin(lines[1..], pat, k - 1);
      var j: nat :| At(rest, pat, j);
      var n := |lines[0]| + 1 + j;
      assert s == lines[0] + "\n" + rest;
      assert s[n..n + |pat|] == rest[j..j + |pat|];
      assert At(s, pat, n);
    }
  }

  /** A line that can stand in the table: no newline in it, and no end marker. */
  ghost predicate PlainLine(line: string) { '\n' !in line && !Occurs(line, MATRIX_END) }

  /** Lines that come back when they are joined and split again. */
  ghost predicate PlainLines(lines: seq<string>) {
    && (forall k :: 0 <= k < |lines| ==> PlainLine(lines[k]))
    && (lines != [] ==> lines[0] != "" && lines[|lines| - 1] != "")
  }

  lemma {:induction false} SplitParts(s: string, c: char)
    ensures forall k :: 0 <= k < |M.Split(s, [c])| ==> c !in M.Split(s, [c])[k]
    decreases |s|
  {
    if s == "" {
    } else if M.StartsWith(s, [c]) {
      SplitParts(s[1..], c);
    } else {
      SplitParts(s[1..], c);
      assert s[..1] == [s[0]];
    }
  }

  lemma {:induction false} SplitEnds(s: string, c: char)
    requires s != "" && s[|s| - 1] != c
    ensures var r := M.Split(s, [c]); r[|r| - 1] != ""
    decreases |s|
  {
    if M.StartsWith(s, [c]) {
      SplitEnds(s[1..], c);
    } else if |s| > 1 {
      SplitEnds(s[1..], c);
    }
  }

  /** What is read from between the markers is plain. */
  lemma BodyIsPlain(text: string)
    ensures PlainLines(BodyLines(text))
  {
    var start, end := Find(text, MATRIX_START, 0), Find(text, MATRIX_END, 0);
    if start.Some? && end.Some? && end.value >= start.value + |MATRIX_START| {
      var b, e := start.value + |MATRIX_START|, end.value;
      var k := TrimIsPiece(text[b..e], IsNewline);
      PieceIsPlain(text, b, e, k, Trim(text[b..e], IsNewline));
    }
  }

  lemma PieceIsPlain(text: string, b: nat, e: nat, k: nat, piece: string)
    requires Find(text, MATRIX_END, 0) == Some(e) && b <= e && b + k + |piece| <= e
    requires piece == text[b..e][k..k + |piece|] && Trimmed(piece, IsNewline)
    ensures PlainLines(Lines(piece))
  {
    hide Find;
    if piece != "" {
      var lines := Lines(piece);
      SliceOfSlice(text, b, e, k, k + |piece|);
      NoNewlineInMarkers();
      forall i: nat ensures !At(piece, MATRIX_END, i) { InPiece(text, b + k, piece, MATRIX_END, i); }
      M.JoinSplit(piece, "\n");
      SplitParts(piece, '\n');
      SplitEnds(piece, '\n');
      assert piece[..1] == [piece[0]];
      forall j | 0 <= j < |lines| ensures !Occurs(lines[j], MATRIX_END) {
        if Occurs(lines[j], MATRIX_END) { LineInJoin(lines, MATRIX_END, j); }
      }
    }
  }

  lemma {:induction false} JoinEnds(lines: seq<string>)
    requires lines != [] && lines[0] != "" && lines[|lines| - 1] != ""
    ensures var s := M.Join(lines, "\n");
      s != "" && s[0] == lines[0][0] && s[|s| - 1] == lines[|lines| - 1][|lines[|lines| - 1]| - 1]
  {
    if |lines| > 1 { JoinTail(lines); }
  }

  lemma {:induction false} JoinTail(lines: seq<string>)
    requires lines != [] && lines[|lines| - 1] != ""
    ensures var s := M.Join(lines, "\n");
      s != "" && s[|s| - 1] == lines[|lines| - 1][|lines[|lines| - 1]| - 1]
  {
    if |lines| > 1 {
      JoinTail(lines[1..]);
      var rest := M.Join(lines[1..], "\n");
      var s := lines[0] + "\n" + rest;
      assert s[|s| - 1] == rest[|rest| - 1];
    }
  }

  /** Plain lines between two newlines are read back as they were. */
  lemma LinesRoundTrip(lines: seq<string>)
    requires PlainLines(lines) && lines != []
    ensures Lines(Trim("\n" + JoinLines(lines) + "\n", IsNewline)) == lines
  {
    hide PlainLine, Occurs;
    var s := JoinLines(lines);
    forall k | 0 <= k < |lines| ensures '\n' !in lines[k] { PlainHasNoNewline(lines[k]); }
    JoinEnds(lines);
    assert lines[0][0] != '\n' by { assert '\n' !in lines[0]; }
    assert lines[|lines| - 1][|lines[|lines| - 1]| - 1] != '\n' by { assert '\n' !in lines[|lines| - 1]; }
    TrimWrapped("\n", s, "\n", IsNewline);
    SplitJoin(lines, '\n');
  }

  lemma PlainHasNoNewline(line: string)
    requires PlainLine(line)
    ensures '\n' !in line
  {
  }

  lemma NotInPlainLines(lines: seq<string>, i: nat)
    requires PlainLines(lines) && lines != []
    ensures !At(JoinLines(lines), MATRIX_END, i)
  {
    NoNewlineInMarkers();
    if At(JoinLines(lines), MATRIX_END, i) { var k := OccursInLine(lines, MATRIX_END, i); }
  }

  lemma NoEarlierEnd(before: string, body: string, after: string, j: nat)
    requires forall i: nat :: !At(before, MATRIX_END, i)
    requires forall i: nat :: !At(body, MATRIX_END, i)
    requires j < |before| + |body| + 2
    ensures !At(before + "\n" + (body + "\n" + after), MATRIX_END, j)
  {
    NoNewlineInMarkers();
    if At(before + "\n" + (body + "\n" + after), MATRIX_END, j) {
      OccursInOne(before, body + "\n" + after, MATRIX_END, j);
      OccursInOne(body, after, MATRIX_END, j - |before| - 1);
    }
  }

  /** Where a text put together around plain lines has its end marker. */
  lemma EndMarkerOf(before: string, lines: seq<string>, after: string)
    requires PlainLines(lines) && lines != [] && At(after, MATRIX_END, 0)
    requires forall j: nat :: !At(before, MATRIX_END, j)
    ensures Find(Around(before, lines, after), MATRIX_END, 0) == Some(|before| + |JoinLines(lines)| + 2)
  {
    hide Find, PlainLines, JoinLines;
    var body := JoinLines(lines);
    var s, e := Around(before, lines, after), |before| + |body| + 2;
    assert s == before + "\n" + (body + "\n" + after);
    assert s[e..] == after;
    InPiece(s, e, after, MATRIX_END, 0);
    forall i: nat ensures !At(body, MATRIX_END, i) { NotInPlainLines(lines, i); }
    forall j: nat | j < e ensures !At(s, MATRIX_END, j) { NoEarlierEnd(before, body, after, j); }
  }

  lemma StartMarkerOf(text: string, lines: seq<string>, after: string, start: nat)
    requires Find(text, MATRIX_START, 0) == Some(start)
    ensures Find(Around(text[..start + |MATRIX_START|], lines, after), MATRIX_START, 0) == Some(start)
  {
    hide Find;
    var b := start + |MATRIX_START|;
    var s := Around(text[..b], lines, after);
    assert s[..b] == text[..b];
    forall j: nat | j <= start ensures At(s, MATRIX_START, j) <==> At(text, MATRIX_START, j) {
      assert s[j..j + |MATRIX_START|] == s[..b][j..j + |MATRIX_START|];
      assert text[j..j + |MATRIX_START|] == text[..b][j..j + |MATRIX_START|];
    }
  }

  /** Put together around plain lines, a text has those lines as its table. */
  lemma TableOfAround(text: string, lines: seq<string>, start: nat, end: nat)
    requires Find(text, MATRIX_START, 0) == Some(start) && Find(text, MATRIX_END, 0) == Some(end)
    requires start + |MATRIX_START| <= end && PlainLines(lines) && lines != []
    ensures var b := start + |MATRIX_START|; var t := Around(text[..b], lines, text[end..]);
      && Find(t, MATRIX_START, 0) == Some(start)
      && Find(t, MATRIX_END, 0) == Some(b + |JoinLines(lines)| + 2)
      && t[..b] == text[..b] && t[b + |JoinLines(lines)| + 2..] == text[end..]
      && BodyLines(t) == lines
  {
    hide Find, PlainLines, JoinLines, Lines, Trim;
    var b, body := start + |MATRIX_START|, JoinLines(lines);
    var t := Around(text[..b], lines, text[end..]);
    StartMarkerOf(text, lines, text[end..], start);
    assert text[end..][0..|MATRIX_END|] == text[end..end + |MATRIX_END|];
    NoNewlineInMarkers();
    forall j: nat ensures !At(text[..b], MATRIX_END, j) { InPiece(text, 0, text[..b], MATRIX_END, j); }
    EndMarkerOf(text[..b], lines, text[end..]);
    assert t[..b] == text[..b];
    assert t[b..b + |body| + 2] == "\n" + body + "\n";
    LinesRoundTrip(lines);
  }

  lemma UpsertKeepsPlain(lines: seq<string>, row: MatrixRow)
    requires PlainLines(lines) && PlainLine(FormatRow(row))
    ensures PlainLines(UpsertLines(lines, row)) && |UpsertLines(lines, row)| >= 1
    ensures |lines| >= 2 ==> |UpsertLines(lines, row)| >= 2
  {
    hide PlainLine, HasKey;
    if |lines| >= 2 { var i := OthersKeepOrder(lines, row); }
    FormatNotEmpty(row);
  }

  lemma FormatNotEmpty(row: MatrixRow)
    ensures FormatRow(row) != ""
  {
  }

  /** Both markers stand in the text, the end marker behind the whole start marker. */
  predicate InPlace(text: string) {
    var start, end := Find(text, MATRIX_START, 0), Find(text, MATRIX_END, 0);
    start.Some? && end.Some? && start.value + |MATRIX_START| <= end.value
  }

  /**
    upsert_row on a text with both markers in order: the text up to the end of the start marker and from
    the end marker on is unchanged, and the table becomes the upserted table.
  */
  lemma UpsertReplacesTheTable(text: string, row: MatrixRow)
    requires PlainLine(FormatRow(row)) && InPlace(text)
    ensures Upsert(text, row).Ok?
    ensures var t := Upsert(text, row).value;
      && InPlace(t) && BodyLines(t) == UpsertLines(BodyLines(text), row)
      && var b, e := Find(text, MATRIX_START, 0).value + |MATRIX_START|, Find(text, MATRIX_END, 0).value;
         t[..b] == text[..b] && |t| >= |text| - e && t[|t| - (|text| - e)..] == text[e..]
  {
    hide Find, PlainLines, PlainLine, UpsertLines, Lines, Trim, JoinLines;
    var start, end := Find(text, MATRIX_START, 0).value, Find(text, MATRIX_END, 0).value;
    var lines := BodyLines(text);
    BodyIsPlain(text);
    UpsertKeepsPlain(lines, row);
    TableOfAround(text, UpsertLines(lines, row), start, end);
  }

  /**
    With the two header lines there, upserting the same row again changes nothing.
  */
  lemma UpsertIsIdempotent(text: string, row: MatrixRow)
    requires PlainRow(row) && PlainLine(FormatRow(row)) && |BodyLines(text)| >= 2
    ensures Upsert(text, row).Ok?
    ensures var t := Upsert(text, row).value;
      && Upsert(t, row) == Ok(t)
      && BodyLines(t) == UpsertLines(BodyLines(text), row)
      && var b, e := Find(text, MATRIX_START, 0).value + |MATRIX_START|, Find(text, MATRIX_END, 0).value;
         t[..b] == text[..b] && |t| >= |text| - e && t[|t| - (|text| - e)..] == text[e..]
  {
    hide Find, PlainLines, PlainLine, PlainRow, UpsertLines, Lines, Trim, JoinLines;
    var start, end := Find(text, MATRIX_START, 0).value, Find(text, MATRIX_END, 0).value;
    var lines := BodyLines(text);
    var once := UpsertLines(lines, row);
    BodyIsPlain(text);
    UpsertKeepsPlain(lines, row);
    LinesIdempotentExactly(lines, row);
    TableOfAround(text, once, start, end);
  }
}
