/**
 * The plain-text field format of the Game of Life (lab2/life/StepMode.h).
 * A file holds the width and the height as decimal integers, then the cells;
 * the writer puts a newline after every `width` cells, the reader keeps every
 * `'#'` and `'.'` that follows the two numbers and drops everything else.
 * File contents are modelled as strings.
 */
module StepMode {
  import opened Outcomes
  import opened IntText
  import opened GameOfLife

  predicate IsCellChar(c: char) {
    c == LIVE_CELL || c == DEAD_CELL
  }

  /** The characters of `s` the reader keeps, in order. */
  function KeepCells(s: string): (r: string)
    ensures |r| <= |s|
    ensures forall i :: 0 <= i < |r| ==> IsCellChar(r[i])
  {
    if s == [] then []
    else KeepCells(s[..|s| - 1]) + (if IsCellChar(s[|s| - 1]) then [s[|s| - 1]] else [])
  }

  /** Filtering distributes over concatenation, so the reader keeps the input order. */
  lemma {:induction false} KeepCellsAppend(a: string, b: string)
    ensures KeepCells(a + b) == KeepCells(a) + KeepCells(b)
    decreases |b|
  {
    if b == [] {
      assert a + b == a;
    } else {
      var b' := b[..|b| - 1];
      assert (a + b)[..|a + b| - 1] == a + b';
      KeepCellsAppend(a, b');
    }
  }

  lemma KeepCellsSnoc(s: string, c: char)
    ensures KeepCells(s + [c]) == KeepCells(s) + (if IsCellChar(c) then [c] else [])
  {
    assert (s + [c])[..|s + [c]| - 1] == s;
  }

  /** A string made only of cells is kept whole. */
  lemma {:induction false} KeepCellsOfCells(s: string)
    requires forall i :: 0 <= i < |s| ==> IsCellChar(s[i])
    ensures KeepCells(s) == s
    decreases |s|
  {
    if s != [] {
      KeepCellsOfCells(s[..|s| - 1]);
    }
  }

  /** A string with no cell character is dropped whole. */
  lemma {:induction false} KeepCellsOfOthers(s: string)
    requires forall i :: 0 <= i < |s| ==> !IsCellChar(s[i])
    ensures KeepCells(s) == []
    decreases |s|
  {
    if s != [] {
      KeepCellsOfOthers(s[..|s| - 1]);
    }
  }

  /** The message of the `std::length_error` that `vector::reserve` throws for a size above `max_size()`. */
  const RESERVE_MESSAGE := "vector::reserve"

  /**
   * `width * height` as the reader computes it on two `int`s: the product
   * wrapped to 32-bit two's complement. It agrees with the product whenever
   * that fits in an `int`.
   */
  function IntProduct(a: int, b: int): (p: int)
    ensures INT_MIN <= p <= INT_MAX
    ensures INT_MIN <= a * b <= INT_MAX ==> p == a * b
  {
    var x := a * b;
    var m := x % 0x1_0000_0000;
    if m > INT_MAX then m - 0x1_0000_0000 else m
  }

  /**
   * What the reader makes of a file: the field, a header whose dimensions
   * cannot be extracted, or the exception of `reserve`, which receives the
   * `int` product converted to `size_t`, so that a negative product asks for
   * more than `max_size()`.
   */
  datatype FieldRead = Loaded(field: Field) | Unreadable | Thrown(error: Error)

  /**
   * The reader as a function: two numbers, then the kept cells. The number of
   * cells is not compared with `width * height`; only the sign of the 32-bit
   * product matters.
   */
  function ParseField(text: string): (r: FieldRead)
    ensures r.Thrown? ==> r.error == LogicError(RESERVE_MESSAGE)
    ensures r.Loaded? ==> IntProduct(r.field.width, r.field.height) >= 0
    ensures r.Loaded? ==> forall i :: 0 <= i < |r.field.cells| ==> IsCellChar(r.field.cells[i])
  {
    match ParseLeadingInt(text)
    case None => Unreadable
    case Some((width, afterWidth)) =>
      match ParseLeadingInt(afterWidth)
      case None => Unreadable
      case Some((height, afterHeight)) =>
        if IntProduct(width, height) < 0 then Thrown(LogicError(RESERVE_MESSAGE))
        else Loaded(Field(width, height, KeepCells(afterHeight)))
  }

  /**
   * Reads the two dimensions, reserves room for `width * height` cells, then
   * reads every remaining character, keeping the cell characters.
   */
  method ReadField(text: string) returns (field: FieldRead)
    ensures field == ParseField(text)
  {
    var w := ParseLeadingInt(text);
    if w.None? {
      return Unreadable;
    }
    var width, afterWidth := w.value.0, w.value.1;
    var h := ParseLeadingInt(afterWidth);
    if h.None? {
      return Unreadable;
    }
    var height, input := h.value.0, h.value.1;
    if IntProduct(width, height) < 0 {
      return Thrown(LogicError(RESERVE_MESSAGE));
    }
    var cells := ReadCells(input);
    field := Loaded(Field(width, height, cells));
  }

  /** The character loop of the reader: appends every cell character it meets. */
  method ReadCells(input: string) returns (cells: seq<char>)
    ensures cells == KeepCells(input)
  {
    cells := [];
    var i := 0;
    while i < |input|
      invariant 0 <= i <= |input|
      invariant cells == KeepCells(input[..i])
    {
      var ch := input[i];
      assert input[..i + 1] == input[..i] + [ch];
      KeepCellsSnoc(input[..i], ch);
      if ch == LIVE_CELL || ch == DEAD_CELL {
        cells := cells + [ch];
      }
      i := i + 1;
    }
    assert input[..i] == input;
  }

  /** The first line: `"width height"` and a newline. */
  function HeaderText(f: Field): string {
    IntToString(f.width) + " " + IntToString(f.height) + "\n"
  }

  /**
   * Whether the writer ends a line after cell `i`: `(i + 1) % width == 0 && i != 0`.
   * The dividend is positive, so the remainder agrees with C++'s for either sign of `width`.
   */
  predicate LineEndsAfter(width: int, i: nat)
    requires width != 0
  {
    (i + 1) % width == 0 && i != 0
  }

  /** The text the writer emits for the cells. */
  function CellsText(cells: seq<char>, width: int): string
    requires width != 0 || cells == []
  {
    if cells == [] then []
    else
      var i := |cells| - 1;
      CellsText(cells[..i], width) + [cells[i]] + (if LineEndsAfter(width, i) then "\n" else "")
  }

  function FieldText(f: Field): string
    requires f.width != 0 || f.cells == []
  {
    HeaderText(f) + CellsText(f.cells, f.width)
  }

  /** Writes the header, then every cell, ending a line after each full row. */
  method WriteField(field: Field) returns (output: string)
    requires field.width != 0 || field.cells == []
    ensures output == FieldText(field)
  {
    var width, height, cells := field.width, field.height, field.cells;
    output := IntToString(width) + " " + IntToString(height) + "\n";
    var i := 0;
    while i < |cells|
      invariant 0 <= i <= |cells|
      invariant output == HeaderText(field) + CellsText(cells[..i], width)
    {
      assert cells[..i + 1][..i] == cells[..i];
      output := output + [cells[i]];
      if (i + 1) % width == 0 && i != 0 {
        output := output + "\n";
      }
      i := i + 1;
    }
    assert cells[..i] == cells;
  }

  /** The writer adds only newlines to the cells, so the reader gets the cells back. */
  lemma {:induction false} CellsTextKeepsCells(cells: seq<char>, width: int)
    requires width != 0 || cells == []
    requires forall i :: 0 <= i < |cells| ==> IsCellChar(cells[i])
    ensures KeepCells(CellsText(cells, width)) == cells
    decreases |cells|
  {
    if cells != [] {
      var i := |cells| - 1;
      var nl := if LineEndsAfter(width, i) then "\n" else "";
      CellsTextKeepsCells(cells[..i], width);
      CellThenBreak(CellsText(cells[..i], width), cells[i], nl);
      assert cells[..i] + [cells[i]] == cells;
    }
  }

  /** One written cell, with or without the newline after it, adds exactly that cell. */
  lemma CellThenBreak(prefix: string, c: char, nl: string)
    requires IsCellChar(c) && (nl == "" || nl == "\n")
    ensures KeepCells(prefix + [c] + nl) == KeepCells(prefix) + [c]
  {
    KeepCellsAppend(prefix, [c]);
    KeepCellsAppend(prefix + [c], nl);
    KeepCellsOfOthers(nl);
    assert KeepCells([c]) == [c];
  }

  /**
   * Round trip: for dimensions that fit in `int` and cells drawn from
   * `'#'` and `'.'`, reading what the writer wrote gives the field back,
   * unless the 32-bit product of the dimensions is negative, in which case
   * `reserve` throws.
   */
  lemma WriteThenRead(f: Field)
    requires INT_MIN <= f.width <= INT_MAX && INT_MIN <= f.height <= INT_MAX
    requires f.width != 0 || f.cells == []
    requires forall i :: 0 <= i < |f.cells| ==> IsCellChar(f.cells[i])
    ensures ParseField(FieldText(f)) ==
      if IntProduct(f.width, f.height) < 0 then Thrown(LogicError(RESERVE_MESSAGE)) else Loaded(f)
  {
    var body := CellsText(f.cells, f.width);
    var afterHeight := "\n" + body;
    var afterWidth := " " + IntToString(f.height) + afterHeight;
    assert FieldText(f) == IntToString(f.width) + afterWidth;
    IntToStringRoundTrip(f.width, afterWidth);
    SpacedRoundTrip(f.height, afterHeight);
    NewlineThenCells(f.cells, f.width);
  }

  /** The height is read back after the separating space. */
  lemma SpacedRoundTrip(n: int, rest: string)
    requires INT_MIN <= n <= INT_MAX
    requires rest == [] || !IsDigit(rest[0])
    ensures ParseLeadingInt(" " + IntToString(n) + rest) == Some((n, rest))
  {
    var s := " " + IntToString(n) + rest;
    assert s[1..] == IntToString(n) + rest;
    IntToStringRoundTrip(n, rest);
  }

  lemma NewlineThenCells(cells: seq<char>, width: int)
    requires width != 0 || cells == []
    requires forall i :: 0 <= i < |cells| ==> IsCellChar(cells[i])
    ensures KeepCells("\n" + CellsText(cells, width)) == cells
  {
    KeepCellsAppend("\n", CellsText(cells, width));
    KeepCellsOfOthers("\n");
    CellsTextKeepsCells(cells, width);
  }

  /** A one-column field gets no newline after its first cell, only after the later ones. */
  lemma OneColumnLayout(a: char, b: char)
    ensures CellsText([a], 1) == [a]
    ensures CellsText([a, b], 1) == [a, b, '\n']
  {
    assert [a, b][..1] == [a];
  }

  /**
   * The reader does not check the cell count against the dimensions: after a
   * valid header, any number of cells is accepted, `"2 2\n#"` included, as
   * long as the 32-bit product of the dimensions is not negative.
   */
  lemma CellCountNotChecked(f: Field)
    requires INT_MIN <= f.width <= INT_MAX && INT_MIN <= f.height <= INT_MAX
    requires forall i :: 0 <= i < |f.cells| ==> IsCellChar(f.cells[i])
    ensures ParseField(HeaderText(f) + f.cells) ==
      if IntProduct(f.width, f.height) < 0 then Thrown(LogicError(RESERVE_MESSAGE)) else Loaded(f)
  {
    var afterHeight := "\n" + f.cells;
    var afterWidth := " " + IntToString(f.height) + afterHeight;
    assert HeaderText(f) + f.cells == IntToString(f.width) + afterWidth;
    IntToStringRoundTrip(f.width, afterWidth);
    SpacedRoundTrip(f.height, afterHeight);
    NewlineThenPlainCells(f.cells);
  }

  /**
   * Two headers the reader rejects although each number fits in `int`: a
   * negative dimension beside a positive one, and dimensions whose product
   * overflows `int` and wraps to a negative value.
   */
  lemma ReserveRejects(cells: seq<char>)
    requires forall i :: 0 <= i < |cells| ==> IsCellChar(cells[i])
    ensures ParseField(HeaderText(Field(-1, 2, cells)) + cells) == Thrown(LogicError(RESERVE_MESSAGE))
    ensures ParseField(HeaderText(Field(46341, 46341, cells)) + cells) == Thrown(LogicError(RESERVE_MESSAGE))
  {
    assert IntProduct(-1, 2) == -2;
    CellCountNotChecked(Field(-1, 2, cells));
    assert 46341 * 46341 == 2147488281;
    assert IntProduct(46341, 46341) == 2147488281 - 0x1_0000_0000;
    CellCountNotChecked(Field(46341, 46341, cells));
  }

  lemma NewlineThenPlainCells(cells: string)
    requires forall i :: 0 <= i < |cells| ==> IsCellChar(cells[i])
    ensures KeepCells("\n" + cells) == cells
  {
    KeepCellsAppend("\n", cells);
    KeepCellsOfOthers("\n");
    KeepCellsOfCells(cells);
  }

  /**
   * A row written with `' '` for dead cells, as the field generator does,
   * loses its dead cells on reading: only the `'#'` survives.
   */
  lemma BlankCellsDropped(row: string)
    requires forall i :: 0 <= i < |row| ==> row[i] == LIVE_CELL || row[i] == ' '
    ensures |KeepCells(row)| <= |row|
    ensures forall i :: 0 <= i < |KeepCells(row)| ==> KeepCells(row)[i] == LIVE_CELL
    ensures ' ' in row ==> |KeepCells(row)| < |row|
  {
    CountKept(row);
  }

  lemma {:induction false} CountKept(row: string)
    requires forall i :: 0 <= i < |row| ==> row[i] == LIVE_CELL || row[i] == ' '
    ensures forall i :: 0 <= i < |KeepCells(row)| ==> KeepCells(row)[i] == LIVE_CELL
    ensures ' ' in row ==> |KeepCells(row)| < |row|
    decreases |row|
  {
    if row != [] {
      var init := row[..|row| - 1];
      CountKept(init);
      if ' ' in row && ' ' !in init {
        assert row[|row| - 1] == ' ';
      }
    }
  }
}
