/**
 * The trailing row of the 特技 (skill) tab: the only place the sheet keeps the
 * `outRow` flag (whether the whole table wraps around top to bottom). `addTokugi`
 * writes it as thirteen pipe-separated cells whose first cell holds a check box;
 * `readData` finds it again with a regular expression of the same shape.
 *
 * The expression is `\|¦?　*` `\[([ x])]　*` followed by twelve `\|¦?　*` and a final
 * `\|`. Every optional or repeated part of it is followed by a token the part cannot
 * consume, so backtracking never helps: at a given start the expression matches
 * exactly when the greedy scan below succeeds, and `text.match` reports the match that
 * starts leftmost.
 */
module OutRowCodec {
  import opened Wrappers
  import opened Text

  // ---------------------------------------------------------------------------
  // Encoding
  // ---------------------------------------------------------------------------

  /** Cell `idx` of the row: the check box first, then blank cells, all with a broken bar when set. */
  function RowCell(outRow: bool, idx: nat): string {
    if idx == 0 then (if outRow then "¦[x]" else "[ ]")
    else (if outRow then "¦　" else "　")
  }

  function RowCells(outRow: bool): (cells: seq<string>)
    ensures |cells| == 13
  {
    seq(13, idx requires 0 <= idx => RowCell(outRow, idx))
  }

  /** The check box comes first, `[x]` with a broken bar when set and `[ ]` when clear, then twelve blank cells. */
  lemma RowCellsContent(outRow: bool)
    ensures RowCells(outRow)[0] == (if outRow then "¦[x]" else "[ ]")
    ensures forall i :: 1 <= i < 13 ==> RowCells(outRow)[i] == (if outRow then "¦　" else "　")
  {
  }

  /** The last line of the tab: the thirteen cells between pipes. */
  function EncodeOutRow(outRow: bool): string {
    "|" + Join(RowCells(outRow), "|") + "|"
  }

  /** Each cell preceded by its pipe. */
  function Prefixed(cells: seq<string>): string
    decreases |cells|
  {
    if cells == [] then "" else "|" + cells[0] + Prefixed(cells[1..])
  }

  lemma {:induction false} JoinPrefixed(cells: seq<string>)
    requires |cells| >= 1
    ensures "|" + Join(cells, "|") == Prefixed(cells)
    decreases |cells|
  {
    if |cells| > 1 {
      JoinPrefixed(cells[1..]);
    }
  }

  /** `k` blank cells. */
  function Blanks(outRow: bool, k: nat): (cells: seq<string>)
    ensures |cells| == k
  {
    seq(k, _ => RowCell(outRow, 1))
  }

  lemma RowCellsSplit(outRow: bool)
    ensures RowCells(outRow) == [RowCell(outRow, 0)] + Blanks(outRow, 12)
  {
  }

  /** The encoded row is the check-box cell and twelve blank cells, each after its pipe, then a pipe. */
  lemma EncodedShape(outRow: bool)
    ensures EncodeOutRow(outRow) == "|" + RowCell(outRow, 0) + Prefixed(Blanks(outRow, 12)) + "|"
  {
    var cells := RowCells(outRow);
    JoinPrefixed(cells);
    RowCellsSplit(outRow);
    assert cells[1..] == Blanks(outRow, 12);
  }

  /** The encoded row holds exactly fourteen pipes: one before each cell and the closing one. */
  lemma EncodedPipes(outRow: bool)
    ensures Count(EncodeOutRow(outRow), '|') == 14
  {
    EncodedShape(outRow);
    var blanks := Blanks(outRow, 12);
    PrefixedPipes(blanks);
    var head := "|" + RowCell(outRow, 0);
    CountConcat(head + Prefixed(blanks), "|", '|');
    CountConcat(head, Prefixed(blanks), '|');
    CountConcat("|", RowCell(outRow, 0), '|');
  }

  // ---------------------------------------------------------------------------
  // Decoding
  // ---------------------------------------------------------------------------

  /** `　*`: the text after the leading run of ideographic spaces. */
  function SkipSpaces(t: string): (r: string)
    ensures |r| <= |t|
    ensures r == [] || r[0] != '　'
    decreases |t|
  {
    if t != [] && t[0] == '　' then SkipSpaces(t[1..]) else t
  }

  /** `\|¦?　*` at the start of `t`: the text after it, if it is there. */
  function PipeCell(t: string): Option<string> {
    if t != [] && t[0] == '|' then
      var u := t[1..];
      Some(SkipSpaces(if u != [] && u[0] == '¦' then u[1..] else u))
    else None
  }

  /** `\[([ x])]　*` at the start of `t`: whether the box is ticked and the text after it. */
  function CheckBox(t: string): Option<(bool, string)> {
    if |t| >= 3 && t[0] == '[' && (t[1] == ' ' || t[1] == 'x') && t[2] == ']' then
      Some((t[1] == 'x', SkipSpaces(t[3..])))
    else None
  }

  /** `n` pipe cells in a row at the start of `t`. */
  function PipeCells(t: string, n: nat): Option<string>
    decreases n
  {
    if n == 0 then Some(t)
    else match PipeCell(t)
      case None => None
      case Some(u) => PipeCells(u, n - 1)
  }

  /** The row pattern anchored at the start of `t`: the state of its check box when it matches. */
  function MatchRow(t: string): Option<bool> {
    match PipeCell(t)
    case None => None
    case Some(u) =>
      match CheckBox(u)
      case None => None
      case Some((flag, v)) => MatchCells(v, flag)
  }

  /** The rest of the pattern after the check box: twelve more cells and the closing pipe. */
  function MatchCells(v: string, flag: bool): Option<bool> {
    match PipeCells(v, 12)
    case None => None
    case Some(w) => if w != [] && w[0] == '|' then Some(flag) else None
  }

  /**
   * `text.match(regex)` without the `g` flag: the result of the leftmost position at or
   * after `i` where the anchored matcher `m` succeeds, if any.
   */
  function Leftmost(m: string -> Option<bool>, s: string, i: nat): Option<bool>
    requires i <= |s|
    decreases |s| - i
  {
    match m(s[i..])
    case Some(flag) => Some(flag)
    case None => if i == |s| then None else Leftmost(m, s, i + 1)
  }

  /** No result means no position at or after `i` starts a match. */
  lemma {:induction false} NoRowFound(m: string -> Option<bool>, s: string, i: nat)
    requires i <= |s| && Leftmost(m, s, i).None?
    ensures forall k :: i <= k <= |s| ==> m(s[k..]).None?
    decreases |s| - i
  {
    if i < |s| {
      NoRowFound(m, s, i + 1);
    }
  }

  /** With no match at or after `i` the search finds nothing. */
  lemma {:induction false} NoMatchFrom(m: string -> Option<bool>, s: string, i: nat)
    requires i <= |s|
    requires forall k :: i <= k <= |s| ==> m(s[k..]).None?
    ensures Leftmost(m, s, i) == None
    decreases |s| - i
  {
    if i < |s| {
      NoMatchFrom(m, s, i + 1);
    }
  }

  /** A result is the leftmost one: the matcher succeeds there and nowhere before it. */
  lemma {:induction false} FoundRowIsLeftmost(m: string -> Option<bool>, s: string, i: nat)
    requires i <= |s| && Leftmost(m, s, i).Some?
    ensures exists k :: i <= k <= |s| && m(s[k..]) == Leftmost(m, s, i)
                          && forall j :: i <= j < k ==> m(s[j..]).None?
    decreases |s| - i
  {
    if m(s[i..]).None? {
      FoundRowIsLeftmost(m, s, i + 1);
      var k :| i + 1 <= k <= |s| && m(s[k..]) == Leftmost(m, s, i + 1)
                && forall j :: i + 1 <= j < k ==> m(s[j..]).None?;
      assert forall j :: i <= j < k ==> m(s[j..]).None?;
    }
  }

  /** The search from `i` skips positions where nothing matches. */
  lemma {:induction false} SkipNoMatch(m: string -> Option<bool>, s: string, i: nat, j: nat)
    requires i <= j <= |s|
    requires forall k :: i <= k < j ==> m(s[k..]).None?
    ensures Leftmost(m, s, i) == Leftmost(m, s, j)
    decreases j - i
  {
    if i < j {
      SkipNoMatch(m, s, i + 1, j);
    }
  }

  /** Searching past a prefix is searching the rest. */
  lemma {:induction false} SearchPastPrefix(m: string -> Option<bool>, p: string, r: string, i: nat)
    requires i <= |r|
    ensures Leftmost(m, p + r, |p| + i) == Leftmost(m, r, i)
    decreases |r| - i
  {
    assert (p + r)[|p| + i..] == r[i..];
    if i < |r| {
      SearchPastPrefix(m, p, r, i + 1);
    }
  }

  /** `text.match(regex)` for the row pattern: the state of the first row's box, if any row is found. */
  function DecodeOutRow(s: string): Option<bool> {
    Leftmost(MatchRow, s, 0)
  }

  /** After a search: a found row sets the flag; otherwise the flag keeps its previous value. */
  function NextOutRow(previous: bool, text: string): (r: bool)
    ensures DecodeOutRow(text).None? ==> r == previous
    ensures DecodeOutRow(text).Some? ==> r == DecodeOutRow(text).value
  {
    match DecodeOutRow(text)
    case Some(flag) => flag
    case None => previous
  }

  // ---------------------------------------------------------------------------
  // Round trip
  // ---------------------------------------------------------------------------

  /** One ideographic space before a pipe is skipped. */
  lemma SkipOneSpace(rest: string)
    requires rest != [] && rest[0] == '|'
    ensures SkipSpaces("　" + rest) == rest
  {
    assert ("　" + rest)[1..] == rest;
  }

  /** A blank cell is one pipe cell. */
  lemma BlankCellScan(outRow: bool, rest: string)
    requires rest != [] && rest[0] == '|'
    ensures PipeCell("|" + RowCell(outRow, 1) + rest) == Some(rest)
  {
    var t := "|" + RowCell(outRow, 1) + rest;
    SkipOneSpace(rest);
    if outRow {
      assert t[1..] == "¦　" + rest;
      assert t[2..] == "　" + rest;
    } else {
      assert t[1..] == "　" + rest;
    }
  }

  /** Blank cells are consumed one pipe cell each, up to the pipe that follows them. */
  lemma {:induction false} BlanksScan(outRow: bool, k: nat, tail: string)
    requires tail != [] && tail[0] == '|'
    ensures PipeCells(Prefixed(Blanks(outRow, k)) + tail, k) == Some(tail)
    decreases k
  {
    var cells := Blanks(outRow, k);
    if k > 0 {
      assert cells[1..] == Blanks(outRow, k - 1);
      var rest := Prefixed(Blanks(outRow, k - 1)) + tail;
      assert rest[0] == '|';
      assert Prefixed(cells) + tail == "|" + RowCell(outRow, 1) + rest;
      BlankCellScan(outRow, rest);
      BlanksScan(outRow, k - 1, tail);
    } else {
      assert Prefixed(cells) + tail == tail;
    }
  }

  /** The check-box cell is one pipe cell followed by the box itself. */
  lemma BoxCellScan(outRow: bool, tail: string)
    requires tail != [] && tail[0] == '|'
    ensures PipeCell("|" + RowCell(outRow, 0) + tail) == Some((if outRow then "[x]" else "[ ]") + tail)
  {
    var t := "|" + RowCell(outRow, 0) + tail;
    var box := if outRow then "[x]" else "[ ]";
    if outRow {
      assert t[1..] == "¦" + box + tail;
      assert t[2..] == box + tail;
    } else {
      assert t[1..] == box + tail;
    }
  }

  /** The box reads back as the flag, leaving the pipe that follows it. */
  lemma BoxScan(outRow: bool, tail: string)
    requires tail != [] && tail[0] == '|'
    ensures CheckBox((if outRow then "[x]" else "[ ]") + tail) == Some((outRow, tail))
  {
    var box := if outRow then "[x]" else "[ ]";
    assert (box + tail)[3..] == tail;
  }

  /** The row pattern, anchored, reads back the flag the row was written with. */
  lemma MatchEncoded(outRow: bool)
    ensures MatchRow(EncodeOutRow(outRow)) == Some(outRow)
  {
    EncodedShape(outRow);
    var tail := Prefixed(Blanks(outRow, 12)) + "|";
    assert tail[0] == '|';
    var t := "|" + RowCell(outRow, 0) + tail;
    assert EncodeOutRow(outRow) == t;
    var box := if outRow then "[x]" else "[ ]";
    BoxCellScan(outRow, tail);
    assert PipeCell(t) == Some(box + tail);
    BoxScan(outRow, tail);
    BlanksScan(outRow, 12, "|");
    assert MatchCells(tail, outRow) == Some(outRow);
  }

  /** Decoding the encoded row gives the flag back, whether it was set or not. */
  lemma EncodeDecode(outRow: bool)
    ensures DecodeOutRow(EncodeOutRow(outRow)) == Some(outRow)
  {
    MatchEncoded(outRow);
    assert EncodeOutRow(outRow)[0..] == EncodeOutRow(outRow);
  }

  // ---------------------------------------------------------------------------
  // A match needs fourteen pipes
  // ---------------------------------------------------------------------------

  lemma {:induction false} SkipSpacesPipes(t: string)
    ensures Count(SkipSpaces(t), '|') == Count(t, '|')
    decreases |t|
  {
    if t != [] && t[0] == '　' {
      SkipSpacesPipes(t[1..]);
    }
  }

  lemma PipeCellPipes(t: string)
    requires PipeCell(t).Some?
    ensures Count(t, '|') == Count(PipeCell(t).value, '|') + 1
  {
    var u := t[1..];
    if u != [] && u[0] == '¦' {
      SkipSpacesPipes(u[1..]);
    } else {
      SkipSpacesPipes(u);
    }
  }

  lemma {:induction false} PipeCellsPipes(t: string, n: nat)
    requires PipeCells(t, n).Some?
    ensures Count(t, '|') == Count(PipeCells(t, n).value, '|') + n
    decreases n
  {
    if n > 0 {
      PipeCellPipes(t);
      PipeCellsPipes(PipeCell(t).value, n - 1);
    }
  }

  /** Anchored at any position, the pattern spans fourteen pipes. */
  lemma MatchRowPipes(t: string)
    requires MatchRow(t).Some?
    ensures Count(t, '|') >= 14
  {
    PipeCellPipes(t);
    var u := PipeCell(t).value;
    var v := CheckBox(u).value.1;
    assert u == u[..3] + u[3..];
    CountConcat(u[..3], u[3..], '|');
    SkipSpacesPipes(u[3..]);
    PipeCellsPipes(v, 12);
  }

  /** Text with fewer than fourteen pipes holds no row, so the flag keeps its value. */
  lemma FewPipesNoMatch(s: string)
    requires Count(s, '|') < 14
    ensures DecodeOutRow(s) == None
  {
    forall k | 0 <= k <= |s| ensures MatchRow(s[k..]).None? {
      CountSuffix(s, k, '|');
      if MatchRow(s[k..]).Some? {
        MatchRowPipes(s[k..]);
      }
    }
    NoMatchFrom(MatchRow, s, 0);
  }

  lemma {:induction false} PrefixedPipes(cells: seq<string>)
    requires forall i :: 0 <= i < |cells| ==> '|' !in cells[i]
    ensures Count(Prefixed(cells), '|') == |cells|
    decreases |cells|
  {
    if cells != [] {
      PrefixedPipes(cells[1..]);
      CountConcat("|" + cells[0], Prefixed(cells[1..]), '|');
      CountConcat("|", cells[0], '|');
    }
  }

  /** A row that lost one of its cells is not recognised, so the flag keeps its previous value. */
  lemma MissingCellNoMatch(outRow: bool)
    ensures DecodeOutRow("|" + Join(RowCells(outRow)[..12], "|") + "|") == None
  {
    var cells := RowCells(outRow)[..12];
    JoinPrefixed(cells);
    PrefixedPipes(cells);
    CountConcat(Prefixed(cells), "|", '|');
    FewPipesNoMatch(Prefixed(cells) + "|");
  }

  /** Text without a pipe holds no row. */
  lemma NoPipeNoMatch(s: string)
    requires '|' !in s
    ensures DecodeOutRow(s) == None
  {
    FewPipesNoMatch(s);
  }

  // ---------------------------------------------------------------------------
  // A match never crosses a line break
  // ---------------------------------------------------------------------------

  /** The characters the row pattern can consume. */
  predicate IsRowChar(c: char) {
    c == '|' || c == '¦' || c == '　' || c == '[' || c == ']' || c == ' ' || c == 'x'
  }

  /** `z` starts with a character the pattern never consumes (or is empty). */
  predicate StartsWithStop(z: string) {
    z == [] || !IsRowChar(z[0])
  }

  function Shift(o: Option<string>, z: string): Option<string> {
    match o
    case None => None
    case Some(u) => Some(u + z)
  }

  lemma {:induction false} SkipSpacesStop(x: string, z: string)
    requires StartsWithStop(z)
    ensures SkipSpaces(x + z) == SkipSpaces(x) + z
    decreases |x|
  {
    if x == [] {
      assert x + z == z;
    } else {
      assert (x + z)[1..] == x[1..] + z;
      SkipSpacesStop(x[1..], z);
    }
  }

  /** The optional broken bar after a pipe, before a stop. */
  function AfterBar(u: string): string {
    if u != [] && u[0] == '¦' then u[1..] else u
  }

  lemma AfterBarStop(u: string, z: string)
    requires StartsWithStop(z)
    ensures AfterBar(u + z) == AfterBar(u) + z
  {
    if u == [] {
      assert u + z == z;
    } else {
      assert (u + z)[0] == u[0];
      assert (u + z)[1..] == u[1..] + z;
    }
  }

  lemma PipeCellStop(x: string, z: string)
    requires StartsWithStop(z)
    ensures PipeCell(x + z) == Shift(PipeCell(x), z)
  {
    if x == [] {
      assert x + z == z;
    } else if x[0] != '|' {
      assert (x + z)[0] == x[0];
    } else {
      var u := x[1..];
      assert (x + z)[0] == '|';
      assert (x + z)[1..] == u + z;
      assert PipeCell(x) == Some(SkipSpaces(AfterBar(u)));
      assert PipeCell(x + z) == Some(SkipSpaces(AfterBar(u + z)));
      AfterBarStop(u, z);
      SkipSpacesStop(AfterBar(u), z);
    }
  }

  lemma CheckBoxStop(x: string, z: string)
    requires StartsWithStop(z)
    ensures CheckBox(x + z) == (match CheckBox(x) case None => None case Some((f, u)) => Some((f, u + z)))
  {
    if |x| >= 3 {
      assert (x + z)[3..] == x[3..] + z;
      SkipSpacesStop(x[3..], z);
    } else if z != [] {
      assert (x + z)[|x|] == z[0];
    }
  }

  lemma {:induction false} PipeCellsStop(x: string, z: string, n: nat)
    requires StartsWithStop(z)
    ensures PipeCells(x + z, n) == Shift(PipeCells(x, n), z)
    decreases n
  {
    if n > 0 {
      PipeCellStop(x, z);
      if PipeCell(x).Some? {
        PipeCellsStop(PipeCell(x).value, z, n - 1);
      }
    }
  }

  /** What follows a stop character cannot change whether, or how, the pattern matches before it. */
  lemma MatchRowStop(x: string, z: string)
    requires StartsWithStop(z)
    ensures MatchRow(x + z) == MatchRow(x)
  {
    PipeCellStop(x, z);
    if PipeCell(x).Some? {
      var u := PipeCell(x).value;
      CheckBoxStop(u, z);
      if CheckBox(u).Some? {
        MatchCellsStop(CheckBox(u).value.1, CheckBox(u).value.0, z);
      }
    }
  }

  lemma MatchCellsStop(v: string, flag: bool, z: string)
    requires StartsWithStop(z)
    ensures MatchCells(v + z, flag) == MatchCells(v, flag)
  {
    PipeCellsStop(v, z, 12);
    if PipeCells(v, 12).Some? {
      var w := PipeCells(v, 12).value;
      if w == [] {
        assert w + z == z;
      } else {
        assert (w + z)[0] == w[0];
      }
    }
  }

  /** A line without a row, then CR LF: the search goes on in the next line as if it started there. */
  lemma SkipLine(p: string, r: string)
    requires DecodeOutRow(p) == None
    ensures DecodeOutRow(p + "\r\n" + r) == DecodeOutRow(r)
  {
    var s := p + "\r\n" + r;
    NoRowFound(MatchRow, p, 0);
    forall k | 0 <= k <= |p| + 1 ensures MatchRow(s[k..]).None? {
      if k <= |p| {
        assert s[k..] == p[k..] + ("\r\n" + r);
        MatchRowStop(p[k..], "\r\n" + r);
      } else {
        assert s[k..][0] == '\n';
      }
    }
    SkipNoMatch(MatchRow, s, 0, |p| + 2);
    assert s == p + "\r\n" + r;
    SearchPastPrefix(MatchRow, p + "\r\n", r, 0);
  }

  /** Lines joined with CR LF hold no row when none of them does. */
  lemma {:induction false} JoinedLinesNoMatch(lines: seq<string>)
    requires forall i :: 0 <= i < |lines| ==> DecodeOutRow(lines[i]) == None
    ensures DecodeOutRow(Join(lines, "\r\n")) == None
    decreases |lines|
  {
    if |lines| == 0 {
      NoPipeNoMatch("");
    } else if |lines| > 1 {
      JoinedLinesNoMatch(lines[1..]);
      SkipLine(lines[0], Join(lines[1..], "\r\n"));
    }
  }

  /** A row written as the last of CR LF separated lines, none of which holds a row, reads back. */
  lemma RowAfterLines(lines: seq<string>, outRow: bool)
    requires |lines| >= 1
    requires forall i :: 0 <= i < |lines| ==> DecodeOutRow(lines[i]) == None
    ensures DecodeOutRow(Join(lines + [EncodeOutRow(outRow)], "\r\n")) == Some(outRow)
  {
    JoinAppend(lines, EncodeOutRow(outRow), "\r\n");
    JoinedLinesNoMatch(lines);
    SkipLine(Join(lines, "\r\n"), EncodeOutRow(outRow));
    EncodeDecode(outRow);
  }
}
