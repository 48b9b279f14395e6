/**
 * The Shinobigami importer (`shinobigami.ts`): the memo tabs it writes for the basic
 * data, the skill table and the ninja arts; `readData`, which takes back what the
 * player changed in those tabs; and the chat palette.
 *
 * The table renderers and readers, the dice-roll text and `tabTextProcess` belong to
 * the shared dice-fiction helpers; they are passed in as function parameters, and
 * the timestamp of each tab's first line is passed in as text.
 */
module Shinobigami {
  import opened Wrappers
  import opened Text
  import opened ShinobigamiData
  import opened OutRowCodec

  /** A memo the importer hands back: the tab it opens in, its kind and its text. */
  datatype Memo = Memo(tab: string, kind: string, text: string)

  /** A column of a rendered table: header title, record property and alignment. */
  datatype Column = Column(title: string, prop: string, align: string)

  /** A column the personality reader looks for: header title and record property. */
  datatype ReadColumn = ReadColumn(title: string, prop: string)

  /** The first line of every tab: the reload command and when the sheet was read. */
  function ReloadLine(stamp: string): (r: string)
    ensures |r| >= 33 && r[..33] == "@@@RELOAD-CHARACTER-SHEET-ALL@@@ " && r[33..] == stamp
  {
    "@@@RELOAD-CHARACTER-SHEET-ALL@@@ " + stamp
  }

  /** `value || fallback` on text. */
  function OrElse(value: string, fallback: string): (r: string)
    ensures r == "" ==> fallback == ""
    ensures value != "" ==> r == value
    ensures value == "" ==> r == fallback
  {
    if value == "" then fallback else value
  }

  /** `s` begins with `prefix`. */
  predicate StartsWith(s: string, prefix: string) {
    |prefix| <= |s| && s[..|prefix|] == prefix
  }

  // ---------------------------------------------------------------------------
  // Optional parentheses
  // ---------------------------------------------------------------------------

  /** `main` followed by `open extra close` when `extra` is not empty. */
  function Parenthesized(main: string, extra: string, open: char, close: char): string {
    main + (if extra == "" then "" else [open] + extra + [close])
  }

  /** Reads `Parenthesized` back: the text before the first `open`, and what the brackets hold. */
  function ParseParenthesized(s: string, open: char, close: char): Option<(string, string)> {
    match CutAt(s, open)
    case None => Some((s, ""))
    case Some((main, rest)) =>
      if rest != [] && rest[|rest| - 1] == close && |rest| > 1 then Some((main, rest[..|rest| - 1])) else None
  }

  /** The optional parentheses can be read back when the main text holds no opening bracket. */
  lemma ParenthesizedRoundTrip(main: string, extra: string, open: char, close: char)
    requires open !in main
    ensures ParseParenthesized(Parenthesized(main, extra, open, close), open, close) == Some((main, extra))
  {
    if extra == "" {
      assert Parenthesized(main, extra, open, close) == main;
    } else {
      assert Parenthesized(main, extra, open, close) == main + [open] + (extra + [close]);
      CutAtFirst(main, extra + [close], open);
      assert (extra + [close])[..|extra|] == extra;
    }
  }

  // ---------------------------------------------------------------------------
  // 基本情報 (basic data) tab
  // ---------------------------------------------------------------------------

  /** `PC(pcno): name（kana）`, each bracket pair only when its content is not empty. */
  function PcLine(pcno: string, name: string, kana: string): string {
    "PC" + (if pcno == "" then "" else "(" + pcno + ")") + ": " + Parenthesized(name, kana, '（', '）')
  }

  /** Reads a `PcLine` back into the PC number, the name and the kana. */
  function ParsePcLine(line: string): Option<(string, string, string)> {
    if !StartsWith(line, "PC") then None
    else
      var rest := line[2..];
      if rest != [] && rest[0] == '(' then
        match CutAt(rest[1..], ')')
        case None => None
        case Some((pcno, after)) => ParseNameTail(pcno, after)
      else ParseNameTail("", rest)
  }

  /** Reads `: name（kana）` after the PC number. */
  function ParseNameTail(pcno: string, after: string): Option<(string, string, string)> {
    if !StartsWith(after, ": ") then None
    else match ParseParenthesized(after[2..], '（', '）')
      case None => None
      case Some((name, kana)) => Some((pcno, name, kana))
  }

  lemma NameTailRoundTrip(pcno: string, name: string, kana: string)
    requires '（' !in name
    ensures ParseNameTail(pcno, ": " + Parenthesized(name, kana, '（', '）')) == Some((pcno, name, kana))
  {
    var tail := ": " + Parenthesized(name, kana, '（', '）');
    ParenthesizedRoundTrip(name, kana, '（', '）');
    assert tail[2..] == Parenthesized(name, kana, '（', '）');
    assert tail[..2] == ": ";
  }

  /** After `PC`, a bracketed PC number is cut off before the name part. */
  lemma NumberedRestRoundTrip(pcno: string, tail: string)
    requires pcno != "" && ')' !in pcno
    ensures var rest := "(" + pcno + ")" + tail;
      rest != [] && rest[0] == '(' && CutAt(rest[1..], ')') == Some((pcno, tail))
  {
    var rest := "(" + pcno + ")" + tail;
    assert rest[1..] == pcno + [')'] + tail;
    CutAtFirst(pcno, tail, ')');
  }

  /** The PC line gives back its PC number, name and kana. */
  lemma PcLineRoundTrip(pcno: string, name: string, kana: string)
    requires ')' !in pcno && '（' !in name
    ensures ParsePcLine(PcLine(pcno, name, kana)) == Some((pcno, name, kana))
  {
    var tail := ": " + Parenthesized(name, kana, '（', '）');
    var rest := (if pcno == "" then "" else "(" + pcno + ")") + tail;
    var line := PcLine(pcno, name, kana);
    assert line == "PC" + rest;
    assert line[..2] == "PC" && line[2..] == rest;
    NameTailRoundTrip(pcno, name, kana);
    if pcno == "" {
      assert rest == tail && tail[0] == ':';
    } else {
      NumberedRestRoundTrip(pcno, tail);
    }
  }

  /** `流派：school（sub-style）`. */
  function StyleLine(upperStyle: string, subStyle: string): string {
    "流派：" + Parenthesized(upperStyle, subStyle, '（', '）')
  }

  /** The school line gives back the school and the sub-style, whatever the upper-style code was. */
  lemma StyleLineRoundTrip(code: Option<string>, subStyle: string)
    ensures var line := StyleLine(UpperStyle(code), subStyle);
      StartsWith(line, "流派：") && ParseParenthesized(line[3..], '（', '）') == Some((UpperStyle(code), subStyle))
  {
    var upper := UpperStyle(code);
    assert '（' !in upper by {
      assert '（' !in "斜歯忍軍" && '（' !in "鞍馬神流" && '（' !in "ハグレモノ";
      assert '（' !in "比良坂機関" && '（' !in "私立御斎学園" && '（' !in "隠忍の血統";
    }
    ParenthesizedRoundTrip(upper, subStyle, '（', '）');
    assert StyleLine(upper, subStyle)[3..] == Parenthesized(upper, subStyle, '（', '）');
  }

  const PersonalityColumns: seq<Column> := [
    Column("キャラ", "name", "left"), Column("居", "place", "left"), Column("秘", "secret", "left"),
    Column("奥", "specialEffect", "left"), Column("感情", "emotion", "left")
  ]

  const BackgroundColumns: seq<Column> := [
    Column("名称", "name", "left"), Column("種別", "type", "left"),
    Column("功績点", "point", "left"), Column("効果", "effect", "left")
  ]

  /** The lines of the basic-data tab, the two tables drawn by the given renderers. */
  function BasicLines<P, G>(
    data: Shinobigami<P, G>, stamp: string,
    outputPersonalityList: (seq<P>, seq<Column>) -> seq<string>,
    outputHaikeiList: (seq<Haikei>, seq<Column>) -> seq<string>): (r: seq<string>)
    ensures |r| >= 13
    ensures r[0] == ReloadLine(stamp) && r[2] == "## 基本情報"
    ensures r[4] == PcLine(data.scenario.pcno, data.characterName, data.characterNameKana)
    ensures r[6] == StyleLine(data.upperStyle, data.subStyle)
  {
    [ ReloadLine(stamp),
      "リロードしてもチェック状態や選択状態は引き継がれます",
      "## 基本情報",
      "PL: " + data.playerName,
      PcLine(data.scenario.pcno, data.characterName, data.characterNameKana),
      data.level + " " + data.belief + " " + data.age + " " + data.sex + " " + data.cover,
      StyleLine(data.upperStyle, data.subStyle),
      "流儀: " + data.stylerule,
      "使命: " + data.scenario.mission,
      "",
      "## 人物欄" ]
    + outputPersonalityList(data.personalityList, PersonalityColumns)
    + ["", "## 背景"]
    + outputHaikeiList(data.backgroundList, BackgroundColumns)
  }

  /**
   * Splitting the basic-data tab at its line breaks gives its lines back, and its fifth
   * line the PC number, name and kana, as long as no line holds a CR LF pair itself.
   */
  lemma BasicTabReadsBack<P, G>(
    data: Shinobigami<P, G>, stamp: string,
    outputPersonalityList: (seq<P>, seq<Column>) -> seq<string>,
    outputHaikeiList: (seq<Haikei>, seq<Column>) -> seq<string>)
    requires var lines := BasicLines(data, stamp, outputPersonalityList, outputHaikeiList);
      forall i :: 0 <= i < |lines| ==> NoCrLf(lines[i])
    requires ')' !in data.scenario.pcno && '（' !in data.characterName
    ensures var lines := BasicLines(data, stamp, outputPersonalityList, outputHaikeiList);
      var read := Split(Join(lines, "\r\n"), "\r\n");
      read == lines && ParsePcLine(read[4]) == Some((data.scenario.pcno, data.characterName, data.characterNameKana))
  {
    var lines := BasicLines(data, stamp, outputPersonalityList, outputHaikeiList);
    forall i | 0 <= i < |lines| ensures SeparatorFree(lines[i], "\r\n") {
      CrLfSeparatorFree(lines[i]);
    }
    SplitJoin(lines, "\r\n");
    PcLineRoundTrip(data.scenario.pcno, data.characterName, data.characterNameKana);
  }

  // ---------------------------------------------------------------------------
  // 特技 (skill) tab
  // ---------------------------------------------------------------------------

  /** The three header lines of the skill tab. */
  function TokugiHeader(stamp: string): (r: seq<string>)
    ensures |r| == 3 && r[0] == ReloadLine(stamp)
  {
    [ReloadLine(stamp), "リロードしてもギャップやダメージのチェック状態は引き継がれます", "## 特技"]
  }

  /** The lines of the skill tab: header, the table drawn by the given renderer, and the flag row. */
  function TokugiLines(stamp: string, tableLines: seq<string>, outRow: bool): (r: seq<string>)
    ensures |r| == |tableLines| + 4
    ensures r[..|r| - 1] == TokugiHeader(stamp) + tableLines
    ensures r[|r| - 1] == EncodeOutRow(outRow)
  {
    TokugiHeader(stamp) + tableLines + [EncodeOutRow(outRow)]
  }

  /** The reload line holds no row when its timestamp holds no pipe. */
  lemma ReloadLineNoMatch(stamp: string)
    requires '|' !in stamp
    ensures DecodeOutRow(ReloadLine(stamp)) == None
  {
    var prefix := "@@@RELOAD-CHARACTER-SHEET-ALL@@@ ";
    assert ReloadLine(stamp) == prefix + stamp;
    assert '|' !in prefix;
    NoPipeNoMatch(prefix + stamp);
  }

  /** The two other header lines of the skill tab hold no pipe, so no row. */
  lemma TokugiNoticeNoMatch()
    ensures DecodeOutRow("リロードしてもギャップやダメージのチェック状態は引き継がれます") == None
  {
    NoPipeNoMatch("リロードしてもギャップやダメージのチェック状態は引き継がれます");
  }

  lemma TokugiHeadingNoMatch()
    ensures DecodeOutRow("## 特技") == None
  {
    NoPipeNoMatch("## 特技");
  }

  /** Lines that hold no row, then lines that hold no row, then the encoded row: the row is what is read. */
  lemma RowAfterHeaderAndTable(header: seq<string>, tableLines: seq<string>, outRow: bool)
    requires |header| >= 1
    requires forall i :: 0 <= i < |header| ==> DecodeOutRow(header[i]) == None
    requires forall i :: 0 <= i < |tableLines| ==> DecodeOutRow(tableLines[i]) == None
    ensures DecodeOutRow(Join(header + tableLines + [EncodeOutRow(outRow)], "\r\n")) == Some(outRow)
  {
    var head := header + tableLines;
    forall i | 0 <= i < |head| ensures DecodeOutRow(head[i]) == None {
      if i >= |header| {
        assert head[i] == tableLines[i - |header|];
      }
    }
    RowAfterLines(head, outRow);
  }

  /** No header line of the skill tab holds a row when the timestamp holds no pipe. */
  lemma TokugiHeaderNoMatch(stamp: string)
    requires '|' !in stamp
    ensures forall i :: 0 <= i < |TokugiHeader(stamp)| ==> DecodeOutRow(TokugiHeader(stamp)[i]) == None
  {
    var h := TokugiHeader(stamp);
    forall i | 0 <= i < |h| ensures DecodeOutRow(h[i]) == None {
      if i == 0 {
        ReloadLineNoMatch(stamp);
      } else if i == 1 {
        assert h[1] == "リロードしてもギャップやダメージのチェック状態は引き継がれます";
        TokugiNoticeNoMatch();
      } else {
        assert h[2] == "## 特技";
        TokugiHeadingNoMatch();
      }
    }
  }

  /**
   * Reading the skill tab back finds the flag that was written, provided the timestamp
   * has no pipe and no line of the rendered table looks like the flag row.
   */
  lemma TokugiTabRoundTrip(stamp: string, tableLines: seq<string>, outRow: bool)
    requires '|' !in stamp
    requires forall i :: 0 <= i < |tableLines| ==> DecodeOutRow(tableLines[i]) == None
    ensures DecodeOutRow(Join(TokugiLines(stamp, tableLines, outRow), "\r\n")) == Some(outRow)
  {
    TokugiHeaderNoMatch(stamp);
    RowAfterHeaderAndTable(TokugiHeader(stamp), tableLines, outRow);
  }

  // ---------------------------------------------------------------------------
  // 忍法 (ninja art) tab
  // ---------------------------------------------------------------------------

  const NinpouColumns: seq<Column> := [
    Column("忍法", "name", "left"), Column("", "name", "left"), Column("タイプ", "type", "left"),
    Column("指定特技", "targetSkill", "left"), Column("間合", "range", "right"),
    Column("コスト", "cost", "right"), Column("効果", "effect", "left"), Column("参照p", "page", "left")
  ]

  /** `【name】《skill》` + cost label + cost + `／` + range label + range. */
  function Declaration(name: string, skill: string, costLabel: string, cost: string, rangeLabel: string, range: string): string {
    "【" + name + "】《" + skill + "》" + costLabel + cost + "／" + rangeLabel + range
  }

  /** Reads a declaration back into name, skill, cost and range. */
  function ParseDeclaration(s: string, costLabel: string, rangeLabel: string): Option<(string, string, string, string)> {
    if !StartsWith(s, "【") then None
    else match CutAt(s[1..], '】')
      case None => None
      case Some((name, r1)) =>
        if !StartsWith(r1, "《") then None
        else match CutAt(r1[1..], '》')
          case None => None
          case Some((skill, r2)) =>
            if !StartsWith(r2, costLabel) then None
            else match CutAt(r2[|costLabel|..], '／')
              case None => None
              case Some((cost, r3)) =>
                if !StartsWith(r3, rangeLabel) then None
                else Some((name, skill, cost, r3[|rangeLabel|..]))
  }

  /** A declaration gives back its four fields when none of the first three holds the bracket that closes it. */
  lemma DeclarationRoundTrip(name: string, skill: string, costLabel: string, cost: string, rangeLabel: string, range: string)
    requires '】' !in name && '》' !in skill && '／' !in cost
    ensures ParseDeclaration(Declaration(name, skill, costLabel, cost, rangeLabel, range), costLabel, rangeLabel)
      == Some((name, skill, cost, range))
  {
    var r3 := rangeLabel + range;
    var r2 := costLabel + (cost + ['／'] + r3);
    var r1 := "《" + (skill + ['》'] + r2);
    var s := "【" + (name + ['】'] + r1);
    assert Declaration(name, skill, costLabel, cost, rangeLabel, range) == s;
    assert s[1..] == name + ['】'] + r1;
    CutAtFirst(name, r1, '】');
    assert r1[1..] == skill + ['》'] + r2;
    CutAtFirst(skill, r2, '》');
    assert r2[|costLabel|..] == cost + ['／'] + r3;
    CutAtFirst(cost, r3, '／');
    assert r3[|rangeLabel|..] == range;
  }

  /** The declaration command of the name cell: `@@@CHAT-CMD:[宣言]【…】《…》コスト：…／間合：…@@@`. */
  function DeclarationCommand(n: Ninpou, name: string): string {
    "@@@CHAT-CMD:[宣言]" + Declaration(name, n.targetSkill, "コスト：", n.cost, "間合：", n.range) + "@@@"
  }

  /**
   * The cell callback of the ninja-art table: the skill cell gets the dice-roll text of
   * its skill appended, the unlabelled name cell becomes a declaration command, and
   * every other cell is left to the renderer (`null`).
   */
  function NinpouCell<G>(
    createDiceRollStr: (Tokugi<G>, seq<GapCol>, string) -> string, tokugi: Tokugi<G>,
    column: Column, value: string, n: Ninpou): (r: Option<string>)
    ensures column.prop == "targetSkill" ==> r == Some(value + createDiceRollStr(tokugi, GapColList, n.targetSkill))
    ensures column.prop != "targetSkill" && column.title == "" ==> r == Some(DeclarationCommand(n, value))
    ensures column.prop != "targetSkill" && column.title != "" ==> r == None
  {
    if column.prop == "targetSkill" then Some(value + createDiceRollStr(tokugi, GapColList, n.targetSkill))
    else if column.title == "" then Some(DeclarationCommand(n, value))
    else None
  }

  /** The declaration command gives back the ninja art's name, skill, cost and range. */
  lemma DeclarationCommandRoundTrip(n: Ninpou)
    requires '】' !in n.name && '》' !in n.targetSkill && '／' !in n.cost
    ensures var c := DeclarationCommand(n, n.name);
      StartsWith(c, "@@@CHAT-CMD:[宣言]") && |c| >= 19
      && ParseDeclaration(c[16..|c| - 3], "コスト：", "間合：") == Some((n.name, n.targetSkill, n.cost, n.range))
  {
    var d := Declaration(n.name, n.targetSkill, "コスト：", n.cost, "間合：", n.range);
    var c := DeclarationCommand(n, n.name);
    assert c == "@@@CHAT-CMD:[宣言]" + d + "@@@";
    assert c[16..|c| - 3] == d;
    DeclarationRoundTrip(n.name, n.targetSkill, "コスト：", n.cost, "間合：", n.range);
  }

  /** The lines of the ninja-art tab, the table drawn by the given renderer with `NinpouCell`. */
  function NinpouLines<P, G>(
    data: Shinobigami<P, G>, stamp: string,
    createDiceRollStr: (Tokugi<G>, seq<GapCol>, string) -> string,
    outputNinpouList: (seq<Ninpou>, seq<Column>, (Column, string, Ninpou) -> Option<string>) -> seq<string>)
    : (r: seq<string>)
    ensures |r| >= 2 && r[0] == ReloadLine(stamp) && r[1] == "## 忍法"
  {
    [ReloadLine(stamp), "## 忍法"]
    + outputNinpouList(data.ninpouList, NinpouColumns,
        (column, value, n) => NinpouCell(createDiceRollStr, data.tokugi, column, value, n))
  }

  // ---------------------------------------------------------------------------
  // The memo list the tabs are pushed onto
  // ---------------------------------------------------------------------------

  /** The caller's result list; each `add…` appends one memo to it. */
  class MemoList {
    var memos: seq<Memo>

    constructor ()
      ensures memos == []
    {
      memos := [];
    }

    /** `addBasic(data, resultList)`. */
    method AddBasic<P, G>(
      data: Shinobigami<P, G>, stamp: string,
      outputPersonalityList: (seq<P>, seq<Column>) -> seq<string>,
      outputHaikeiList: (seq<Haikei>, seq<Column>) -> seq<string>)
      modifies this
      ensures memos == old(memos)
        + [Memo("基本情報", "url", Join(BasicLines(data, stamp, outputPersonalityList, outputHaikeiList), "\r\n"))]
    {
      memos := memos
        + [Memo("基本情報", "url", Join(BasicLines(data, stamp, outputPersonalityList, outputHaikeiList), "\r\n"))];
    }

    /** `addTokugi(data, resultList)`: the skill table and the trailing flag row. */
    method AddTokugi<P, G>(
      data: Shinobigami<P, G>, stamp: string,
      outputTokugiTable: (Tokugi<G>, seq<GapCol>) -> seq<string>)
      modifies this
      ensures memos == old(memos)
        + [Memo("特技", "url", Join(TokugiLines(stamp, outputTokugiTable(data.tokugi, GapColList), data.tokugi.outRow), "\r\n"))]
    {
      var tableLines := outputTokugiTable(data.tokugi, GapColList);
      memos := memos + [Memo("特技", "url", Join(TokugiLines(stamp, tableLines, data.tokugi.outRow), "\r\n"))];
    }

    /** `addNinpou(data, resultList)`. */
    method AddNinpou<P, G>(
      data: Shinobigami<P, G>, stamp: string,
      createDiceRollStr: (Tokugi<G>, seq<GapCol>, string) -> string,
      outputNinpouList: (seq<Ninpou>, seq<Column>, (Column, string, Ninpou) -> Option<string>) -> seq<string>)
      modifies this
      ensures memos == old(memos)
        + [Memo("忍法", "url", Join(NinpouLines(data, stamp, createDiceRollStr, outputNinpouList), "\r\n"))]
    {
      memos := memos + [Memo("忍法", "url", Join(NinpouLines(data, stamp, createDiceRollStr, outputNinpouList), "\r\n"))];
    }
  }

  // ---------------------------------------------------------------------------
  // readData
  // ---------------------------------------------------------------------------

  const PersonalityReadColumns: seq<ReadColumn> := [
    ReadColumn("キャラ", "name"), ReadColumn("居", "place"), ReadColumn("秘", "secret"),
    ReadColumn("奥", "specialEffect"), ReadColumn("感情", "emotion")
  ]

  /**
   * The skill-tab step of `readData`: the table reader's result, with the flag taken
   * from the first row found in the text, or left as the reader left it.
   */
  function ReadTokugiTab<G>(
    tokugi: Tokugi<G>, text: string,
    readTokugiTableInfo: (Tokugi<G>, seq<GapCol>, seq<seq<string>>, string, bool, bool, string) -> Tokugi<G>)
    : (r: Tokugi<G>)
    ensures r.grid == readTokugiTableInfo(tokugi, GapColList, TokugiTable, text, true, false, "").grid
    ensures DecodeOutRow(text) == None ==> r == readTokugiTableInfo(tokugi, GapColList, TokugiTable, text, true, false, "")
    ensures DecodeOutRow(text) != None ==> Some(r.outRow) == DecodeOutRow(text)
  {
    var t := readTokugiTableInfo(tokugi, GapColList, TokugiTable, text, true, false, "");
    t.(outRow := NextOutRow(t.outRow, text))
  }

  /** The flag written into the skill tab is the flag read back from it. */
  lemma FlagSurvivesSkillTab<G>(
    written: Tokugi<G>, current: Tokugi<G>, stamp: string,
    outputTokugiTable: (Tokugi<G>, seq<GapCol>) -> seq<string>,
    readTokugiTableInfo: (Tokugi<G>, seq<GapCol>, seq<seq<string>>, string, bool, bool, string) -> Tokugi<G>)
    requires '|' !in stamp
    requires var lines := outputTokugiTable(written, GapColList);
      forall i :: 0 <= i < |lines| ==> DecodeOutRow(lines[i]) == None
    ensures var text := Join(TokugiLines(stamp, outputTokugiTable(written, GapColList), written.outRow), "\r\n");
      ReadTokugiTab(current, text, readTokugiTableInfo).outRow == written.outRow
  {
    TokugiTabRoundTrip(stamp, outputTokugiTable(written, GapColList), written.outRow);
  }

  /** The character record that `readData` updates in place. */
  class Sheet<P, G> {
    var data: Shinobigami<P, G>

    constructor (data: Shinobigami<P, G>)
      ensures this.data == data
    {
      this.data := data;
    }

    /**
     * `readData(data, memoList)`: the personality table is read from the basic-data tab
     * and the skill table and its flag from the skill tab, each only when
     * `tabTextProcess` hands over that tab's text; nothing else in the record changes.
     */
    method ReadData(
      memoList: seq<Memo>,
      tabTextProcess: (string, seq<Memo>) -> Option<string>,
      readPersonalityList: (Shinobigami<P, G>, string, seq<ReadColumn>) -> seq<P>,
      readTokugiTableInfo: (Tokugi<G>, seq<GapCol>, seq<seq<string>>, string, bool, bool, string) -> Tokugi<G>)
      modifies this
      ensures data == old(data).(personalityList := data.personalityList, tokugi := data.tokugi)
      ensures match tabTextProcess("基本情報", memoList)
        case None => data.personalityList == old(data).personalityList
        case Some(text) => data.personalityList == readPersonalityList(old(data), text, PersonalityReadColumns)
      ensures match tabTextProcess("特技", memoList)
        case None => data.tokugi == old(data).tokugi
        case Some(text) => data.tokugi == ReadTokugiTab(old(data).tokugi, text, readTokugiTableInfo)
    {
      var basicText := tabTextProcess("基本情報", memoList);
      if basicText.Some? {
        data := data.(personalityList := readPersonalityList(data, basicText.value, PersonalityReadColumns));
      }
      var tokugiText := tabTextProcess("特技", memoList);
      if tokugiText.Some? {
        data := data.(tokugi := ReadTokugiTab(data.tokugi, tokugiText.value, readTokugiTableInfo));
      }
    }
  }

  // ---------------------------------------------------------------------------
  // Chat palette
  // ---------------------------------------------------------------------------

  /** One chat palette: its name and its text, one command per line. */
  datatype Palette = Palette(name: string, paletteText: string)

  const TableCommands: seq<string> := [
    "ST (無印)シーン表", "FT ファンブル表", "ET 感情表", "KWT 変調表", "RTT ランダム特技決定表",
    "D66", "choice[〇〇,△△,□□]"
  ]

  const ResourceCommands: seq<string> := [
    "兵糧丸を１つ使用", "兵糧丸を１つ獲得", "神通丸を１つ使用", "神通丸を１つ獲得",
    "遁甲符を１つ使用", "遁甲符を１つ獲得"
  ]

  /**
   * The three palette lines of one ninja art, each with its line breaks removed: an empty
   * line, the declaration, and `効果:` before the effect without its line breaks.
   */
  function NinpouPaletteLines(n: Ninpou): (r: seq<string>)
    ensures |r| == 3 && r[0] == ""
    ensures r[2] == "効果:" + Without(CrBeforeLfDropped(n.effect), '\n')
    ensures forall j :: 0 <= j < 3 ==> '\n' !in r[j]
  {
    PlainPrefixKept("効果:", n.effect, "");
    StrippingDropsLineBreaks(n.effect);
    [ ReplaceLineBreaks("", ""),
      ReplaceLineBreaks(Declaration(n.name, n.targetSkill, "ｺｽﾄ：", OrElse(n.cost, "なし"), "間合:", OrElse(n.range, "なし")), ""),
      ReplaceLineBreaks("効果:" + n.effect, "") ]
  }

  /** The `flatMap` over the ninja arts: three lines each, in their order. */
  function NinpouPaletteBlock(list: seq<Ninpou>): (r: seq<string>)
    ensures |r| == 3 * |list|
    ensures forall i :: 0 <= i < |list| ==> r[3 * i..3 * i + 3] == NinpouPaletteLines(list[i])
    ensures forall j :: 0 <= j < |r| ==> '\n' !in r[j]
  {
    if list == [] then []
    else
      var rest := NinpouPaletteBlock(list[1..]);
      var r := NinpouPaletteLines(list[0]) + rest;
      assert forall i :: 1 <= i < |list| ==> r[3 * i..3 * i + 3] == rest[3 * (i - 1)..3 * (i - 1) + 3];
      r
  }

  /** The palette lines: dice, skills, tables, resources, then the ninja arts. */
  function PaletteLines(ninpouList: seq<Ninpou>, skillLines: seq<string>): (r: seq<string>)
    ensures |r| == 16 + |skillLines| + 3 * |ninpouList|
    ensures r[..2] == ["2D6", "2D6>="] && r[2..2 + |skillLines|] == skillLines
    ensures r[2 + |skillLines|..9 + |skillLines|] == TableCommands && r[9 + |skillLines|] == ""
    ensures r[10 + |skillLines|..16 + |skillLines|] == ResourceCommands
    ensures r[16 + |skillLines|..] == NinpouPaletteBlock(ninpouList)
  {
    ["2D6", "2D6>="] + skillLines + TableCommands + [""] + ResourceCommands + NinpouPaletteBlock(ninpouList)
  }

  /**
   * `createChatPalette()`: no palette without a record; otherwise one palette named
   * after the character whose text is the palette lines joined with LF.
   */
  function ChatPalette<P, G>(data: Option<Shinobigami<P, G>>, outputTokugiChatPalette: Tokugi<G> -> seq<string>)
    : (r: seq<Palette>)
    ensures data.None? <==> r == []
    ensures data.Some? ==> |r| == 1 && r[0].name == "◆" + data.value.characterName
  {
    if data.None? then []
    else
      var d := data.value;
      [Palette("◆" + d.characterName, Join(PaletteLines(d.ninpouList, outputTokugiChatPalette(d.tokugi)), "\n"))]
  }

  /** No line holds a LF. */
  predicate LfFree(lines: seq<string>) {
    forall i :: 0 <= i < |lines| ==> '\n' !in lines[i]
  }

  lemma LfFreeConcat(a: seq<string>, b: seq<string>)
    requires LfFree(a) && LfFree(b)
    ensures LfFree(a + b)
  {
    forall i | 0 <= i < |a + b| ensures '\n' !in (a + b)[i] {
      if i >= |a| {
        assert (a + b)[i] == b[i - |a|];
      }
    }
  }

  /** The seven table commands hold no LF. */
  lemma TableCommandsLfFree()
    ensures LfFree(TableCommands)
  {
    forall i | 0 <= i < |TableCommands| ensures '\n' !in TableCommands[i] {
      assert TableCommands[i] in TableCommands;
    }
  }

  /** The six resource commands hold no LF. */
  lemma ResourceCommandsLfFree()
    ensures LfFree(ResourceCommands)
  {
    forall i | 0 <= i < |ResourceCommands| ensures '\n' !in ResourceCommands[i] {
      assert ResourceCommands[i] in ResourceCommands;
    }
  }

  /** Every palette line is free of LF when the skill lines are. */
  lemma PaletteLinesLfFree(ninpouList: seq<Ninpou>, skillLines: seq<string>)
    requires LfFree(skillLines)
    ensures LfFree(PaletteLines(ninpouList, skillLines))
  {
    TableCommandsLfFree();
    ResourceCommandsLfFree();
    assert LfFree(["2D6", "2D6>="]) && LfFree([""]);
    var block := NinpouPaletteBlock(ninpouList);
    LfFreeConcat(["2D6", "2D6>="], skillLines);
    LfFreeConcat(["2D6", "2D6>="] + skillLines, TableCommands);
    LfFreeConcat(["2D6", "2D6>="] + skillLines + TableCommands, [""]);
    LfFreeConcat(["2D6", "2D6>="] + skillLines + TableCommands + [""], ResourceCommands);
    LfFreeConcat(["2D6", "2D6>="] + skillLines + TableCommands + [""] + ResourceCommands, block);
  }

  /** Splitting the palette text at LF gives exactly the palette lines, when no skill line holds a LF. */
  lemma PaletteTextSplits<P, G>(data: Shinobigami<P, G>, outputTokugiChatPalette: Tokugi<G> -> seq<string>)
    requires LfFree(outputTokugiChatPalette(data.tokugi))
    ensures Split(ChatPalette(Some(data), outputTokugiChatPalette)[0].paletteText, "\n")
      == PaletteLines(data.ninpouList, outputTokugiChatPalette(data.tokugi))
  {
    var lines := PaletteLines(data.ninpouList, outputTokugiChatPalette(data.tokugi));
    PaletteLinesLfFree(data.ninpouList, outputTokugiChatPalette(data.tokugi));
    forall i | 0 <= i < |lines| ensures SeparatorFree(lines[i], "\n") {
      CharSeparatorFree(lines[i], '\n');
    }
    SplitJoin(lines, "\n");
  }

  /** A ninja-art declaration in the palette gives back its fields, an empty cost or range read as なし. */
  lemma PaletteDeclarationReadsBack(n: Ninpou)
    requires '\n' !in n.name && '\n' !in n.targetSkill && '\n' !in n.cost && '\n' !in n.range
    requires '】' !in n.name && '》' !in n.targetSkill && '／' !in n.cost
    ensures ParseDeclaration(NinpouPaletteLines(n)[1], "ｺｽﾄ：", "間合:")
      == Some((n.name, n.targetSkill, OrElse(n.cost, "なし"), OrElse(n.range, "なし")))
  {
    var d := Declaration(n.name, n.targetSkill, "ｺｽﾄ：", OrElse(n.cost, "なし"), "間合:", OrElse(n.range, "なし"));
    assert '\n' !in d;
    NoLineBreakUnchanged(d);
    DeclarationRoundTrip(n.name, n.targetSkill, "ｺｽﾄ：", OrElse(n.cost, "なし"), "間合:", OrElse(n.range, "なし"));
  }

  /** Text without LF is not changed by removing line breaks. */
  lemma {:induction false} NoLineBreakUnchanged(s: string)
    requires '\n' !in s
    ensures ReplaceLineBreaks(s, "") == s
    decreases |s|
  {
    if s != [] {
      NoLineBreakUnchanged(s[1..]);
      assert s == [s[0]] + s[1..];
    }
  }
}
