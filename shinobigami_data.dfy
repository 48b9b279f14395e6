/**
 * The character record of a Shinobigami sheet: the raw record the sheet service
 * delivers, the typed record the importer builds from it, and `createData` with its
 * text filter and upper-style table (`shinobigami.ts`).
 */
module ShinobigamiData {
  import opened Wrappers
  import opened Text

  // ---------------------------------------------------------------------------
  // Raw record
  // ---------------------------------------------------------------------------

  /** A raw JSON value, for the one field whose truthiness is taken (`!!n["secret"]`). */
  datatype Json = Undefined | Null | Bool(b: bool) | Number(n: int) | Str(s: string) | Composite
  {
    /** JavaScript truthiness; objects and arrays are truthy. */
    predicate Truthy() {
      match this
      case Undefined => false
      case Null => false
      case Bool(b) => b
      case Number(n) => n != 0
      case Str(s) => s != ""
      case Composite => true
    }
  }

  /** The `base` object; `None` stands for a null or missing field. */
  datatype RawBase = RawBase(
    player: Option<string>, name: Option<string>, nameKana: Option<string>,
    foe: Option<string>, exp: Option<string>, memo: Option<string>,
    upperstyle: Option<string>, substyle: Option<string>, level: Option<string>,
    age: Option<string>, sex: Option<string>, cover: Option<string>,
    belief: Option<string>, stylerule: Option<string>)

  /** One entry of the `ninpou` array. */
  datatype RawNinpou = RawNinpou(
    secret: Json, name: Option<string>, kind: Option<string>, targetSkill: Option<string>,
    range: Option<string>, cost: Option<string>, effect: Option<string>, page: Option<string>)

  /** The `scenario` object. */
  datatype RawScenario = RawScenario(
    handout: Option<string>, mission: Option<string>, name: Option<string>, pcno: Option<string>)

  /** One entry of the `background` array. */
  datatype RawBackground = RawBackground(
    name: Option<string>, kind: Option<string>, point: Option<string>, effect: Option<string>)

  /** The record the sheet service returns. */
  datatype RawRecord = RawRecord(
    base: RawBase, ninpou: seq<RawNinpou>, scenario: RawScenario, background: seq<RawBackground>)

  // ---------------------------------------------------------------------------
  // Typed record
  // ---------------------------------------------------------------------------

  /** 忍法: one ninja art. */
  datatype Ninpou = Ninpou(
    secret: bool, name: string, kind: string, targetSkill: string,
    range: string, cost: string, effect: string, page: string)

  /** 背景: one background entry. */
  datatype Haikei = Haikei(name: string, kind: string, point: string, effect: string)

  datatype Scenario = Scenario(handout: string, mission: string, name: string, pcno: string)

  /**
   * 特技: the skill table. Its grid, gaps and damage belong to the shared dice-fiction
   * helpers and stay abstract (`G`); `outRow` is the flag this module reads and writes.
   */
  datatype Tokugi<G> = Tokugi(grid: G, outRow: bool)

  /** The typed character record; `P` is the shared helpers' personality entry. */
  datatype Shinobigami<P, G> = Shinobigami(
    url: string, playerName: string, characterName: string, characterNameKana: string,
    foe: string, exp: string, memo: string, upperStyle: string, subStyle: string,
    level: string, age: string, sex: string, cover: string, belief: string,
    stylerule: string, ninpouList: seq<Ninpou>, personalityList: seq<P>,
    scenario: Scenario, backgroundList: seq<Haikei>, tokugi: Tokugi<G>)

  // ---------------------------------------------------------------------------
  // Tables
  // ---------------------------------------------------------------------------

  /** A skill category column of the table and the space column left of it. */
  datatype GapCol = GapCol(spaceIndex: nat, colText: string)

  const GapColList: seq<GapCol> := [
    GapCol(5, "器術"), GapCol(0, "体術"), GapCol(1, "忍術"),
    GapCol(2, "謀術"), GapCol(3, "戦術"), GapCol(4, "妖術")
  ]

  /** The upper-style codes of the sheet service and the school each names. */
  const UpperStyleDict: map<string, string> := map[
    "a" := "斜歯忍軍", "ab" := "鞍馬神流", "bc" := "ハグレモノ",
    "cd" := "比良坂機関", "de" := "私立御斎学園", "e" := "隠忍の血統"
  ]

  /** The eleven rows of six skills, one column per category. */
  const TokugiTable: seq<seq<string>> := [
    ["絡繰術", "騎乗術", "生存術", "医術", "兵糧術", "異形化"],
    ["火術", "砲術", "潜伏術", "毒術", "鳥獣術", "召喚術"],
    ["水術", "手裏剣術", "遁走術", "罠術", "野戦術", "死霊術"],
    ["針術", "手練", "盗聴術", "調査術", "地の利", "結界術"],
    ["仕込み", "身体操術", "腹話術", "詐術", "意気", "封術"],
    ["衣装術", "歩法", "隠形術", "対人術", "用兵術", "言霊術"],
    ["縄術", "走法", "変装術", "遊芸", "記憶術", "幻術"],
    ["登術", "飛術", "香術", "九ノ一の術", "見敵術", "瞳術"],
    ["拷問術", "骨法術", "分身の術", "傀儡の術", "暗号術", "千里眼の術"],
    ["壊器術", "刀術", "隠蔽術", "流言の術", "伝達術", "憑依術"],
    ["掘削術", "怪力", "第六感", "経済力", "人脈", "呪術"]
  ]

  // ---------------------------------------------------------------------------
  // textFilter / upperStyle
  // ---------------------------------------------------------------------------

  /**
   * `textFilter(text)`: "" for null or empty text, otherwise the trimmed text with every
   * line break written as LF: exactly the CRs that stand right before an LF are deleted,
   * a lone CR stays, both ends stay free of whitespace, and unless the trimmed text holds
   * CR CR LF no CR LF pair is left.
   */
  function TextFilter(text: Option<string>): (r: string)
    ensures text == None || text == Some("") ==> r == ""
    ensures text.Some? ==> r == CrBeforeLfDropped(Trim(text.value))
    ensures IsTrimmed(r)
    ensures text.Some? ==> Without(r, '\r') == Without(Trim(text.value), '\r')
    ensures text.Some? && NoCrCrLf(Trim(text.value)) ==> NoCrLf(r)
  {
    if text.None? || text.value == "" then ""
    else
      var t := Trim(text.value);
      NormalizingTrimmed(t);
      NormalizingDropsCrBeforeLf(t);
      ReplaceLineBreaks(t, "\n")
  }

  /** Normalising the line breaks of trimmed text keeps it trimmed and loses nothing but CRs. */
  lemma NormalizingTrimmed(t: string)
    requires IsTrimmed(t)
    ensures IsTrimmed(ReplaceLineBreaks(t, "\n"))
    ensures Without(ReplaceLineBreaks(t, "\n"), '\r') == Without(t, '\r')
    ensures NoCrCrLf(t) ==> NoCrLf(ReplaceLineBreaks(t, "\n"))
  {
    NormalizingKeepsText(t);
    if t != [] {
      FirstCharKept(t, "\n");
      LastCharKept(t, "\n");
    }
    if NoCrCrLf(t) {
      NormalizedHasNoCrLf(t);
    }
  }

  /** Filtering filtered text again changes nothing, as long as it has no CR CR LF. */
  lemma TextFilterIdempotent(text: Option<string>)
    requires text.Some? ==> NoCrCrLf(Trim(text.value))
    ensures TextFilter(Some(TextFilter(text))) == TextFilter(text)
  {
    var r := TextFilter(text);
    if r != "" {
      TrimTrimmed(r);
      NormalizingIsIdentity(r);
    }
  }

  /** On trimmed non-empty text the filter only rewrites line breaks. */
  lemma FilterOfTrimmed(t: string)
    requires IsTrimmed(t) && t != ""
    ensures TextFilter(Some(t)) == ReplaceLineBreaks(t, "\n")
  {
    TrimTrimmed(t);
  }

  /** One pass over CR CR LF: the first CR stays, the CR LF pair becomes LF. */
  lemma NormalizeCrCrLfExample()
    ensures ReplaceLineBreaks("a\r\r\nb", "\n") == "a\r\nb"
  {
    assert ReplaceLineBreaks("b", "\n") == "b";
    assert ReplaceLineBreaks("\r\nb", "\n") == "\nb";
    assert ReplaceLineBreaks("\r\r\nb", "\n") == "\r\nb";
  }

  lemma NormalizeCrLfExample()
    ensures ReplaceLineBreaks("a\r\nb", "\n") == "a\nb"
  {
    assert ReplaceLineBreaks("b", "\n") == "b";
    assert ReplaceLineBreaks("\r\nb", "\n") == "\nb";
  }

  /** A CR inside the text that no LF follows is kept. */
  lemma TextFilterKeepsLoneCr()
    ensures TextFilter(Some("a\rb")) == "a\rb"
  {
    FilterOfTrimmed("a\rb");
    LoneCrKept("a", "b");
    assert "a" + "\r" + "b" == "a\rb";
    assert ReplaceLineBreaks("a", "\n") == "a";
    assert ReplaceLineBreaks("b", "\n") == "b";
  }

  /** A CR CR LF sequence leaves a CR LF pair behind, so a second pass would change it. */
  lemma TextFilterKeepsCrLf()
    ensures TextFilter(Some("a\r\r\nb")) == "a\r\nb"
    ensures TextFilter(Some(TextFilter(Some("a\r\r\nb")))) == "a\nb"
  {
    FilterOfTrimmed("a\r\r\nb");
    NormalizeCrCrLfExample();
    FilterOfTrimmed("a\r\nb");
    NormalizeCrLfExample();
  }

  /**
   * `upperStyleDict[code] || ""`: the school the code names, or "" for a missing or
   * unknown code; the result is never the raw code itself.
   */
  function UpperStyle(code: Option<string>): (r: string)
    ensures code.Some? && code.value in UpperStyleDict ==> r == UpperStyleDict[code.value]
    ensures r != "" ==> r in UpperStyleDict.Values
    ensures (code.None? || code.value !in UpperStyleDict) ==> r == ""
    ensures code.Some? && code.value != "" ==> r != code.value
  {
    if code.Some? && code.value in UpperStyleDict then UpperStyleDict[code.value] else ""
  }

  // ---------------------------------------------------------------------------
  // createData
  // ---------------------------------------------------------------------------

  /** The chat command attached to each skill roll: `@@@CHAT-CMD:[move]SG>=move t→tt@@@`. */
  function SkillRollCommand<G>(tokugi: Tokugi<G>, t: string, tt: string, move: int): (r: string)
    ensures |r| > 0 && r[0] == '@'
  {
    "@@@CHAT-CMD:[" + IntToDecimal(move) + "]SG>=" + IntToDecimal(move) + " " + t + "→" + tt + "@@@"
  }

  /** One `ninpou` entry: the secret flag is the truthiness of the raw value, every text field filtered. */
  function CreateNinpou(n: RawNinpou): (r: Ninpou)
    ensures r.secret <==> n.secret.Truthy()
    ensures r.name == TextFilter(n.name) && r.kind == TextFilter(n.kind)
    ensures r.targetSkill == TextFilter(n.targetSkill) && r.range == TextFilter(n.range)
    ensures r.cost == TextFilter(n.cost) && r.effect == TextFilter(n.effect)
    ensures r.page == TextFilter(n.page)
  {
    Ninpou(n.secret.Truthy(), TextFilter(n.name), TextFilter(n.kind), TextFilter(n.targetSkill),
      TextFilter(n.range), TextFilter(n.cost), TextFilter(n.effect), TextFilter(n.page))
  }

  /** `b["point"] || "0"`: the raw value, untrimmed, or "0" when it is missing or empty. */
  function BackgroundPoint(point: Option<string>): (r: string)
    ensures r != ""
    ensures point.Some? && point.value != "" ==> r == point.value
    ensures point.None? || point.value == "" ==> r == "0"
  {
    if point.Some? && point.value != "" then point.value else "0"
  }

  /** One `background` entry: text fields filtered, the point taken raw or defaulted to "0". */
  function CreateHaikei(b: RawBackground): (r: Haikei)
    ensures r.name == TextFilter(b.name) && r.kind == TextFilter(b.kind)
    ensures r.point == BackgroundPoint(b.point) && r.effect == TextFilter(b.effect)
  {
    Haikei(TextFilter(b.name), TextFilter(b.kind), BackgroundPoint(b.point), TextFilter(b.effect))
  }

  /** Every text field that went through the filter, and the school, in normal form. */
  predicate Normalized<P, G>(d: Shinobigami<P, G>) {
    && IsTrimmed(d.playerName) && IsTrimmed(d.characterName) && IsTrimmed(d.characterNameKana)
    && IsTrimmed(d.foe) && IsTrimmed(d.exp) && IsTrimmed(d.memo) && IsTrimmed(d.subStyle)
    && IsTrimmed(d.level) && IsTrimmed(d.age) && IsTrimmed(d.sex) && IsTrimmed(d.cover)
    && IsTrimmed(d.belief) && IsTrimmed(d.stylerule)
    && (d.upperStyle == "" || d.upperStyle in UpperStyleDict.Values)
    && IsTrimmed(d.scenario.handout) && IsTrimmed(d.scenario.mission)
    && IsTrimmed(d.scenario.name) && IsTrimmed(d.scenario.pcno)
    && (forall i :: 0 <= i < |d.ninpouList| ==> NormalizedNinpou(d.ninpouList[i]))
    && (forall i :: 0 <= i < |d.backgroundList| ==> NormalizedHaikei(d.backgroundList[i]))
  }

  predicate NormalizedNinpou(n: Ninpou) {
    IsTrimmed(n.name) && IsTrimmed(n.kind) && IsTrimmed(n.targetSkill) && IsTrimmed(n.range)
    && IsTrimmed(n.cost) && IsTrimmed(n.effect) && IsTrimmed(n.page)
  }

  predicate NormalizedHaikei(h: Haikei) {
    IsTrimmed(h.name) && IsTrimmed(h.kind) && h.point != "" && IsTrimmed(h.effect)
  }

  /**
   * `createData(json)`: no record without a raw record; otherwise the typed record, with
   * the ninja arts and backgrounds mapped one to one in their order, each secret the
   * truthiness of its raw value and each point the raw value or "0". `createEmotion` and
   * `createTokugi` belong to the shared dice-fiction helpers and are given as parameters.
   */
  function CreateData<P, G>(
    url: string, json: Option<RawRecord>,
    createEmotion: RawRecord -> seq<P>,
    createTokugi: (RawRecord, seq<seq<string>>, bool, bool, bool, (Tokugi<G>, string, string, int) -> string) -> Tokugi<G>)
    : (r: Option<Shinobigami<P, G>>)
    ensures r.None? <==> json.None?
    ensures r.Some? ==> (r.value.url == url
      && |r.value.ninpouList| == |json.value.ninpou|
      && |r.value.backgroundList| == |json.value.background|)
    ensures r.Some? ==> (
      var b := json.value.base;
      && r.value.playerName == TextFilter(b.player) && r.value.characterName == TextFilter(b.name)
      && r.value.characterNameKana == TextFilter(b.nameKana) && r.value.foe == TextFilter(b.foe)
      && r.value.exp == TextFilter(b.exp) && r.value.memo == TextFilter(b.memo)
      && r.value.upperStyle == UpperStyle(b.upperstyle)
      && r.value.subStyle == TextFilter(b.substyle) && r.value.level == TextFilter(b.level)
      && r.value.age == TextFilter(b.age) && r.value.sex == TextFilter(b.sex)
      && r.value.cover == TextFilter(b.cover) && r.value.belief == TextFilter(b.belief)
      && r.value.stylerule == TextFilter(b.stylerule))
    ensures r.Some? ==> (
      var s := json.value.scenario;
      r.value.scenario == Scenario(TextFilter(s.handout), TextFilter(s.mission), TextFilter(s.name), TextFilter(s.pcno)))
    ensures r.Some? ==> forall i :: 0 <= i < |json.value.ninpou| ==>
      r.value.ninpouList[i] == CreateNinpou(json.value.ninpou[i])
    ensures r.Some? ==> forall i :: 0 <= i < |json.value.background| ==>
      r.value.backgroundList[i] == CreateHaikei(json.value.background[i])
    ensures r.Some? ==> r.value.personalityList == createEmotion(json.value)
    ensures r.Some? ==> r.value.tokugi == createTokugi(json.value, TokugiTable, true, false, false, SkillRollCommand)
  {
    if json.None? then None
    else
      var raw := json.value;
      var b := raw.base;
      var s := raw.scenario;
      Some(Shinobigami(
        url, TextFilter(b.player), TextFilter(b.name), TextFilter(b.nameKana),
        TextFilter(b.foe), TextFilter(b.exp), TextFilter(b.memo), UpperStyle(b.upperstyle),
        TextFilter(b.substyle), TextFilter(b.level), TextFilter(b.age), TextFilter(b.sex),
        TextFilter(b.cover), TextFilter(b.belief), TextFilter(b.stylerule),
        CreateNinpouList(raw.ninpou), createEmotion(raw), CreateScenario(s),
        CreateHaikeiList(raw.background),
        createTokugi(raw, TokugiTable, true, false, false, SkillRollCommand)))
  }

  lemma CreateNinpouNormalized(n: RawNinpou)
    ensures NormalizedNinpou(CreateNinpou(n))
  {
  }

  lemma CreateHaikeiNormalized(b: RawBackground)
    ensures NormalizedHaikei(CreateHaikei(b))
  {
  }

  /** `json["ninpou"].map(...)`: one ninja art per raw entry, in order. */
  function CreateNinpouList(ns: seq<RawNinpou>): (r: seq<Ninpou>)
    ensures |r| == |ns|
    ensures forall i :: 0 <= i < |ns| ==> r[i] == CreateNinpou(ns[i])
  {
    seq(|ns|, i requires 0 <= i < |ns| => CreateNinpou(ns[i]))
  }

  /** `json["background"].map(...)`: one background per raw entry, in order. */
  function CreateHaikeiList(bs: seq<RawBackground>): (r: seq<Haikei>)
    ensures |r| == |bs|
    ensures forall i :: 0 <= i < |bs| ==> r[i] == CreateHaikei(bs[i])
  {
    seq(|bs|, i requires 0 <= i < |bs| => CreateHaikei(bs[i]))
  }

  /** The `scenario` object with every field filtered. */
  function CreateScenario(s: RawScenario): Scenario {
    Scenario(TextFilter(s.handout), TextFilter(s.mission), TextFilter(s.name), TextFilter(s.pcno))
  }

  /** Every record `createData` builds is in normal form. */
  lemma CreateDataNormalized<P, G>(
    url: string, json: Option<RawRecord>,
    createEmotion: RawRecord -> seq<P>,
    createTokugi: (RawRecord, seq<seq<string>>, bool, bool, bool, (Tokugi<G>, string, string, int) -> string) -> Tokugi<G>)
    requires json.Some?
    ensures CreateData(url, json, createEmotion, createTokugi).Some?
    ensures Normalized(CreateData(url, json, createEmotion, createTokugi).value)
  {
    var raw := json.value;
    var d := CreateData(url, json, createEmotion, createTokugi).value;
    forall i | 0 <= i < |d.ninpouList| ensures NormalizedNinpou(d.ninpouList[i]) {
      assert d.ninpouList[i] == CreateNinpou(raw.ninpou[i]);
      CreateNinpouNormalized(raw.ninpou[i]);
    }
    forall i | 0 <= i < |d.backgroundList| ensures NormalizedHaikei(d.backgroundList[i]) {
      assert d.backgroundList[i] == CreateHaikei(raw.background[i]);
      CreateHaikeiNormalized(raw.background[i]);
    }
  }
}
