# Shinobigami sheet import and primary data utilities, in Dafny

This project models two parts of Quoridorn Mark2.

**The Shinobigami character-sheet importer** (`shinobigami.ts`):
- `createData`: turns the raw sheet record into the typed character record. Every text field is trimmed and its line breaks normalised (`textFilter`). The school code is looked up in the six-entry upper-style table. Ninja arts and backgrounds are mapped one to one.
- `addTokugi`: writes the skill tab. Its last line is a row of thirteen pipe-separated cells that is the only place the `outRow` flag is kept.
- `readData`: reads the personality table, the skill table and that flag back from the memo tabs. It finds the row with a regular expression of the same shape.
- `addBasic` / `addNinpou`: render the basic-data and ninja-art tabs.
- `createChatPalette`: builds the chat palette.

**The primitive utilities** (`PrimaryDataUtility.ts`):
- integer `sum` and `average`;
- the number and boolean parsers;
- the in-place list operations `listToEmpty` and `listDelete`;
- `zeroPadding`;
- the file-name helpers;
- `hoseiStr`.

## Modules

- `Wrappers`: `Option`.
- `Text`: the JavaScript string operations the code relies on. These are `trim` with the ECMAScript white-space set, `replace(/\r?\n/g, rep)`, `join`, `split`, `indexOf`, and decimal `toString`.
- `PrimaryData`: `PrimaryDataUtility.ts`. `listToEmpty` and `listDelete` are methods on a `MutableList` class whose `items` field they update in place. `listDelete` keeps the source's two phases: first it collects the indices of the selected elements, then it splices them out from the highest index down.
- `ShinobigamiData`: the raw record, the typed record, `textFilter`, the upper-style table and `createData`.
- `OutRowCodec`: the trailing flag row. The decoding regular expression is modelled as a greedy scanner plus a leftmost search. Every optional or repeated part of the expression is followed by a token that the part cannot consume, so at a given start the expression matches exactly when the greedy scan succeeds.
- `Shinobigami`: the tab templates, and the `MemoList` class that `addBasic` / `addTokugi` / `addNinpou` append to. Also the `Sheet` class whose record `readData` updates in place, and the chat palette.

The shared dice-fiction helpers are not part of this model. They are passed in as function parameters, and the types they own are type parameters (`P` for a personality, `G` for the skill grid). The helpers are `createTokugi`, `createEmotion`, `outputTokugiTable`, `readTokugiTableInfo`, `outputTableList`, `outputPersonalityList`, `readPersonalityList`, `createDiceRollStr`, `outputTokugiChatPalette` and `tabTextProcess`.

The timestamp that `moment()` writes on the first line of each tab is a `stamp` parameter.

**A corner of `textFilter`.** The code replaces `\r?\n` with LF. That deletes exactly the CRs that stand right before an LF (`Text.CrBeforeLfDropped`) and keeps every other CR. So one CR LF stays in place when the text holds CR CR LF. `"a\r\r\nb"` becomes `"a\r\nb"`, and filtering that again gives `"a\nb"`, so the filter is not idempotent on such text. The model follows the code:
- `TextFilter` states its result exactly through `CrBeforeLfDropped`, and promises "no CR LF" only for text without CR CR LF;
- `TextFilterKeepsCrLf` exhibits the counterexample.

## Model

| member | source | states |
|---|---|---|
| Text.Trim | src/app/core/utility/trpg_system/shinobigami.ts:117 | the result has no leading or trailing JavaScript white space and is the input with exactly its white-space margins removed |
| Text.TrimTrimmed | src/app/core/utility/trpg_system/shinobigami.ts:117 | trimming text that is already trimmed changes nothing |
| Text.ReplaceLineBreaks | src/app/core/utility/trpg_system/shinobigami.ts:117 | replacing every `\r?\n` with a text free of LF leaves no LF |
| Text.NormalizingKeepsText | src/app/core/utility/trpg_system/shinobigami.ts:117 | normalising line breaks to LF loses no character other than CR |
| Text.StrippingKeepsText | src/app/core/utility/trpg_system/shinobigami.ts:102 | removing line breaks loses no character other than CR and LF |
| Text.NormalizingDropsCrBeforeLf | src/app/core/utility/trpg_system/shinobigami.ts:117 | writing every `\r?\n` as LF is exactly deleting the CRs that stand right before an LF |
| Text.StrippingDropsLineBreaks | src/app/core/utility/trpg_system/shinobigami.ts:102 | removing every `\r?\n` is exactly deleting the CRs right before an LF and every LF; a lone CR stays |
| Text.CrBeforeLfDroppedConcat | src/app/core/utility/trpg_system/shinobigami.ts:117 | the deletion works part by part when the second part does not start with LF |
| Text.LoneCrKept | src/app/core/utility/trpg_system/shinobigami.ts:117 | a CR that no LF follows survives normalisation in its place |
| Text.PlainPrefixKept | src/app/core/utility/trpg_system/shinobigami.ts:101-102 | a prefix without CR or LF passes through line-break replacement unchanged |
| Text.NormalizedHasNoCrLf | src/app/core/utility/trpg_system/shinobigami.ts:117 | normalised text holds no CR LF pair when the input held no CR CR LF |
| Text.NormalizingIsIdentity | src/app/core/utility/trpg_system/shinobigami.ts:117 | text without a CR LF pair is left as it is by normalising |
| Text.SplitJoin | src/app/core/utility/trpg_system/shinobigami.ts:330 | splitting lines joined with a separator that none of them contains gives the lines back |
| Text.JoinAppend | src/app/core/utility/trpg_system/shinobigami.ts:330 | joining one more line appends the separator and that line |
| Text.CutAtFirst | src/app/core/utility/trpg_system/shinobigami.ts:304-306 | cutting at the first occurrence of a character gives back the parts around it |
| Text.IntToDecimal | src/app/core/utility/PrimaryDataUtility.ts:169 | `toString(10)`: the digits of the magnitude, with a minus sign exactly for negative numbers |
| Text.NatToDecimal | src/app/core/utility/PrimaryDataUtility.ts:169 | decimal digits only, with no leading zero |
| PrimaryData.Sum | src/app/core/utility/PrimaryDataUtility.ts:6-8 | the sum of the empty list is 0 |
| PrimaryData.SumAppend | src/app/core/utility/PrimaryDataUtility.ts:6-8 | appending a value adds it to the sum |
| PrimaryData.SumConcat | src/app/core/utility/PrimaryDataUtility.ts:6-8 | the sum of two lists laid end to end is the sum of their sums |
| PrimaryData.Average | src/app/core/utility/PrimaryDataUtility.ts:15-18 | no value exactly for the empty list; otherwise a value whose product with the length is the sum |
| PrimaryData.ConvertNumberNull | src/app/core/utility/PrimaryDataUtility.ts:30-45 | null or empty text and any radix other than 10 and 16 give nothing; the trimmed text without one leading plus is an integer of the radix exactly when an integer comes back, and then it is that integer's value; otherwise, in radix 10, a decimal fraction comes back as that text exactly when the text is one; text matching no pattern gives nothing |
| PrimaryData.NoPatternExample | src/app/core/utility/PrimaryDataUtility.ts:42-44 | `"abc"` in radix 10 gives nothing, `"1.5"` gives the fraction `1.5` |
| PrimaryData.HexPlusExample | src/app/core/utility/PrimaryDataUtility.ts:40-41 | `"+1F"` in radix 16 is 31: the plus sign is dropped, upper-case letters are read |
| PrimaryData.HexMinusExample | src/app/core/utility/PrimaryDataUtility.ts:41 | `"-ff"` in radix 16 is -255 |
| PrimaryData.NotHexExamples | src/app/core/utility/PrimaryDataUtility.ts:41-44 | `"0x1F"` is not read in radix 16, and `"1F"` is not read in radix 10 |
| PrimaryData.DecimalRoundTrip | src/app/core/utility/PrimaryDataUtility.ts:42 | converting the decimal text of any integer in radix 10 gives that integer back |
| PrimaryData.ConvertCleanInteger | src/app/core/utility/PrimaryDataUtility.ts:40-42 | clean integer text converts to its signed value |
| PrimaryData.LeadingZerosValue | src/app/core/utility/PrimaryDataUtility.ts:41-42 | leading zeros do not change the value read |
| PrimaryData.DecimalDigitsValue | src/app/core/utility/PrimaryDataUtility.ts:42 | the decimal digits of a natural number read back as that number |
| PrimaryData.ConvertNumberZero | src/app/core/utility/PrimaryDataUtility.ts:53-58 | 0 when the conversion gives nothing; the converted integer when it gives one; otherwise 0 or the converted value |
| PrimaryData.ConvertBooleanNull | src/app/core/utility/PrimaryDataUtility.ts:69-74 | true exactly for text that lower-cases to "true", false exactly for text that lower-cases to "false", nothing otherwise and for null |
| PrimaryData.ConvertBooleanFalse | src/app/core/utility/PrimaryDataUtility.ts:65-68 | true exactly when the null-returning parser gives true |
| PrimaryData.ListToEmpty | src/app/core/utility/PrimaryDataUtility.ts:84-86 | the list is left empty |
| PrimaryData.ListDelete | src/app/core/utility/PrimaryDataUtility.ts:94-108 | on a list of distinct elements, the list afterwards is the unselected elements in their original order |
| PrimaryData.FilterPartition | src/app/core/utility/PrimaryDataUtility.ts:94-108 | the deleted and the surviving elements together are the original list as a multiset |
| PrimaryData.SurvivorMembership | src/app/core/utility/PrimaryDataUtility.ts:94-108 | an element survives exactly when it stands at a position the filter does not select |
| PrimaryData.FirstIndex | src/app/core/utility/PrimaryDataUtility.ts:99-101 | `indexOf`: the first position holding the element |
| PrimaryData.Splice | src/app/core/utility/PrimaryDataUtility.ts:107 | removing `count` elements from `start` shortens the list by `count`; the items before `start` keep their places and every later item moves down by `count` |
| PrimaryData.Repeat | src/app/core/utility/PrimaryDataUtility.ts:135 | `"0".repeat(n)`: n copies of the character |
| PrimaryData.ZeroPadding | src/app/core/utility/PrimaryDataUtility.ts:134-136 | for a positive length, exactly that many characters: the number left-padded with zeros when shorter, its last characters when longer |
| PrimaryData.DigitTextConverts | src/app/core/utility/PrimaryDataUtility.ts:39-42 | non-empty text of decimal digits converts to the value of its digits |
| PrimaryData.ZeroPaddingRoundTrip | src/app/core/utility/PrimaryDataUtility.ts:134-136 | the padded decimal text of a number converts back to that number |
| PrimaryData.GetExt | src/app/core/utility/PrimaryDataUtility.ts:153-156 | the longest dot-free suffix of the name |
| PrimaryData.GetFileName | src/app/core/utility/PrimaryDataUtility.ts:163-166 | the longest slash-free suffix of the URL |
| PrimaryData.LineStart | src/app/core/utility/PrimaryDataUtility.ts:144 | the start of the run without line terminators that `(.*)` can match |
| PrimaryData.RemoveExt | src/app/core/utility/PrimaryDataUtility.ts:143-146 | the name unchanged when it has no non-empty extension after a dot |
| PrimaryData.RemoveExtGetExt | src/app/core/utility/PrimaryDataUtility.ts:143-156 | on a one-line name with an extension, the name without its extension, a dot and the extension make up the name |
| PrimaryData.HoseiStr | src/app/core/utility/PrimaryDataUtility.ts:168-170 | a plus sign and the digits for a positive number, the plain decimal text otherwise |
| PrimaryData.HoseiStrRoundTrip | src/app/core/utility/PrimaryDataUtility.ts:168-170 | the modifier text converts back to the modifier |
| ShinobigamiData.TextFilter | src/app/core/utility/trpg_system/shinobigami.ts:115-118 | null or empty gives ""; otherwise the trimmed input with exactly the CRs before an LF deleted (a lone CR stays); the result is trimmed and holds no CR LF when the input held no CR CR LF |
| ShinobigamiData.TextFilterKeepsLoneCr | src/app/core/utility/trpg_system/shinobigami.ts:117 | `a` CR `b` is left as it is |
| ShinobigamiData.TextFilterIdempotent | src/app/core/utility/trpg_system/shinobigami.ts:115-118 | filtering twice is filtering once, for text without CR CR LF |
| ShinobigamiData.FilterOfTrimmed | src/app/core/utility/trpg_system/shinobigami.ts:115-118 | on trimmed non-empty text, filtering is line-break normalisation alone |
| ShinobigamiData.NormalizeCrCrLfExample | src/app/core/utility/trpg_system/shinobigami.ts:117 | one pass turns `a` CR CR LF `b` into `a` CR LF `b` |
| ShinobigamiData.NormalizeCrLfExample | src/app/core/utility/trpg_system/shinobigami.ts:117 | one pass turns `a` CR LF `b` into `a` LF `b` |
| ShinobigamiData.NormalizingTrimmed | src/app/core/utility/trpg_system/shinobigami.ts:117 | normalising trimmed text keeps it trimmed, loses nothing but CRs, and leaves no CR LF when there was no CR CR LF |
| ShinobigamiData.TextFilterKeepsCrLf | src/app/core/utility/trpg_system/shinobigami.ts:117 | CR CR LF leaves a CR LF, which a second pass turns into LF |
| ShinobigamiData.UpperStyle | src/app/core/utility/trpg_system/shinobigami.ts:127 | the table's label for a known code, "" for any other code; never the code itself |
| ShinobigamiData.SkillRollCommand | src/app/core/utility/trpg_system/shinobigami.ts:164-165 | the roll text is a chat command (starts with `@`) |
| ShinobigamiData.BackgroundPoint | src/app/core/utility/trpg_system/shinobigami.ts:155 | the raw point untrimmed when it is non-empty, "0" otherwise; never empty |
| ShinobigamiData.CreateData | src/app/core/utility/trpg_system/shinobigami.ts:113-168 | no record exactly when there is no raw record; otherwise the URL is kept, each of the thirteen `base` text fields and the four `scenario` fields is the filtered raw field, the upper style is the table lookup of the raw code, the ninja arts and backgrounds are `CreateNinpou` and `CreateHaikei` of the raw entries one to one and in order, and the personality list and skill table are what the shared helpers return for the raw record (the skill table with the roll command as its chat callback) |
| ShinobigamiData.CreateNinpou | src/app/core/utility/trpg_system/shinobigami.ts:135-144 | a ninja art is secret exactly when its raw `secret` is truthy, and each of its seven text fields is the filtered raw field |
| ShinobigamiData.CreateHaikei | src/app/core/utility/trpg_system/shinobigami.ts:152-157 | a background's name, type and effect are the filtered raw fields; its point is the raw point, unfiltered, or "0" when that is missing or empty |
| ShinobigamiData.CreateNinpouNormalized | src/app/core/utility/trpg_system/shinobigami.ts:135-144 | every text field of a built ninja art is trimmed |
| ShinobigamiData.CreateHaikeiNormalized | src/app/core/utility/trpg_system/shinobigami.ts:152-157 | every filtered field of a built background is trimmed and the point is never empty |
| ShinobigamiData.CreateDataNormalized | src/app/core/utility/trpg_system/shinobigami.ts:113-168 | every filtered text field of a built record, its ninja arts and its backgrounds is trimmed, every point is non-empty, and the upper style is a table label or "" |
| OutRowCodec.RowCells | src/app/core/utility/trpg_system/shinobigami.ts:350-355 | the row has thirteen cells |
| OutRowCodec.RowCellsContent | src/app/core/utility/trpg_system/shinobigami.ts:352-353 | `¦[x]` or `[ ]` first, then twelve `¦　` or `　` cells, by the flag |
| OutRowCodec.EncodedShape | src/app/core/utility/trpg_system/shinobigami.ts:350-355 | the row is a pipe before each cell and a closing pipe |
| OutRowCodec.EncodedPipes | src/app/core/utility/trpg_system/shinobigami.ts:350-355 | the encoded row holds exactly fourteen pipes |
| OutRowCodec.MatchEncoded | src/app/core/utility/trpg_system/shinobigami.ts:275-281 | the expression matches the encoded row at its start and captures the flag |
| OutRowCodec.EncodeDecode | src/app/core/utility/trpg_system/shinobigami.ts:274-285 | decoding the encoded row gives back the flag that was encoded, for both values |
| OutRowCodec.NoRowFound | src/app/core/utility/trpg_system/shinobigami.ts:282 | `match` gives no result only when no position from the start on begins a match |
| OutRowCodec.NoMatchFrom | src/app/core/utility/trpg_system/shinobigami.ts:282 | when no position from the start on begins a match, `match` gives no result |
| OutRowCodec.FoundRowIsLeftmost | src/app/core/utility/trpg_system/shinobigami.ts:282 | a result is the match at some position, and no earlier position matches |
| OutRowCodec.SkipNoMatch | src/app/core/utility/trpg_system/shinobigami.ts:282 | positions where nothing matches do not change the result |
| OutRowCodec.SearchPastPrefix | src/app/core/utility/trpg_system/shinobigami.ts:282 | searching past a prefix is searching the rest |
| OutRowCodec.NextOutRow | src/app/core/utility/trpg_system/shinobigami.ts:282-285 | the decoded flag when the row is found, the previous flag otherwise |
| OutRowCodec.FewPipesNoMatch | src/app/core/utility/trpg_system/shinobigami.ts:275-281 | text with fewer than fourteen pipes holds no row |
| OutRowCodec.MatchRowPipes | src/app/core/utility/trpg_system/shinobigami.ts:275-281 | a match consumes at least fourteen pipes |
| OutRowCodec.MissingCellNoMatch | src/app/core/utility/trpg_system/shinobigami.ts:282-285 | a row that lost one cell is not recognised, so the flag is kept |
| OutRowCodec.NoPipeNoMatch | src/app/core/utility/trpg_system/shinobigami.ts:282 | text without a pipe holds no row |
| OutRowCodec.MatchRowStop | src/app/core/utility/trpg_system/shinobigami.ts:275-281 | a match never reaches past a CR |
| OutRowCodec.SkipLine | src/app/core/utility/trpg_system/shinobigami.ts:282 | a line without a row before CR LF does not change what is found after it |
| OutRowCodec.JoinedLinesNoMatch | src/app/core/utility/trpg_system/shinobigami.ts:282 | lines without a row joined by CR LF hold no row |
| OutRowCodec.RowAfterLines | src/app/core/utility/trpg_system/shinobigami.ts:343-356 | after lines without a row, the encoded last line gives back its flag |
| Shinobigami.ReloadLine | src/app/core/utility/trpg_system/shinobigami.ts:298-300 | the reload command, a space, then the timestamp |
| Shinobigami.OrElse | src/app/core/utility/trpg_system/shinobigami.ts:98-99 | the value when it is non-empty; the fallback otherwise |
| Shinobigami.ParenthesizedRoundTrip | src/app/core/utility/trpg_system/shinobigami.ts:304-310 | optional full-width parentheses read back into the main text and its content |
| Shinobigami.NameTailRoundTrip | src/app/core/utility/trpg_system/shinobigami.ts:304-306 | `: name（kana）` reads back into the name and the kana |
| Shinobigami.PcLineRoundTrip | src/app/core/utility/trpg_system/shinobigami.ts:304-306 | the PC line reads back into the PC number, the name and the kana, with or without number and kana |
| Shinobigami.StyleLineRoundTrip | src/app/core/utility/trpg_system/shinobigami.ts:308-310 | the school line reads back into the upper style and the sub-style |
| Shinobigami.BasicLines | src/app/core/utility/trpg_system/shinobigami.ts:297-330 | the basic tab starts with the reload line and its heading, the PC line fifth and the school line seventh |
| Shinobigami.BasicTabReadsBack | src/app/core/utility/trpg_system/shinobigami.ts:297-330 | splitting the tab at CR LF gives its lines back, and the fifth reads back the PC data |
| Shinobigami.TokugiHeader | src/app/core/utility/trpg_system/shinobigami.ts:344-348 | three header lines, the reload line first |
| Shinobigami.TokugiHeaderNoMatch | src/app/core/utility/trpg_system/shinobigami.ts:344-348 | no header line holds a row when the timestamp holds no pipe |
| Shinobigami.TokugiLines | src/app/core/utility/trpg_system/shinobigami.ts:343-356 | the three header lines, the rendered table, then the encoded flag row |
| Shinobigami.ReloadLineNoMatch | src/app/core/utility/trpg_system/shinobigami.ts:344-346 | the reload line holds no row when its timestamp holds no pipe |
| Shinobigami.TokugiNoticeNoMatch | src/app/core/utility/trpg_system/shinobigami.ts:347 | the notice line holds no row |
| Shinobigami.TokugiHeadingNoMatch | src/app/core/utility/trpg_system/shinobigami.ts:348 | the heading line holds no row |
| Shinobigami.RowAfterHeaderAndTable | src/app/core/utility/trpg_system/shinobigami.ts:343-356 | lines without a row, then the encoded row: the flag is read back |
| Shinobigami.TokugiTabRoundTrip | src/app/core/utility/trpg_system/shinobigami.ts:274-285 | the flag read back from the written skill tab is the flag that was written |
| Shinobigami.DeclarationRoundTrip | src/app/core/utility/trpg_system/shinobigami.ts:396 | a declaration reads back into name, skill, cost and range |
| Shinobigami.NinpouCell | src/app/core/utility/trpg_system/shinobigami.ts:386-399 | the skill cell gets the dice-roll text appended, the unlabelled name cell becomes a declaration command, every other cell is left to the renderer |
| Shinobigami.DeclarationCommandRoundTrip | src/app/core/utility/trpg_system/shinobigami.ts:396 | the declaration command reads back into the art's name, skill, cost and range |
| Shinobigami.NinpouLines | src/app/core/utility/trpg_system/shinobigami.ts:369-401 | the reload line and the heading come first |
| Shinobigami.MemoList.AddBasic | src/app/core/utility/trpg_system/shinobigami.ts:289-333 | appends exactly one memo: the basic tab's lines joined by CR LF |
| Shinobigami.MemoList.AddTokugi | src/app/core/utility/trpg_system/shinobigami.ts:335-359 | appends exactly one memo: the skill tab's lines joined by CR LF |
| Shinobigami.MemoList.AddNinpou | src/app/core/utility/trpg_system/shinobigami.ts:361-404 | appends exactly one memo: the ninja-art tab's lines joined by CR LF |
| Shinobigami.ReadTokugiTab | src/app/core/utility/trpg_system/shinobigami.ts:263-286 | the grid is the table reader's; the flag is the decoded one when the row is found, and otherwise everything is as the reader left it |
| Shinobigami.FlagSurvivesSkillTab | src/app/core/utility/trpg_system/shinobigami.ts:274-285 | reading the written skill tab restores the written flag |
| Shinobigami.Sheet.ReadData | src/app/core/utility/trpg_system/shinobigami.ts:249-287 | only the personality list and the skills change, each only when its tab's text is handed over |
| Shinobigami.NinpouPaletteLines | src/app/core/utility/trpg_system/shinobigami.ts:96-102 | three lines per art, the first empty, the third `効果:` before the effect with its CRs-before-LF and LFs deleted, none holding a LF |
| Shinobigami.NinpouPaletteBlock | src/app/core/utility/trpg_system/shinobigami.ts:95-102 | three lines per art in list order, none holding a LF |
| Shinobigami.PaletteLines | src/app/core/utility/trpg_system/shinobigami.ts:77-103 | two dice lines, the skill lines, seven table lines, "", six resource lines, then the arts' lines |
| Shinobigami.ChatPalette | src/app/core/utility/trpg_system/shinobigami.ts:65-106 | no palette exactly without a record; otherwise one palette named ◆ and the character name |
| Shinobigami.TableCommandsLfFree | src/app/core/utility/trpg_system/shinobigami.ts:81-87 | the table commands hold no LF |
| Shinobigami.ResourceCommandsLfFree | src/app/core/utility/trpg_system/shinobigami.ts:89-94 | the resource commands hold no LF |
| Shinobigami.PaletteLinesLfFree | src/app/core/utility/trpg_system/shinobigami.ts:77-103 | no palette line holds a LF when no skill line does |
| Shinobigami.PaletteTextSplits | src/app/core/utility/trpg_system/shinobigami.ts:77-103 | splitting the palette text at LF gives the palette lines |
| Shinobigami.PaletteDeclarationReadsBack | src/app/core/utility/trpg_system/shinobigami.ts:98-99 | the palette declaration reads back into name and skill, with an empty cost or range shown as なし |
| Shinobigami.NoLineBreakUnchanged | src/app/core/utility/trpg_system/shinobigami.ts:102 | text without LF is not changed by the line-break removal |

## Left out

- JSONP fetching, `createResultList`, `addMemo`, `isThis` and the orchestration in `createOtherText`: network plumbing, or code inherited from a base class that is not part of this model. The raw record is an input, and the memo list is a class with a sequence field.
- The dice-fiction helpers are uninterpreted function parameters, and nothing is specified about their output. Their helper file is not part of this model.
- The `moment()` timestamp is a `stamp` parameter; no clock is modelled.
- Raw JSON fields other than `secret` are modelled as optional text. Number-valued or object-valued raw fields are not modelled.
- Sheet.ReadData: `tabTextProcess` is modelled as handing over at most one text per tab (an optional value). `readPersonalityList` is modelled as changing only the personality list.
- ConvertNumberNull: the value of the decimal-fraction path (`parseFloat`) is not modelled; the text is kept. `parseInt` precision loss beyond 2^53 is not modelled either, since integers are unbounded.
- ConvertNumberZero: a fraction is given as its text, and only an all-zero fraction counts as zero.
- Average: the quotient is an exact real rather than a floating-point number.
- ConvertBooleanNull: `toLowerCase` is modelled on ASCII letters only. That is enough to decide equality with "true" and "false".
- ListDelete: requires pairwise-distinct elements. With duplicates, `indexOf` makes the source remove the wrong items, and that behaviour is not specified.
- ZeroPadding: the length is a natural number. A negative length is not modelled.
- HoseiStr: integers only; floating-point modifiers are not modelled.
- UpperStyle: a code that names an inherited object property (such as `constructor`) is treated as unknown.
- SkillRollCommand: the contract states only that the roll text is a chat command. Its digits are the shared helper's business.
- TokugiTabRoundTrip: assumes that no line of the rendered skill table contains a flag row, since that table is drawn by a helper that is not modelled.
- BasicTabReadsBack: assumes no rendered line holds CR LF. `PcLineRoundTrip` assumes the PC number holds no `)` and the name no `（`.
- CreateData: the raw record always has its `base`, `scenario`, `ninpou` and `background` parts. The source reads their fields and maps the two lists without a guard, so a record missing one of them throws, and the import fails; that failure path is not modelled.
- RemoveExt: follows the regular expression exactly, so for a name with a line break before its last dot the result starts at that line, and the text before the line break is dropped. `RemoveExtGetExt` covers one-line names only.
- `clone`, `isArray`, `match` and `getUrlParam`: JSON round trips, runtime type tags, a thin regex wrapper and browser globals.
