/**
 * String helpers with the meaning JavaScript gives them: the whitespace set of
 * `String.prototype.trim`, `/\r?\n/g` replacement, `Array.prototype.join` and
 * `String.prototype.split` with a string separator, and `Number.prototype.toString(10)`
 * on integers. Strings are sequences of characters; every character the modelled code
 * handles lies in the Basic Multilingual Plane, so one `char` is one UTF-16 unit.
 */
module Text {
  import opened Wrappers

  // ---------------------------------------------------------------------------
  // Whitespace and trimming
  // ---------------------------------------------------------------------------

  /** The characters `trim` removes: the WhiteSpace and LineTerminator productions of ECMA-262. */
  predicate IsJsWhitespace(c: char) {
    || c == '\t' || c == '\n' || c == '\U{000B}' || c == '\U{000C}' || c == '\r'
    || c == ' ' || c == '\U{00A0}' || c == '\U{1680}'
    || ('\U{2000}' <= c <= '\U{200A}')
    || c == '\U{2028}' || c == '\U{2029}' || c == '\U{202F}' || c == '\U{205F}'
    || c == '\U{3000}' || c == '\U{FEFF}'
  }

  /** Neither end of `s` is whitespace. */
  predicate IsTrimmed(s: string) {
    s == [] || (!IsJsWhitespace(s[0]) && !IsJsWhitespace(s[|s| - 1]))
  }

  /** `s.trimStart()`: the suffix of `s` after its leading whitespace. */
  function TrimStart(s: string): (r: string)
    ensures |r| <= |s| && r == s[|s| - |r|..]
    ensures r == [] || !IsJsWhitespace(r[0])
    ensures forall i :: 0 <= i < |s| - |r| ==> IsJsWhitespace(s[i])
    decreases |s|
  {
    if s != [] && IsJsWhitespace(s[0]) then TrimStart(s[1..]) else s
  }

  /** `s.trimEnd()`: the prefix of `s` before its trailing whitespace. */
  function TrimEnd(s: string): (r: string)
    ensures |r| <= |s| && r == s[..|r|]
    ensures r == [] || !IsJsWhitespace(r[|r| - 1])
    ensures forall i :: |r| <= i < |s| ==> IsJsWhitespace(s[i])
    decreases |s|
  {
    if s != [] && IsJsWhitespace(s[|s| - 1]) then TrimEnd(s[..|s| - 1]) else s
  }

  /** How many whitespace characters `trim` drops at the front of `s`. */
  function LeadingWhitespace(s: string): nat {
    |s| - |TrimStart(s)|
  }

  /**
   * `s.trim()`: the window of `s` left once the whitespace runs at both ends are
   * dropped; the window itself starts and ends with a non-whitespace character.
   */
  function Trim(s: string): (r: string)
    ensures IsTrimmed(r)
    ensures LeadingWhitespace(s) + |r| <= |s|
    ensures r == s[LeadingWhitespace(s)..LeadingWhitespace(s) + |r|]
    ensures forall i :: 0 <= i < LeadingWhitespace(s) ==> IsJsWhitespace(s[i])
    ensures forall i :: LeadingWhitespace(s) + |r| <= i < |s| ==> IsJsWhitespace(s[i])
  {
    TrimEnd(TrimStart(s))
  }

  // ---------------------------------------------------------------------------
  // Line breaks
  // ---------------------------------------------------------------------------

  /**
   * `s.replace(/\r?\n/g, rep)`: scanning from the left, every CR LF pair and every
   * LF not preceded by CR becomes `rep`; a CR not followed by LF stays.
   */
  function ReplaceLineBreaks(s: string, rep: string): (r: string)
    ensures '\n' !in rep ==> '\n' !in r
    decreases |s|
  {
    if |s| >= 2 && s[0] == '\r' && s[1] == '\n' then rep + ReplaceLineBreaks(s[2..], rep)
    else if |s| >= 1 && s[0] == '\n' then rep + ReplaceLineBreaks(s[1..], rep)
    else if s == [] then []
    else [s[0]] + ReplaceLineBreaks(s[1..], rep)
  }

  /** `s` with every occurrence of `c` deleted. */
  function Without(s: string, c: char): (r: string)
    ensures c !in r
    ensures |r| <= |s|
    decreases |s|
  {
    if s == [] then [] else (if s[0] == c then [] else [s[0]]) + Without(s[1..], c)
  }

  /** Replacing line breaks by LF only deletes carriage returns: the rest of the text is unchanged. */
  lemma {:induction false} NormalizingKeepsText(s: string)
    ensures Without(ReplaceLineBreaks(s, "\n"), '\r') == Without(s, '\r')
    decreases |s|
  {
    if |s| >= 2 && s[0] == '\r' && s[1] == '\n' {
      NormalizingKeepsText(s[2..]);
      NormalizeCrLfStep(s);
    } else if |s| >= 1 && s[0] == '\n' {
      NormalizingKeepsText(s[1..]);
      NormalizeLfStep(s);
    } else if s != [] {
      NormalizingKeepsText(s[1..]);
      NormalizeOtherStep(s);
    }
  }

  lemma NormalizeCrLfStep(s: string)
    requires |s| >= 2 && s[0] == '\r' && s[1] == '\n'
    requires Without(ReplaceLineBreaks(s[2..], "\n"), '\r') == Without(s[2..], '\r')
    ensures Without(ReplaceLineBreaks(s, "\n"), '\r') == Without(s, '\r')
  {
    var t := s[2..];
    assert s[1..][1..] == t;
    WithoutCons('\n', ReplaceLineBreaks(t, "\n"), '\r');
  }

  lemma NormalizeLfStep(s: string)
    requires |s| >= 1 && s[0] == '\n'
    requires Without(ReplaceLineBreaks(s[1..], "\n"), '\r') == Without(s[1..], '\r')
    ensures Without(ReplaceLineBreaks(s, "\n"), '\r') == Without(s, '\r')
  {
    WithoutCons('\n', ReplaceLineBreaks(s[1..], "\n"), '\r');
  }

  lemma NormalizeOtherStep(s: string)
    requires s != [] && s[0] != '\n' && !(|s| >= 2 && s[0] == '\r' && s[1] == '\n')
    requires Without(ReplaceLineBreaks(s[1..], "\n"), '\r') == Without(s[1..], '\r')
    ensures Without(ReplaceLineBreaks(s, "\n"), '\r') == Without(s, '\r')
  {
    WithoutCons(s[0], ReplaceLineBreaks(s[1..], "\n"), '\r');
  }

  /** Deleting `c` from a text that starts with `x`. */
  lemma WithoutCons(x: char, t: string, c: char)
    ensures Without([x] + t, c) == (if x == c then [] else [x]) + Without(t, c)
  {
    assert ([x] + t)[1..] == t;
  }

  /** Removing line breaks deletes exactly the LFs and the CRs that precede them. */
  lemma {:induction false} StrippingKeepsText(s: string)
    ensures Without(ReplaceLineBreaks(s, ""), '\r') == Without(Without(s, '\r'), '\n')
    decreases |s|
  {
    if |s| >= 2 && s[0] == '\r' && s[1] == '\n' {
      StrippingKeepsText(s[2..]);
      StripCrLfStep(s);
    } else if |s| >= 1 && s[0] == '\n' {
      StrippingKeepsText(s[1..]);
      StripLfStep(s);
    } else if s != [] {
      StrippingKeepsText(s[1..]);
      StripOtherStep(s);
    }
  }

  lemma StripCrLfStep(s: string)
    requires |s| >= 2 && s[0] == '\r' && s[1] == '\n'
    requires Without(ReplaceLineBreaks(s[2..], ""), '\r') == Without(Without(s[2..], '\r'), '\n')
    ensures Without(ReplaceLineBreaks(s, ""), '\r') == Without(Without(s, '\r'), '\n')
  {
    var t := s[2..];
    var u := s[1..];
    assert ReplaceLineBreaks(s, "") == ReplaceLineBreaks(t, "");
    assert u[1..] == t;
    assert Without(u, '\r') == ['\n'] + Without(t, '\r');
    assert Without(s, '\r') == Without(u, '\r');
    WithoutCons('\n', Without(t, '\r'), '\n');
  }

  lemma StripLfStep(s: string)
    requires |s| >= 1 && s[0] == '\n'
    requires Without(ReplaceLineBreaks(s[1..], ""), '\r') == Without(Without(s[1..], '\r'), '\n')
    ensures Without(ReplaceLineBreaks(s, ""), '\r') == Without(Without(s, '\r'), '\n')
  {
    var t := s[1..];
    assert ReplaceLineBreaks(s, "") == ReplaceLineBreaks(t, "");
    assert Without(s, '\r') == ['\n'] + Without(t, '\r');
    WithoutCons('\n', Without(t, '\r'), '\n');
  }

  lemma StripOtherStep(s: string)
    requires s != [] && s[0] != '\n' && !(|s| >= 2 && s[0] == '\r' && s[1] == '\n')
    requires Without(ReplaceLineBreaks(s[1..], ""), '\r') == Without(Without(s[1..], '\r'), '\n')
    ensures Without(ReplaceLineBreaks(s, ""), '\r') == Without(Without(s, '\r'), '\n')
  {
    var t := s[1..];
    var kept := if s[0] == '\r' then [] else [s[0]];
    assert ReplaceLineBreaks(s, "") == [s[0]] + ReplaceLineBreaks(t, "");
    WithoutCons(s[0], ReplaceLineBreaks(t, ""), '\r');
    assert Without(s, '\r') == kept + Without(t, '\r');
    if s[0] != '\r' {
      WithoutCons(s[0], Without(t, '\r'), '\n');
    } else {
      assert kept + Without(t, '\r') == Without(t, '\r');
    }
  }

  /**
   * What `\r?\n` scanning does to CRs, as a plain deletion: `s` with exactly the CRs
   * that stand right before an LF removed, every other character kept in order.
   */
  function CrBeforeLfDropped(s: string): (r: string)
    ensures |r| <= |s|
    decreases |s|
  {
    if s == [] then []
    else (if s[0] == '\r' && |s| >= 2 && s[1] == '\n' then [] else [s[0]]) + CrBeforeLfDropped(s[1..])
  }

  /** Writing every line break as LF deletes exactly the CRs that precede an LF, and changes nothing else. */
  lemma {:induction false} NormalizingDropsCrBeforeLf(s: string)
    ensures ReplaceLineBreaks(s, "\n") == CrBeforeLfDropped(s)
    decreases |s|
  {
    if |s| >= 2 && s[0] == '\r' && s[1] == '\n' {
      NormalizingDropsCrBeforeLf(s[2..]);
      assert s[1..][1..] == s[2..];
      assert CrBeforeLfDropped(s[1..]) == "\n" + CrBeforeLfDropped(s[2..]);
    } else if s != [] {
      NormalizingDropsCrBeforeLf(s[1..]);
    }
  }

  /** Removing line breaks deletes the CRs that precede an LF and every LF, and changes nothing else. */
  lemma {:induction false} StrippingDropsLineBreaks(s: string)
    ensures ReplaceLineBreaks(s, "") == Without(CrBeforeLfDropped(s), '\n')
    decreases |s|
  {
    if |s| >= 2 && s[0] == '\r' && s[1] == '\n' {
      var t := s[2..];
      StrippingDropsLineBreaks(t);
      assert s[1..][1..] == t;
      assert ReplaceLineBreaks(s, "") == ReplaceLineBreaks(t, "");
      assert CrBeforeLfDropped(s) == "\n" + CrBeforeLfDropped(t);
      WithoutCons('\n', CrBeforeLfDropped(t), '\n');
    } else if |s| >= 1 && s[0] == '\n' {
      var t := s[1..];
      StrippingDropsLineBreaks(t);
      assert ReplaceLineBreaks(s, "") == ReplaceLineBreaks(t, "");
      assert CrBeforeLfDropped(s) == "\n" + CrBeforeLfDropped(t);
      WithoutCons('\n', CrBeforeLfDropped(t), '\n');
    } else if s != [] {
      var t := s[1..];
      StrippingDropsLineBreaks(t);
      assert ReplaceLineBreaks(s, "") == [s[0]] + ReplaceLineBreaks(t, "");
      assert CrBeforeLfDropped(s) == [s[0]] + CrBeforeLfDropped(t);
      WithoutCons(s[0], CrBeforeLfDropped(t), '\n');
    }
  }

  /** Dropping the CRs before LFs works part by part when the second part does not start with LF. */
  lemma {:induction false} CrBeforeLfDroppedConcat(a: string, b: string)
    requires b == [] || b[0] != '\n'
    ensures CrBeforeLfDropped(a + b) == CrBeforeLfDropped(a) + CrBeforeLfDropped(b)
    decreases |a|
  {
    if a == [] {
      assert a + b == b;
    } else {
      CrBeforeLfDroppedConcat(a[1..], b);
      DroppedHeadStep(a, b);
      var head := if a[0] == '\r' && |a| >= 2 && a[1] == '\n' then [] else [a[0]];
      ConcatAssoc(head, CrBeforeLfDropped(a[1..]), CrBeforeLfDropped(b));
    }
  }

  lemma ConcatAssoc(h: string, p: string, q: string)
    ensures h + (p + q) == (h + p) + q
  {
  }

  /** The first character of `a` is kept or dropped in `a + b` as it is in `a`. */
  lemma DroppedHeadStep(a: string, b: string)
    requires a != [] && (b == [] || b[0] != '\n')
    ensures var head := if a[0] == '\r' && |a| >= 2 && a[1] == '\n' then [] else [a[0]];
      CrBeforeLfDropped(a + b) == head + CrBeforeLfDropped(a[1..] + b)
      && CrBeforeLfDropped(a) == head + CrBeforeLfDropped(a[1..])
  {
    var c := a + b;
    assert c[0] == a[0];
    assert c[1..] == a[1..] + b;
    if |a| >= 2 {
      assert c[1] == a[1];
    } else if b != [] {
      assert c[1] == b[0];
    }
  }

  /** A CR that no LF follows survives normalisation, in its place. */
  lemma LoneCrKept(x: string, y: string)
    requires y == [] || y[0] != '\n'
    ensures ReplaceLineBreaks(x + "\r" + y, "\n") == ReplaceLineBreaks(x, "\n") + "\r" + ReplaceLineBreaks(y, "\n")
  {
    NormalizingDropsCrBeforeLf(x + "\r" + y);
    NormalizingDropsCrBeforeLf(x);
    NormalizingDropsCrBeforeLf(y);
    CrBeforeLfDroppedConcat(x, "\r");
    CrBeforeLfDroppedConcat(x + "\r", y);
    assert CrBeforeLfDropped("\r") == "\r";
  }

  /** A prefix without CR or LF passes through line-break replacement unchanged. */
  lemma {:induction false} PlainPrefixKept(a: string, b: string, rep: string)
    requires '\r' !in a && '\n' !in a
    ensures ReplaceLineBreaks(a + b, rep) == a + ReplaceLineBreaks(b, rep)
    decreases |a|
  {
    if a == [] {
      assert a + b == b;
    } else {
      assert (a + b)[1..] == a[1..] + b;
      PlainPrefixKept(a[1..], b, rep);
      assert a == [a[0]] + a[1..];
    }
  }

  /** No CR is immediately followed by LF in `s`. */
  predicate NoCrLf(s: string) {
    forall k :: 0 <= k < |s| - 1 ==> !(s[k] == '\r' && s[k + 1] == '\n')
  }

  /** No CR, CR, LF triple in `s`. */
  predicate NoCrCrLf(s: string) {
    forall k :: 0 <= k < |s| - 2 ==> !(s[k] == '\r' && s[k + 1] == '\r' && s[k + 2] == '\n')
  }

  /** Dropping a prefix of `s` keeps it free of CR CR LF. */
  lemma NoCrCrLfSuffix(s: string, d: nat)
    requires NoCrCrLf(s) && d <= |s|
    ensures NoCrCrLf(s[d..])
  {
    var t := s[d..];
    forall k | 0 <= k < |t| - 2 ensures !(t[k] == '\r' && t[k + 1] == '\r' && t[k + 2] == '\n') {
      assert t[k] == s[k + d] && t[k + 1] == s[k + d + 1] && t[k + 2] == s[k + d + 2];
    }
  }

  /**
   * Normalizing to LF leaves no CR LF pair behind unless the input held CR CR LF:
   * the scan turns the trailing CR LF of that triple into LF and keeps the first CR.
   */
  lemma {:induction false} NormalizedHasNoCrLf(s: string)
    requires NoCrCrLf(s)
    ensures NoCrLf(ReplaceLineBreaks(s, "\n"))
    decreases |s|
  {
    var r := ReplaceLineBreaks(s, "\n");
    if s != [] {
      var d := if |s| >= 2 && s[0] == '\r' && s[1] == '\n' then 2 else 1;
      var t := s[d..];
      NoCrCrLfSuffix(s, d);
      NormalizedHasNoCrLf(t);
      var rt := ReplaceLineBreaks(t, "\n");
      var head := if d == 2 || s[0] == '\n' then "\n" else [s[0]];
      assert r == head + rt;
      forall k | 0 <= k < |r| - 1 ensures !(r[k] == '\r' && r[k + 1] == '\n') {
        if k > 0 {
          assert r[k] == rt[k - 1] && r[k + 1] == rt[k];
        } else if head == "\r" {
          // Then s[1] is not LF, and rt begins with LF only if t begins with LF or CR LF.
          assert s[0] == '\r' && d == 1 && t[0] == s[1] && s[1] != '\n';
          assert |s| >= 3 ==> !(s[0] == '\r' && s[1] == '\r' && s[2] == '\n');
          assert rt[0] != '\n';
        }
      }
    }
  }

  /** The last character of `s` survives the replacement when it is not LF. */
  lemma {:induction false} LastCharKept(s: string, rep: string)
    requires s != [] && s[|s| - 1] != '\n'
    ensures var r := ReplaceLineBreaks(s, rep); r != [] && r[|r| - 1] == s[|s| - 1]
    decreases |s|
  {
    if |s| >= 2 && s[0] == '\r' && s[1] == '\n' {
      LastCharKept(s[2..], rep);
    } else if |s| >= 1 && s[0] == '\n' {
      LastCharKept(s[1..], rep);
    } else if |s| > 1 {
      LastCharKept(s[1..], rep);
    }
  }

  /** The first character of `s` survives the replacement when it starts no line break. */
  lemma FirstCharKept(s: string, rep: string)
    requires s != [] && s[0] != '\r' && s[0] != '\n'
    ensures var r := ReplaceLineBreaks(s, rep); r != [] && r[0] == s[0]
  {
  }

  /** Text without CR LF pairs is left as it is by replacing line breaks with LF. */
  lemma {:induction false} NormalizingIsIdentity(s: string)
    requires NoCrLf(s)
    ensures ReplaceLineBreaks(s, "\n") == s
    decreases |s|
  {
    if s != [] {
      NoCrLfSuffix(s, 1);
      NormalizingIsIdentity(s[1..]);
      assert s == [s[0]] + s[1..];
    }
  }

  lemma NoCrLfSuffix(s: string, d: nat)
    requires NoCrLf(s) && d <= |s|
    ensures NoCrLf(s[d..])
  {
    var t := s[d..];
    forall k | 0 <= k < |t| - 1 ensures !(t[k] == '\r' && t[k + 1] == '\n') {
      assert t[k] == s[d + k] && t[k + 1] == s[d + k + 1];
    }
  }

  /** Trimming text that is already trimmed changes nothing. */
  lemma TrimTrimmed(s: string)
    requires IsTrimmed(s)
    ensures Trim(s) == s
  {
  }

  // ---------------------------------------------------------------------------
  // Occurrences, join and split
  // ---------------------------------------------------------------------------

  /** `pat` occurs in `s` starting at index `k`. */
  predicate OccursAt(s: string, pat: string, k: nat) {
    k + |pat| <= |s| && s[k..k + |pat|] == pat
  }

  /** Past the first character, `pat` occurs in `s` exactly where it occurs in `s[1..]`, one later. */
  lemma OccursInTail(s: string, pat: string)
    requires |s| > 0
    ensures OccursAt(s, pat, 0) <==> |pat| <= |s| && s[..|pat|] == pat
    ensures forall k: nat :: k >= 1 ==> (OccursAt(s, pat, k) <==> OccursAt(s[1..], pat, k - 1))
  {
    forall k: nat | k >= 1
      ensures OccursAt(s, pat, k) <==> OccursAt(s[1..], pat, k - 1)
    {
      if k + |pat| <= |s| {
        assert s[1..][k - 1..k - 1 + |pat|] == s[k..k + |pat|];
      }
    }
  }

  /** `s.indexOf(pat)`, with `None` for -1: the first index where `pat` occurs. */
  function IndexOf(s: string, pat: string): (r: Option<nat>)
    requires |pat| > 0
    ensures r.Some? ==> OccursAt(s, pat, r.value)
    ensures r.Some? ==> forall k: nat :: k < r.value ==> !OccursAt(s, pat, k)
    ensures r.None? ==> forall k: nat :: !OccursAt(s, pat, k)
    decreases |s|
  {
    if |s| < |pat| then None
    else
      OccursInTail(s, pat);
      if s[..|pat|] == pat then Some(0)
      else match IndexOf(s[1..], pat)
      case None => None
      case Some(j) => Some(j + 1)
  }

  /** `parts.join(sep)`. */
  function Join(parts: seq<string>, sep: string): (r: string)
    ensures |parts| == 1 ==> r == parts[0]
    decreases |parts|
  {
    if |parts| == 0 then ""
    else if |parts| == 1 then parts[0]
    else parts[0] + sep + Join(parts[1..], sep)
  }

  /** `s.split(sep)` for a non-empty string separator. */
  function Split(s: string, sep: string): (r: seq<string>)
    requires |sep| > 0
    ensures |r| >= 1
    decreases |s|
  {
    match IndexOf(s, sep)
    case None => [s]
    case Some(i) => [s[..i]] + Split(s[i + |sep|..], sep)
  }

  /**
   * `sep` can only be found where it was put by `Join`: no part holds it, not even
   * straddling the part's end and the start of the separator that follows it.
   */
  ghost predicate SeparatorFree(part: string, sep: string)
    requires |sep| > 0
  {
    NoOccurrence(part + sep[..|sep| - 1], sep)
  }

  /** `pat` occurs nowhere in `s`. */
  ghost predicate NoOccurrence(s: string, pat: string) {
    forall k: nat :: !OccursAt(s, pat, k)
  }

  /** The separator after a separator-free part is the first one found. */
  lemma FirstSeparatorAfterPart(p: string, sep: string, rest: string)
    requires |sep| > 0 && SeparatorFree(p, sep)
    ensures IndexOf(p + sep + rest, sep) == Some(|p|)
  {
    var s := p + sep + rest;
    var t := p + sep[..|sep| - 1];
    assert s[|p|..|p| + |sep|] == sep;
    assert OccursAt(s, sep, |p|);
    forall k: nat | k < |p| ensures !OccursAt(s, sep, k) {
      if k + |sep| <= |s| {
        assert s[k..k + |sep|] == t[k..k + |sep|];
        assert !OccursAt(t, sep, k);
      }
    }
  }

  /** A separator-free part holds no separator at all. */
  lemma NoSeparatorInPart(p: string, sep: string)
    requires |sep| > 0 && SeparatorFree(p, sep)
    ensures IndexOf(p, sep) == None
  {
    var t := p + sep[..|sep| - 1];
    forall k: nat ensures !OccursAt(p, sep, k) {
      if k + |sep| <= |p| {
        assert p[k..k + |sep|] == t[k..k + |sep|];
        assert !OccursAt(t, sep, k);
      }
    }
  }

  /** Joining one more part adds a separator and that part. */
  lemma {:induction false} JoinAppend(parts: seq<string>, last: string, sep: string)
    requires |parts| >= 1
    ensures Join(parts + [last], sep) == Join(parts, sep) + sep + last
    decreases |parts|
  {
    if |parts| > 1 {
      JoinAppend(parts[1..], last, sep);
      assert (parts + [last])[1..] == parts[1..] + [last];
    }
  }

  /** Splitting a joined list on its separator gives the list back. */
  lemma {:induction false} SplitJoin(parts: seq<string>, sep: string)
    requires |parts| >= 1 && |sep| > 0
    requires forall i :: 0 <= i < |parts| ==> SeparatorFree(parts[i], sep)
    ensures Split(Join(parts, sep), sep) == parts
    decreases |parts|
  {
    var p := parts[0];
    assert SeparatorFree(p, sep);
    if |parts| == 1 {
      NoSeparatorInPart(p, sep);
    } else {
      var rest := Join(parts[1..], sep);
      var s := p + sep + rest;
      assert Join(parts, sep) == s;
      FirstSeparatorAfterPart(p, sep, rest);
      assert s[..|p|] == p;
      assert s[|p| + |sep|..] == rest;
      SplitJoin(parts[1..], sep);
      assert parts == [p] + parts[1..];
    }
  }

  /** For a one-character separator, being separator-free means not containing it. */
  lemma CharSeparatorFree(part: string, c: char)
    requires c !in part
    ensures SeparatorFree(part, [c])
  {
    assert part + [c][..0] == part;
    forall k: nat ensures !OccursAt(part, [c], k) {
      if k + 1 <= |part| {
        assert part[k..k + 1][0] == part[k];
      }
    }
  }

  /** For CR LF, being separator-free means holding no CR LF pair. */
  lemma CrLfSeparatorFree(part: string)
    requires NoCrLf(part)
    ensures SeparatorFree(part, "\r\n")
  {
    var t := part + "\r";
    assert "\r\n"[..1] == "\r";
    forall k: nat ensures !OccursAt(t, "\r\n", k) {
      if k + 2 > |t| {
      } else if k + 1 < |part| {
        assert t[k..k + 2][0] == t[k] && t[k..k + 2][1] == t[k + 1];
        assert t[k] == part[k] && t[k + 1] == part[k + 1];
      } else {
        assert t[k..k + 2][1] == t[k + 1] == '\r';
      }
    }
  }

  // ---------------------------------------------------------------------------
  // Counting and cutting
  // ---------------------------------------------------------------------------

  /** How many times `c` occurs in `s`. */
  function Count(s: string, c: char): (n: nat)
    ensures n <= |s|
    ensures n == 0 <==> c !in s
    decreases |s|
  {
    if s == [] then 0 else (if s[0] == c then 1 else 0) + Count(s[1..], c)
  }

  lemma {:induction false} CountConcat(a: string, b: string, c: char)
    ensures Count(a + b, c) == Count(a, c) + Count(b, c)
    decreases |a|
  {
    if a == [] {
      assert a + b == b;
    } else {
      assert (a + b)[1..] == a[1..] + b;
      CountConcat(a[1..], b, c);
    }
  }

  /** A suffix holds no more occurrences than the whole. */
  lemma CountSuffix(s: string, k: nat, c: char)
    requires k <= |s|
    ensures Count(s[k..], c) <= Count(s, c)
  {
    assert s == s[..k] + s[k..];
    CountConcat(s[..k], s[k..], c);
  }

  /** A prefix holds no more occurrences than the whole. */
  lemma CountPrefix(s: string, k: nat, c: char)
    requires k <= |s|
    ensures Count(s[..k], c) <= Count(s, c)
  {
    assert s == s[..k] + s[k..];
    CountConcat(s[..k], s[k..], c);
  }

  /** Split `s` at the first `c`: the text before it and the text after it. */
  function CutAt(s: string, c: char): (r: Option<(string, string)>)
    ensures r.None? <==> c !in s
    ensures r.Some? ==> s == r.value.0 + [c] + r.value.1 && c !in r.value.0
    decreases |s|
  {
    if s == [] then None
    else if s[0] == c then Some(([], s[1..]))
    else match CutAt(s[1..], c)
      case None => None
      case Some((a, b)) => Some(([s[0]] + a, b))
  }

  /** The first `c` of `a + [c] + b` is the one after `a` when `a` has none. */
  lemma {:induction false} CutAtFirst(a: string, b: string, c: char)
    requires c !in a
    ensures CutAt(a + [c] + b, c) == Some((a, b))
    decreases |a|
  {
    var s := a + [c] + b;
    if a != [] {
      assert s[1..] == a[1..] + [c] + b;
      CutAtFirst(a[1..], b, c);
      assert [a[0]] + a[1..] == a;
    } else {
      assert s[1..] == b;
    }
  }

  // ---------------------------------------------------------------------------
  // Decimal text of integers
  // ---------------------------------------------------------------------------

  /** The ASCII digit for `d`. */
  function DigitChar(d: nat): (c: char)
    requires d < 10
    ensures '0' <= c <= '9'
  {
    (48 + d) as char
  }

  predicate IsDecimalDigit(c: char) {
    '0' <= c <= '9'
  }

  /** `n.toString(10)` for a non-negative integer: its digits, without leading zeros. */
  function NatToDecimal(n: nat): (r: string)
    ensures |r| >= 1
    ensures forall i :: 0 <= i < |r| ==> IsDecimalDigit(r[i])
    ensures |r| > 1 ==> r[0] != '0'
    decreases n
  {
    if n < 10 then [DigitChar(n)] else NatToDecimal(n / 10) + [DigitChar(n % 10)]
  }

  /** `n.toString(10)` for an integer: a minus sign before the digits of a negative number. */
  function IntToDecimal(n: int): (r: string)
    ensures n >= 0 ==> r == NatToDecimal(n)
    ensures n < 0 ==> r == "-" + NatToDecimal(-n)
  {
    if n < 0 then "-" + NatToDecimal(-n) else NatToDecimal(n)
  }
}
