/**
 * The primitive data utilities of `PrimaryDataUtility.ts`: integer sums and the
 * emptiness of averages, number and boolean parsing of text, the two in-place list
 * operations, zero padding, file-name helpers and the signed display of a modifier.
 */
module PrimaryData {
  import opened Wrappers
  import opened Text

  // ---------------------------------------------------------------------------
  // sum / average
  // ---------------------------------------------------------------------------

  /** `list.reduce((a, c) => a + c, 0)`: the running total, folded from the left. */
  function Sum(list: seq<int>): (r: int)
    ensures list == [] ==> r == 0
    decreases |list|
  {
    if list == [] then 0 else Sum(list[..|list| - 1]) + list[|list| - 1]
  }

  /** Appending one value adds it to the total. */
  lemma SumAppend(list: seq<int>, x: int)
    ensures Sum(list + [x]) == Sum(list) + x
  {
    assert (list + [x])[..|list|] == list;
  }

  /** The total of two lists laid end to end is the sum of their totals. */
  lemma {:induction false} SumConcat(xs: seq<int>, ys: seq<int>)
    ensures Sum(xs + ys) == Sum(xs) + Sum(ys)
    decreases |ys|
  {
    if ys == [] {
      assert xs + ys == xs;
    } else {
      var init := ys[..|ys| - 1];
      assert xs + ys == (xs + init) + [ys[|ys| - 1]];
      SumAppend(xs + init, ys[|ys| - 1]);
      SumConcat(xs, init);
      assert ys == init + [ys[|ys| - 1]];
      SumAppend(init, ys[|ys| - 1]);
    }
  }

  /**
   * `average(list)`: no value for an empty list, otherwise the quotient whose product
   * with the length is the total.
   */
  function Average(list: seq<int>): (r: Option<real>)
    ensures r.None? <==> |list| == 0
    ensures r.Some? ==> r.value * (|list| as real) == Sum(list) as real
  {
    if |list| == 0 then None else Some(Sum(list) as real / |list| as real)
  }

  // ---------------------------------------------------------------------------
  // convertNumberNull / convertNumberZero
  // ---------------------------------------------------------------------------

  /** A converted number: an integer, or a decimal fraction kept as the text `parseFloat` reads. */
  datatype Num = Int(value: int) | Fraction(text: string)

  predicate IsHexDigit(c: char) {
    IsDecimalDigit(c) || ('a' <= c <= 'f') || ('A' <= c <= 'F')
  }

  /** A digit of the given radix, as the patterns `[0-9]` and `[0-9a-fA-F]` accept it. */
  predicate IsDigitOf(c: char, radix: nat) {
    if radix == 16 then IsHexDigit(c) else IsDecimalDigit(c)
  }

  function DigitValue(c: char): (d: nat)
    requires IsHexDigit(c)
    ensures d < 16
    ensures IsDecimalDigit(c) ==> d < 10
  {
    if IsDecimalDigit(c) then c as int - '0' as int
    else if 'a' <= c <= 'f' then c as int - 'a' as int + 10
    else c as int - 'A' as int + 10
  }

  predicate AllDigits(s: string, radix: nat) {
    forall i :: 0 <= i < |s| ==> IsDigitOf(s[i], radix)
  }

  /** The value of a run of digits, most significant first. */
  function DigitsValue(digits: string, radix: nat): nat
    requires AllDigits(digits, radix)
    decreases |digits|
  {
    if digits == [] then 0
    else DigitsValue(digits[..|digits| - 1], radix) * radix + DigitValue(digits[|digits| - 1])
  }

  /** `s` without one leading minus sign. */
  function Unsigned(s: string): string {
    if |s| > 0 && s[0] == '-' then s[1..] else s
  }

  /** `/^-?[0-9]+$/` for radix 10 and `/^-?[0-9a-fA-F]+$/` for radix 16. */
  predicate IsSignedInteger(s: string, radix: nat) {
    |Unsigned(s)| > 0 && AllDigits(Unsigned(s), radix)
  }

  /** `parseInt(s, radix)` on text that matched the integer pattern. */
  function SignedValue(s: string, radix: nat): int
    requires IsSignedInteger(s, radix)
  {
    if |s| > 0 && s[0] == '-' then 0 - DigitsValue(Unsigned(s), radix) else DigitsValue(s, radix) as int
  }

  /** `/^-?[0-9]*\.[0-9]+$/`: optional digits, one dot, at least one digit. */
  predicate IsDecimalFraction(s: string) {
    match CutAt(Unsigned(s), '.')
    case None => false
    case Some((whole, frac)) => AllDigits(whole, 10) && |frac| > 0 && AllDigits(frac, 10)
  }

  /** `str.trim().replace(/^\+/, "")`: trimmed, then one leading plus sign dropped. */
  function CleanNumberText(str: string): string {
    var t := Trim(str);
    if |t| > 0 && t[0] == '+' then t[1..] else t
  }

  /**
   * `convertNumberNull(str, radix)`: nothing for null or empty text and for any radix
   * but 10 and 16; otherwise the cleaned text read as an integer of that radix, or,
   * for radix 10, as a decimal fraction; nothing when it matches no pattern.
   */
  function ConvertNumberNull(str: Option<string>, radix: int): (r: Option<Num>)
    ensures str == None || str == Some("") ==> r == None
    ensures radix != 10 && radix != 16 ==> r == None
    ensures r.Some? && r.value.Fraction? ==> radix == 10
    ensures r.Some? ==> str.Some? && Trim(str.value) != ""
    ensures str.Some? && str.value != "" && (radix == 10 || radix == 16)
      && IsSignedInteger(CleanNumberText(str.value), radix)
      ==> r == Some(Int(SignedValue(CleanNumberText(str.value), radix)))
    ensures r.Some? && r.value.Int?
      ==> (radix == 10 || radix == 16) && IsSignedInteger(CleanNumberText(str.value), radix)
    ensures r.Some? && r.value.Fraction?
      ==> r.value.text == CleanNumberText(str.value) && IsDecimalFraction(r.value.text)
    ensures str.Some? && str.value != "" && radix == 10 && !IsSignedInteger(CleanNumberText(str.value), 10)
      && IsDecimalFraction(CleanNumberText(str.value))
      ==> r == Some(Fraction(CleanNumberText(str.value)))
    ensures str.Some? && (radix == 10 || radix == 16) && !IsSignedInteger(CleanNumberText(str.value), radix)
      && !(radix == 10 && IsDecimalFraction(CleanNumberText(str.value)))
      ==> r == None
  {
    if str.None? || str.value == "" then None
    else
      var t := CleanNumberText(str.value);
      if radix == 16 && IsSignedInteger(t, 16) then Some(Int(SignedValue(t, 16)))
      else if radix == 10 && IsSignedInteger(t, 10) then Some(Int(SignedValue(t, 10)))
      else if radix == 10 && IsDecimalFraction(t) then Some(Fraction(t))
      else None
  }

  /** A fraction text whose digits are all zero: `parseFloat` gives zero (or minus zero). */
  predicate IsZeroFraction(text: string) {
    forall i :: 0 <= i < |text| ==> text[i] !in "123456789"
  }

  /**
   * `convertNumberNull(str, radix) || 0`: zero where the conversion gives nothing or a
   * zero value, the converted number otherwise.
   */
  function ConvertNumberZero(str: Option<string>, radix: int): (r: Num)
    ensures ConvertNumberNull(str, radix) == None ==> r == Int(0)
    ensures r == Int(0) || ConvertNumberNull(str, radix) == Some(r)
    ensures forall v :: ConvertNumberNull(str, radix) == Some(Int(v)) ==> r == Int(v)
  {
    match ConvertNumberNull(str, radix)
    case None => Int(0)
    case Some(Int(v)) => Int(v)
    case Some(Fraction(t)) => if IsZeroFraction(t) then Int(0) else Fraction(t)
  }

  /** The hexadecimal path drops a plus sign and reads either letter case. */
  lemma HexPlusExample()
    ensures ConvertNumberNull(Some("+1F"), 16) == Some(Int(31))
  {
    TrimNoWhitespace("+1F");
    assert CleanNumberText("+1F") == "1F";
    assert "1F"[..1] == "1";
    assert DigitsValue("1F", 16) == 31;
  }

  lemma HexMinusExample()
    ensures ConvertNumberNull(Some("-ff"), 16) == Some(Int(-255))
  {
    TrimNoWhitespace("-ff");
    assert Unsigned("-ff") == "ff";
    assert "ff"[..1] == "f";
    assert DigitsValue("ff", 16) == 255;
  }

  /** A `0x` prefix is not read, and hexadecimal letters are not read in radix 10. */
  /** Text that is neither an integer nor a decimal fraction gives nothing, also in radix 10. */
  lemma NoPatternExample()
    ensures ConvertNumberNull(Some("abc"), 10) == None
    ensures ConvertNumberNull(Some("1.5"), 10) == Some(Fraction("1.5"))
  {
    TrimNoWhitespace("abc");
    assert !IsDecimalDigit('a');
    assert CutAt("abc", '.') == None;
    TrimNoWhitespace("1.5");
    assert !IsDecimalDigit('.');
    assert "1" + ['.'] + "5" == "1.5";
    CutAtFirst("1", "5", '.');
  }

  lemma NotHexExamples()
    ensures ConvertNumberNull(Some("0x1F"), 16) == None
    ensures ConvertNumberNull(Some("1F"), 10) == None
  {
    TrimNoWhitespace("0x1F");
    assert !IsHexDigit("0x1F"[1]);
    TrimNoWhitespace("1F");
    assert !IsDecimalDigit("1F"[1]);
    assert CutAt("1F", '.') == None;
  }

  /** Reading back the digits `toString(10)` writes gives the number. */
  lemma {:induction false} DecimalDigitsValue(n: nat)
    ensures AllDigits(NatToDecimal(n), 10)
    ensures DigitsValue(NatToDecimal(n), 10) == n
    decreases n
  {
    if n >= 10 {
      DecimalDigitsValue(n / 10);
      var d := NatToDecimal(n);
      assert d[..|d| - 1] == NatToDecimal(n / 10);
    }
  }

  /** Leading zeros do not change the value of a run of digits. */
  lemma {:induction false} LeadingZerosValue(zeros: nat, digits: string, radix: nat)
    requires AllDigits(digits, radix)
    ensures AllDigits(Repeat('0', zeros) + digits, radix)
    ensures DigitsValue(Repeat('0', zeros) + digits, radix) == DigitsValue(digits, radix)
    decreases |digits|, zeros
  {
    var s := Repeat('0', zeros) + digits;
    if digits == [] {
      assert s == Repeat('0', zeros);
      if zeros > 0 {
        LeadingZerosValue(zeros - 1, [], radix);
        assert s[..|s| - 1] == Repeat('0', zeros - 1) + [];
      }
    } else {
      LeadingZerosValue(zeros, digits[..|digits| - 1], radix);
      assert s[..|s| - 1] == Repeat('0', zeros) + digits[..|digits| - 1];
    }
  }

  /** Text made of signs and digits has no whitespace, so it is its own trim. */
  lemma TrimNumberText(s: string)
    requires forall i :: 0 <= i < |s| ==> s[i] == '+' || s[i] == '-' || IsDecimalDigit(s[i])
    ensures Trim(s) == s
  {
    TrimNoWhitespace(s);
  }

  /** Text without whitespace is its own trim. */
  lemma TrimNoWhitespace(s: string)
    requires forall i :: 0 <= i < |s| ==> !IsJsWhitespace(s[i])
    ensures Trim(s) == s
  {
  }

  /** Clean decimal integer text converts to its value. */
  lemma ConvertCleanInteger(t: string)
    requires t != "" && CleanNumberText(t) == t && IsSignedInteger(t, 10)
    ensures ConvertNumberNull(Some(t), 10) == Some(Int(SignedValue(t, 10)))
  {
  }

  /** The digits of a natural number, read as a signed integer. */
  lemma NatDigitsSigned(n: nat)
    ensures IsSignedInteger(NatToDecimal(n), 10)
    ensures SignedValue(NatToDecimal(n), 10) == n
  {
    DecimalDigitsValue(n);
    var d := NatToDecimal(n);
    assert d[0] != '-';
    assert Unsigned(d) == d;
  }

  /** The text `toString(10)` writes is already clean. */
  lemma DecimalTextClean(n: int)
    ensures CleanNumberText(IntToDecimal(n)) == IntToDecimal(n)
  {
    var s := IntToDecimal(n);
    var digits := NatToDecimal(if n >= 0 then n else -n);
    if n < 0 {
      assert s == "-" + digits;
      forall i | 0 <= i < |s|
        ensures s[i] == '+' || s[i] == '-' || IsDecimalDigit(s[i])
      {
        if i > 0 {
          assert s[i] == digits[i - 1];
        }
      }
    }
    TrimNumberText(s);
  }

  /** The text of a negative integer, read as a signed integer. */
  lemma NegativeDigitsSigned(n: int)
    requires n < 0
    ensures IsSignedInteger(IntToDecimal(n), 10)
    ensures SignedValue(IntToDecimal(n), 10) == n
  {
    var d := NatToDecimal(-n);
    DecimalDigitsValue(-n);
    assert Unsigned(IntToDecimal(n)) == d;
  }

  /** Every integer survives `toString(10)` followed by `convertNumberNull(_, 10)`. */
  lemma DecimalRoundTrip(n: int)
    ensures ConvertNumberNull(Some(IntToDecimal(n)), 10) == Some(Int(n))
  {
    DecimalTextClean(n);
    if n < 0 {
      NegativeDigitsSigned(n);
    } else {
      NatDigitsSigned(n);
    }
    ConvertCleanInteger(IntToDecimal(n));
  }

  // ---------------------------------------------------------------------------
  // convertBooleanFalse / convertBooleanNull
  // ---------------------------------------------------------------------------

  /** Lower case of one character; only ASCII letters can lower-case into "true" or "false". */
  function LowerChar(c: char): char {
    if 'A' <= c <= 'Z' then (c as int + 32) as char else c
  }

  /** `s.toLowerCase()`, as far as comparing with an ASCII lower-case word needs. */
  function ToLower(s: string): (r: string)
    ensures |r| == |s|
  {
    seq(|s|, i requires 0 <= i < |s| => LowerChar(s[i]))
  }

  /** `s` spells `word` in any mix of upper and lower case. */
  predicate EqualsIgnoringCase(s: string, word: string) {
    |s| == |word| && forall i :: 0 <= i < |s| ==> LowerChar(s[i]) == word[i]
  }

  /** `convertBooleanNull(str)`: true or false for the words in any case, nothing otherwise. */
  function ConvertBooleanNull(str: Option<string>): (r: Option<bool>)
    ensures r == Some(true) <==> str.Some? && EqualsIgnoringCase(str.value, "true")
    ensures r == Some(false) <==> str.Some? && EqualsIgnoringCase(str.value, "false")
  {
    if str.None? then None
    else if ToLower(str.value) == "true" then Some(true)
    else if ToLower(str.value) == "false" then Some(false)
    else None
  }

  /** `convertBooleanFalse(str)`: true exactly where `convertBooleanNull` gives true. */
  function ConvertBooleanFalse(str: Option<string>): (r: bool)
    ensures r <==> ConvertBooleanNull(str) == Some(true)
  {
    if str.None? then false else ToLower(str.value) == "true"
  }

  // ---------------------------------------------------------------------------
  // listToEmpty / listDelete
  // ---------------------------------------------------------------------------

  /** A JavaScript array that callers share and the utilities change in place. */
  class MutableList<T> {
    var items: seq<T>

    constructor (items: seq<T>)
      ensures this.items == items
    {
      this.items := items;
    }
  }

  /** `list.splice(start, count)` within bounds: drops `count` items from `start`. */
  function Splice<T>(s: seq<T>, start: nat, count: nat): (r: seq<T>)
    requires start + count <= |s|
    ensures |r| == |s| - count
    ensures forall i :: 0 <= i < |r| ==> r[i] == (if i < start then s[i] else s[i + count])
  {
    s[..start] + s[start + count..]
  }

  /** `listToEmpty(list)`: `splice(0, list.length)` leaves the shared list empty. */
  method ListToEmpty<T>(list: MutableList<T>)
    modifies list
    ensures list.items == []
  {
    list.items := Splice(list.items, 0, |list.items|);
  }

  predicate Distinct<T(==)>(s: seq<T>) {
    forall i, j :: 0 <= i < j < |s| ==> s[i] != s[j]
  }

  /** `s.indexOf(x)` for a present `x`: its first position. */
  function FirstIndex<T(==)>(s: seq<T>, x: T): (k: nat)
    requires x in s
    ensures k < |s| && s[k] == x
    ensures forall j :: 0 <= j < k ==> s[j] != x
  {
    if s[0] == x then 0 else 1 + FirstIndex(s[1..], x)
  }

  /**
   * The items at positions `i` and later whose verdict `f(item, position)` equals
   * `want`, in their original order: `filter` with or against the predicate.
   */
  function FilterFrom<T>(s: seq<T>, f: (T, nat) -> bool, i: nat, want: bool): seq<T>
    requires i <= |s|
    decreases |s| - i
  {
    if i == |s| then [] else (if f(s[i], i) == want then [s[i]] else []) + FilterFrom(s, f, i + 1, want)
  }

  /** What `listDelete` should leave: the items the filter does not select, in order. */
  function Survivors<T>(s: seq<T>, f: (T, nat) -> bool): seq<T> {
    FilterFrom(s, f, 0, false)
  }

  /** A stretch with no selected item is kept whole. */
  lemma {:induction false} KeepUnselectedStretch<T>(s: seq<T>, f: (T, nat) -> bool, i: nat, m: nat)
    requires i <= m <= |s|
    requires forall k :: i <= k < m ==> !f(s[k], k)
    ensures FilterFrom(s, f, i, false) == s[i..m] + FilterFrom(s, f, m, false)
    decreases m - i
  {
    if i < m {
      KeepUnselectedStretch(s, f, i + 1, m);
      assert s[i..m] == [s[i]] + s[i + 1..m];
    }
  }

  /** One step of the filter: the item at `i` when it is wanted, then the rest. */
  lemma FilterStep<T>(s: seq<T>, f: (T, nat) -> bool, i: nat, want: bool)
    requires i < |s|
    ensures FilterFrom(s, f, i, want) == (if f(s[i], i) == want then [s[i]] else []) + FilterFrom(s, f, i + 1, want)
  {
  }

  /** Moving one item to the front of either part keeps the two parts a split of the list. */
  lemma PartitionStep<T>(x: T, picked: seq<T>, kept: seq<T>, rest: seq<T>, picked': seq<T>, kept': seq<T>)
    requires multiset(picked) + multiset(kept) == multiset(rest)
    requires (picked' == [x] + picked && kept' == kept) || (picked' == picked && kept' == [x] + kept)
    ensures multiset(picked') + multiset(kept') == multiset([x] + rest)
  {
    assert multiset([x] + rest) == multiset{x} + multiset(rest);
    if picked' == [x] + picked && kept' == kept {
      assert multiset(picked') == multiset{x} + multiset(picked);
    } else {
      assert multiset(kept') == multiset{x} + multiset(kept);
    }
  }

  lemma SliceCons<T>(s: seq<T>, i: nat)
    requires i < |s|
    ensures multiset(s[i..]) == multiset([s[i]] + s[i + 1..])
  {
    assert s[i..] == [s[i]] + s[i + 1..];
  }

  /** The selected and the surviving items together are the items of the list. */
  lemma {:induction false} FilterPartition<T>(s: seq<T>, f: (T, nat) -> bool, i: nat)
    requires i <= |s|
    ensures multiset(FilterFrom(s, f, i, true)) + multiset(FilterFrom(s, f, i, false)) == multiset(s[i..])
    decreases |s| - i
  {
    if i < |s| {
      FilterPartition(s, f, i + 1);
      FilterStep(s, f, i, true);
      FilterStep(s, f, i, false);
      SliceCons(s, i);
      PartitionStep(s[i], FilterFrom(s, f, i + 1, true), FilterFrom(s, f, i + 1, false), s[i + 1..],
        FilterFrom(s, f, i, true), FilterFrom(s, f, i, false));
    }
  }

  /** An item survives exactly when some position holds it and the filter passes it over. */
  lemma {:induction false} SurvivorMembership<T>(s: seq<T>, f: (T, nat) -> bool, i: nat, x: T)
    requires i <= |s|
    ensures x in FilterFrom(s, f, i, false) <==> exists k :: i <= k < |s| && s[k] == x && !f(s[k], k)
    decreases |s| - i
  {
    if i < |s| {
      SurvivorMembership(s, f, i + 1, x);
      if s[i] == x && !f(s[i], i) {
        assert x in FilterFrom(s, f, i, false);
      }
    }
  }

  /** The sorted positions `0 <= p[0] < p[1] < ...`. */
  predicate StrictlyIncreasing(p: seq<nat>) {
    forall a, b :: 0 <= a < b < |p| ==> p[a] < p[b]
  }

  /** The sorted positions of exactly the selected items. */
  predicate SelectedPositions<T>(s: seq<T>, f: (T, nat) -> bool, p: seq<nat>) {
    StrictlyIncreasing(p)
    && (forall a :: 0 <= a < |p| ==> p[a] < |s| && f(s[p[a]], p[a]))
    && (forall k :: 0 <= k < |s| && f(s[k], k) ==> k in p)
  }

  /** The `j`-th selected position, or the end of the list past the last one. */
  function NextBound<T>(s: seq<T>, p: seq<nat>, j: nat): nat {
    if j < |p| then p[j] else |s|
  }

  /** Dropping the item at `d` from a kept prefix ending at `b` followed by a tail. */
  lemma SpliceFromPrefix<T>(s: seq<T>, tail: seq<T>, d: nat, b: nat)
    requires d < b <= |s|
    ensures Splice(s[..b] + tail, d, 1) == s[..d] + (s[d + 1..b] + tail)
  {
  }

  /** The selected positions lie at or below the `j`-th, or at or above the next bound. */
  lemma SelectedAround<T>(s: seq<T>, f: (T, nat) -> bool, p: seq<nat>, j: nat)
    requires SelectedPositions(s, f, p) && j < |p|
    ensures p[j] < NextBound(s, p, j + 1) <= |s|
    ensures forall a :: 0 <= a < |p| ==> p[a] <= p[j] || NextBound(s, p, j + 1) <= p[a]
  {
    var b, d := NextBound(s, p, j + 1), p[j];
    if j + 1 < |p| {
      assert p[j] < p[j + 1];
    }
    forall a | 0 <= a < |p| ensures p[a] <= d || b <= p[a] {
      if j < a {
        assert p[j + 1] <= p[a] || a == j + 1;
      }
    }
  }

  /** Between two neighbouring selected positions nothing is selected. */
  lemma GapUnselected<T>(s: seq<T>, f: (T, nat) -> bool, p: seq<nat>, d: nat, b: nat)
    requires SelectedPositions(s, f, p) && d < b <= |s|
    requires forall a :: 0 <= a < |p| ==> p[a] <= d || b <= p[a]
    ensures forall k :: d < k < b ==> !f(s[k], k)
  {
    forall k | d < k < b ensures !f(s[k], k) {
      assert forall a :: 0 <= a < |p| ==> p[a] != k;
      assert k !in p;
    }
  }

  /** Splicing out the `j`-th selected position extends the surviving tail down to it. */
  lemma SpliceSelected<T>(s: seq<T>, f: (T, nat) -> bool, p: seq<nat>, j: nat)
    requires SelectedPositions(s, f, p) && j < |p|
    ensures var b, d := NextBound(s, p, j + 1), p[j];
      d < b <= |s| && Splice(s[..b] + FilterFrom(s, f, b, false), d, 1) == s[..d] + FilterFrom(s, f, d, false)
  {
    var b, d := NextBound(s, p, j + 1), p[j];
    SelectedAround(s, f, p, j);
    GapUnselected(s, f, p, d, b);
    SpliceGap(s, f, d, b);
  }

  /** Splicing out a selected item followed by an unselected stretch up to `b`. */
  lemma SpliceGap<T>(s: seq<T>, f: (T, nat) -> bool, d: nat, b: nat)
    requires d < b <= |s| && f(s[d], d)
    requires forall k :: d < k < b ==> !f(s[k], k)
    ensures Splice(s[..b] + FilterFrom(s, f, b, false), d, 1) == s[..d] + FilterFrom(s, f, d, false)
  {
    KeepUnselectedStretch(s, f, d + 1, b);
    FilterStep(s, f, d, false);
    SpliceFromPrefix(s, FilterFrom(s, f, b, false), d, b);
  }

  /** Below the first selected position every item survives. */
  lemma KeepBeforeFirst<T>(s: seq<T>, f: (T, nat) -> bool, p: seq<nat>)
    requires SelectedPositions(s, f, p)
    ensures FilterFrom(s, f, 0, false) == s[..NextBound(s, p, 0)] + FilterFrom(s, f, NextBound(s, p, 0), false)
  {
    var b := NextBound(s, p, 0);
    assert forall a :: 0 <= a < |p| ==> b <= p[a];
    KeepUnselectedStretch(s, f, 0, b);
  }

  /**
   * `listDelete(list, filterFunc)` on a list of distinct items: finds the selected
   * items, looks up their positions with `indexOf`, and splices them out from the
   * highest position down, leaving the survivors in their original order.
   */
  method ListDelete<T(==)>(list: MutableList<T>, filterFunc: (T, nat) -> bool)
    requires Distinct(list.items)
    modifies list
    ensures list.items == Survivors(old(list.items), filterFunc)
  {
    var s := list.items;
    // `list.filter(filterFunc)` and `.map(item => list.indexOf(item))`, in one pass.
    var deleteIndexList: seq<nat> := [];
    var i := 0;
    while i < |s|
      invariant i <= |s|
      invariant StrictlyIncreasing(deleteIndexList)
      invariant forall j :: 0 <= j < |deleteIndexList| ==> deleteIndexList[j] < i
      invariant forall j :: 0 <= j < |deleteIndexList| ==> filterFunc(s[deleteIndexList[j]], deleteIndexList[j])
      invariant forall k :: 0 <= k < i && filterFunc(s[k], k) ==> k in deleteIndexList
    {
      if filterFunc(s[i], i) {
        var position := FirstIndex(s, s[i]);
        assert position == i;
        deleteIndexList := deleteIndexList + [position];
      }
      i := i + 1;
    }
    // Sorting the ascending positions in descending order and splicing each one out:
    // every splice leaves the positions still to be deleted where they were.
    assert SelectedPositions(s, filterFunc, deleteIndexList);
    var j := |deleteIndexList|;
    while j > 0
      invariant 0 <= j <= |deleteIndexList|
      invariant var b := NextBound(s, deleteIndexList, j);
        b <= |s| && list.items == s[..b] + FilterFrom(s, filterFunc, b, false)
    {
      j := j - 1;
      SpliceSelected(s, filterFunc, deleteIndexList, j);
      list.items := Splice(list.items, deleteIndexList[j], 1);
    }
    KeepBeforeFirst(s, filterFunc, deleteIndexList);
  }

  // ---------------------------------------------------------------------------
  // zeroPadding
  // ---------------------------------------------------------------------------

  /** `c.repeat(n)`. */
  function Repeat(c: char, n: nat): (r: string)
    ensures |r| == n && forall i :: 0 <= i < n ==> r[i] == c
  {
    seq(n, _ => c)
  }

  /**
   * `("0".repeat(length) + num).slice(-length)`: the last `length` characters of the
   * zero-prefixed text; `slice(-0)` is `slice(0)`, so a zero length keeps it whole.
   */
  function ZeroPadding(num: string, length: nat): (r: string)
    ensures length >= 1 ==> |r| == length
    ensures length == 0 ==> r == num
    ensures |num| <= length ==> r == Repeat('0', length - |num|) + num
    ensures 1 <= length <= |num| ==> r == num[|num| - length..]
  {
    var padded := Repeat('0', length) + num;
    if length == 0 then padded else padded[|padded| - length..]
  }

  /** A padded number reads back as the same number. */
  lemma ZeroPaddingRoundTrip(n: nat, length: nat)
    requires |NatToDecimal(n)| <= length
    ensures ConvertNumberZero(Some(ZeroPadding(NatToDecimal(n), length)), 10) == Int(n)
  {
    var d := NatToDecimal(n);
    var zeros := length - |d|;
    var s := ZeroPadding(d, length);
    assert s == Repeat('0', zeros) + d;
    DecimalDigitsValue(n);
    LeadingZerosValue(zeros, d, 10);
    DigitTextConverts(s);
  }

  /** Non-empty text of decimal digits alone converts to the value of its digits. */
  lemma DigitTextConverts(s: string)
    requires s != [] && AllDigits(s, 10)
    ensures ConvertNumberNull(Some(s), 10) == Some(Int(DigitsValue(s, 10)))
  {
    assert forall i :: 0 <= i < |s| ==> IsDecimalDigit(s[i]);
    TrimNoWhitespace(s);
    assert CleanNumberText(s) == s;
    assert Unsigned(s) == s;
  }

  // ---------------------------------------------------------------------------
  // removeExt / getExt / getFileName
  // ---------------------------------------------------------------------------

  /**
   * The longest suffix of `s` free of `c`: what `/[^c]+$/` matches, and the empty
   * text when `s` is empty or ends with `c` (where the pattern does not match).
   */
  function SuffixWithout(s: string, c: char): (r: string)
    ensures |r| <= |s| && r == s[|s| - |r|..]
    ensures c !in r
    ensures |r| == |s| || s[|s| - |r| - 1] == c
    decreases |s|
  {
    if s == [] || s[|s| - 1] == c then [] else SuffixWithout(s[..|s| - 1], c) + [s[|s| - 1]]
  }

  /** `getExt(fileName)`: the text after the last dot, or the whole name when it has none. */
  function GetExt(fileName: string): (r: string)
    ensures '.' !in r && |r| <= |fileName| && r == fileName[|fileName| - |r|..]
    ensures |r| == |fileName| || fileName[|fileName| - |r| - 1] == '.'
  {
    SuffixWithout(fileName, '.')
  }

  /** `getFileName(url)`: the text after the last slash, or the whole text when it has none. */
  function GetFileName(url: string): (r: string)
    ensures '/' !in r && |r| <= |url| && r == url[|url| - |r|..]
    ensures |r| == |url| || url[|url| - |r| - 1] == '/'
  {
    SuffixWithout(url, '/')
  }

  /** The characters the regular-expression `.` does not match. */
  predicate IsLineTerminator(c: char) {
    c == '\n' || c == '\r' || c == '\U{2028}' || c == '\U{2029}'
  }

  /** The start of the line that holds position `end`: just after the last line terminator before it. */
  function LineStart(s: string, end: nat): (k: nat)
    requires end <= |s|
    ensures k <= end
    ensures forall i :: k <= i < end ==> !IsLineTerminator(s[i])
    ensures k == 0 || IsLineTerminator(s[k - 1])
    decreases end
  {
    if end == 0 || IsLineTerminator(s[end - 1]) then end else LineStart(s, end - 1)
  }

  /**
   * `removeExt(fileName)` through `/(.*)(?:\.([^.]+$))/`: when a dot is followed by a
   * non-empty dot-free tail, the text before that last dot — from the start of its
   * line, since `.*` stops at line terminators; the name itself otherwise.
   */
  function RemoveExt(fileName: string): (r: string)
    ensures |GetExt(fileName)| == 0 || |GetExt(fileName)| == |fileName| ==> r == fileName
  {
    var ext := GetExt(fileName);
    if |ext| == 0 || |ext| == |fileName| then fileName
    else
      var dot := |fileName| - |ext| - 1;
      fileName[LineStart(fileName, dot)..dot]
  }

  /** On a one-line name with an extension, `removeExt`, a dot and `getExt` give the name back. */
  lemma RemoveExtGetExt(fileName: string)
    requires forall i :: 0 <= i < |fileName| ==> !IsLineTerminator(fileName[i])
    requires 0 < |GetExt(fileName)| < |fileName|
    ensures RemoveExt(fileName) + "." + GetExt(fileName) == fileName
  {
    var ext := GetExt(fileName);
    var dot := |fileName| - |ext| - 1;
    assert LineStart(fileName, dot) == 0;
    assert fileName == fileName[..dot] + [fileName[dot]] + fileName[dot + 1..];
  }

  // ---------------------------------------------------------------------------
  // hoseiStr
  // ---------------------------------------------------------------------------

  /** `hoseiStr(n)`: a modifier as shown on a sheet, with an explicit plus sign when positive. */
  function HoseiStr(n: int): (r: string)
    ensures n > 0 ==> r == "+" + NatToDecimal(n)
    ensures n <= 0 ==> r == IntToDecimal(n)
  {
    if n > 0 then "+" + IntToDecimal(n) else IntToDecimal(n)
  }

  /** The signed display of a modifier converts back to the modifier. */
  lemma HoseiStrRoundTrip(n: int)
    ensures ConvertNumberNull(Some(HoseiStr(n)), 10) == Some(Int(n))
  {
    if n > 0 {
      var d := NatToDecimal(n);
      var s := HoseiStr(n);
      DecimalDigitsValue(n);
      assert s == "+" + d;
      TrimNumberText(s);
      assert CleanNumberText(s) == d;
      assert Unsigned(d) == d;
    } else {
      DecimalRoundTrip(n);
    }
  }
}
