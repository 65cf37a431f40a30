/** Printing an amount with thousands separators and reading human amounts back. */
module Amounts {
  import opened Prelude

  /** Largest integer up to which JavaScript numbers hold every integer exactly. */
  const EXACT: int := 9_007_199_254_740_992

  // ---- Decimal numerals ---------------------------------------------------------------

  predicate IsDigit(c: char) { '0' <= c <= '9' }

  predicate AllDigits(s: string) { forall i :: 0 <= i < |s| ==> IsDigit(s[i]) }

  function DigitValue(c: char): nat
    requires IsDigit(c)
  {
    c as int - '0' as int
  }

  function Numeral(n: nat): (s: string)
    ensures s != "" && AllDigits(s)
  {
    var last := [('0' as int + n % 10) as char];
    if n < 10 then last else Numeral(n / 10) + last
  }

  function ValueOf(s: string): nat
    requires AllDigits(s)
  {
    if s == "" then 0 else 10 * ValueOf(s[..|s| - 1]) + DigitValue(s[|s| - 1])
  }

  lemma {:induction false} NumeralValue(n: nat)
    ensures ValueOf(Numeral(n)) == n
  {
    var s := Numeral(n);
    if n >= 10 {
      NumeralValue(n / 10);
      assert s[..|s| - 1] == Numeral(n / 10);
    }
  }

  // ---- Printing --------------------------------------------------------------------------

  /** The zero-width positions the separator pattern matches: inside the numeral, with a positive multiple of
      three digits to the right. */
  predicate CommaBefore(n: nat, i: nat) { 0 < i < n && (n - i) % 3 == 0 }

  function Grouped(digits: string, i: nat): string
    requires i <= |digits|
    decreases |digits| - i
  {
    if i == |digits| then ""
    else (if CommaBefore(|digits|, i) then "," else "") + [digits[i]] + Grouped(digits, i + 1)
  }

  /** `formatAmount` on the decimal string of an integer. */
  function FormatAmount(raw: string): string {
    if raw != "" && raw[0] == '-' then "-" + Grouped(raw[1..], 0) else Grouped(raw, 0)
  }

  function Decimal(v: int): string { if v < 0 then "-" + Numeral(-v) else Numeral(v) }

  // ---- Parsing -----------------------------------------------------------------------------

  /** `Inexact` stands for numerals that go through rounding double arithmetic: fractions, and products beyond
      EXACT. Their outcome is left open. */
  datatype Parsed = Amount(value: nat) | NotAnAmount | Inexact

  predicate IsSpace(c: char) {
    || '\t' <= c <= '\r' || c == ' ' || c == '\U{00A0}' || c == '\U{1680}' || '\U{2000}' <= c <= '\U{200A}'
    || c == '\U{2028}' || c == '\U{2029}' || c == '\U{202F}' || c == '\U{205F}' || c == '\U{3000}' || c == '\U{FEFF}'
  }

  function Lower(c: char): char { if 'A' <= c <= 'Z' then (c as int + 32) as char else c }

  /** Lower case, without commas and white space. */
  function Clean(s: string): string {
    if s == "" then ""
    else (if s[0] == ',' || IsSpace(s[0]) then "" else [Lower(s[0])]) + Clean(s[1..])
  }

  function PrefixLength(s: string): (n: nat)
    ensures n <= |s|
  {
    if "ugx" <= s || "usd" <= s || "shs" <= s then 3
    else if "sh" <= s then 2
    else if "$" <= s then 1
    else 0
  }

  function Multiplier(s: string): nat {
    if s == "" then 1
    else if s[|s| - 1] == 'k' then 1000
    else if s[|s| - 1] == 'm' then 1_000_000
    else 1
  }

  predicate IsFraction(s: string) {
    exists i :: 0 < i < |s| - 1 && s[i] == '.' && AllDigits(s[..i]) && AllDigits(s[i + 1..])
  }

  function ParseNumber(s: string, multiplier: nat): Parsed {
    if s != "" && AllDigits(s) then
      if ValueOf(s) * multiplier <= EXACT then Amount(ValueOf(s) * multiplier) else Inexact
    else if IsFraction(s) then Inexact
    else NotAnAmount
  }

  /** The number between prefix and suffix. */
  function ParseBody(body: string): Parsed {
    var m := Multiplier(body);
    ParseNumber(if m == 1 then body else body[..|body| - 1], m)
  }

  function ParseCleaned(cleaned: string): Parsed { ParseBody(cleaned[PrefixLength(cleaned)..]) }

  function ParseAmount(input: string): Parsed { ParseCleaned(Clean(input)) }

  // ---- Cleaning undoes grouping -----------------------------------------------------------

  lemma {:induction false} CleanConcat(a: string, b: string)
    ensures Clean(a + b) == Clean(a) + Clean(b)
  {
    if a == "" {
      assert a + b == b;
    } else {
      assert (a + b)[1..] == a[1..] + b;
      CleanConcat(a[1..], b);
    }
  }

  lemma {:induction false} CleanGrouped(digits: string, i: nat)
    requires AllDigits(digits) && i <= |digits|
    ensures Clean(Grouped(digits, i)) == digits[i..]
    decreases |digits| - i
  {
    if i < |digits| {
      var comma := if CommaBefore(|digits|, i) then "," else "";
      CleanGrouped(digits, i + 1);
      CleanConcat(comma + [digits[i]], Grouped(digits, i + 1));
      CleanConcat(comma, [digits[i]]);
      assert Clean([digits[i]]) == [digits[i]] + Clean([digits[i]][1..]);
      assert digits[i..] == [digits[i]] + digits[i + 1..];
    }
  }

  // ---- The groups ---------------------------------------------------------------------------

  /** `s` cut at its commas. */
  function Groups(s: string): (gs: seq<string>)
    ensures gs != []
  {
    if s == "" then [""]
    else
      var rest := Groups(s[1..]);
      if s[0] == ',' then [""] + rest else [[s[0]] + rest[0]] + rest[1..]
  }

  function Joined(gs: seq<string>): string { if gs == [] then "" else gs[0] + Joined(gs[1..]) }

  lemma GroupsDigit(c: char, rest: string)
    requires c != ','
    ensures var gs := Groups(rest);
            && Groups([c] + rest) == [[c] + gs[0]] + gs[1..]
            && Joined(Groups([c] + rest)) == [c] + Joined(gs)
  {
    assert ([c] + rest)[1..] == rest;
    var gs := Groups(rest);
    assert ([[c] + gs[0]] + gs[1..])[1..] == gs[1..];
  }

  lemma GroupsComma(rest: string)
    ensures Groups("," + rest) == [""] + Groups(rest) && Joined(Groups("," + rest)) == Joined(Groups(rest))
  {
    assert ("," + rest)[1..] == rest;
    assert ([""] + Groups(rest))[1..] == Groups(rest);
  }

  /** Length of the group that continues with n digits to go. */
  function HeadLength(n: nat): nat { if n > 0 && n % 3 == 0 then 3 else n % 3 }

  /** Groups of a numeral's print from a digit on, no separator pending: the group being written ends at the next
      separator, later ones have three digits each, and together they are the digits. */
  ghost predicate WellGrouped(gs: seq<string>, digits: string) {
    && gs != [] && |gs[0]| == HeadLength(|digits|)
    && (forall k :: 1 <= k < |gs| ==> |gs[k]| == 3)
    && Joined(gs) == digits
  }

  lemma HeadGrows(n: nat)
    ensures HeadLength(n + 1) == if n % 3 == 0 then 1 else HeadLength(n) + 1
  {
  }

  /** Only the first group changes. */
  lemma FirstGroup(gs: seq<string>, hs: seq<string>, head: string)
    requires gs != [] && hs == [head] + gs[1..] && forall k :: 1 <= k < |gs| ==> |gs[k]| == 3
    ensures hs[0] == head && forall k :: 1 <= k < |hs| ==> |hs[k]| == 3
  {
    assert forall k :: 1 <= k < |hs| ==> hs[k] == gs[k];
  }

  /** One more digit in front of the group being written. */
  lemma SameGroup(c: char, rest: string, digits: string)
    requires c != ',' && WellGrouped(Groups(rest), digits) && |digits| % 3 != 0
    ensures WellGrouped(Groups([c] + rest), [c] + digits)
  {
    var gs := Groups(rest);
    GroupsDigit(c, rest);
    FirstGroup(gs, Groups([c] + rest), [c] + gs[0]);
    HeadGrows(|digits|);
  }

  /** A digit and a separator in front of a complete group. */
  lemma NewGroup(c: char, rest: string, digits: string)
    requires c != ',' && WellGrouped(Groups(rest), digits) && |digits| % 3 == 0 && |digits| > 0
    ensures WellGrouped(Groups([c] + ("," + rest)), [c] + digits)
  {
    var gs := Groups("," + rest);
    GroupsComma(rest);
    GroupsDigit(c, "," + rest);
    assert forall k :: 1 <= k < |gs| ==> gs[k] == Groups(rest)[k - 1];
    FirstGroup(gs, Groups([c] + ("," + rest)), [c] + gs[0]);
    HeadGrows(|digits|);
  }

  lemma LastGroup(c: char)
    requires c != ','
    ensures WellGrouped(Groups([c] + ""), [c])
  {
    GroupsDigit(c, "");
    assert Groups("") == [""] && [""][1..] == [];
  }

  lemma {:induction false} GroupsFrom(digits: string, i: nat)
    requires AllDigits(digits) && i < |digits|
    ensures WellGrouped(Groups([digits[i]] + Grouped(digits, i + 1)), digits[i..])
    decreases |digits| - i
  {
    var rest := Grouped(digits, i + 1);
    assert digits[i..] == [digits[i]] + digits[i + 1..];
    if i + 1 == |digits| {
      LastGroup(digits[i]);
    } else {
      var next := [digits[i + 1]] + Grouped(digits, i + 2);
      GroupsFrom(digits, i + 1);
      if CommaBefore(|digits|, i + 1) {
        assert rest == "," + next;
        NewGroup(digits[i], next, digits[i + 1..]);
      } else {
        assert rest == next;
        SameGroup(digits[i], next, digits[i + 1..]);
      }
    }
  }

  /** Every comma group after the first has exactly three digits, the first has one to three, and read together
      they are the numeral. */
  lemma GroupsOfThree(v: nat)
    ensures var gs := Groups(FormatAmount(Decimal(v)));
            && 1 <= |gs[0]| <= 3 && (forall k :: 1 <= k < |gs| ==> |gs[k]| == 3)
            && Joined(gs) == Decimal(v)
    ensures v > 0 ==> FormatAmount(Decimal(0 - v)) == "-" + FormatAmount(Decimal(v))
  {
    var d := Decimal(v);
    GroupsFrom(d, 0);
    assert d[0..] == d && d[0] != '-';
    assert Grouped(d, 0) == [d[0]] + Grouped(d, 1);
    assert ("-" + d)[1..] == d;
  }

  // ---- Round trips --------------------------------------------------------------------------

  /** The currency marks the parser knows, in lower case, and none. */
  const PREFIXES: set<string> := {"", "ugx", "usd", "sh", "shs", "$"}

  function Suffix(multiplier: nat): string {
    if multiplier == 1000 then "k" else if multiplier == 1_000_000 then "m" else ""
  }

  lemma DigitsAndSuffix(digits: string, multiplier: nat)
    requires digits != "" && AllDigits(digits) && multiplier in {1, 1000, 1_000_000}
    ensures ParseBody(digits + Suffix(multiplier))
            == if ValueOf(digits) * multiplier <= EXACT then Amount(ValueOf(digits) * multiplier) else Inexact
  {
    var body := digits + Suffix(multiplier);
    assert multiplier == 1 ==> body == digits && IsDigit(body[|body| - 1]);
    assert multiplier != 1 ==> body[|body| - 1] == Suffix(multiplier)[0] && body[..|body| - 1] == digits;
  }

  lemma ParsePrefix(prefix: string, body: string)
    requires prefix in PREFIXES && body != "" && IsDigit(body[0])
    ensures var s := prefix + body; PrefixLength(s) == |prefix| && s[|prefix|..] == body
  {
    var s := prefix + body;
    assert forall i :: 0 <= i < |prefix| ==> s[i] == prefix[i];
    assert s[|prefix|] == body[0];
    assert prefix == s[..|prefix|];
  }

  lemma ParseDigits(input: string, prefix: string, digits: string, multiplier: nat)
    requires prefix in PREFIXES && multiplier in {1, 1000, 1_000_000} && digits != "" && AllDigits(digits)
    requires Clean(input) == prefix + (digits + Suffix(multiplier))
    ensures ParseAmount(input)
            == if ValueOf(digits) * multiplier <= EXACT then Amount(ValueOf(digits) * multiplier) else Inexact
  {
    DigitsAndSuffix(digits, multiplier);
    ParsePrefix(prefix, digits + Suffix(multiplier));
  }

  function Zeros(n: nat): string { seq(n, _ => '0') }

  /** Leading zeros add nothing. */
  lemma {:induction false} ZerosAddNothing(zeros: nat, digits: string)
    requires AllDigits(digits)
    ensures AllDigits(Zeros(zeros) + digits) && ValueOf(Zeros(zeros) + digits) == ValueOf(digits)
    decreases zeros + |digits|
  {
    var s := Zeros(zeros) + digits;
    if digits != "" {
      ZerosAddNothing(zeros, digits[..|digits| - 1]);
      assert s[..|s| - 1] == Zeros(zeros) + digits[..|digits| - 1];
    } else if zeros > 0 {
      ZerosAddNothing(zeros - 1, "");
      assert s[..|s| - 1] == Zeros(zeros - 1) + "";
    }
  }

  /** However it is spelt: an input that cleans to a known prefix, an integer numeral and a known suffix parses
      to the numeral's value times the suffix's factor, as long as that stays exact. */
  lemma ParseNumeral(input: string, prefix: string, zeros: nat, v: nat, multiplier: nat)
    requires prefix in {"", "ugx", "usd", "sh", "shs", "$"} && multiplier in {1, 1000, 1_000_000}
    requires var suffix := if multiplier == 1 then "" else if multiplier == 1000 then "k" else "m";
             Clean(input) == prefix + ((Zeros(zeros) + Numeral(v)) + suffix)
    ensures ParseAmount(input)
            == if v * multiplier <= 9_007_199_254_740_992 then Amount(v * multiplier) else Inexact
  {
    NumeralValue(v);
    ZerosAddNothing(zeros, Numeral(v));
    ParseDigits(input, prefix, Zeros(zeros) + Numeral(v), multiplier);
  }

  // ---- What is an amount --------------------------------------------------------------------

  /** Digits, or digits on both sides of one point. */
  ghost predicate IsNumber(s: string) {
    (s != "" && AllDigits(s))
    || exists a, b :: a != "" && b != "" && AllDigits(a) && AllDigits(b) && s == a + "." + b
  }

  /** A known mark or none, a number, and k, m or nothing. */
  ghost predicate Spelt(s: string, prefix: string, number: string, suffix: string) {
    && prefix in {"", "ugx", "usd", "sh", "shs", "$"} && suffix in {"", "k", "m"} && IsNumber(number)
    && s == prefix + (number + suffix)
  }

  ghost predicate Readable(s: string) { exists prefix, number, suffix :: Spelt(s, prefix, number, suffix) }

  lemma FractionIsNumber(s: string)
    requires IsFraction(s)
    ensures IsNumber(s)
  {
    var i :| 0 < i < |s| - 1 && s[i] == '.' && AllDigits(s[..i]) && AllDigits(s[i + 1..]);
    assert s == s[..i] + "." + s[i + 1..];
  }

  lemma NumberIsFraction(s: string)
    requires IsNumber(s)
    ensures AllDigits(s) || IsFraction(s)
  {
    if !AllDigits(s) {
      var a, b :| a != "" && b != "" && AllDigits(a) && AllDigits(b) && s == a + "." + b;
      assert s[..|a|] == a && s[|a|] == '.' && s[|a| + 1..] == b;
    }
  }

  lemma NumberEnds(s: string)
    requires IsNumber(s)
    ensures s != "" && IsDigit(s[0]) && IsDigit(s[|s| - 1])
  {
    if !AllDigits(s) {
      var a, b :| a != "" && b != "" && AllDigits(a) && AllDigits(b) && s == a + "." + b;
      assert s[0] == a[0] && s[|s| - 1] == b[|b| - 1];
    }
  }

  /** The suffix comes off again. */
  lemma SuffixComesOff(number: string, suffix: string)
    requires number != "" && IsDigit(number[|number| - 1]) && suffix in {"", "k", "m"}
    ensures var body := number + suffix;
            (if Multiplier(body) == 1 then body else body[..|body| - 1]) == number && body[0] == number[0]
  {
    var body := number + suffix;
    assert body[..|number|] == number;
    assert body[|body| - 1] == if suffix == "" then number[|number| - 1] else suffix[0];
  }

  lemma NumberParses(number: string, multiplier: nat)
    requires IsNumber(number)
    ensures ParseNumber(number, multiplier) != NotAnAmount
  {
    NumberEnds(number);
    NumberIsFraction(number);
  }

  lemma NumberAndSuffix(number: string, suffix: string)
    requires IsNumber(number) && suffix in {"", "k", "m"}
    ensures ParseBody(number + suffix) != NotAnAmount && IsDigit((number + suffix)[0])
  {
    NumberEnds(number);
    SuffixComesOff(number, suffix);
    NumberParses(number, Multiplier(number + suffix));
  }

  lemma SpeltIsAccepted(s: string, prefix: string, number: string, suffix: string)
    requires Spelt(s, prefix, number, suffix)
    ensures ParseCleaned(s) != NotAnAmount
  {
    NumberAndSuffix(number, suffix);
    ParsePrefix(prefix, number + suffix);
  }

  lemma PrefixIsKnown(s: string)
    ensures s[..PrefixLength(s)] in {"", "ugx", "usd", "sh", "shs", "$"}
  {
    if "ugx" <= s || "usd" <= s || "shs" <= s {
      assert s[..3] == "ugx" || s[..3] == "usd" || s[..3] == "shs";
    } else if "sh" <= s {
      assert s[..2] == "sh";
    } else if "$" <= s {
      assert s[..1] == "$";
    } else {
      assert s[..0] == "";
    }
  }

  lemma BodyIsSpelt(body: string) returns (number: string, suffix: string)
    requires ParseBody(body) != NotAnAmount
    ensures IsNumber(number) && suffix in {"", "k", "m"} && number + suffix == body
  {
    if Multiplier(body) == 1 {
      number, suffix := body, "";
    } else {
      number, suffix := body[..|body| - 1], if body[|body| - 1] == 'k' then "k" else "m";
    }
    if IsFraction(number) {
      FractionIsNumber(number);
    }
  }

  lemma AcceptedIsSpelt(s: string)
    requires ParseCleaned(s) != NotAnAmount
    ensures Readable(s)
  {
    var n := PrefixLength(s);
    var number, suffix := BodyIsSpelt(s[n..]);
    PrefixIsKnown(s);
    assert s == s[..n] + s[n..];
    assert Spelt(s, s[..n], number, suffix);
  }

  /** Exactly the texts that clean to a mark, a number and a suffix are amounts, the fractions among them and the
      numbers too big to be exact left open; everything else is none. */
  lemma AcceptedIff(input: string)
    ensures ParseAmount(input) != NotAnAmount <==> Readable(Clean(input))
  {
    var s := Clean(input);
    if ParseCleaned(s) != NotAnAmount {
      AcceptedIsSpelt(s);
    } else if Readable(s) {
      var prefix, number, suffix :| Spelt(s, prefix, number, suffix);
      SpeltIsAccepted(s, prefix, number, suffix);
    }
  }

  // ---- How it is spelt -------------------------------------------------------------------------

  predicate SameLetter(c: char, d: char) {
    c == d || ('A' <= c <= 'Z' && d as int == c as int + 32) || ('A' <= d <= 'Z' && c as int == d as int + 32)
  }

  lemma {:induction false} CleanLetters(a: string, b: string)
    requires |a| == |b| && forall i :: 0 <= i < |a| ==> SameLetter(a[i], b[i])
    ensures Clean(a) == Clean(b)
  {
    if a != "" {
      CleanLetters(a[1..], b[1..]);
      assert SameLetter(a[0], b[0]);
    }
  }

  lemma CleanWithout(a: string, c: char, b: string)
    requires c == ',' || IsSpace(c)
    ensures Clean(a + ([c] + b)) == Clean(a + b)
  {
    CleanConcat(a, [c] + b);
    CleanConcat([c], b);
    CleanConcat(a, b);
    assert Clean([c]) == Clean([c][1..]);
  }

  /** Letter case makes no difference. */
  lemma LetterCaseDoesNotMatter(a: string, b: string)
    requires |a| == |b| && forall i :: 0 <= i < |a| ==> SameLetter(a[i], b[i])
    ensures ParseAmount(a) == ParseAmount(b)
  {
    CleanLetters(a, b);
  }

  /** White space by code point: tab to carriage return, blank, no-break space, ogham mark, en quad to hair space, line
      and paragraph separator, narrow no-break, medium mathematical and ideographic space, byte order mark. */
  predicate WhiteSpace(code: int) {
    || 9 <= code <= 13 || code == 32 || code == 160 || code == 5760 || 8192 <= code <= 8202 || code == 8232
    || code == 8233 || code == 8239 || code == 8287 || code == 12288 || code == 65279
  }

  lemma SpaceIff(c: char)
    ensures IsSpace(c) <==> WhiteSpace(c as int)
  {
  }

  lemma CleanKeeps(a: string, c: char, b: string)
    requires c != ',' && !IsSpace(c)
    ensures Clean(a + ([c] + b)) == Clean(a) + ([Lower(c)] + Clean(b))
  {
    CleanConcat(a, [c] + b);
    CleanConcat([c], b);
    assert Clean([c]) == [Lower(c)] + Clean([c][1..]);
  }

  /** A comma or white space makes no difference anywhere, and every other character is kept where it is, in lower
      case. */
  lemma SpacingDoesNotMatter(a: string, c: char, b: string)
    ensures c == ',' || WhiteSpace(c as int) ==> ParseAmount(a + ([c] + b)) == ParseAmount(a + b)
    ensures c != ',' && !WhiteSpace(c as int) ==>
              exists d :: SameLetter(c, d) && Clean(a + ([c] + b)) == Clean(a) + ([d] + Clean(b))
  {
    SpaceIff(c);
    if c == ',' || IsSpace(c) {
      CleanWithout(a, c, b);
    } else {
      CleanKeeps(a, c, b);
      assert SameLetter(c, Lower(c));
    }
  }

  /** Cleaning leaves lower-case text without commas and spaces alone. */
  lemma {:induction false} CleanPlain(s: string)
    requires forall i :: 0 <= i < |s| ==> s[i] != ',' && !IsSpace(s[i]) && Lower(s[i]) == s[i]
    ensures Clean(s) == s
  {
    if s != "" {
      CleanPlain(s[1..]);
    }
  }

  /** Reading back what was printed, with any currency mark in front and k, m or nothing behind: the amount
      times the suffix's factor. With no mark and no suffix this is the plain round trip. */
  lemma PrintThenParse(prefix: string, v: nat, multiplier: nat)
    requires prefix in PREFIXES && multiplier in {1, 1000, 1_000_000}
    ensures ParseAmount(prefix + (FormatAmount(Decimal(v)) + Suffix(multiplier)))
            == if v * multiplier <= EXACT then Amount(v * multiplier) else Inexact
  {
    var printed := FormatAmount(Decimal(v));
    assert Numeral(v)[0] != '-' && printed == Grouped(Numeral(v), 0);
    CleanGrouped(Numeral(v), 0);
    assert Numeral(v)[0..] == Numeral(v);
    CleanPlain(prefix);
    CleanPlain(Suffix(multiplier));
    CleanConcat(printed, Suffix(multiplier));
    CleanConcat(prefix, printed + Suffix(multiplier));
    assert Zeros(0) + Numeral(v) == Numeral(v);
    ParseNumeral(prefix + (printed + Suffix(multiplier)), prefix, 0, v, multiplier);
  }

  lemma NegativePrint(n: nat)
    requires n > 0
    ensures ParseAmount(FormatAmount(Decimal(0 - n))) == NotAnAmount
  {
    var digits := Numeral(n);
    assert Decimal(0 - n) == "-" + digits && ("-" + digits)[1..] == digits;
    CleanGrouped(digits, 0);
    assert digits[0..] == digits;
    CleanPlain("-");
    CleanConcat("-", Grouped(digits, 0));
    MinusIsNoAmount("-" + digits, digits);
  }

  lemma MinusIsNoAmount(cleaned: string, digits: string)
    requires cleaned == "-" + digits && digits != "" && AllDigits(digits)
    ensures ParseCleaned(cleaned) == NotAnAmount
  {
    assert cleaned[0..] == cleaned && cleaned[0] == '-' && IsDigit(cleaned[|cleaned| - 1]);
    forall i | 0 < i < |cleaned| - 1
      ensures !AllDigits(cleaned[..i])
    {
      assert cleaned[..i][0] == '-';
    }
  }

  /** For integers of at most EXACT in size, parsing the print gives the integer back if and only if it is not
      negative; a negative print is never an amount. */
  lemma RoundTripIff(v: int)
    requires -EXACT <= v <= EXACT
    ensures ParseAmount(FormatAmount(Decimal(v))) == if v >= 0 then Amount(v) else NotAnAmount
  {
    if v >= 0 {
      PrintThenParse("", v, 1);
      assert "" + (FormatAmount(Decimal(v)) + Suffix(1)) == FormatAmount(Decimal(v));
    } else {
      NegativePrint(-v);
    }
  }

  /** Two amounts print alike only if they are the same. */
  lemma PrintIsInjective(v: nat, w: nat)
    requires v <= EXACT && w <= EXACT && FormatAmount(Decimal(v)) == FormatAmount(Decimal(w))
    ensures v == w
  {
    RoundTripIff(v);
    RoundTripIff(w);
  }
}
