/** Decimal text of unsigned and signed 128-bit integers, as gates and
    substitutions read and write them. */
module Decimal {
  import opened Prelude

  predicate IsDigit(c: char) {
    '0' <= c <= '9'
  }

  predicate AllDigits(s: string) {
    forall i | 0 <= i < |s| :: IsDigit(s[i])
  }

  function DigitChar(d: nat): (c: char)
    requires d < 10
    ensures IsDigit(c) && DigitValue(c) == d
  {
    '0' + d as char
  }

  function DigitValue(c: char): (d: nat)
    requires IsDigit(c)
    ensures d < 10
  {
    c as int - '0' as int
  }

  /** Decimal text without leading zeros, as integers are displayed. */
  function Print(n: nat): (s: string)
    ensures |s| > 0 && AllDigits(s)
    ensures n > 0 ==> s[0] != '0'
  {
    if n < 10 then [DigitChar(n)] else Print(n / 10) + [DigitChar(n % 10)]
  }

  /** Positional value of a digit string. */
  function Value(s: string): nat
    requires AllDigits(s)
  {
    if s == "" then 0 else 10 * Value(s[..|s| - 1]) + DigitValue(s[|s| - 1])
  }

  lemma {:induction false} ValueOfPrint(n: nat)
    ensures Value(Print(n)) == n
  {
    if n >= 10 {
      ValueOfPrint(n / 10);
      assert Print(n)[..|Print(n)| - 1] == Print(n / 10);
    } else {
      assert Print(n)[..0] == "";
    }
  }

  lemma PrintInjective(m: nat, n: nat)
    requires Print(m) == Print(n)
    ensures m == n
  {
    ValueOfPrint(m);
    ValueOfPrint(n);
  }

  function DropZeros(s: string): string {
    if |s| > 1 && s[0] == '0' then DropZeros(s[1..]) else s
  }

  lemma {:induction false} DropZerosKeepsValue(s: string)
    requires AllDigits(s) && s != ""
    ensures AllDigits(DropZeros(s)) && DropZeros(s) != ""
    ensures Value(DropZeros(s)) == Value(s)
    ensures |DropZeros(s)| > 1 ==> DropZeros(s)[0] != '0'
  {
    if |s| > 1 && s[0] == '0' {
      LeadingZero(s);
      DropZerosKeepsValue(s[1..]);
    }
  }

  lemma {:induction false} LeadingZero(s: string)
    requires AllDigits(s) && s != "" && s[0] == '0'
    ensures Value(s) == Value(s[1..])
  {
    if |s| == 1 {
      assert s[..0] == "";
    } else {
      LeadingZero(s[..|s| - 1]);
      assert s[1..][..|s| - 2] == s[..|s| - 1][1..];
    }
  }

  /** Without leading zeros the text is the display form of its value. */
  lemma {:induction false} CanonicalText(s: string)
    requires AllDigits(s) && s != "" && (|s| > 1 ==> s[0] != '0')
    ensures s == Print(Value(s))
  {
    var front := s[..|s| - 1];
    if |s| == 1 {
      assert front == "";
      assert s == [s[0]];
    } else {
      CanonicalText(front);
      PositiveValue(front);
      assert s == front + [s[|s| - 1]];
    }
  }

  lemma {:induction false} PositiveValue(s: string)
    requires AllDigits(s) && s != "" && s[0] != '0'
    ensures Value(s) > 0
  {
    if |s| > 1 {
      PositiveValue(s[..|s| - 1]);
    }
  }

  // --- Parsing ---

  function ParseDigits(s: string, bound: nat): (r: Option<nat>)
    ensures r.Some? ==> r.value < bound
  {
    if s != "" && AllDigits(s) && Value(s) < bound then Some(Value(s)) else None
  }

  /** An optional plus sign followed by at least one digit. */
  function ParseU128(s: string): (r: Option<u128>)
  {
    ParseDigits(if s != "" && s[0] == '+' then s[1..] else s, TWO_128)
  }

  /** An optional sign followed by at least one digit; the negative side reaches one further. */
  function ParseI128(s: string): (r: Option<int>)
    ensures r.Some? ==> 0 - TWO_127 <= r.value < TWO_127
  {
    if s != "" && s[0] == '-' then
      var magnitude := ParseDigits(s[1..], TWO_127 + 1);
      if magnitude.Some? then Some(0 - magnitude.value) else None
    else
      ParseDigits(if s != "" && s[0] == '+' then s[1..] else s, TWO_127)
  }

  predicate IsWhitespace(c: char) {
    || '\U{9}' <= c <= '\U{D}' || c == ' ' || c == '\U{85}' || c == '\U{A0}' || c == '\U{1680}'
    || '\U{2000}' <= c <= '\U{200A}' || c == '\U{2028}' || c == '\U{2029}' || c == '\U{202F}'
    || c == '\U{205F}' || c == '\U{3000}'
  }

  function Trim(s: string): string {
    if s == "" then s
    else if IsWhitespace(s[0]) then Trim(s[1..])
    else if IsWhitespace(s[|s| - 1]) then Trim(s[..|s| - 1])
    else s
  }

  function Quote(s: string): string {
    "\"" + s + "\""
  }

  function TrimJsonQuotes(bytes: Bytes): Bytes {
    if |bytes| >= 2 && bytes[0] == '"' && bytes[|bytes| - 1] == '"' then bytes[1..|bytes| - 1] else bytes
  }

  function ParseU128Json(bytes: Bytes): Option<u128> {
    ParseU128(Trim(TrimJsonQuotes(bytes)))
  }

  function ParseI128Json(bytes: Bytes): Option<int> {
    ParseI128(Trim(TrimJsonQuotes(bytes)))
  }

  lemma TrimKeeps(s: string)
    requires s != "" && !IsWhitespace(s[0]) && !IsWhitespace(s[|s| - 1])
    ensures Trim(s) == s
  {
  }

  lemma QuotesCome(s: string)
    ensures TrimJsonQuotes(Quote(s)) == s
  {
    assert Quote(s)[1..|Quote(s)| - 1] == s;
  }

  /** Printed numbers read back, quoted or bare; out-of-range ones are refused. */
  lemma PrintReadsBack(n: nat)
    ensures ParseU128Json(Print(n)) == ParseU128Json(Quote(Print(n))) == if n < TWO_128 then Some(n) else None
  {
    ValueOfPrint(n);
    var s := Print(n);
    assert IsDigit(s[0]) && IsDigit(s[|s| - 1]);
    TrimKeeps(s);
    QuotesCome(s);
  }

  lemma PrintReadsBackSigned(n: nat)
    ensures ParseI128Json(Quote(Print(n))) == if n < TWO_127 then Some(n) else None
    ensures ParseI128Json(Quote("-" + Print(n))) == if n <= TWO_127 then Some(0 - n) else None
  {
    ValueOfPrint(n);
    var s := Print(n);
    assert IsDigit(s[0]) && IsDigit(s[|s| - 1]);
    TrimKeeps(s);
    QuotesCome(s);
    var t := "-" + s;
    assert t[|t| - 1] == s[|s| - 1];
    TrimKeeps(t);
    QuotesCome(t);
    assert t[1..] == s;
  }

  /** Whatever parses is the display form of its value, up to an explicit plus
      sign, leading zeros, surrounding blanks and one pair of quotes. */
  lemma ParsedTextIsCanonical(bytes: Bytes)
    requires ParseU128Json(bytes).Some?
    ensures
      var text := Trim(TrimJsonQuotes(bytes));
      var digits := if text != "" && text[0] == '+' then text[1..] else text;
      DropZeros(digits) == Print(ParseU128Json(bytes).value)
  {
    var text := Trim(TrimJsonQuotes(bytes));
    var digits := if text != "" && text[0] == '+' then text[1..] else text;
    DropZerosKeepsValue(digits);
    CanonicalText(DropZeros(digits));
  }

  /** The digits are the usual ones, most significant first. */
  lemma DigitsAreDecimal(n: nat, d: nat)
    requires d < 10
    ensures Print(d) == ["0123456789"[d]]
    ensures n > 0 ==> Print(10 * n + d) == Print(n) + ["0123456789"[d]]
  {
    assert "0123456789"[d] as int == '0' as int + d;
  }

  /** The code points that Unicode calls white space. */
  predicate BlankCode(n: int) {
    || 9 <= n <= 13 || n == 32 || n == 133 || n == 160 || n == 5760 || 8192 <= n <= 8202
    || n == 8232 || n == 8233 || n == 8239 || n == 8287 || n == 12288
  }

  predicate Blank(s: string) {
    forall i | 0 <= i < |s| :: BlankCode(s[i] as int)
  }

  lemma BlankIsWhitespace(c: char)
    ensures IsWhitespace(c) <==> BlankCode(c as int)
  {
  }

  lemma {:induction false} TrimPads(front: string, s: string, back: string)
    requires Blank(front) && Blank(back)
    requires s != "" && !IsWhitespace(s[0]) && !IsWhitespace(s[|s| - 1])
    ensures Trim(front + s + back) == s
    decreases |front| + |back|
  {
    hide IsWhitespace, BlankCode;
    var text := front + s + back;
    if front != "" {
      BlankIsWhitespace(front[0]);
      assert text[0] == front[0];
      assert text[1..] == front[1..] + s + back;
      TrimPads(front[1..], s, back);
    } else if back != "" {
      BlankIsWhitespace(back[|back| - 1]);
      assert text[|text| - 1] == back[|back| - 1] && text[0] == s[0];
      assert text[..|text| - 1] == front + s + back[..|back| - 1];
      TrimPads(front, s, back[..|back| - 1]);
    } else {
      assert text == s;
      TrimKeeps(s);
    }
  }

  lemma SignedText(n: u128)
    ensures ParseU128(Print(n)) == Some(n) && ParseU128("+" + Print(n)) == Some(n)
  {
    ValueOfPrint(n);
    assert IsDigit(Print(n)[0]);
    assert ("+" + Print(n))[1..] == Print(n);
  }

  lemma PaddedText(front: string, s: string, back: string)
    requires Blank(front) && Blank(back) && s != "" && s[0] != '"'
    requires !IsWhitespace(s[0]) && !IsWhitespace(s[|s| - 1])
    ensures ParseU128Json(front + s + back) == ParseU128(s)
    ensures ParseU128Json("\"" + front + s + back + "\"") == ParseU128(s)
  {
    hide ParseU128, Trim, TrimJsonQuotes, IsWhitespace;
    TrimPads(front, s, back);
    Unquoted(front, s, back);
    assert "\"" + front + s + back + "\"" == Quote(front + s + back);
    QuotesCome(front + s + back);
  }

  /** A number is read through one pair of quotes or none, blanks around it and an
      explicit plus sign. */
  lemma PaddedReadsBack(n: u128, front: string, back: string)
    requires Blank(front) && Blank(back)
    ensures ParseU128Json("\"" + front + Print(n) + back + "\"") == Some(n)
    ensures ParseU128Json("\"" + front + "+" + Print(n) + back + "\"") == Some(n)
    ensures ParseU128Json(front + Print(n) + back) == Some(n)
  {
    hide ParseU128Json, ParseU128, Print;
    var s := Print(n);
    var t := "+" + s;
    assert IsDigit(s[0]) && IsDigit(s[|s| - 1]) && t[|t| - 1] == s[|s| - 1];
    SignedText(n);
    PaddedText(front, s, back);
    PaddedText(front, t, back);
    assert "\"" + front + t + back + "\"" == "\"" + front + "+" + s + back + "\"";
  }

  lemma Unquoted(front: string, s: string, back: string)
    requires Blank(front) && Blank(back) && s != "" && s[0] != '"'
    ensures TrimJsonQuotes(front + s + back) == front + s + back
  {
    var text := front + s + back;
    assert text[0] == if front != "" then front[0] else s[0];
  }
}
