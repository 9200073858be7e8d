/** The string helpers of the patch reader: trimming, tokens and decimal numbers. */
module Text {
  import opened Wrappers

  /** Unicode white space. */
  predicate IsSpace(c: char) {
    || c in "\t\n\r \U{000B}\U{000C}\U{0085}\U{00A0}\U{1680}\U{2028}\U{2029}\U{202F}\U{205F}\U{3000}"
    || '\U{2000}' <= c <= '\U{200A}'
  }

  function TrimLeft(s: string): string {
    if s != "" && IsSpace(s[0]) then TrimLeft(s[1..]) else s
  }

  function TrimRight(s: string): string {
    if s != "" && IsSpace(s[|s| - 1]) then TrimRight(s[..|s| - 1]) else s
  }

  function TrimSpace(s: string): string {
    TrimRight(TrimLeft(s))
  }

  function TrimSuffix(s: string, suffix: char): string {
    if s != "" && s[|s| - 1] == suffix then s[..|s| - 1] else s
  }

  function TrimLineEnding(line: string): string {
    TrimSuffix(TrimSuffix(line, '\n'), '\r')
  }

  /** The position of the first tab or space, or the length. */
  function BlankIndex(s: string): (n: nat)
    ensures n <= |s|
  {
    if s == "" || s[0] == '\t' || s[0] == ' ' then 0 else 1 + BlankIndex(s[1..])
  }

  predicate NoSpaces(s: string) {
    forall i :: 0 <= i < |s| ==> !IsSpace(s[i])
  }

  predicate NonBlankEnds(s: string) {
    s != "" && !IsSpace(s[0]) && !IsSpace(s[|s| - 1])
  }

  lemma {:induction false} TrimSpaceOfLine(s: string)
    requires NonBlankEnds(s)
    ensures TrimSpace(s) == s
    ensures TrimSpace(s + "\n") == s
    ensures TrimLineEnding(s + "\n") == s
    ensures TrimLineEnding(s) == s
  {
    assert IsSpace('\n') && IsSpace('\r');
    assert (s + "\n")[..|s|] == s;
    assert TrimRight(s + "\n") == TrimRight(s);
  }

  lemma {:induction false} TrimRightKeepsHead(s: string)
    requires s != "" && !IsSpace(s[0])
    ensures TrimRight(s) != "" && TrimRight(s)[0] == s[0]
  {
    if IsSpace(s[|s| - 1]) {
      TrimRightKeepsHead(s[..|s| - 1]);
    }
  }

  lemma {:induction false} BlankIndexOf(s: string, rest: string)
    requires NoSpaces(s)
    requires rest == "" || rest[0] == ' '
    ensures BlankIndex(s + rest) == |s|
  {
    if s == "" {
      assert s + rest == rest;
    } else {
      assert IsSpace('\t') && IsSpace(' ');
      assert (s + rest)[1..] == s[1..] + rest;
      BlankIndexOf(s[1..], rest);
    }
  }

  // ----- Decimal numbers -----

  const MAX_INT: nat := 0x7FFF_FFFF_FFFF_FFFF

  predicate IsDigit(c: char) {
    '0' <= c <= '9'
  }

  /** How many digits `s` starts with. */
  function DigitSpan(s: string): (n: nat)
    ensures n <= |s|
    ensures forall i :: 0 <= i < n ==> IsDigit(s[i])
  {
    if s == "" || !IsDigit(s[0]) then 0 else 1 + DigitSpan(s[1..])
  }

  function DecimalValue(s: string): nat
    requires forall i :: 0 <= i < |s| ==> IsDigit(s[i])
  {
    if s == "" then 0
    else
      var last := s[|s| - 1];
      assert IsDigit(last);
      10 * DecimalValue(s[..|s| - 1]) + (last as int - '0' as int)
  }

  /** A 64-bit decimal number; larger ones are refused. */
  function ParseInt(s: string): Option<nat>
    requires forall i :: 0 <= i < |s| ==> IsDigit(s[i])
  {
    if DecimalValue(s) <= MAX_INT then Some(DecimalValue(s)) else None
  }

  function PrintInt(n: nat): (s: string)
    ensures s != ""
    ensures forall i :: 0 <= i < |s| ==> IsDigit(s[i])
  {
    var digit := ('0' as int + n % 10) as char;
    if n < 10 then [digit] else PrintInt(n / 10) + [digit]
  }

  lemma {:induction false} ParsePrintInt(n: nat)
    ensures DecimalValue(PrintInt(n)) == n
  {
    var s := PrintInt(n);
    if n < 10 {
      assert s[..|s| - 1] == "";
    } else {
      ParsePrintInt(n / 10);
      assert s[..|s| - 1] == PrintInt(n / 10);
    }
  }

  lemma {:induction false} DigitSpanOf(digits: string, rest: string)
    requires forall i :: 0 <= i < |digits| ==> IsDigit(digits[i])
    requires rest != "" && !IsDigit(rest[0])
    ensures DigitSpan(digits + rest) == |digits|
  {
    if digits == "" {
      assert digits + rest == rest;
    } else {
      assert (digits + rest)[1..] == digits[1..] + rest;
      DigitSpanOf(digits[1..], rest);
    }
  }
}
