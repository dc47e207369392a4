/** Strings as the configuration has them. */
module Text {
  /** White space as Unicode defines it. */
  predicate IsSpace(c: char) {
    || '\t' <= c <= '\r'
    || c in " \U{85}\U{A0}\U{1680}\U{2028}\U{2029}\U{202F}\U{205F}\U{3000}"
    || '\U{2000}' <= c <= '\U{200A}'
  }

  predicate Blank(s: string) {
    forall c | c in s :: IsSpace(c)
  }

  /** Without the white space at either end. */
  function Trim(s: string): (r: string)
    ensures |r| <= |s|
    ensures r == "" <==> Blank(s)
    ensures r != "" ==> !IsSpace(r[0]) && !IsSpace(r[|r| - 1])
  {
    if s == "" then ""
    else if IsSpace(s[0]) then
      assert s == [s[0]] + s[1..];
      Trim(s[1..])
    else if IsSpace(s[|s| - 1]) then
      assert s == s[..|s| - 1] + [s[|s| - 1]];
      Trim(s[..|s| - 1])
    else s
  }

  /** The upper-case letter, where that is an ASCII letter. */
  function Upper(c: char): char {
    if 'a' <= c <= 'z' then (c as int - 32) as char
    else if c == '\U{131}' then 'I'
    else if c == '\U{17F}' then 'S'
    else c
  }

  function Uppercase(s: string): string {
    seq(|s|, i requires 0 <= i < |s| => Upper(s[i]))
  }

  /** The lower-case letter, where that is an ASCII letter. */
  function Lower(c: char): char {
    if 'A' <= c <= 'Z' then (c as int + 32) as char
    else if c == '\U{130}' then 'i'
    else if c == '\U{212A}' then 'k'
    else c
  }

  function Lowercase(s: string): string {
    seq(|s|, i requires 0 <= i < |s| => Lower(s[i]))
  }

  /** A name of small letters and digits is its own trimmed lower-case form. */
  lemma PlainName(s: string)
    requires forall c | c in s :: 'a' <= c <= 'z' || '0' <= c <= '9'
    ensures Lowercase(s) == s && Trim(s) == s
  {
    forall i | 0 <= i < |s|
      ensures Lower(s[i]) == s[i] && !IsSpace(s[i])
    {
      assert s[i] in s;
      PlainLetter(s[i]);
    }
    hide Lower, IsSpace;
    assert Lowercase(s) == s;
  }

  lemma PlainLetter(c: char)
    requires 'a' <= c <= 'z' || '0' <= c <= '9'
    ensures Lower(c) == c && !IsSpace(c)
  {
  }

  function Without(s: string, c: char): (r: string)
    ensures c !in r
  {
    if s == "" then "" else (if s[0] == c then "" else [s[0]]) + Without(s[1..], c)
  }

  predicate IsDigit(c: char) {
    '0' <= c <= '9'
  }

  function Digit(n: nat): (c: char)
    requires n < 10
    ensures IsDigit(c)
  {
    "0123456789"[n]
  }

  function Decimal(n: nat): (s: string)
    ensures s != "" && forall c | c in s :: IsDigit(c)
    ensures |s| == 1 <==> n < 10
  {
    if n < 10 then [Digit(n)] else Decimal(n / 10) + [Digit(n % 10)]
  }

  lemma DigitIdentifies(i: nat, j: nat)
    requires i < 10 && j < 10 && Digit(i) == Digit(j)
    ensures i == j
  {
  }

  lemma DecimalParts(n: nat)
    ensures Decimal(n)[|Decimal(n)| - 1] == Digit(n % 10)
    ensures n >= 10 ==> Decimal(n)[..|Decimal(n)| - 1] == Decimal(n / 10)
  {
    hide Digit;
  }

  lemma {:induction false} DecimalIdentifies(m: nat, n: nat)
    requires Decimal(m) == Decimal(n)
    ensures m == n
  {
    hide Digit;
    DecimalParts(m);
    DecimalParts(n);
    DigitIdentifies(m % 10, n % 10);
    if m >= 10 && n >= 10 {
      DecimalIdentifies(m / 10, n / 10);
    }
  }
}
