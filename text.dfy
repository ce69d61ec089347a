/**
 * Text handling used by the widget: Python's str.strip() and str.upper(),
 * the normalisation of the input field, the zipcode pattern `^\d{5}$`, and
 * the decimal rendering of integers that f-strings perform.
 */
module Text {
  import opened Common

  /** The characters for which Python's str.isspace() holds: what str.strip() removes. */
  predicate IsSpace(c: char) {
    ('\t' <= c <= '\r') || ('\U{1C}' <= c <= '\U{1F}') || c == ' ' || c == '\U{85}' || c == '\U{A0}'
    || c == '\U{1680}' || ('\U{2000}' <= c <= '\U{200A}') || c == '\U{2028}' || c == '\U{2029}'
    || c == '\U{202F}' || c == '\U{205F}' || c == '\U{3000}'
  }

  predicate AllSpace(s: string) {
    forall i :: 0 <= i < |s| ==> IsSpace(s[i])
  }

  /** Neither the first nor the last character is whitespace. */
  predicate Trimmed(s: string) {
    s == [] || (!IsSpace(s[0]) && !IsSpace(s[|s| - 1]))
  }

  /** Removes leading whitespace: what is left is a suffix of `s`, and only whitespace went. */
  function TrimStart(s: string): (r: string)
    ensures |r| <= |s| && r == s[|s| - |r|..]
    ensures AllSpace(s[..|s| - |r|])
    ensures r == [] || !IsSpace(r[0])
  {
    if s != [] && IsSpace(s[0]) then
      var r := TrimStart(s[1..]);
      assert s[..|s| - |r|] == [s[0]] + s[1..][..|s| - 1 - |r|];
      r
    else s
  }

  /** Removes trailing whitespace: what is left is a prefix of `s`, and only whitespace went. */
  function TrimEnd(s: string): (r: string)
    ensures |r| <= |s| && r == s[..|r|]
    ensures AllSpace(s[|r|..])
    ensures r == [] || !IsSpace(r[|r| - 1])
  {
    if s != [] && IsSpace(s[|s| - 1]) then
      var r := TrimEnd(s[..|s| - 1]);
      assert s[|r|..] == s[..|s| - 1][|r|..] + [s[|s| - 1]];
      r
    else s
  }

  /** Python's s.strip(). */
  function Strip(s: string): (r: string)
    ensures |r| <= |s| && Trimmed(r)
  {
    var t := TrimStart(s);
    var r := TrimEnd(t);
    assert r != [] ==> r[0] == t[0];
    r
  }

  /** Leading whitespace in front of a string that does not start with whitespace is exactly what TrimStart removes. */
  lemma TrimStartSkips(p: string, t: string)
    requires AllSpace(p) && (t == [] || !IsSpace(t[0]))
    ensures TrimStart(p + t) == t
  {
    var s := p + t;
    assert forall i :: 0 <= i < |p| ==> IsSpace(s[i]);
    assert t != [] ==> s[|p|] == t[0];
  }

  /** Trailing whitespace after a string that does not end with whitespace is exactly what TrimEnd removes. */
  lemma TrimEndSkips(t: string, q: string)
    requires AllSpace(q) && (t == [] || !IsSpace(t[|t| - 1]))
    ensures TrimEnd(t + q) == t
  {
    var s := t + q;
    assert forall i :: |t| <= i < |s| ==> IsSpace(s[i]);
    assert t != [] ==> s[|t| - 1] == t[|t| - 1];
  }

  /** Strip is characterised by the unique split of its input into whitespace, a trimmed core and whitespace. */
  lemma StripCore(p: string, core: string, q: string)
    requires AllSpace(p) && AllSpace(q) && Trimmed(core)
    ensures Strip(p + core + q) == core
  {
    if core == [] {
      assert p + core + q == p + q;
      TrimStartSkips(p + q, []);
      assert p + q + [] == p + q;
    } else {
      assert p + core + q == p + (core + q);
      TrimStartSkips(p, core + q);
      TrimEndSkips(core, q);
    }
  }

  /** Python's c.upper() on ASCII letters; every other character is left as it is. */
  function UpperChar(c: char): char {
    if 'a' <= c <= 'z' then (c as int - 32) as char else c
  }

  /** Python's s.upper(), character by character. */
  function Upper(s: string): (r: string)
    ensures |r| == |s|
    ensures forall i :: 0 <= i < |s| ==> r[i] == UpperChar(s[i])
  {
    if s == [] then [] else [UpperChar(s[0])] + Upper(s[1..])
  }

  /** Uppercasing twice is uppercasing once. */
  lemma UpperIdempotent(s: string)
    ensures Upper(Upper(s)) == Upper(s)
  {
  }

  /** Uppercasing neither creates nor removes whitespace, so a trimmed string stays trimmed. */
  lemma UpperKeepsTrimmed(s: string)
    requires Trimmed(s)
    ensures Trimmed(Upper(s))
  {
  }

  /** The input field's text as `update_temp` reads it: `.strip().upper()`. */
  function Normalize(s: string): string {
    Upper(Strip(s))
  }

  /** Normalisation yields the empty string exactly when the input is all whitespace. */
  lemma NormalizeBlank(s: string)
    ensures Normalize(s) == [] <==> AllSpace(s)
  {
  }

  /** A normalised input has no whitespace at either end, and normalising it again changes nothing. */
  lemma NormalizeIdempotent(s: string)
    ensures Trimmed(Normalize(s))
    ensures Normalize(Normalize(s)) == Normalize(s)
  {
    var n := Normalize(s);
    UpperKeepsTrimmed(Strip(s));
    StripCore([], n, []);
    assert [] + n + [] == n;
    UpperIdempotent(Strip(s));
  }

  /** Python's `\d`, restricted to ASCII. */
  predicate IsDigit(c: char) {
    '0' <= c <= '9'
  }

  predicate AllDigits(s: string) {
    forall i :: 0 <= i < |s| ==> IsDigit(s[i])
  }

  /** The regular expression `\d{n}` matched at the start of `s`: what follows the n digits, if they are there. */
  function MatchDigits(s: string, n: nat): (r: Option<string>)
    ensures r.Some? <==> n <= |s| && AllDigits(s[..n])
    ensures r.Some? ==> r.value == s[n..]
  {
    if n == 0 then Some(s)
    else if s != [] && IsDigit(s[0]) then
      var r := MatchDigits(s[1..], n - 1);
      assert n <= |s| ==> s[..n] == [s[0]] + s[1..][..n - 1];
      r
    else None
  }

  /** The anchor `$` of Python's re module: the end of the string, or just before a final newline. */
  predicate AtEnd(rest: string) {
    rest == [] || rest == "\n"
  }

  /** `re.match(r'^\d{5}$', s)` succeeds. */
  predicate IsZipcode(s: string)
    ensures IsZipcode(s) <==> 5 <= |s| && AllDigits(s[..5]) && AtEnd(s[5..])
  {
    match MatchDigits(s, 5)
    case Some(rest) => AtEnd(rest)
    case None => false
  }

  /** On a string without trailing whitespace the pattern accepts exactly the five-digit strings. */
  lemma ZipcodeShape(s: string)
    requires Trimmed(s)
    ensures IsZipcode(s) <==> |s| == 5 && AllDigits(s)
  {
  }

  /** The pattern as written also accepts a trailing newline, and rejects other lengths. */
  lemma ZipcodePatternExamples()
    ensures IsZipcode("83013") && IsZipcode("83013\n")
    ensures !IsZipcode("8301") && !IsZipcode("830131") && !IsZipcode("KJAC") && !IsZipcode("D0414")
  {
  }

  function DigitChar(d: nat): char
    requires d < 10
  {
    ('0' as int + d) as char
  }

  /** The value of a string of decimal digits (empty string: 0). */
  function DecimalValue(s: string): nat
    requires AllDigits(s)
  {
    if s == [] then 0 else DecimalValue(s[..|s| - 1]) * 10 + (s[|s| - 1] as int - '0' as int)
  }

  /** `str(n)` for a natural number: decimal digits without leading zeros. */
  function NatToDecimal(n: nat): (r: string)
    ensures r != [] && AllDigits(r)
    ensures |r| > 1 ==> r[0] != '0'
    ensures DecimalValue(r) == n
  {
    if n < 10 then [DigitChar(n)]
    else
      var r := NatToDecimal(n / 10) + [DigitChar(n % 10)];
      assert r[..|r| - 1] == NatToDecimal(n / 10);
      r
  }

  /** `str(i)` for an integer, as an f-string renders it: a minus sign in front of negatives. */
  function IntToDecimal(i: int): string {
    if i < 0 then "-" + NatToDecimal(-i) else NatToDecimal(i)
  }

  /** Python's int(s) on an optional minus sign followed by decimal digits. */
  function ParseInt(s: string): Option<int> {
    if s != [] && s[0] == '-' && |s| > 1 && AllDigits(s[1..]) then Some(0 - DecimalValue(s[1..]))
    else if s != [] && AllDigits(s) then Some(DecimalValue(s))
    else None
  }

  /** Rendering an integer and reading it back gives the integer. */
  lemma IntToDecimalRoundTrip(i: int)
    ensures ParseInt(IntToDecimal(i)) == Some(i)
  {
  }
}
