/** The string operations of Go's strings and strconv packages the daemon uses. */
module Text {
  import opened Metadata

  predicate HasPrefix(s: string, prefix: string) { prefix <= s }

  predicate EndsWith(s: string, suffix: string) {
    |suffix| <= |s| && s[|s| - |suffix|..] == suffix
  }

  lemma EndsWithIff(s: string, suffix: string)
    ensures EndsWith(s, suffix) <==> |suffix| <= |s| && s == s[..|s| - |suffix|] + suffix
  {
  }

  function TrimPrefix(s: string, prefix: string): string {
    if HasPrefix(s, prefix) then s[|prefix|..] else s
  }

  /** unicode.IsSpace */
  predicate IsSpace(c: char) {
    var n := c as int;
    || 0x9 <= n <= 0xD || n == 0x20 || n == 0x85 || n == 0xA0 || n == 0x1680
    || 0x2000 <= n <= 0x200A || n == 0x2028 || n == 0x2029 || n == 0x202F || n == 0x205F || n == 0x3000
  }

  function TrimLeft(s: string): string {
    if s != "" && IsSpace(s[0]) then TrimLeft(s[1..]) else s
  }

  function TrimRight(s: string): string {
    if s != "" && IsSpace(s[|s| - 1]) then TrimRight(s[..|s| - 1]) else s
  }

  function TrimSpace(s: string): string { TrimRight(TrimLeft(s)) }

  function TrimSlashes(s: string): string {
    if s != "" && s[|s| - 1] == '/' then TrimSlashes(s[..|s| - 1]) else s
  }

  /** SplitN(s, sep, 2): what comes before and after the first separator, if there is one. */
  function Cut(s: string, sep: char): (r: Option<(string, string)>)
    ensures r.None? <==> sep !in s
    ensures r.Some? ==> s == r.value.0 + [sep] + r.value.1 && sep !in r.value.0
  {
    if s == "" then None
    else if s[0] == sep then Some(("", s[1..]))
    else
      var rest := Cut(s[1..], sep);
      if rest.None? then None else Some(([s[0]] + rest.value.0, rest.value.1))
  }

  lemma {:induction false} CutFirst(a: string, sep: char, b: string)
    requires sep !in a
    ensures Cut(a + [sep] + b, sep) == Some((a, b))
  {
    var s := a + [sep] + b;
    if a == "" {
      assert s[1..] == b;
    } else {
      assert s[0] == a[0] && s[1..] == a[1..] + [sep] + b;
      CutFirst(a[1..], sep, b);
      assert [a[0]] + a[1..] == a;
    }
  }

  /** Nothing to trim. */
  predicate Trimmed(s: string) { s != "" && !IsSpace(s[0]) && !IsSpace(s[|s| - 1]) }

  predicate AllSpace(s: string) { forall i :: 0 <= i < |s| ==> IsSpace(s[i]) }

  lemma {:induction false} TrimLeftStrips(a: string, s: string)
    requires AllSpace(a) && (s == "" || !IsSpace(s[0]))
    ensures TrimLeft(a + s) == s
  {
    if a == "" {
      assert a + s == s;
    } else {
      assert (a + s)[0] == a[0] && (a + s)[1..] == a[1..] + s;
      TrimLeftStrips(a[1..], s);
    }
  }

  lemma {:induction false} TrimRightStrips(s: string, b: string)
    requires AllSpace(b) && (s == "" || !IsSpace(s[|s| - 1]))
    ensures TrimRight(s + b) == s
    decreases |b|
  {
    if b == "" {
      assert s + b == s;
    } else {
      var n := |b| - 1;
      assert (s + b)[|s + b| - 1] == b[n] && (s + b)[..|s + b| - 1] == s + b[..n];
      TrimRightStrips(s, b[..n]);
    }
  }

  /** Trimming takes off exactly the surrounding white space. */
  lemma TrimSpaceStrips(a: string, s: string, b: string)
    requires AllSpace(a) && AllSpace(b) && Trimmed(s)
    ensures TrimSpace(a + s + b) == s
  {
    assert a + s + b == a + (s + b);
    assert (s + b)[0] == s[0];
    TrimLeftStrips(a, s + b);
    TrimRightStrips(s, b);
  }

  lemma TrimmedStays(s: string)
    requires Trimmed(s)
    ensures TrimSpace(s) == s
  {
    assert "" + s + "" == s;
    TrimSpaceStrips("", s, "");
  }

  predicate IsDigit(c: char) { '0' <= c <= '9' }

  predicate AllDigits(s: string) { forall i :: 0 <= i < |s| ==> IsDigit(s[i]) }

  function Natural(s: string): nat
    requires AllDigits(s)
  {
    if s == "" then 0 else 10 * Natural(s[..|s| - 1]) + (s[|s| - 1] as int - '0' as int)
  }

  /** A number in decimal. */
  function Decimal(n: nat): string {
    if n < 10 then [('0' as int + n) as char] else Decimal(n / 10) + [('0' as int + n % 10) as char]
  }

  lemma {:induction false} DecimalIsNatural(n: nat)
    ensures Decimal(n) != "" && AllDigits(Decimal(n)) && Natural(Decimal(n)) == n
  {
    if n >= 10 {
      DecimalIsNatural(n / 10);
      var s, c := Decimal(n / 10), ('0' as int + n % 10) as char;
      assert (s + [c])[..|s + [c]| - 1] == s;
    } else {
      assert Decimal(n)[..0] == "";
    }
  }

  /** What is printed in decimal is read back, with or without a sign, unless it is outside int64. */
  lemma ParsesDecimal(n: nat)
    ensures ParseInt(Decimal(n)) == if n <= 9_223_372_036_854_775_807 then Some(n) else None
  {
    DecimalIsNatural(n);
    assert IsDigit(Decimal(n)[0]);
  }

  lemma ParsesSigned(sign: char, n: nat)
    requires sign == '+' || sign == '-'
    ensures ParseInt([sign] + Decimal(n)) ==
      if sign == '+' then (if n <= 9_223_372_036_854_775_807 then Some(n) else None)
      else if n <= 9_223_372_036_854_775_808 then Some(0 - n) else None
  {
    DecimalIsNatural(n);
    assert ([sign] + Decimal(n))[1..] == Decimal(n);
  }

  /** Nothing with another character than digits after its sign is a number. */
  lemma ParsesOnlyDigits(s: string, i: nat)
    requires i < |s| && !IsDigit(s[i]) && (i > 0 || (s[0] != '+' && s[0] != '-'))
    ensures ParseInt(s).None?
  {
    if s[0] == '+' || s[0] == '-' { assert s[1..][i - 1] == s[i]; }
  }

  /** Not of strings alone. */
  lemma Regroup<T>(a: seq<T>, b: seq<T>, c: seq<T>)
    ensures a + b + c == a + (b + c)
  {
  }

  const MAX_INT64 := 0x7fff_ffff_ffff_ffff

  /** strconv.Atoi and ParseInt(s, 10, 64): an optional sign and decimal digits, within int64. */
  function ParseInt(s: string): Option<int> {
    var signed := s != "" && (s[0] == '+' || s[0] == '-');
    var digits := if signed then s[1..] else s;
    if digits == "" || !AllDigits(digits) then None
    else
      var n: int := if signed && s[0] == '-' then 0 - Natural(digits) else Natural(digits);
      if -MAX_INT64 - 1 <= n <= MAX_INT64 then Some(n) else None
  }
}
