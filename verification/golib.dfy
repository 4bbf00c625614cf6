/** The few functions of Go's standard library (packages strings, strconv, fmt
    and unicode) whose exact behaviour the feed core depends on. Go strings are
    modelled as sequences of code points. */
module GoLib {
  import opened Wrappers

  const MinInt64: int := -0x8000_0000_0000_0000
  const MaxInt64: int := 0x7FFF_FFFF_FFFF_FFFF

  function Min(a: int, b: int): int { if a < b then a else b }

  // ---------------------------------------------------------------------------
  // strings.TrimSpace

  /** unicode.IsSpace: the Latin-1 spaces plus the other White_Space code points. */
  predicate IsSpace(c: char) {
    || c == '\t' || c == '\n' || c == '\U{000B}' || c == '\U{000C}' || c == '\r' || c == ' '
    || c == '\U{0085}' || c == '\U{00A0}' || c == '\U{1680}'
    || ('\U{2000}' <= c <= '\U{200A}')
    || c == '\U{2028}' || c == '\U{2029}' || c == '\U{202F}' || c == '\U{205F}' || c == '\U{3000}'
  }

  predicate AllSpace(s: string) {
    forall i | 0 <= i < |s| :: IsSpace(s[i])
  }

  /** Drops the leading white space: what is left is a suffix of `s` that does
      not start with a space, and everything dropped is a space. */
  function TrimLeft(s: string): (r: string)
    ensures |r| <= |s| && r == s[|s| - |r|..]
    ensures AllSpace(s[..|s| - |r|])
    ensures r != [] ==> !IsSpace(r[0])
  {
    if s != [] && IsSpace(s[0]) then
      var r := TrimLeft(s[1..]);
      assert forall i | 1 <= i < |s| - |r| :: s[i] == s[1..][..|s| - 1 - |r|][i - 1];
      r
    else
      s
  }

  /** Drops the trailing white space: what is left is a prefix of `s` that
      does not end with a space, and everything dropped is a space. */
  function TrimRight(s: string): (r: string)
    ensures |r| <= |s| && r == s[..|r|]
    ensures AllSpace(s[|r|..])
    ensures r != [] ==> !IsSpace(r[|r| - 1])
  {
    if s != [] && IsSpace(s[|s| - 1]) then
      var r := TrimRight(s[..|s| - 1]);
      assert s[|r|..] == s[..|s| - 1][|r|..] + [s[|s| - 1]];
      r
    else
      s
  }

  /** strings.TrimSpace: the part of `s` between its leading and its trailing
      white space. It is empty exactly when `s` is all white space. */
  function TrimSpace(s: string): (r: string)
    ensures r != [] ==> !IsSpace(r[0]) && !IsSpace(r[|r| - 1])
    ensures r == [] <==> AllSpace(s)
  {
    var t := TrimLeft(s);
    var r := TrimRight(t);
    TrimSpaceBlank(s, t, r);
    r
  }

  lemma TrimSpaceBlank(s: string, t: string, r: string)
    requires t == TrimLeft(s) && r == TrimRight(t)
    ensures r == [] <==> AllSpace(s)
  {
    var k := |s| - |t|;
    if r == [] {
      assert t[|r|..] == t;
      assert t == [];
      assert s == s[..k];
    } else {
      assert s[k] == t[0] == r[0];
    }
  }

  /** What TrimSpace keeps is a contiguous part of `s`, starting at `k`, and
      what it drops on either side is white space. */
  lemma TrimSpaceSlice(s: string) returns (k: nat)
    ensures var r := TrimSpace(s);
      k + |r| <= |s| && r == s[k..k + |r|] && AllSpace(s[..k]) && AllSpace(s[k + |r|..])
  {
    var t := TrimLeft(s);
    k := |s| - |t|;
    TrimmedPart(s, t, TrimRight(t), k);
  }

  lemma TrimmedPart(s: string, t: string, r: string, k: nat)
    requires k + |t| == |s| && t == s[k..] && AllSpace(s[..k])
    requires |r| <= |t| && r == t[..|r|] && AllSpace(t[|r|..])
    ensures k + |r| <= |s| && r == s[k..k + |r|] && AllSpace(s[k + |r|..])
  {
    assert s[k + |r|..] == t[|r|..];
  }

  /** Trimming twice is trimming once. */
  lemma TrimSpaceIdempotent(s: string)
    ensures TrimSpace(TrimSpace(s)) == TrimSpace(s)
  {
    var t := TrimSpace(s);
    if t != [] {
      assert TrimLeft(t) == t;
      assert TrimRight(t) == t;
    }
  }

  // ---------------------------------------------------------------------------
  // strings.HasPrefix

  predicate HasPrefix(s: string, prefix: string) {
    |prefix| <= |s| && s[..|prefix|] == prefix
  }

  // ---------------------------------------------------------------------------
  // strconv.ParseBool

  /** strconv.ParseBool: exactly twelve spellings are accepted. */
  function ParseBool(s: string): Option<bool> {
    if s in {"1", "t", "T", "TRUE", "true", "True"} then Some(true)
    else if s in {"0", "f", "F", "FALSE", "false", "False"} then Some(false)
    else None
  }

  // ---------------------------------------------------------------------------
  // Decimal numbers: strconv.Atoi and fmt.Sprintf("%d", n)

  predicate IsDigit(c: char) { '0' <= c <= '9' }

  predicate AllDigits(s: string) {
    forall i | 0 <= i < |s| :: IsDigit(s[i])
  }

  function DigitValue(c: char): nat
    requires IsDigit(c)
  {
    c as int - '0' as int
  }

  /** The value of a string of decimal digits, most significant first. */
  function DigitsValue(s: string): nat
    requires AllDigits(s)
  {
    if s == [] then 0 else DigitsValue(s[..|s| - 1]) * 10 + DigitValue(s[|s| - 1])
  }

  /** strconv.Atoi: an optional sign followed by at least one decimal digit,
      whose value fits in a 64-bit int; anything else is an error. */
  function Atoi(s: string): (r: Option<int>)
    ensures r.Some? ==> MinInt64 <= r.value <= MaxInt64
    ensures r.Some? ==> s != [] && (IsDigit(s[0]) || s[0] == '+' || s[0] == '-')
  {
    var digits := if s != [] && (s[0] == '+' || s[0] == '-') then s[1..] else s;
    if digits == [] || !AllDigits(digits) then None
    else
      var v: int := if s[0] == '-' then -(DigitsValue(digits) as int) else DigitsValue(digits);
      if MinInt64 <= v <= MaxInt64 then Some(v) else None
  }

  function Digit(d: nat): char
    requires d < 10
  {
    ('0' as int + d) as char
  }

  /** The shortest decimal form of a natural number. */
  function NatString(n: nat): string
  {
    if n < 10 then [Digit(n)] else NatString(n / 10) + [Digit(n % 10)]
  }

  /** fmt.Sprintf("%d", n). */
  function DecimalString(n: int): string
  {
    if n < 0 then "-" + NatString(-n) else NatString(n)
  }

  lemma {:induction false} NatStringDigits(n: nat)
    ensures NatString(n) != [] && AllDigits(NatString(n))
    ensures DigitsValue(NatString(n)) == n
  {
    if n >= 10 {
      NatStringDigits(n / 10);
      var s := NatString(n);
      assert s[..|s| - 1] == NatString(n / 10);
    }
  }

  /** `%d` prints an optional minus sign and then the decimal digits of the
      magnitude, most significant first. */
  lemma DecimalStringDigits(n: int)
    ensures n >= 0 ==> DecimalString(n) == NatString(n)
    ensures n < 0 ==> DecimalString(n)[0] == '-' && DecimalString(n)[1..] == NatString(-n)
    ensures var m := if n < 0 then -n else n;
      NatString(m) != [] && AllDigits(NatString(m)) && DigitsValue(NatString(m)) == m
  {
    if n < 0 {
      NatStringDigits(-n);
      assert DecimalString(n)[1..] == NatString(-n);
    } else {
      NatStringDigits(n);
    }
  }

  /** Atoi reads back what %d prints, for every 64-bit int. */
  lemma AtoiDecimalString(n: int)
    requires MinInt64 <= n <= MaxInt64
    ensures Atoi(DecimalString(n)) == Some(n)
  {
    var s := DecimalString(n);
    if n < 0 {
      var d := NatString(-n);
      NatStringDigits(-n);
      assert s == "-" + d;
      assert s[0] == '-' && s[1..] == d;
    } else {
      NatStringDigits(n);
      assert IsDigit(s[0]);
    }
  }
}
