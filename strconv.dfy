/**
  The part of Go's strconv package that the configuration service relies on:
  Atoi, which turns the REDIS_DB setting into an int, and the decimal
  rendering of an int (FormatInt with base 10, i.e. Itoa) that Atoi inverts.

  Go's `int` is taken to be 64 bits wide. Atoi is modelled as
  ParseInt(s, 10, 0): an optional '+' or '-', then ParseUint's left-to-right
  digit loop with a uint64 accumulator that stops at the first non-digit or
  at the first digit that overflows, then clamping into the int range.
  Atoi's fast path for strings shorter than 19 bytes gives the same results.
*/
module Strconv {
  import opened Wrappers

  /** Bounds of a 64-bit Go int and of uint64. */
  const MaxInt: int := 0x7FFF_FFFF_FFFF_FFFF
  const MinInt: int := -0x8000_0000_0000_0000
  const MaxUint64: int := 0xFFFF_FFFF_FFFF_FFFF

  predicate InIntRange(n: int) {
    MinInt <= n <= MaxInt
  }

  /** The two errors Atoi reports: malformed text, or a value out of range. */
  datatype NumError = ErrSyntax | ErrRange

  predicate IsDigit(c: char) {
    '0' <= c <= '9'
  }

  function DigitValue(c: char): (d: nat)
    requires IsDigit(c)
    ensures d <= 9
  {
    (c as int) - ('0' as int)
  }

  function DigitChar(d: nat): (c: char)
    requires d <= 9
    ensures IsDigit(c) && DigitValue(c) == d
  {
    ('0' as int + d) as char
  }

  predicate AllDigits(s: string) {
    forall i | 0 <= i < |s| :: IsDigit(s[i])
  }

  /** The number a digit string denotes, most significant digit first. */
  function DigitsValue(s: string): nat
    requires AllDigits(s)
    decreases |s|
  {
    if s == [] then 0 else 10 * DigitsValue(s[..|s| - 1]) + DigitValue(s[|s| - 1])
  }

  predicate HasSign(s: string) {
    |s| > 0 && (s[0] == '+' || s[0] == '-')
  }

  /** The text after an optional leading sign. */
  function Unsigned(s: string): string {
    if HasSign(s) then s[1..] else s
  }

  /** Well-formed decimal text: an optional sign and at least one digit, nothing else. */
  predicate IsDecimal(s: string) {
    |Unsigned(s)| > 0 && AllDigits(Unsigned(s))
  }

  /** The mathematical value of well-formed decimal text (unbounded). */
  function DecimalValue(s: string): int
    requires IsDecimal(s)
  {
    if s[0] == '-' then -(DigitsValue(Unsigned(s)) as int) else DigitsValue(Unsigned(s))
  }

  /** Outcome of ParseUint's digit loop. */
  datatype Scan = Digits(n: nat) | BadDigit | Overflow

  /** ParseUint's loop over s[i..] with accumulator n; base 10 allows no underscores. */
  function ScanDigits(s: string, i: nat, n: nat): Scan
    requires i <= |s| && n <= MaxUint64
    decreases |s| - i
  {
    if i == |s| then Digits(n)
    else if !IsDigit(s[i]) then BadDigit
    else if 10 * n + DigitValue(s[i]) > MaxUint64 then Overflow
    else ScanDigits(s, i + 1, 10 * n + DigitValue(s[i]))
  }

  /** ParseUint(s, 10, 64): the empty string is a syntax error. */
  function ParseUint(s: string): Scan {
    if s == [] then BadDigit else ScanDigits(s, 0, 0)
  }

  /**
    strconv.Atoi. The first component is the int Go returns, the second its
    error (None for nil). A syntax error always comes with 0, and the value
    is always a 64-bit int.
  */
  function Atoi(s: string): (r: (int, Option<NumError>))
    ensures InIntRange(r.0)
    ensures r.1 == Some(ErrSyntax) ==> r.0 == 0
    ensures r.1 == Some(ErrRange) ==> r.0 == (if s != [] && s[0] == '-' then MinInt else MaxInt)
  {
    if s == [] then (0, Some(ErrSyntax))
    else
      var neg := s[0] == '-';
      var scan := ParseUint(Unsigned(s));
      if scan.BadDigit? then (0, Some(ErrSyntax))
      else
        // ParseUint reports overflow with the largest uint64 value
        var un := if scan.Digits? then scan.n else MaxUint64;
        if !neg && un > MaxInt then (MaxInt, Some(ErrRange))
        else if neg && un > -MinInt then (MinInt, Some(ErrRange))
        else (if neg then -un else un, None)
  }

  /** Decimal digits of a natural number, as FormatUint renders them. */
  function NatDigits(n: nat): (s: string)
    ensures |s| > 0 && AllDigits(s) && DigitsValue(s) == n
    decreases n
  {
    if n < 10 then
      var s := [DigitChar(n)];
      assert s[..0] == [];
      s
    else
      var t := NatDigits(n / 10);
      var s := t + [DigitChar(n % 10)];
      assert s[..|s| - 1] == t;
      s
  }

  /** strconv.Itoa: a '-' before the digits of a negative number. */
  function Itoa(n: int): (s: string)
    ensures IsDecimal(s) && DecimalValue(s) == n
  {
    if n < 0 then
      var d := NatDigits(-n);
      var s := "-" + d;
      assert Unsigned(s) == d;
      s
    else
      NatDigits(n)
  }

  /** A longer prefix of a digit string never denotes a smaller number. */
  lemma {:induction false} DigitsValuePrefix(s: string, j: nat)
    requires AllDigits(s) && j <= |s|
    ensures AllDigits(s[..j]) && DigitsValue(s[..j]) <= DigitsValue(s)
    decreases |s|
  {
    if j < |s| {
      var t := s[..|s| - 1];
      assert t[..j] == s[..j];
      DigitsValuePrefix(t, j);
    } else {
      assert s[..j] == s;
    }
  }

  /**
    On a digit string, the loop keeps the value of the digits read so far and
    ends with the value of the whole string, or with Overflow exactly when
    that value does not fit in a uint64.
  */
  lemma {:induction false} ScanAllDigits(s: string, i: nat)
    requires AllDigits(s) && i <= |s|
    requires DigitsValue(s[..i]) <= MaxUint64
    ensures ScanDigits(s, i, DigitsValue(s[..i])) ==
            if DigitsValue(s) <= MaxUint64 then Digits(DigitsValue(s)) else Overflow
    decreases |s| - i
  {
    if i == |s| {
      assert s[..i] == s;
    } else {
      var next := s[..i + 1];
      assert next[..i] == s[..i];
      assert DigitsValue(next) == 10 * DigitsValue(s[..i]) + DigitValue(s[i]);
      DigitsValuePrefix(s, i + 1);
      if DigitsValue(next) <= MaxUint64 {
        ScanAllDigits(s, i + 1);
      }
    }
  }

  /** The loop only finishes normally when every remaining character is a digit. */
  lemma {:induction false} ScanDigitsOnlyOnDigits(s: string, i: nat, n: nat)
    requires i <= |s| && n <= MaxUint64
    ensures ScanDigits(s, i, n).Digits? ==> AllDigits(s[i..])
    decreases |s| - i
  {
    if i < |s| && ScanDigits(s, i, n).Digits? {
      ScanDigitsOnlyOnDigits(s, i + 1, 10 * n + DigitValue(s[i]));
      forall k | 0 <= k < |s| - i ensures IsDigit(s[i..][k]) {
        if k > 0 {
          assert s[i..][k] == s[i + 1..][k - 1];
        }
      }
    }
  }

  function Pow10(k: nat): (p: nat)
    ensures p >= 1
  {
    if k == 0 then 1 else 10 * Pow10(k - 1)
  }

  lemma {:induction false} Pow10Monotone(j: nat, k: nat)
    requires j <= k
    ensures Pow10(j) <= Pow10(k)
    decreases k
  {
    if j < k {
      Pow10Monotone(j, k - 1);
    }
  }

  lemma Pow10Of19()
    ensures Pow10(19) == 10_000_000_000_000_000_000
  {
    assert Pow10(5) == 100_000;
    assert Pow10(10) == 10_000_000_000;
    assert Pow10(15) == 1_000_000_000_000_000;
  }

  /** At most 19 digits fit in a uint64, so on such text the loop never overflows. */
  lemma {:induction false} ScanShortNeverOverflows(s: string, i: nat, n: nat)
    requires i <= |s| <= 19 && n < Pow10(i)
    ensures n <= MaxUint64 && !ScanDigits(s, i, n).Overflow?
    decreases |s| - i
  {
    Pow10Monotone(i, 19);
    Pow10Of19();
    if i < |s| && IsDigit(s[i]) {
      Pow10Monotone(i + 1, 19);
      ScanShortNeverOverflows(s, i + 1, 10 * n + DigitValue(s[i]));
    }
  }

  /**
    Well-formed decimal text parses to its value when that value is an int,
    and is clamped to the nearest int bound with ErrRange otherwise.
  */
  lemma AtoiDecimal(s: string)
    requires IsDecimal(s)
    ensures InIntRange(DecimalValue(s)) ==> Atoi(s) == (DecimalValue(s), None)
    ensures DecimalValue(s) > MaxInt ==> Atoi(s) == (MaxInt, Some(ErrRange))
    ensures DecimalValue(s) < MinInt ==> Atoi(s) == (MinInt, Some(ErrRange))
  {
    var u := Unsigned(s);
    assert u[..0] == [];
    ScanAllDigits(u, 0);
  }

  /** The default text of REDIS_DB, "0", parses to 0 with no error. */
  lemma AtoiZero()
    ensures Atoi("0") == (0, None)
  {
  }

  /** Malformed text never parses without an error: it gives 0, or a clamped value with ErrRange. */
  lemma AtoiMalformed(s: string)
    requires !IsDecimal(s)
    ensures Atoi(s).1 != None
    ensures Atoi(s).0 == 0 || Atoi(s).1 == Some(ErrRange)
  {
    var u := Unsigned(s);
    assert u[0..] == u;
    if u != [] {
      ScanDigitsOnlyOnDigits(u, 0, 0);
    }
  }

  /** Malformed text of at most 19 characters (e.g. "abc", "", "+", " 1") gives 0 and ErrSyntax. */
  lemma AtoiMalformedShort(s: string)
    requires !IsDecimal(s) && |s| <= 19
    ensures Atoi(s) == (0, Some(ErrSyntax))
  {
    var u := Unsigned(s);
    assert u[0..] == u;
    if u != [] {
      ScanDigitsOnlyOnDigits(u, 0, 0);
      ScanShortNeverOverflows(u, 0, 0);
    }
  }

  /**
    Longer malformed text is not always 0: when the leading digits already
    overflow a uint64, the digit loop stops there with a range error before it
    meets the bad character, and Atoi returns the bound of the text's sign.
  */
  lemma AtoiOverflowBeforeBadChar(sign: string, d: string, c: char)
    requires sign == "" || sign == "+" || sign == "-"
    requires AllDigits(d) && DigitsValue(d) > MaxUint64 && !IsDigit(c)
    ensures !IsDecimal(sign + d + [c])
    ensures Atoi(sign + d + [c]) == (if sign == "-" then MinInt else MaxInt, Some(ErrRange))
  {
    var u := d + [c];
    assert Unsigned(sign + d + [c]) == u;
    assert u[..|d|] == d;
    assert u[|d|] == c;
    ScanOverflowsOnPrefix(u, |d|);
  }

  /**
    Such text exists for every number above the uint64 range: its digits
    followed by 'x', with or without a '-' (e.g. the 20 digits of 2^64).
  */
  lemma AtoiOverflowWitness(n: nat)
    requires n > MaxUint64
    ensures var s := NatDigits(n) + "x";
            !IsDecimal(s) && Atoi(s) == (MaxInt, Some(ErrRange))
    ensures var s := "-" + NatDigits(n) + "x";
            !IsDecimal(s) && Atoi(s) == (MinInt, Some(ErrRange))
  {
    var d := NatDigits(n);
    AtoiOverflowBeforeBadChar("", d, 'x');
    assert "" + d + "x" == d + "x";
    AtoiOverflowBeforeBadChar("-", d, 'x');
  }

  /** Every run of leading digits of u denotes a number that fits in a uint64. */
  predicate DigitPrefixFits(u: string) {
    forall k | 0 <= k <= |u| && AllDigits(u[..k]) :: DigitsValue(u[..k]) <= MaxUint64
  }

  /** The position of the first non-digit of u at or after i. */
  ghost function FirstNonDigit(u: string, i: nat): (k: nat)
    requires i <= |u| && AllDigits(u[..i]) && !AllDigits(u)
    ensures i <= k < |u| && !IsDigit(u[k]) && AllDigits(u[..k])
    decreases |u| - i
  {
    assert u[..|u|] == u;
    if !IsDigit(u[i]) then i
    else
      assert forall j | 0 <= j < i + 1 :: u[..i + 1][j] == u[j];
      FirstNonDigit(u, i + 1)
  }

  /**
    Malformed text, of any length, parses to 0 with a syntax error exactly
    when its leading digits fit in a uint64; otherwise the digit loop
    overflows first and Atoi returns the bound of the text's sign.
  */
  lemma AtoiMalformedExact(s: string)
    requires !IsDecimal(s)
    ensures Atoi(s) == if DigitPrefixFits(Unsigned(s)) then (0, Some(ErrSyntax))
                       else (if s[0] == '-' then MinInt else MaxInt, Some(ErrRange))
  {
    var u := Unsigned(s);
    if !DigitPrefixFits(u) {
      var k :| 0 <= k <= |u| && AllDigits(u[..k]) && DigitsValue(u[..k]) > MaxUint64;
      ScanOverflowsOnPrefix(u, k);
    } else if u != [] {
      assert u[..0] == [];
      var k := FirstNonDigit(u, 0);
      ScanReaches(u, 0, k);
    }
  }

  /** If some all-digit prefix overflows, the loop ends in Overflow whatever follows. */
  lemma ScanOverflowsOnPrefix(s: string, k: nat)
    requires k <= |s| && AllDigits(s[..k]) && DigitsValue(s[..k]) > MaxUint64
    ensures ScanDigits(s, 0, 0) == Overflow
  {
    var p := s[..k];
    var j := OverflowPoint(p);
    assert p[..j] == s[..j] && p[..j + 1] == s[..j + 1];
    assert s[j] == p[j];
    ScanPrefixDigits(s, j);
  }

  /** The first position at which the digit prefix of p stops fitting in a uint64. */
  lemma {:induction false} OverflowPointExists(p: string)
    requires AllDigits(p) && DigitsValue(p) > MaxUint64
    ensures exists j :: 0 <= j < |p| && DigitsValue(p[..j]) <= MaxUint64 && DigitsValue(p[..j + 1]) > MaxUint64
    decreases |p|
  {
    var t := p[..|p| - 1];
    if DigitsValue(t) <= MaxUint64 {
      assert t == p[..|p| - 1] && p[..|p|] == p;
    } else {
      OverflowPointExists(t);
      var j :| 0 <= j < |t| && DigitsValue(t[..j]) <= MaxUint64 && DigitsValue(t[..j + 1]) > MaxUint64;
      assert t[..j] == p[..j] && t[..j + 1] == p[..j + 1];
    }
  }

  ghost function OverflowPoint(p: string): (j: nat)
    requires AllDigits(p) && DigitsValue(p) > MaxUint64
    ensures j < |p| && AllDigits(p[..j + 1])
    ensures DigitsValue(p[..j]) <= MaxUint64 && DigitsValue(p[..j + 1]) > MaxUint64
  {
    OverflowPointExists(p);
    var j :| 0 <= j < |p| && DigitsValue(p[..j]) <= MaxUint64 && DigitsValue(p[..j + 1]) > MaxUint64;
    j
  }

  /** The loop started at 0 reaches position j with the value of the first j digits. */
  lemma {:induction false} ScanPrefixDigits(s: string, j: nat)
    requires j < |s| && AllDigits(s[..j + 1]) && DigitsValue(s[..j]) <= MaxUint64
    ensures DigitsValue(s[..j + 1]) > MaxUint64 ==> ScanDigits(s, 0, 0) == Overflow
  {
    ScanReaches(s, 0, j);
    var q := s[..j + 1];
    assert q[..j] == s[..j];
  }

  /** Running the loop from i over digits up to j is running it from j with the prefix value. */
  lemma {:induction false} ScanReaches(s: string, i: nat, j: nat)
    requires i <= j <= |s| && AllDigits(s[..j]) && DigitsValue(s[..j]) <= MaxUint64
    ensures AllDigits(s[..i]) && DigitsValue(s[..i]) <= MaxUint64
    ensures ScanDigits(s, i, DigitsValue(s[..i])) == ScanDigits(s, j, DigitsValue(s[..j]))
    decreases j - i
  {
    var p := s[..j];
    assert p[..i] == s[..i];
    DigitsValuePrefix(p, i);
    if i < j {
      assert p[..i + 1] == s[..i + 1];
      DigitsValuePrefix(p, i + 1);
      var q := s[..i + 1];
      assert q[..i] == s[..i];
      assert IsDigit(p[i]) && s[i] == p[i];
      ScanReaches(s, i + 1, j);
    }
  }

  /** Every int survives rendering and parsing back: Atoi(Itoa(n)) gives n and no error. */
  lemma AtoiItoa(n: int)
    requires InIntRange(n)
    ensures Atoi(Itoa(n)) == (n, None)
  {
    AtoiDecimal(Itoa(n));
  }
}
