/**
  The decoded JSON a transaction record is made of, and PHP's `(string)` cast
  of such a value.
 */
module Json {

  /** A scalar JSON value as json_decode hands it over. Numbers are kept as integers. */
  datatype Value = Str(s: string) | Num(n: int)

  /**
    One transaction record of the account statement: the positional column
    identifier `column<n>`, written as its number n, to the `value` member of
    that column's object. A column that is absent, or whose object is null, is
    not in the map.
   */
  type Record = map<nat, Value>

  predicate IsDigits(s: string) {
    forall i :: 0 <= i < |s| ==> '0' <= s[i] <= '9'
  }

  /** Optional minus sign followed by at least one digit. */
  predicate IsDecimal(s: string) {
    if |s| > 0 && s[0] == '-' then |s| > 1 && IsDigits(s[1..]) else |s| > 0 && IsDigits(s)
  }

  /** At least one digit, and no leading zero unless the number is zero itself. */
  predicate IsCanonicalNat(s: string) {
    |s| > 0 && IsDigits(s) && (|s| > 1 ==> s[0] != '0')
  }

  /** The form PHP prints an integer in: canonical digits, with a minus sign only before a nonzero number. */
  predicate IsCanonicalDecimal(s: string) {
    if |s| > 0 && s[0] == '-' then IsCanonicalNat(s[1..]) && s[1..] != "0" else IsCanonicalNat(s)
  }

  function Digit(d: nat): (c: char)
    requires d < 10
    ensures '0' <= c <= '9'
    ensures c as int - '0' as int == d
  {
    ('0' as int + d) as char
  }

  function DigitValue(c: char): (d: nat)
    requires '0' <= c <= '9'
    ensures d < 10
  {
    c as int - '0' as int
  }

  /** The decimal digits of n, most significant first, without leading zeros. */
  function NatString(n: nat): (s: string)
    ensures IsCanonicalNat(s)
    ensures s[0] == '0' ==> n == 0
    decreases n
  {
    if n < 10 then [Digit(n)] else NatString(n / 10) + [Digit(n % 10)]
  }

  /** What PHP's `(string)` cast makes of an integer. */
  function DecimalString(n: int): (s: string)
    ensures IsDecimal(s) && IsCanonicalDecimal(s)
  {
    if n < 0 then "-" + NatString(-n) else NatString(n)
  }

  /** Reads back a string of digits. */
  function ParseNat(s: string): nat
    requires IsDigits(s)
  {
    if s == [] then 0 else ParseNat(s[..|s| - 1]) * 10 + DigitValue(s[|s| - 1])
  }

  /** Reads back an optionally signed decimal string. */
  function ParseDecimal(s: string): int
    requires IsDecimal(s)
  {
    if s[0] == '-' then -(ParseNat(s[1..]) as int) else ParseNat(s)
  }

  lemma {:induction false} ParseNatString(n: nat)
    ensures ParseNat(NatString(n)) == n
  {
    if n >= 10 {
      var p := NatString(n / 10);
      var s := NatString(n);
      assert s == p + [Digit(n % 10)];
      assert s[..|s| - 1] == p;
      ParseNatString(n / 10);
    }
  }

  /** Parsing undoes PHP's cast: the decimal string of an integer names that integer. */
  lemma DecimalRoundTrip(n: int)
    ensures ParseDecimal(DecimalString(n)) == n
  {
    if n < 0 {
      var s := DecimalString(n);
      assert s[1..] == NatString(-n);
      ParseNatString(-n);
    } else {
      ParseNatString(n);
    }
  }

  /** Two different integers never cast to the same string. */
  lemma DecimalStringInjective(m: int, n: int)
    ensures DecimalString(m) == DecimalString(n) ==> m == n
  {
    DecimalRoundTrip(m);
    DecimalRoundTrip(n);
  }

  /** A digit string that starts with a nonzero digit denotes a positive number. */
  lemma {:induction false} ParseNatPositive(s: string)
    requires IsDigits(s) && |s| > 0 && s[0] != '0'
    ensures ParseNat(s) > 0
  {
    if |s| > 1 {
      ParseNatPositive(s[..|s| - 1]);
    }
  }

  /** Printing the number a canonical digit string denotes gives back that string. */
  lemma {:induction false} NatStringOfParse(s: string)
    requires IsCanonicalNat(s)
    ensures NatString(ParseNat(s)) == s
  {
    var p := s[..|s| - 1];
    if |s| > 1 {
      assert IsCanonicalNat(p);
      ParseNatPositive(p);
      NatStringOfParse(p);
      var n := ParseNat(s);
      assert n / 10 == ParseNat(p) && n % 10 == DigitValue(s[|s| - 1]);
      assert s == p + [s[|s| - 1]];
    } else {
      assert p == [];
    }
  }

  /**
    The canonical decimal strings are exactly the strings the cast produces:
    each of them is the cast of the number it denotes.
   */
  lemma CanonicalDecimalUnique(s: string)
    requires IsCanonicalDecimal(s)
    ensures IsDecimal(s) && DecimalString(ParseDecimal(s)) == s
  {
    if s[0] == '-' {
      var r := s[1..];
      if |r| == 1 {
        assert r[0] != '0';
      }
      ParseNatPositive(r);
      NatStringOfParse(r);
      assert s == "-" + r;
    } else {
      NatStringOfParse(s);
    }
  }

  /** PHP's `(string)` cast of a decoded JSON value. */
  function StringCast(v: Value): (s: string)
    ensures v.Str? ==> s == v.s
    ensures v.Num? ==> IsDecimal(s) && IsCanonicalDecimal(s) && ParseDecimal(s) == v.n
  {
    match v
    case Str(t) => t
    case Num(n) => DecimalRoundTrip(n); DecimalString(n)
  }
}
