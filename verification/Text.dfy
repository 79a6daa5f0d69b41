/** Decimal numbers as text: what FormatInt prints and ParseInt reads back. */
module Text {
  import opened Prelude

  predicate IsDigit(c: char) {
    '0' <= c <= '9'
  }

  function Digit(n: nat): char
    requires n < 10
  {
    '0' + n as char
  }

  function Digits(n: nat): string {
    if n < 10 then [Digit(n)] else Digits(n / 10) + [Digit(n % 10)]
  }

  function FormatInt(n: int): string {
    if n < 0 then "-" + Digits(-n) else Digits(n)
  }

  predicate AllDigits(s: string) {
    forall i :: 0 <= i < |s| ==> IsDigit(s[i])
  }

  function Value(s: string): nat
    requires AllDigits(s)
  {
    if s == "" then 0 else 10 * Value(s[..|s| - 1]) + (s[|s| - 1] as int - '0' as int)
  }

  /** Base-10 ParseInt into 64 bits: an optional sign, at least one digit, and a value in range. */
  function ParseInt(s: string): Option<int> {
    if s == "" then None else
    var digits := if s[0] == '-' || s[0] == '+' then s[1..] else s;
    if digits == "" || !AllDigits(digits) then None else
    var v: int := Value(digits);
    var n := if s[0] == '-' then -v else v;
    if Int64(n) then Some(n) else None
  }

  lemma {:induction false} DigitsValue(n: nat)
    ensures |Digits(n)| > 0 && AllDigits(Digits(n)) && Value(Digits(n)) == n
  {
    if n >= 10 {
      DigitsValue(n / 10);
      var d := Digits(n);
      assert d[..|d| - 1] == Digits(n / 10);
    } else {
      assert Digits(n)[..0] == "";
    }
  }

  /** Every 64-bit number survives being printed and parsed. */
  lemma FormatParse(n: int)
    requires Int64(n)
    ensures ParseInt(FormatInt(n)) == Some(n)
  {
    var m: nat := if n < 0 then -n else n;
    DigitsValue(m);
    assert IsDigit(Digits(m)[0]);
    if n < 0 {
      assert ("-" + Digits(m))[1..] == Digits(m);
    }
  }

  /** The text is these digits, plain or with a sign, and this is their value. */
  predicate Reads(s: string, d: string, n: int) {
    d != "" && AllDigits(d) &&
    var v: int := Value(d);
    ((s == d || s == "+" + d) && n == v) || (s == "-" + d && n == -v)
  }

  /** What is parsed: decimal digits, at least one, with or without a sign, of a value that fits 64 bits. */
  lemma ParseIff(s: string, n: int)
    ensures ParseInt(s) == Some(n) <==>
            Int64(n) && exists d :: Reads(s, d, n)
  {
    if s != "" {
      var d := if s[0] == '-' || s[0] == '+' then s[1..] else s;
      if ParseInt(s) == Some(n) {
        assert s == d || s == "+" + d || s == "-" + d;
        assert Reads(s, d, n);
      }
      forall d | Reads(s, d, n) && Int64(n) ensures ParseInt(s) == Some(n) {
        assert IsDigit(d[0]);
        assert ("+" + d)[1..] == d && ("-" + d)[1..] == d;
      }
    }
  }

  lemma DigitsInjective(a: nat, b: nat)
    requires Digits(a) == Digits(b)
    ensures a == b
  {
    DigitsValue(a);
    DigitsValue(b);
  }
}
