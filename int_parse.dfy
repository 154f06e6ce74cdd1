/** Swift's `Int(_: String)`: an optional `+` or `-` followed by one or more decimal digits,
    the whole string and nothing else, with a value that fits in an `Int`. The decimal
    rendering `"\(n)"` of an `Int` is its partner. */
module IntParse {
  import opened Wrappers
  import opened Expense

  predicate IsDigit(c: char) {
    '0' <= c <= '9'
  }

  predicate AllDigits(s: string) {
    forall i :: 0 <= i < |s| ==> IsDigit(s[i])
  }

  function DigitValue(c: char): nat
    requires IsDigit(c)
  {
    (c as int) - ('0' as int)
  }

  function DigitChar(d: nat): (c: char)
    requires d < 10
    ensures IsDigit(c) && DigitValue(c) == d
  {
    (('0' as int) + d) as char
  }

  /** The value of a run of decimal digits, most significant first. */
  function DigitsValue(s: string): nat
    requires AllDigits(s)
  {
    if s == [] then 0 else 10 * DigitsValue(s[..|s| - 1]) + DigitValue(s[|s| - 1])
  }

  function ParseInt(s: string): (r: Option<Int64>)
    ensures r.Some? ==> |s| >= 1 && forall i :: 1 <= i < |s| ==> IsDigit(s[i])
    ensures r.Some? && r.value < 0 ==> s[0] == '-'
  {
    if s == [] then None
    else
      var digits := if s[0] == '+' || s[0] == '-' then s[1..] else s;
      if digits == [] || !AllDigits(digits) then None
      else
        var magnitude := DigitsValue(digits);
        var value: int := if s[0] == '-' then -(magnitude as int) else magnitude;
        if IsInt64(value) then Some(value) else None
  }

  /** The decimal digits of `n`, without leading zeros. */
  function NatDigits(n: nat): string {
    if n < 10 then [DigitChar(n)] else NatDigits(n / 10) + [DigitChar(n % 10)]
  }

  /** The decimal rendering of an integer, as string interpolation writes it. */
  function Show(n: int): string {
    if n < 0 then "-" + NatDigits(-n) else NatDigits(n)
  }

  lemma {:induction false} NatDigitsValue(n: nat)
    ensures |NatDigits(n)| >= 1 && AllDigits(NatDigits(n))
    ensures DigitsValue(NatDigits(n)) == n
    decreases n
  {
    if n >= 10 {
      NatDigitsValue(n / 10);
      var s := NatDigits(n / 10) + [DigitChar(n % 10)];
      assert s[..|s| - 1] == NatDigits(n / 10);
    }
  }

  /** Every `Int` written out in decimal parses back to itself. */
  lemma ParseShow(n: Int64)
    ensures ParseInt(Show(n)) == Some(n)
  {
    if n < 0 {
      var magnitude: nat := -(n as int);
      NatDigitsValue(magnitude);
      assert Show(n)[1..] == NatDigits(magnitude);
    } else {
      NatDigitsValue(n);
    }
  }

  /** The empty string, the text field's initial value, does not parse. */
  lemma EmptyDoesNotParse()
    ensures ParseInt("") == None
  {
  }

  /** A leading minus sign is accepted: "-25" parses to -25. */
  lemma NegativeParses()
    ensures ParseInt("-25") == Some(-25)
  {
    ParseShow(-25);
    assert Show(-25) == "-25";
  }

  /** A sign alone, or text around the digits, does not parse. */
  lemma MalformedDoesNotParse()
    ensures ParseInt("-") == None && ParseInt("+") == None
    ensures ParseInt("12 ") == None && ParseInt(" 12") == None && ParseInt("1.5") == None
  {
    assert !IsDigit(' ') && !IsDigit('.');
    assert "12 "[2] == ' ' && " 12"[0] == ' ' && "1.5"[1] == '.';
  }
}
