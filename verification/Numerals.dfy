/** Integers as decimal text: Python's `str` and `int`, on code points. */
module Numerals {
  import opened Events

  predicate IsDigit(c: char) {
    '0' <= c <= '9'
  }

  predicate AllDigits(s: string) {
    forall i :: 0 <= i < |s| ==> IsDigit(s[i])
  }

  function Digit(d: nat): (c: char)
    requires d < 10
    ensures IsDigit(c) && c as int - '0' as int == d
  {
    (d + '0' as int) as char
  }

  function DigitsOf(n: nat): (s: string)
    ensures s != "" && AllDigits(s)
  {
    if n < 10 then [Digit(n)] else DigitsOf(n / 10) + [Digit(n % 10)]
  }

  function Decimal(n: int): string {
    if n < 0 then "-" + DigitsOf(-n) else DigitsOf(n)
  }

  function Str(v: Value): string {
    match v
    case Text(s) => s
    case Num(n) => Decimal(n)
    case Flag(b) => if b then "True" else "False"
    case Null => "None"
  }

  // ----- Reading a number back -----

  function ValueOf(digits: string): nat
    requires AllDigits(digits)
  {
    if digits == "" then 0
    else ValueOf(digits[..|digits| - 1]) * 10 + (digits[|digits| - 1] as int - '0' as int)
  }

  /** Underscores may stand between digits. */
  predicate Grouped(s: string) {
    && s != "" && IsDigit(s[0]) && IsDigit(s[|s| - 1])
    && (forall i :: 0 <= i < |s| ==> IsDigit(s[i]) || s[i] == '_')
    && (forall i :: 0 < i < |s| ==> IsDigit(s[i]) || IsDigit(s[i - 1]))
  }

  function OnlyDigits(s: string): (r: string)
    ensures AllDigits(r)
  {
    if s == "" then ""
    else OnlyDigits(s[..|s| - 1]) + if IsDigit(s[|s| - 1]) then [s[|s| - 1]] else ""
  }

  /** `int` refuses longer text. */
  const DIGIT_LIMIT := 4300

  function ParseDigits(body: string): Option<nat> {
    if !Grouped(body) || |OnlyDigits(body)| > DIGIT_LIMIT then None else Some(ValueOf(OnlyDigits(body)))
  }

  /** `int(s)` for text without blanks; None is ValueError. */
  function ParseInt(s: string): Option<int> {
    if s == "" then None
    else
      var signed := s[0] == '+' || s[0] == '-';
      match ParseDigits(if signed then s[1..] else s)
      case None => None
      case Some(n) => Some(if s[0] == '-' then -(n as int) else n)
  }

  // ----- The grammar of `int`: a sign or none, then digits with single underscores between them -----

  /** The number `s` stands for: a digit, or a number, an underscore or none, and a digit more. */
  function GroupValue(s: string): Option<nat> {
    if s == "" || !IsDigit(s[|s| - 1]) then None
    else
      var n, d := |s| - 1, s[|s| - 1] as int - '0' as int;
      if n == 0 then Some(d)
      else
        match GroupValue(if s[n - 1] == '_' then s[..n - 1] else s[..n])
        case None => None
        case Some(v) => Some(v * 10 + d)
  }

  lemma {:induction false} GroupedIff(s: string)
    ensures GroupValue(s).Some? <==> Grouped(s)
    ensures Grouped(s) ==> GroupValue(s) == Some(ValueOf(OnlyDigits(s)))
  {
    if s != "" && IsDigit(s[|s| - 1]) && |s| > 1 {
      var n := |s| - 1;
      var rest := if s[n - 1] == '_' then s[..n - 1] else s[..n];
      GroupedIff(rest);
      GroupedRest(s);
      DigitsOfRest(s);
    } else if Grouped(s) {
      assert s[..0] == "";
    }
  }

  lemma GroupedRest(s: string)
    requires |s| > 1 && IsDigit(s[|s| - 1])
    ensures var n := |s| - 1;
      Grouped(s) <==> Grouped(if s[n - 1] == '_' then s[..n - 1] else s[..n])
  {
  }

  lemma DigitsOfRest(s: string)
    requires |s| > 1 && IsDigit(s[|s| - 1])
    ensures var n := |s| - 1;
      var rest := OnlyDigits(if s[n - 1] == '_' then s[..n - 1] else s[..n]);
      OnlyDigits(s) == rest + [s[n]] && OnlyDigits(s)[..|rest|] == rest && OnlyDigits(s)[|rest|] == s[n]
  {
    var n := |s| - 1;
    if s[n - 1] == '_' {
      assert s[..n][..n - 1] == s[..n - 1];
      assert OnlyDigits(s[..n - 1]) + "" == OnlyDigits(s[..n - 1]);
    }
  }

  /** How many digits `s` has. */
  ghost function DigitPlaces(s: string): set<int> {
    set i | 0 <= i < |s| && IsDigit(s[i])
  }

  lemma {:induction false} DigitsCounted(s: string)
    ensures |OnlyDigits(s)| == |DigitPlaces(s)|
  {
    if s == "" {
      assert DigitPlaces(s) == {};
    } else {
      var n := |s| - 1;
      DigitsCounted(s[..n]);
      var before := DigitPlaces(s[..n]);
      if IsDigit(s[n]) {
        assert DigitPlaces(s) == before + {n} && n !in before;
      } else {
        assert DigitPlaces(s) == before;
      }
    }
  }

  lemma ParseDigitsIs(body: string)
    ensures ParseDigits(body) == if |DigitPlaces(body)| <= 4300 then GroupValue(body) else None
  {
    GroupedIff(body);
    DigitsCounted(body);
    hide GroupValue, Grouped, ValueOf, OnlyDigits, DigitPlaces;
  }

  function Unsigned(s: string): string {
    if s != "" && s[0] in ['+', '-'] then s[1..] else s
  }

  lemma EmptyIsNoNumber()
    ensures GroupValue("") == None
  {
  }

  /** `int` takes a sign or none and what the grammar takes, up to 4300 digits, and gives what it stands for. */
  lemma ParseIntIs(s: string)
    ensures ParseInt(s) == None <==> GroupValue(Unsigned(s)) == None || |DigitPlaces(Unsigned(s))| > 4300
    ensures ParseInt(s).Some? ==> s != "" && GroupValue(Unsigned(s)) == Some(Abs(ParseInt(s).value))
    ensures ParseInt(s).Some? ==> if s[0] == '-' then ParseInt(s).value <= 0 else ParseInt(s).value >= 0
  {
    ParseDigitsIs(Unsigned(s));
    EmptyIsNoNumber();
    hide GroupValue, DigitPlaces, ParseDigits;
  }

  /** `str` writes no sign but a minus, and no leading zero. */
  lemma {:induction false} DigitsAreCanonical(n: nat)
    ensures DigitsOf(n)[0] == '0' ==> n == 0 && |DigitsOf(n)| == 1
  {
    if n >= 10 {
      DigitsAreCanonical(n / 10);
      assert DigitsOf(n)[0] == DigitsOf(n / 10)[0];
    }
  }

  lemma DecimalIsCanonical(n: int)
    ensures n >= 0 ==> AllDigits(Decimal(n)) && (Decimal(n)[0] == '0' ==> Decimal(n) == "0")
    ensures n < 0 ==> Decimal(n)[0] == '-' && AllDigits(Decimal(n)[1..]) && |Decimal(n)| > 1 && Decimal(n)[1] != '0'
  {
    DigitsAreCanonical(Abs(n));
    if n < 0 {
      assert Decimal(n)[1..] == DigitsOf(-n);
    }
  }

  lemma {:induction false} DigitsRoundTrip(n: nat)
    ensures ValueOf(DigitsOf(n)) == n
  {
    if n >= 10 {
      DigitsRoundTrip(n / 10);
      Snoc(DigitsOf(n / 10), Digit(n % 10));
    }
  }

  lemma {:induction false} OnlyDigitsOfDigits(s: string)
    requires AllDigits(s)
    ensures OnlyDigits(s) == s
  {
    if s != "" {
      OnlyDigitsOfDigits(s[..|s| - 1]);
      assert s == s[..|s| - 1] + [s[|s| - 1]];
    }
  }

  function Abs(n: int): nat {
    if n < 0 then -n else n
  }

  lemma ParsePlainDigits(digits: string)
    requires AllDigits(digits) && digits != ""
    ensures ParseDigits(digits) == if |digits| <= DIGIT_LIMIT then Some(ValueOf(digits)) else None
  {
    OnlyDigitsOfDigits(digits);
    hide OnlyDigits, ValueOf;
  }

  /** `int(str(n)) == n`, up to the limit. */
  lemma ParseDecimal(n: int)
    ensures ParseInt(Decimal(n)) == if |DigitsOf(Abs(n))| <= DIGIT_LIMIT then Some(n) else None
  {
    var digits := DigitsOf(Abs(n));
    DigitsRoundTrip(Abs(n));
    ParsePlainDigits(digits);
    hide DigitsOf, ValueOf, ParseDigits;
    assert IsDigit(digits[0]);
    if n < 0 {
      assert Decimal(n)[1..] == digits;
    }
  }
}
