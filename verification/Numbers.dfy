/** Reading and printing of signed decimal numbers, as strtoll does it. */
module Numbers {

  /** What is left of a text after something was read from its front; Err if a read left the text. */
  datatype Parsed<+T> = Err | Ok(value: T, rest: string) {
    predicate IsFailure() {
      Err?
    }
    function PropagateFailure<U>(): Parsed<U>
      requires Err?
    {
      Err
    }
    function Extract(): (T, string)
      requires Ok?
    {
      (value, rest)
    }
  }

  const LONG_MAX := 0x7fff_ffff_ffff_ffff
  const LONG_MIN := -0x8000_0000_0000_0000

  predicate InLong(x: int) {
    LONG_MIN <= x <= LONG_MAX
  }

  /** The symbols that parse_cur_symbol tells from NUMBER (parse_plan.c:163-174). */
  predicate IsSeparator(c: char) {
    c == ',' || c == ';' || c == '\n'
  }

  predicate IsBlank(c: char) {
    c == ' ' || ('\t' <= c <= '\r')
  }

  predicate IsDigit(c: char) {
    '0' <= c <= '9'
  }

  function DigitValue(c: char): int {
    c as int - '0' as int
  }

  function SkipBlanks(t: string): (r: string)
    ensures |r| <= |t|
  {
    if t != "" && IsBlank(t[0]) then SkipBlanks(t[1..]) else t
  }

  /** The number of digits at the front. */
  function LeadingDigits(t: string): (k: nat)
    ensures k <= |t|
  {
    if t != "" && IsDigit(t[0]) then 1 + LeadingDigits(t[1..]) else 0
  }

  function DecimalValue(digits: string): int {
    if digits == "" then 0
    else 10 * DecimalValue(digits[..|digits| - 1]) + DigitValue(digits[|digits| - 1])
  }

  function LeadingValue(t: string): int {
    DecimalValue(t[..LeadingDigits(t)])
  }

  function AfterDigits(t: string): (r: string)
    ensures |r| <= |t|
  {
    t[LeadingDigits(t)..]
  }

  /** strtoll saturates. */
  function Clamp(x: int): int {
    if x > LONG_MAX then LONG_MAX else if x < LONG_MIN then LONG_MIN else x
  }

  /** strtoll: blanks, a sign, digits; without digits the text is left where it was and the value is 0. */
  function Strtoll(t: string): (r: (int, string))
    ensures |r.1| <= |t|
  {
    var u := SkipBlanks(t);
    var signed := u != "" && (u[0] == '-' || u[0] == '+');
    var v := if signed then u[1..] else u;
    if LeadingDigits(v) == 0 then (0, t)
    else (Clamp(if signed && u[0] == '-' then -LeadingValue(v) else LeadingValue(v)), AfterDigits(v))
  }

  predicate HasSeparator(t: string) {
    t != "" && (IsSeparator(t[0]) || HasSeparator(t[1..]))
  }

  lemma {:induction false} SeparatorBehind(front: string, t: string)
    requires HasSeparator(t)
    ensures HasSeparator(front + t)
  {
    if front == "" {
      assert front + t == t;
    } else {
      assert (front + t)[1..] == front[1..] + t;
      SeparatorBehind(front[1..], t);
    }
  }

  /** parse_next_number (parse_plan.c:185-193): its first loop runs out of a text without a separator */
  function ParseNumber(t: string): (r: Parsed<int>)
    ensures r.Ok? ==> |r.rest| <= |t|
  {
    if HasSeparator(t) then Ok(Strtoll(t).0, Strtoll(t).1) else Err
  }

  // ----- printing -----

  function Digit(d: int): char
    requires 0 <= d < 10
  {
    ('0' as int + d) as char
  }

  function PrintNat(n: nat): string {
    if n < 10 then [Digit(n)] else PrintNat(n / 10) + [Digit(n % 10)]
  }

  function PrintNumber(x: int): string {
    if x < 0 then "-" + PrintNat(-x) else PrintNat(x)
  }

  lemma {:induction false} PrintNatIsDecimal(n: nat)
    ensures PrintNat(n) != ""
    ensures forall i :: 0 <= i < |PrintNat(n)| ==> IsDigit(PrintNat(n)[i])
    ensures DecimalValue(PrintNat(n)) == n
  {
    var s := PrintNat(n);
    if n < 10 {
      assert s[..0] == "";
    } else {
      PrintNatIsDecimal(n / 10);
      assert s[..|s| - 1] == PrintNat(n / 10);
    }
  }

  lemma {:induction false} DigitsEndAtSeparator(digits: string, rest: string)
    requires forall i :: 0 <= i < |digits| ==> IsDigit(digits[i])
    requires rest == "" || !IsDigit(rest[0])
    ensures LeadingDigits(digits + rest) == |digits|
  {
    if digits == "" {
      assert digits + rest == rest;
    } else {
      assert (digits + rest)[1..] == digits[1..] + rest;
      DigitsEndAtSeparator(digits[1..], rest);
    }
  }

  lemma DigitsRead(digits: string, rest: string)
    requires forall i :: 0 <= i < |digits| ==> IsDigit(digits[i])
    requires rest == "" || !IsDigit(rest[0])
    ensures LeadingDigits(digits + rest) == |digits|
    ensures LeadingValue(digits + rest) == DecimalValue(digits)
    ensures AfterDigits(digits + rest) == rest
  {
    DigitsEndAtSeparator(digits, rest);
    var t := digits + rest;
    assert t[..|digits|] == digits && t[|digits|..] == rest;
  }

  lemma UnsignedRead(v: string)
    requires LeadingDigits(v) > 0
    ensures Strtoll(v) == (Clamp(LeadingValue(v)), AfterDigits(v))
  {
    assert IsDigit(v[0]);
  }

  lemma NegativeRead(t: string, v: string)
    requires LeadingDigits(v) > 0
    requires t != "" && t[0] == '-' && t[1..] == v
    ensures Strtoll(t) == (Clamp(-LeadingValue(v)), AfterDigits(v))
  {
    assert SkipBlanks(t) == t;
  }

  lemma MinusSignInFront(x: int, rest: string)
    requires x < 0
    ensures var t := PrintNumber(x) + rest;
            t != "" && t[0] == '-' && t[1..] == PrintNat(-x) + rest
  {
  }

  lemma StrtollReadsNegative(x: int, rest: string)
    requires InLong(x) && x < 0
    requires rest == "" || !IsDigit(rest[0])
    ensures Strtoll(PrintNumber(x) + rest) == (x, rest)
  {
    var digits := PrintNat(-x);
    PrintNatIsDecimal(-x);
    DigitsRead(digits, rest);
    MinusSignInFront(x, rest);
    NegativeRead(PrintNumber(x) + rest, digits + rest);
  }

  lemma StrtollReadsNat(x: int, rest: string)
    requires InLong(x) && x >= 0
    requires rest == "" || !IsDigit(rest[0])
    ensures Strtoll(PrintNumber(x) + rest) == (x, rest)
  {
    var digits := PrintNat(x);
    PrintNatIsDecimal(x);
    DigitsRead(digits, rest);
    UnsignedRead(digits + rest);
  }

  /** Reading back a printed number that is followed by a separator. */
  lemma NumberRoundTrip(x: int, rest: string)
    requires InLong(x)
    requires rest != "" && IsSeparator(rest[0])
    ensures ParseNumber(PrintNumber(x) + rest) == Ok(x, rest)
  {
    SeparatorBehind(PrintNumber(x), rest);
    if x < 0 { StrtollReadsNegative(x, rest); } else { StrtollReadsNat(x, rest); }
  }

  // ----- any text -----

  predicate Blanks(t: string) {
    forall i :: 0 <= i < |t| ==> IsBlank(t[i])
  }

  predicate Digits(t: string) {
    forall i :: 0 <= i < |t| ==> IsDigit(t[i])
  }

  /** A text taken apart: blanks, at most one sign, the digits, and what cannot belong to the number any more. */
  predicate Written(t: string, blanks: string, sign: string, digits: string, rest: string) {
    && t == blanks + (sign + (digits + rest))
    && Blanks(blanks) && (sign == "" || sign == "-" || sign == "+") && Digits(digits)
    && (rest == "" || !IsDigit(rest[0]))
    && (sign == digits == "" ==> rest == "" || !(IsBlank(rest[0]) || rest[0] == '-' || rest[0] == '+'))
  }

  lemma {:induction false} BlanksSkipped(blanks: string, u: string)
    requires Blanks(blanks) && (u == "" || !IsBlank(u[0]))
    ensures SkipBlanks(blanks + u) == u
  {
    if blanks == "" {
      assert blanks + u == u;
    } else {
      assert (blanks + u)[1..] == blanks[1..] + u;
      BlanksSkipped(blanks[1..], u);
    }
  }

  lemma AfterBlanks(sign: string, digits: string, rest: string)
    requires Written(sign + (digits + rest), "", sign, digits, rest)
    ensures var u := sign + (digits + rest);
            && (u == "" || !IsBlank(u[0]))
            && ((u != "" && (u[0] == '-' || u[0] == '+')) <==> sign != "")
            && (sign != "" ==> u[0] == sign[0] && u[1..] == digits + rest)
            && (sign == "" ==> u == digits + rest)
  {
    var u := sign + (digits + rest);
    if sign == "" { assert u == digits + rest; }
  }

  lemma WrittenWithoutBlanks(t: string, blanks: string, sign: string, digits: string, rest: string)
    requires Written(t, blanks, sign, digits, rest)
    ensures Written(sign + (digits + rest), "", sign, digits, rest)
  {
    assert "" + (sign + (digits + rest)) == sign + (digits + rest);
  }

  /** What strtoll makes of any text: the number saturates; without digits nothing is read. */
  lemma StrtollMeaning(t: string, blanks: string, sign: string, digits: string, rest: string)
    requires Written(t, blanks, sign, digits, rest)
    ensures digits == "" ==> Strtoll(t) == (0, t)
    ensures digits != "" ==>
              var n := if sign == "-" then -DecimalValue(digits) else DecimalValue(digits);
              && Strtoll(t).1 == rest
              && (LONG_MIN <= n <= LONG_MAX ==> Strtoll(t).0 == n)
              && (n > LONG_MAX ==> Strtoll(t).0 == 0x7fff_ffff_ffff_ffff)
              && (n < LONG_MIN ==> Strtoll(t).0 == -0x8000_0000_0000_0000)
  {
    WrittenWithoutBlanks(t, blanks, sign, digits, rest);
    AfterBlanks(sign, digits, rest);
    BlanksSkipped(blanks, sign + (digits + rest));
    DigitsRead(digits, rest);
  }

  lemma {:induction false} BlanksInFront(t: string) returns (blanks: string)
    ensures Blanks(blanks) && t == blanks + SkipBlanks(t)
    ensures SkipBlanks(t) == "" || !IsBlank(SkipBlanks(t)[0])
  {
    if t != "" && IsBlank(t[0]) {
      var more := BlanksInFront(t[1..]);
      blanks := [t[0]] + more;
    } else {
      blanks := "";
    }
  }

  lemma {:induction false} DigitsInFront(t: string)
    ensures Digits(t[..LeadingDigits(t)])
    ensures AfterDigits(t) == "" || !IsDigit(AfterDigits(t)[0])
  {
    if t != "" && IsDigit(t[0]) {
      DigitsInFront(t[1..]);
      assert t[..LeadingDigits(t)] == [t[0]] + t[1..][..LeadingDigits(t[1..])];
    } else {
    }
  }

  lemma DigitsTakenOff(v: string) returns (digits: string, rest: string)
    ensures v == digits + rest && Digits(digits) && (rest == "" || !IsDigit(rest[0]))
  {
    DigitsInFront(v);
    digits, rest := v[..LeadingDigits(v)], AfterDigits(v);
  }

  lemma SignTakenOff(u: string) returns (sign: string, v: string)
    ensures u == sign + v && (sign == "" || sign == "-" || sign == "+")
    ensures sign == "" ==> v == u && (u == "" || !(u[0] == '-' || u[0] == '+'))
  {
    if u != "" && (u[0] == '-' || u[0] == '+') {
      sign, v := [u[0]], u[1..];
    } else {
      sign, v := "", u;
    }
  }

  /** Every text can be taken apart, so `StrtollMeaning` covers all of them. */
  lemma AnyTextIsWritten(t: string) returns (blanks: string, sign: string, digits: string, rest: string)
    ensures Written(t, blanks, sign, digits, rest)
  {
    blanks := BlanksInFront(t);
    var v;
    sign, v := SignTakenOff(SkipBlanks(t));
    digits, rest := DigitsTakenOff(v);
    if digits == "" { assert v == rest; }
  }

  /** A printed number holds no semicolon. */
  lemma NumberHasNoSemicolon(x: int)
    ensures ';' !in PrintNumber(x)
  {
    PrintNatIsDecimal(if x < 0 then -x else x);
  }
}
