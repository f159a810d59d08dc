/** The conversions of Go's strconv package that the routers apply to option and label values. */
module Strconv {
  import opened Router

  const TRUE_WORDS := ["1", "t", "T", "TRUE", "true", "True"]
  const FALSE_WORDS := ["0", "f", "F", "FALSE", "false", "False"]

  /** strconv.ParseBool: None stands for the error. */
  function ParseBool(s: string): Option<bool> {
    if s in TRUE_WORDS then Some(true) else if s in FALSE_WORDS then Some(false) else None
  }

  /** The boolean a caller gets who ignores the error. */
  predicate IsTrue(s: string) { ParseBool(s) == Some(true) }

  /** The words for true and for false, and no others. */
  lemma WordsParse(s: string)
    ensures IsTrue(s) <==> s in {"1", "t", "T", "true", "TRUE", "True"}
    ensures ParseBool(s).None? <==>
      s !in {"1", "t", "T", "true", "TRUE", "True", "0", "f", "F", "false", "FALSE", "False"}
  {
    assert TRUE_WORDS[0] == "1" && TRUE_WORDS[1] == "t" && TRUE_WORDS[2] == "T" && TRUE_WORDS[3] == "TRUE"
        && TRUE_WORDS[4] == "true" && TRUE_WORDS[5] == "True";
    assert FALSE_WORDS[0] == "0" && FALSE_WORDS[1] == "f" && FALSE_WORDS[2] == "F" && FALSE_WORDS[3] == "FALSE"
        && FALSE_WORDS[4] == "false" && FALSE_WORDS[5] == "False";
  }

  const MAX_UINT64 := 0xFFFF_FFFF_FFFF_FFFF
  const MAX_INT64 := 0x7FFF_FFFF_FFFF_FFFF

  datatype Parsed = Malformed | TooBig | Number(n: nat)

  /** strconv.ParseUint in base 10, which stops at the first character that overflows 64 bits. */
  function ParseUint(s: string, sofar: nat): Parsed {
    if s == "" then Number(sofar)
    else if !('0' <= s[0] <= '9') then Malformed
    else
      var n := sofar * 10 + (s[0] - '0') as int;
      if n > MAX_UINT64 then TooBig else ParseUint(s[1..], n)
  }

  /** strconv.Atoi with the error ignored: 0 for a malformed number, the nearest 64-bit integer for one out of range. */
  function Atoi(s: string): (r: int)
    ensures -0x8000_0000_0000_0000 <= r < 0x8000_0000_0000_0000
  {
    var negative := s != "" && s[0] == '-';
    var digits := if s != "" && (s[0] == '-' || s[0] == '+') then s[1..] else s;
    if digits == "" then 0
    else
      match ParseUint(digits, 0)
      case Malformed => 0
      case TooBig => if negative then -MAX_INT64 - 1 else MAX_INT64
      case Number(n) =>
        if negative then (if n > MAX_INT64 + 1 then -MAX_INT64 - 1 else 0 - n)
        else if n > MAX_INT64 then MAX_INT64 else n
  }

  function Digits(n: nat): (r: string)
    ensures r != "" && '0' <= r[0] <= '9' && (r[0] == '0' ==> r == "0")
  {
    var last := ['0' + (n % 10) as char];
    if n < 10 then last else Digits(n / 10) + last
  }

  /** What %d prints. */
  function Decimal(n: int): string {
    if n < 0 then "-" + Digits(-n) else Digits(n)
  }

  lemma {:induction false} ParseDigits(n: nat, rest: string)
    requires n <= MAX_UINT64
    ensures ParseUint(Digits(n) + rest, 0) == ParseUint(rest, n)
  {
    var last := ['0' + (n % 10) as char];
    assert (last + rest)[0] == last[0] && (last + rest)[1..] == rest;
    if n >= 10 {
      ParseDigits(n / 10, last + rest);
      assert Digits(n) + rest == Digits(n / 10) + (last + rest);
    }
  }

  lemma DigitsOfZero(n: nat)
    ensures Digits(n) == "0" ==> n == 0
  {
    if n < 10 {
      assert Digits(n)[0] == '0' + (n % 10) as char;
    } else {
      assert |Digits(n)| >= 2;
    }
  }

  /** Every 64-bit integer is read back from its decimal form, which has no sign but a minus and no leading zero. */
  lemma AtoiDecimal(n: int)
    requires -0x8000_0000_0000_0000 <= n < 0x8000_0000_0000_0000
    ensures Atoi(Decimal(n)) == n
    ensures Decimal(n)[0] == '-' <==> n < 0
    ensures n != 0 ==> Decimal(n)[0] != '0' && Decimal(n)[0] != '+'
  {
    var abs := if n < 0 then -n else n;
    assert ParseUint(Digits(abs), 0) == Number(abs) by {
      ParseDigits(abs, "");
      assert Digits(abs) + "" == Digits(abs);
    }
    assert n != 0 ==> Digits(abs) != "0" by { DigitsOfZero(abs); }
    hide ParseUint, Digits;
    if n < 0 { assert ("-" + Digits(abs))[1..] == Digits(abs); }
  }

  predicate AllDigits(s: string) { forall i :: 0 <= i < |s| ==> '0' <= s[i] <= '9' }

  /** The number a string of digits denotes. */
  function Value(s: string): nat
    requires AllDigits(s)
  {
    if s == "" then 0 else Value(s[..|s| - 1]) * 10 + (s[|s| - 1] - '0') as int
  }

  /** Some first digits of s denote a number beyond 64 bits. */
  ghost predicate Overflows(s: string) {
    exists k :: 0 <= k <= |s| && AllDigits(s[..k]) && Value(s[..k]) > 0xFFFF_FFFF_FFFF_FFFF
  }

  /** A longer prefix denotes no smaller number. */
  lemma {:induction false} ValueGrows(s: string, k: nat)
    requires AllDigits(s) && k <= |s|
    ensures Value(s[..k]) <= Value(s)
  {
    if k < |s| {
      ValueGrows(s[..|s| - 1], k);
      assert s[..|s| - 1][..k] == s[..k];
    } else {
      assert s[..k] == s;
    }
  }

  /** Scanning s from position i on, with the number denoted so far. */
  lemma {:induction false} ParseFrom(s: string, i: nat)
    requires i <= |s| && AllDigits(s[..i]) && Value(s[..i]) <= MAX_UINT64
    ensures var p := ParseUint(s[i..], Value(s[..i]));
      && (p.Number? ==> AllDigits(s) && p.n == Value(s) <= MAX_UINT64)
      && (p.TooBig? ==> Overflows(s))
      && (p.Malformed? ==> !AllDigits(s) && !Overflows(s))
    decreases |s| - i
  {
    if i == |s| {
      assert s[..i] == s;
    } else if '0' <= s[i] <= '9' {
      assert s[..i + 1][..i] == s[..i] && s[i..][1..] == s[i + 1..];
      if Value(s[..i + 1]) <= MAX_UINT64 { ParseFrom(s, i + 1); }
    } else {
      StopsAt(s, i);
    }
  }

  /** Nothing overflows before a character that is no digit. */
  lemma StopsAt(s: string, i: nat)
    requires i < |s| && AllDigits(s[..i]) && Value(s[..i]) <= MAX_UINT64 && !('0' <= s[i] <= '9')
    ensures !AllDigits(s) && !Overflows(s)
  {
    assert forall k :: i < k <= |s| ==> s[..k][i] == s[i];
    forall k | 0 <= k <= |s| && AllDigits(s[..k]) ensures Value(s[..k]) <= MAX_UINT64 {
      ValueGrows(s[..i], k);
      assert s[..i][..k] == s[..k];
    }
  }

  function Nearest(n: int): int {
    if n < -0x8000_0000_0000_0000 then -0x8000_0000_0000_0000
    else if n >= 0x8000_0000_0000_0000 then 0x7FFF_FFFF_FFFF_FFFF else n
  }

  /**
    What Atoi gives for every string: the 64-bit integer nearest to the number denoted by an optional sign
    and digits, and for anything else 0, unless the digits before the first other character leave 64 bits.
   */
  lemma AtoiExactly(s: string, sign: string, digits: string)
    requires s == sign + digits && sign in {"", "+", "-"}
    requires sign == "" && digits != "" ==> digits[0] != '+' && digits[0] != '-'
    ensures digits != "" && AllDigits(digits) ==>
      Atoi(s) == Nearest(if sign == "-" then 0 - Value(digits) else Value(digits))
    ensures digits == "" || !AllDigits(digits) ==>
      Atoi(s) == if !Overflows(digits) then 0
          else if sign == "-" then -0x8000_0000_0000_0000 else 0x7FFF_FFFF_FFFF_FFFF
  {
    assert ParseUint("", 0) == Number(0);
    hide ParseUint, AllDigits, Value, Overflows;
    ParseWhole(digits);
    if sign != "" { assert s[1..] == digits; } else { assert s == digits; }
  }

  /** Scanning all of s. */
  lemma ParseWhole(s: string)
    ensures match ParseUint(s, 0)
      case Number(n) => AllDigits(s) && n == Value(s) && !Overflows(s)
      case TooBig => Overflows(s) && (AllDigits(s) ==> Value(s) > MAX_UINT64)
      case Malformed => !AllDigits(s) && !Overflows(s)
  {
    hide ParseUint;
    assert s[..0] == "" && s[0..] == s;
    ParseFrom(s, 0);
    if AllDigits(s) && Overflows(s) {
      var k :| 0 <= k <= |s| && AllDigits(s[..k]) && Value(s[..k]) > MAX_UINT64;
      ValueGrows(s, k);
    }
  }

  /** Go's conversion to int32 keeps the low 32 bits. */
  function Int32(n: int): (r: int)
    ensures -0x8000_0000 <= r < 0x8000_0000 && (n - r) % 0x1_0000_0000 == 0
  {
    (n + 0x8000_0000) % 0x1_0000_0000 - 0x8000_0000
  }
}
