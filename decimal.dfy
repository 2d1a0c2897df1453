/** Decimal text for unsigned integers: the rendering Rust's `Display` gives a
    `u64`, and the `u64` parser behind `FromStr`. */
module Decimal {

  const U64_MAX: nat := 0xFFFF_FFFF_FFFF_FFFF

  predicate IsDigit(c: char) { '0' <= c <= '9' }

  predicate AllDigits(s: string) { forall i :: 0 <= i < |s| ==> IsDigit(s[i]) }

  function DigitChar(d: nat): (c: char)
    requires d < 10
    ensures IsDigit(c)
  {
    ('0' as int + d) as char
  }

  function DigitValue(c: char): (d: nat)
    requires IsDigit(c)
    ensures d < 10
  {
    c as int - '0' as int
  }

  function Pow10(k: nat): (p: nat)
    ensures p >= 1
  {
    if k == 0 then 1 else 10 * Pow10(k - 1)
  }

  /** The number a string of decimal digits denotes (most significant first). */
  function DigitsValue(s: string): nat
    requires AllDigits(s)
  {
    if s == [] then 0 else DigitsValue(s[..|s| - 1]) * 10 + DigitValue(s[|s| - 1])
  }

  /** Decimal rendering of `n`: digits only, no sign, no leading zero. */
  function ShowNat(n: nat): (s: string)
    ensures |s| >= 1 && AllDigits(s)
    ensures s[0] == '0' ==> s == "0"
    ensures DigitsValue(s) == n
  {
    if n < 10 then [DigitChar(n)]
    else
      var prefix := ShowNat(n / 10);
      var s := prefix + [DigitChar(n % 10)];
      assert s[..|s| - 1] == prefix;
      s
  }

  /** Two numbers render the same only when they are equal. */
  lemma ShowNatInjective(m: nat, n: nat)
    requires ShowNat(m) == ShowNat(n)
    ensures m == n
  {
  }

  /** Peeling off the most significant digit. */
  lemma {:induction false} DigitsValueCons(c: char, rest: string)
    requires IsDigit(c) && AllDigits(rest)
    ensures AllDigits([c] + rest)
    ensures DigitsValue([c] + rest) == DigitValue(c) * Pow10(|rest|) + DigitsValue(rest)
  {
    var s := [c] + rest;
    if rest != [] {
      var init := rest[..|rest| - 1];
      assert s[..|s| - 1] == [c] + init;
      DigitsValueCons(c, init);
      var d, p, v := DigitValue(c), Pow10(|init|), DigitsValue(init);
      var last := DigitValue(rest[|rest| - 1]);
      assert s[|s| - 1] == rest[|rest| - 1];
      assert DigitsValue(s) == (d * p + v) * 10 + last;
      assert Pow10(|rest|) == p * 10 && DigitsValue(rest) == v * 10 + last;
      AppendDigit(d, p, v, last);
    }
  }

  lemma AppendDigit(d: nat, p: nat, v: nat, last: nat)
    ensures (d * p + v) * 10 + last == d * (p * 10) + (v * 10 + last)
  {
  }

  /** Why `u64::from_str` fails. */
  datatype IntErrorKind = Empty | InvalidDigit | PosOverflow

  datatype ParseResult = Parsed(value: nat) | Failed(kind: IntErrorKind)

  /** The digit loop of `u64::from_str`: left to right, a non-digit fails with
      `InvalidDigit`, a value above `U64_MAX` with `PosOverflow`, whichever
      character comes first. */
  function Accumulate(digits: string, acc: nat): ParseResult
    requires acc <= U64_MAX
    decreases |digits|
  {
    if digits == [] then Parsed(acc)
    else if !IsDigit(digits[0]) then Failed(InvalidDigit)
    else if acc * 10 + DigitValue(digits[0]) > U64_MAX then Failed(PosOverflow)
    else Accumulate(digits[1..], acc * 10 + DigitValue(digits[0]))
  }

  /** The digits `u64::from_str` reads: a leading `+` is skipped. */
  function Unsigned(s: string): string
  {
    if |s| > 0 && s[0] == '+' then s[1..] else s
  }

  /** Rust's `u64::from_str`: the empty string is `Empty`, a lone sign is
      `InvalidDigit`, otherwise an optional `+` and the digit loop. */
  function ParseU64(s: string): ParseResult
  {
    if s == [] then Failed(Empty)
    else if s == "+" || s == "-" then Failed(InvalidDigit)
    else Accumulate(Unsigned(s), 0)
  }

  /** Reading one more digit multiplies what was read so far by ten. */
  lemma ShiftDigit(acc: nat, d: nat, p: nat, v: nat)
    ensures acc * (10 * p) + (d * p + v) == (acc * 10 + d) * p + v
  {
    calc {
      acc * (10 * p) + (d * p + v);
      (acc * 10) * p + d * p + v;
      (acc * 10 + d) * p + v;
    }
  }

  lemma AtMostMultiple(a: nat, p: nat)
    requires p >= 1
    ensures a <= a * p
  {
  }

  lemma AllDigitsCons(c: char, rest: string)
    ensures AllDigits([c] + rest) <==> IsDigit(c) && AllDigits(rest)
  {
    var s := [c] + rest;
    assert s[0] == c;
    if IsDigit(c) && !AllDigits(rest) {
      var i :| 0 <= i < |rest| && !IsDigit(rest[i]);
      assert s[i + 1] == rest[i];
    } else if IsDigit(c) {
      forall i | 0 <= i < |s| ensures IsDigit(s[i]) {
        if i > 0 { assert s[i] == rest[i - 1]; }
      }
    }
  }

  /** The digit loop succeeds exactly on digit strings whose value, read after
      `acc`, fits in 64 bits, and then returns that value. */
  lemma {:induction false} AccumulateValue(digits: string, acc: nat)
    requires acc <= U64_MAX
    ensures Accumulate(digits, acc).Parsed? <==>
              AllDigits(digits) && acc * Pow10(|digits|) + DigitsValue(digits) <= U64_MAX
    ensures Accumulate(digits, acc).Parsed? ==>
              Accumulate(digits, acc).value == acc * Pow10(|digits|) + DigitsValue(digits)
    decreases |digits|
  {
    if digits != [] {
      var c, rest := digits[0], digits[1..];
      assert digits == [c] + rest;
      AllDigitsCons(c, rest);
      if IsDigit(c) {
        var next := acc * 10 + DigitValue(c);
        if AllDigits(rest) {
          var p := Pow10(|rest|);
          assert Pow10(|digits|) == 10 * p;
          DigitsValueCons(c, rest);
          ShiftDigit(acc, DigitValue(c), p, DigitsValue(rest));
          AtMostMultiple(next, p);
        }
        if next <= U64_MAX {
          AccumulateValue(rest, next);
        }
      }
    }
  }

  /** `u64::from_str` accepts exactly an optional `+` followed by at least one
      digit with a value of at most `U64_MAX`, and returns that value. */
  lemma ParseU64Spec(s: string)
    ensures ParseU64(s).Parsed? <==>
              |Unsigned(s)| > 0 && AllDigits(Unsigned(s)) && DigitsValue(Unsigned(s)) <= U64_MAX
    ensures ParseU64(s).Parsed? ==> ParseU64(s).value == DigitsValue(Unsigned(s))
  {
    AccumulateValue(Unsigned(s), 0);
    if s == "-" {
      assert !IsDigit(Unsigned(s)[0]);
    }
  }

  /** Parsing a rendered value gives the value back. */
  lemma ParseShowNat(n: nat)
    requires n <= U64_MAX
    ensures ParseU64(ShowNat(n)) == Parsed(n)
  {
    var s := ShowNat(n);
    assert Unsigned(s) == s;
    ParseU64Spec(s);
  }
}
