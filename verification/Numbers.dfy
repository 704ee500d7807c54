/** Decimal numbers as Rust prints and parses unsigned integers. */
module Numbers {
  import opened Basics

  predicate IsDigit(c: char) {
    '0' <= c <= '9'
  }

  /** `n.to_string()`. */
  function Decimal(n: nat): (s: string)
    ensures s != [] && forall i :: 0 <= i < |s| ==> IsDigit(s[i])
    ensures s[0] == '0' ==> |s| == 1 && n == 0
  {
    if n < 10 then [('0' as int + n) as char] else Decimal(n / 10) + [('0' as int + n % 10) as char]
  }

  predicate AllDigits(s: string) {
    forall i :: 0 <= i < |s| ==> IsDigit(s[i])
  }

  function Value(s: string): nat
    requires AllDigits(s)
  {
    if s == [] then 0 else 10 * Value(s[..|s| - 1]) + (s[|s| - 1] as int - '0' as int)
  }

  /** `s.parse::<uN>()` for a type whose largest value is `max`: an optional '+', then at least one digit. */
  function ParseUnsigned(s: string, max: nat): Option<nat> {
    var digits := if s != [] && s[0] == '+' then s[1..] else s;
    if digits != [] && AllDigits(digits) && Value(digits) <= max then Some(Value(digits)) else None
  }

  /** The ten digits and what each stands for. */
  lemma DigitsInText(c: char)
    ensures IsDigit(c) <==> c in "0123456789"
    ensures forall d: nat :: d < 10 ==> AllDigits(["0123456789"[d]]) && Value(["0123456789"[d]]) == d
  {
    assert "0123456789"[0] == '0' && "0123456789"[1] == '1' && "0123456789"[2] == '2' && "0123456789"[3] == '3';
    assert "0123456789"[4] == '4' && "0123456789"[5] == '5' && "0123456789"[6] == '6' && "0123456789"[7] == '7';
    assert "0123456789"[8] == '8' && "0123456789"[9] == '9';
  }

  lemma {:induction false} ValueOfDecimal(n: nat)
    ensures AllDigits(Decimal(n)) && Value(Decimal(n)) == n
  {
    if n < 10 {
      assert Decimal(n)[..0] == [];
    } else {
      ValueOfDecimal(n / 10);
      var s := Decimal(n);
      assert s[..|s| - 1] == Decimal(n / 10);
    }
  }

  /** Printing and parsing are inverse up to the limit. */
  lemma ParseDecimal(n: nat, max: nat)
    ensures ParseUnsigned(Decimal(n), max) == if n <= max then Some(n) else None
  {
    ValueOfDecimal(n);
    assert IsDigit(Decimal(n)[0]);
  }

  function Pow10(k: nat): nat {
    if k == 0 then 1 else 10 * Pow10(k - 1)
  }

  /** The digit in front weighs ten times the next, and so on: decimal, most significant digit first. */
  lemma {:induction false} ValueFront(c: char, s: string)
    requires IsDigit(c) && AllDigits(s)
    ensures AllDigits([c] + s) && Value([c] + s) == (c as int - '0' as int) * Pow10(|s|) + Value(s)
  {
    var whole := [c] + s;
    if s == [] {
      assert whole[..0] == [];
    } else {
      var init := s[..|s| - 1];
      assert whole[..|whole| - 1] == [c] + init;
      ValueFront(c, init);
      Tenfold(c as int - '0' as int, Pow10(|init|));
    }
  }

  lemma Tenfold(d: int, p: int)
    ensures 10 * (d * p) == d * (10 * p)
  {
  }

  /** What parses: digits with an optional plus sign in front, up to the limit, and nothing else. */
  lemma ParseMeans(s: string, max: nat)
    ensures s != [] && AllDigits(s) ==>
              ParseUnsigned(s, max) == ParseUnsigned("+" + s, max) == if Value(s) <= max then Some(Value(s)) else None
    ensures ParseUnsigned(s, max).Some? ==>
              exists d: string :: d != [] && AllDigits(d) && (s == d || s == "+" + d)
                                  && ParseUnsigned(s, max) == Some(Value(d)) && Value(d) <= max
  {
    assert ("+" + s)[1..] == s;
    if ParseUnsigned(s, max).Some? {
      var d := if s[0] == '+' then s[1..] else s;
      assert s == d || s == "+" + d;
    }
  }
}
