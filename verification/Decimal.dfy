/** Decimal rendering as `format!` does it, plain (`{}`) and zero-padded (`{:05}`). */
module Decimal {
  function Digit(d: nat): (c: char)
    requires d < 10
  {
    ('0' as int + d) as char
  }

  /** `format!("{}", n)`. */
  function Render(n: nat): (s: string)
    ensures s != []
  {
    if n < 10 then [Digit(n)] else Render(n / 10) + [Digit(n % 10)]
  }

  /** Two numbers with the same rendering are the same number. */
  lemma {:induction false} RenderInjective(m: nat, n: nat)
    requires Render(m) == Render(n)
    ensures m == n
  {
    assert m >= 10 ==> |Render(m)| == |Render(m / 10)| + 1 > 1;
    assert n >= 10 ==> |Render(n)| == |Render(n / 10)| + 1 > 1;
    assert Render(m)[|Render(m)| - 1] == Digit(m % 10);
    assert Render(n)[|Render(n)| - 1] == Digit(n % 10);
    if m >= 10 && n >= 10 {
      assert Render(m)[..|Render(m)| - 1] == Render(m / 10);
      assert Render(n)[..|Render(n)| - 1] == Render(n / 10);
      RenderInjective(m / 10, n / 10);
    }
  }

  /** The last `width` digits of `n`, with leading zeros. */
  function Pad(n: nat, width: nat): (s: string)
    ensures |s| == width
  {
    if width == 0 then [] else Pad(n / 10, width - 1) + [Digit(n % 10)]
  }

  function Limit(width: nat): nat {
    if width == 0 then 1 else 10 * Limit(width - 1)
  }

  /** Padded rendering is injective on the numbers that fit the width. */
  lemma {:induction false} PadInjective(m: nat, n: nat, width: nat)
    requires m < Limit(width) && n < Limit(width)
    requires Pad(m, width) == Pad(n, width)
    ensures m == n
  {
    if width > 0 {
      assert Pad(m, width)[..width - 1] == Pad(m / 10, width - 1);
      assert Pad(n, width)[..width - 1] == Pad(n / 10, width - 1);
      assert Pad(m, width)[width - 1] == Digit(m % 10);
      assert Pad(n, width)[width - 1] == Digit(n % 10);
      PadInjective(m / 10, n / 10, width - 1);
    }
  }

  predicate IsDigits(s: string) {
    s != [] && forall c <- s :: '0' <= c <= '9'
  }

  function Value(s: string): nat {
    if s == [] then 0
    else
      var c := s[|s| - 1];
      10 * Value(s[..|s| - 1]) + if '0' <= c <= '9' then (c as int - '0' as int) as nat else 0
  }

  const MIN_I64: int := -0x8000_0000_0000_0000
  const MAX_I64: int := 0x7FFF_FFFF_FFFF_FFFF

  /** `i64::from_str`: digits after an optional sign, in range. */
  predicate ParsesI64(s: string) {
    if s != [] && s[0] == '-' then IsDigits(s[1..]) && MIN_I64 <= 0 - Value(s[1..])
    else
      var digits := if s != [] && s[0] == '+' then s[1..] else s;
      IsDigits(digits) && Value(digits) <= MAX_I64
  }

  /** A rendering is the decimal notation of its number, without a leading zero. */
  lemma {:induction false} RenderValue(n: nat)
    ensures IsDigits(Render(n)) && Value(Render(n)) == n && (Render(n)[0] == '0' ==> n == 0)
  {
    var s := Render(n);
    if n >= 10 {
      RenderValue(n / 10);
      assert s[..|s| - 1] == Render(n / 10) && s[|s| - 1] == Digit(n % 10);
      forall c <- s ensures '0' <= c <= '9' {
        assert c in Render(n / 10) || c == Digit(n % 10);
      }
    } else {
      assert s[..0] == [];
    }
  }

  /** A padded rendering is the decimal notation of a number that fits. */
  lemma {:induction false} PadValue(n: nat, width: nat)
    requires n < Limit(width) && width > 0
    ensures IsDigits(Pad(n, width)) && Value(Pad(n, width)) == n
  {
    var s := Pad(n, width);
    assert s[..width - 1] == Pad(n / 10, width - 1) && s[width - 1] == Digit(n % 10);
    if width > 1 {
      PadValue(n / 10, width - 1);
      forall c <- s ensures '0' <= c <= '9' {
        assert c in Pad(n / 10, width - 1) || c == Digit(n % 10);
      }
    } else {
      assert s[..0] == [];
    }
  }
}
