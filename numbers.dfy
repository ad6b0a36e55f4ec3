/**
 * Go's 64-bit integers and their decimal text: `%d` formatting and
 * `strconv.Atoi` on a 64-bit platform, plus the int64 wrap-around and the
 * truncating division that the agent's arithmetic uses.
 */
module Numbers {
  import opened Wrappers

  const Int64Min: int := -0x8000_0000_0000_0000
  const Int64Max: int := 0x7FFF_FFFF_FFFF_FFFF

  predicate IsInt64(n: int)
  {
    Int64Min <= n <= Int64Max
  }

  /** Go's `int64` addition: the mathematical result wrapped into the int64 range. */
  function Wrap64(x: int): (r: int)
    ensures IsInt64(r)
    ensures IsInt64(x) ==> r == x
    ensures (x - r) % 0x1_0000_0000_0000_0000 == 0
  {
    (x - Int64Min) % 0x1_0000_0000_0000_0000 + Int64Min
  }

  /** Go's integer division, which truncates toward zero. */
  function Quot(a: int, b: int): (q: int)
    requires b > 0
    ensures a >= 0 ==> q * b <= a < q * b + b
    ensures a < 0 ==> q * b - b < a <= q * b
  {
    if a >= 0 then a / b else -((-a) / b)
  }

  predicate IsDigit(c: char)
  {
    '0' <= c <= '9'
  }

  predicate AllDigits(s: string)
  {
    forall i :: 0 <= i < |s| ==> IsDigit(s[i])
  }

  /** The value of a run of decimal digits, most significant first. */
  function DigitsValue(s: string): nat
    requires AllDigits(s)
  {
    if s == [] then 0
    else DigitsValue(s[..|s| - 1]) * 10 + (s[|s| - 1] as int - '0' as int)
  }

  /** The decimal digits of `n`, without leading zeros. */
  function NatDigits(n: nat): (s: string)
    ensures s != [] && AllDigits(s)
    ensures DigitsValue(s) == n
    ensures n > 0 ==> s[0] != '0'
  {
    var last := ('0' as int + n % 10) as char;
    if n < 10 then [last]
    else
      var s := NatDigits(n / 10) + [last];
      assert s[..|s| - 1] == NatDigits(n / 10);
      s
  }

  /** `fmt.Sprintf("%d", n)` */
  function FormatInt(n: int): (s: string)
    ensures s != []
    ensures forall i :: 0 <= i < |s| ==> IsDigit(s[i]) || (i == 0 && s[i] == '-')
  {
    if n < 0 then "-" + NatDigits(-n) else NatDigits(n)
  }

  /**
   * `strconv.Atoi(s)` with a 64-bit `int`: an optional sign, then at least one
   * decimal digit and nothing else, with a value in the int64 range; anything
   * else is an error.
   */
  function Atoi(s: string): (r: Option<int>)
    ensures r.Some? ==> IsInt64(r.value)
    ensures r.Some? ==> s != [] && (IsDigit(s[0]) || s[0] == '+' || s[0] == '-')
  {
    if s == [] then None
    else
      var digits := if s[0] == '-' || s[0] == '+' then s[1..] else s;
      if digits == [] || !AllDigits(digits) then None
      else
        var n: int := if s[0] == '-' then -(DigitsValue(digits) as int) else DigitsValue(digits);
        if IsInt64(n) then Some(n) else None
  }

  /** Reading back what `%d` wrote gives the number, exactly when it is an int64. */
  lemma AtoiFormatInt(n: int)
    ensures Atoi(FormatInt(n)) == if IsInt64(n) then Some(n) else None
  {
    var s := FormatInt(n);
    if n < 0 {
      assert s[0] == '-' && s[1..] == NatDigits(-n);
    } else {
      assert s == NatDigits(n) && IsDigit(s[0]);
    }
  }

  /** A non-digit, non-sign character makes `Atoi` fail. */
  lemma AtoiRejectsNonDigit(s: string, i: int)
    requires 0 <= i < |s| && !IsDigit(s[i])
    requires i > 0 || (s[0] != '-' && s[0] != '+')
    ensures Atoi(s) == None
  {
    if Atoi(s).Some? {
      var digits := if s[0] == '-' || s[0] == '+' then s[1..] else s;
      if s[0] == '-' || s[0] == '+' {
        assert digits[i - 1] == s[i];
      } else {
        assert digits[i] == s[i];
      }
    }
  }
}
