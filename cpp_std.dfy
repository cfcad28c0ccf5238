/** The few pieces of the C++ standard library whose exact behaviour the
    classifier's key and label handling depends on: `size_t` arithmetic
    with its wrap-around, `std::string::find_last_of`, `std::string::substr`
    and `std::to_string` on non-negative integers. */
module CppStd {

  datatype Option<+T> = None | Some(value: T)

  /** `size_t` on a 64-bit platform. */
  const SizeModulus: nat := 0x1_0000_0000_0000_0000
  type SizeT = n: nat | n < SizeModulus

  /** `std::string::npos`, the largest `size_t`. */
  const NPos: SizeT := SizeModulus - 1

  /** A C++ string: never longer than `npos` characters. */
  predicate FitsString(s: string) { |s| < NPos }

  /** `a + b` on `size_t`, which wraps around. */
  function SizeAdd(a: SizeT, b: SizeT): (r: SizeT)
    ensures a + b < SizeModulus ==> r == a + b
    ensures a + b >= SizeModulus ==> r == a + b - SizeModulus
  {
    (a + b) % SizeModulus
  }

  function Min(a: nat, b: nat): nat { if a <= b then a else b }

  /** `s.find_last_of(c)`: the index of the last `c` in `s`, or `npos`. */
  function FindLastOf(s: string, c: char): (pos: SizeT)
    requires FitsString(s)
    ensures pos == NPos <==> c !in s
    ensures pos != NPos ==> pos < |s| && s[pos] == c && c !in s[pos + 1..]
  {
    if |s| == 0 then NPos
    else if s[|s| - 1] == c then |s| - 1
    else
      var p := FindLastOf(s[..|s| - 1], c);
      assert p != NPos ==> s[p + 1..] == s[..|s| - 1][p + 1..] + [s[|s| - 1]];
      assert s == s[..|s| - 1] + [s[|s| - 1]];
      p
  }

  /** `s.substr(pos, count)`: `None` stands for the `std::out_of_range`
      it throws when `pos` lies beyond the end of `s`. */
  function Substr(s: string, pos: SizeT, count: SizeT := NPos): (r: Option<string>)
    ensures r.Some? <==> pos <= |s|
    ensures r.Some? ==> |r.value| == Min(count, |s| - pos)
    ensures r.Some? ==> r.value == s[pos..pos + |r.value|]
  {
    if pos > |s| then None else Some(s[pos..pos + Min(count, |s| - pos)])
  }

  function DigitChar(d: nat): (c: char)
    requires d < 10
    ensures '0' <= c <= '9'
  {
    ['0', '1', '2', '3', '4', '5', '6', '7', '8', '9'][d]
  }

  /** `std::to_string(n)` for `n >= 0`: decimal digits, no leading zeros. */
  function ToString(n: nat): (s: string)
    ensures |s| >= 1
    ensures n >= 10 ==> |s| >= 2
    ensures forall k :: 0 <= k < |s| ==> '0' <= s[k] <= '9'
  {
    if n < 10 then [DigitChar(n)] else ToString(n / 10) + [DigitChar(n % 10)]
  }

  lemma DigitCharInjective(a: nat, b: nat)
    requires a < 10 && b < 10 && DigitChar(a) == DigitChar(b)
    ensures a == b
  {
  }

  /** Distinct numbers have distinct decimal representations. */
  lemma {:induction false} ToStringInjective(a: nat, b: nat)
    requires ToString(a) == ToString(b)
    ensures a == b
  {
    if a < 10 && b < 10 {
      DigitCharInjective(a, b);
    } else if a >= 10 && b >= 10 {
      var sa, sb := ToString(a), ToString(b);
      assert sa[..|sa| - 1] == ToString(a / 10);
      assert sb[..|sb| - 1] == ToString(b / 10);
      ToStringInjective(a / 10, b / 10);
      assert sa[|sa| - 1] == DigitChar(a % 10);
      assert sb[|sb| - 1] == DigitChar(b % 10);
      DigitCharInjective(a % 10, b % 10);
    }
  }

  /** Appending the same suffix to two strings keeps them apart. */
  lemma AppendCancel(a: string, b: string, suffix: string)
    requires a + suffix == b + suffix
    ensures a == b
  {
    assert |a| == |b|;
    assert a == (a + suffix)[..|a|];
    assert b == (b + suffix)[..|b|];
  }

  /** Prepending the same prefix to two strings keeps them apart. */
  lemma PrependCancel(prefix: string, a: string, b: string)
    requires prefix + a == prefix + b
    ensures a == b
  {
    assert a == (prefix + a)[|prefix|..];
    assert b == (prefix + b)[|prefix|..];
  }
}
