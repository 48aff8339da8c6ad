/**
  The JavaScript string operations the components rely on, restricted to
  ASCII: `toLowerCase`, `includes`, `Number.prototype.toString` for integers
  and `parseInt(text) || 0` for the quantity input.
 */
module Text {

  /** ASCII lowercase of one character; every other character is left alone. */
  function LowerChar(c: char): char
  {
    if 'A' <= c <= 'Z' then (c as int - 'A' as int + 'a' as int) as char else c
  }

  /** `s.toLowerCase()`, restricted to ASCII letters. */
  function Lower(s: string): (r: string)
    ensures |r| == |s|
    ensures forall i :: 0 <= i < |r| ==> !('A' <= r[i] <= 'Z')
    ensures forall i :: 0 <= i < |s| && !('A' <= s[i] <= 'Z') ==> r[i] == s[i]
    ensures forall i :: 0 <= i < |s| && 'A' <= s[i] <= 'Z' ==>
              'a' <= r[i] <= 'z' && r[i] as int - 'a' as int == s[i] as int - 'A' as int
  {
    seq(|s|, i requires 0 <= i < |s| => LowerChar(s[i]))
  }

  /** Lowercasing twice is lowercasing once. */
  lemma LowerIdempotent(s: string)
    ensures Lower(Lower(s)) == Lower(s)
  {
  }

  predicate IsPrefix(prefix: string, s: string)
  {
    |prefix| <= |s| && s[..|prefix|] == prefix
  }

  /** `s.includes(sub)`: `sub` occurs in `s` as a contiguous block. */
  predicate Contains(s: string, sub: string)
    decreases |s|
  {
    IsPrefix(sub, s) || (s != [] && Contains(s[1..], sub))
  }

  /** `s.toLowerCase().includes(sub.toLowerCase())`. */
  predicate ContainsIgnoringCase(s: string, sub: string)
  {
    Contains(Lower(s), Lower(sub))
  }

  /** `sub` sits in `s` starting at offset `k`. */
  predicate OccursAt(s: string, sub: string, k: int)
  {
    0 <= k && k + |sub| <= |s| && s[k..k + |sub|] == sub
  }

  /** `Contains` finds `sub` exactly when it sits at some offset of `s`. */
  lemma {:induction false} ContainsAt(s: string, sub: string)
    ensures Contains(s, sub) <==> exists k :: OccursAt(s, sub, k)
    decreases |s|
  {
    if s != [] {
      ContainsAt(s[1..], sub);
      if Contains(s[1..], sub) {
        var k :| OccursAt(s[1..], sub, k);
        assert s[k + 1..k + 1 + |sub|] == sub;
        assert OccursAt(s, sub, k + 1);
      }
      if IsPrefix(sub, s) {
        assert OccursAt(s, sub, 0);
      }
      if exists k :: OccursAt(s, sub, k) {
        var k :| OccursAt(s, sub, k);
        if k > 0 {
          assert s[1..][k - 1..k - 1 + |sub|] == sub;
          assert OccursAt(s[1..], sub, k - 1);
        }
      }
    } else {
      if IsPrefix(sub, s) {
        assert OccursAt(s, sub, 0);
      }
      if exists k :: OccursAt(s, sub, k) {
        assert IsPrefix(sub, s);
      }
    }
  }

  /** The empty search term is found in every string. */
  lemma EmptyIsEverywhere(s: string)
    ensures Contains(s, "") && ContainsIgnoringCase(s, "")
  {
    assert Lower("") == "";
  }

  // ---- integers and their decimal text ----

  predicate IsDigit(c: char)
  {
    '0' <= c <= '9'
  }

  function DigitChar(d: int): (c: char)
    requires 0 <= d < 10
    ensures IsDigit(c)
  {
    ('0' as int + d) as char
  }

  function DigitValue(c: char): int
    requires IsDigit(c)
  {
    c as int - '0' as int
  }

  /** The decimal digits of `n`, most significant first, with no leading zero. */
  function NatToString(n: nat): (s: string)
    ensures |s| > 0 && forall i :: 0 <= i < |s| ==> IsDigit(s[i])
    decreases n
  {
    if n < 10 then [DigitChar(n)] else NatToString(n / 10) + [DigitChar(n % 10)]
  }

  /** `n.toString()` for an integer `n`. */
  function IntToString(n: int): string
  {
    if n < 0 then "-" + NatToString(-n) else NatToString(n)
  }

  /** The value of a string of decimal digits. */
  function DigitsValue(ds: string): nat
    requires forall i :: 0 <= i < |ds| ==> IsDigit(ds[i])
    decreases |ds|
  {
    if ds == [] then 0 else DigitsValue(ds[..|ds| - 1]) * 10 + DigitValue(ds[|ds| - 1])
  }

  /** The longest prefix of `s` made of decimal digits. */
  function LeadingDigits(s: string): (ds: string)
    ensures IsPrefix(ds, s)
    ensures forall i :: 0 <= i < |ds| ==> IsDigit(ds[i])
    ensures |ds| < |s| ==> !IsDigit(s[|ds|])
    decreases |s|
  {
    if s != [] && IsDigit(s[0]) then [s[0]] + LeadingDigits(s[1..]) else []
  }

  /** The white space `parseInt` skips before the number. */
  predicate IsJsSpace(c: char)
  {
    c == ' ' || c == '\t' || c == '\n' || c == '\r' || c == '\U{000B}' || c == '\U{000C}' ||
    c == '\U{00A0}' || c == '\U{FEFF}' || c == '\U{2028}' || c == '\U{2029}'
  }

  function TrimStart(s: string): (t: string)
    ensures |t| <= |s| && t == s[|s| - |t|..]
    ensures t != [] ==> !IsJsSpace(t[0])
    decreases |s|
  {
    if s != [] && IsJsSpace(s[0]) then TrimStart(s[1..]) else s
  }

  /**
    `parseInt(s) || 0` in base ten: leading white space is skipped, one sign
    is read, then the longest run of digits; text with no digit there gives
    `NaN`, which `|| 0` turns into 0 (as it does `-0`).
   */
  function ParseIntOrZero(s: string): int
  {
    var t := TrimStart(s);
    var negative := t != [] && t[0] == '-';
    var body := if t != [] && (t[0] == '-' || t[0] == '+') then t[1..] else t;
    var ds := LeadingDigits(body);
    if ds == [] then 0
    else if negative then -(DigitsValue(ds) as int)
    else DigitsValue(ds)
  }

  lemma {:induction false} DigitsValueOfNatToString(n: nat)
    ensures DigitsValue(NatToString(n)) == n
    decreases n
  {
    var s := NatToString(n);
    if n >= 10 {
      DigitsValueOfNatToString(n / 10);
      assert s[..|s| - 1] == NatToString(n / 10);
    }
  }

  lemma {:induction false} LeadingDigitsOfDigits(ds: string)
    requires forall i :: 0 <= i < |ds| ==> IsDigit(ds[i])
    ensures LeadingDigits(ds) == ds
    decreases |ds|
  {
    if ds != [] {
      LeadingDigitsOfDigits(ds[1..]);
      assert [ds[0]] + ds[1..] == ds;
    }
  }

  /** Reading back the decimal text of an integer gives the integer: `parseInt(String(n)) || 0 == n`. */
  lemma {:induction false} ParseIntOfIntToString(n: int)
    ensures ParseIntOrZero(IntToString(n)) == n
  {
    var m: nat := if n < 0 then -n else n;
    var d := NatToString(m);
    DigitsValueOfNatToString(m);
    IntToStringParts(n);
    if n < 0 {
      ParseIntOfNegatedDigits(d);
    } else {
      ParseIntOfDigits(d);
    }
  }

  /** The text of an integer is the digits of its magnitude, after a minus sign when it is negative. */
  lemma IntToStringParts(n: int)
    ensures n < 0 ==> IntToString(n) == "-" + NatToString(-n)
    ensures n >= 0 ==> IntToString(n) == NatToString(n)
  {
  }

  /** A non-empty run of digits reads as its value. */
  lemma {:induction false} ParseIntOfDigits(s: string)
    requires s != [] && forall i :: 0 <= i < |s| ==> IsDigit(s[i])
    ensures ParseIntOrZero(s) == DigitsValue(s)
  {
    assert IsDigit(s[0]);
    assert !IsJsSpace(s[0]) && s[0] != '-' && s[0] != '+';
    assert TrimStart(s) == s;
    LeadingDigitsOfDigits(s);
  }

  /** A minus sign and a non-empty run of digits read as the negated value. */
  lemma {:induction false} ParseIntOfNegatedDigits(d: string)
    requires d != [] && forall i :: 0 <= i < |d| ==> IsDigit(d[i])
    ensures ParseIntOrZero("-" + d) == -(DigitsValue(d) as int)
  {
    var s := "-" + d;
    assert s[0] == '-' && !IsJsSpace(s[0]);
    assert TrimStart(s) == s;
    assert s[1..] == d;
    LeadingDigitsOfDigits(d);
  }

  /** Distinct integers have distinct decimal texts, so an `id.toString()` lookup finds one id. */
  lemma IntToStringInjective(m: int, n: int)
    requires IntToString(m) == IntToString(n)
    ensures m == n
  {
    ParseIntOfIntToString(m);
    ParseIntOfIntToString(n);
  }

  /** Text in which no digit occurs is read as 0. */
  lemma ParseIntWithoutDigits(s: string)
    requires forall i :: 0 <= i < |s| ==> !IsDigit(s[i])
    ensures ParseIntOrZero(s) == 0
  {
    var t := TrimStart(s);
    var body := if t != [] && (t[0] == '-' || t[0] == '+') then t[1..] else t;
    if body != [] {
      assert body[0] in s;
    }
  }
}
