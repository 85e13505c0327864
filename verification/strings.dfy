/** The few Python string builtins the core relies on, over `string` with ASCII digits:
    `str(n)`, `int(s)`, `re.findall(r"\d+", s)[0]`, `s.replace(pat, "")` and `t in s`. */
module Strings {
  import opened Common

  predicate IsDigit(c: char)
  {
    '0' <= c <= '9'
  }

  predicate AllDigits(s: string)
  {
    forall i :: 0 <= i < |s| ==> IsDigit(s[i])
  }

  predicate NoDigits(s: string)
  {
    forall i :: 0 <= i < |s| ==> !IsDigit(s[i])
  }

  function DigitValue(c: char): nat
    requires IsDigit(c)
  {
    (c as int) - ('0' as int)
  }

  function DigitChar(d: nat): (c: char)
    requires d < 10
    ensures IsDigit(c) && DigitValue(c) == d
  {
    (('0' as int) + d) as char
  }

  /** `str(n)` for a non-negative integer: its shortest decimal spelling. */
  function NatToString(n: nat): (s: string)
    ensures |s| > 0 && AllDigits(s)
  {
    if n < 10 then [DigitChar(n)] else NatToString(n / 10) + [DigitChar(n % 10)]
  }

  /** `str(i)` for any integer. */
  function IntToString(i: int): string
  {
    if i < 0 then "-" + NatToString(-i) else NatToString(i)
  }

  /** The value of a string of decimal digits (leading zeros allowed, "" is 0). */
  function DigitsValue(s: string): nat
    requires AllDigits(s)
  {
    if s == [] then 0 else DigitsValue(s[..|s| - 1]) * 10 + DigitValue(s[|s| - 1])
  }

  /** `int(s)`: an optional sign followed by at least one decimal digit; anything else is
      the ValueError case, here `None`. */
  function ParseInt(s: string): Option<int>
  {
    if |s| > 0 && (s[0] == '-' || s[0] == '+') then
      if |s| > 1 && AllDigits(s[1..]) then
        Some(if s[0] == '-' then -(DigitsValue(s[1..]) as int) else DigitsValue(s[1..]))
      else None
    else if |s| > 0 && AllDigits(s) then Some(DigitsValue(s))
    else None
  }

  lemma {:induction false} DigitsValueOfNatToString(n: nat)
    ensures DigitsValue(NatToString(n)) == n
  {
    if n >= 10 {
      var s := NatToString(n);
      assert s[..|s| - 1] == NatToString(n / 10);
      DigitsValueOfNatToString(n / 10);
    }
  }

  /** `int(str(i)) == i`. */
  lemma ParseIntOfIntToString(i: int)
    ensures ParseInt(IntToString(i)) == Some(i)
  {
    if i < 0 {
      assert IntToString(i)[1..] == NatToString(-i);
      DigitsValueOfNatToString(-i);
    } else {
      DigitsValueOfNatToString(i);
    }
  }

  /** The longest prefix of `s` made of digits. */
  function TakeDigits(s: string): (r: string)
    ensures r <= s && AllDigits(r)
    ensures |r| < |s| ==> !IsDigit(s[|r|])
  {
    if s == [] || !IsDigit(s[0]) then [] else [s[0]] + TakeDigits(s[1..])
  }

  /** `re.findall(r"\d+", s)[0]`: the first maximal run of digits; `None` when there is
      no digit at all (the IndexError case of `[0]`). */
  function FirstDigitRun(s: string): (r: Option<string>)
    ensures r.None? <==> NoDigits(s)
    ensures r.Some? ==> |r.value| > 0 && AllDigits(r.value)
  {
    if s == [] then None
    else if IsDigit(s[0]) then Some(TakeDigits(s))
    else FirstDigitRun(s[1..])
  }

  lemma {:induction false} TakeDigitsOfRun(d: string, q: string)
    requires AllDigits(d)
    requires q == [] || !IsDigit(q[0])
    ensures TakeDigits(d + q) == d
  {
    if d != [] {
      assert (d + q)[1..] == d[1..] + q;
      TakeDigitsOfRun(d[1..], q);
    }
  }

  /** The first run of digits of `p + d + q` is `d` when `p` has no digit and `q` does
      not continue the run. */
  lemma {:induction false} FirstDigitRunOfInfix(p: string, d: string, q: string)
    requires NoDigits(p)
    requires |d| > 0 && AllDigits(d)
    requires q == [] || !IsDigit(q[0])
    ensures FirstDigitRun(p + d + q) == Some(d)
  {
    if p == [] {
      assert p + d + q == d + q;
      TakeDigitsOfRun(d, q);
    } else {
      assert (p + d + q)[1..] == p[1..] + d + q;
      FirstDigitRunOfInfix(p[1..], d, q);
    }
  }

  /** `t in s` for strings. */
  predicate Contains(s: string, t: string)
    decreases |s|
  {
    (|t| <= |s| && s[..|t|] == t) || (|s| > 0 && Contains(s[1..], t))
  }

  /** `t` occurs in `s` starting at position `k`. */
  predicate OccursAt(s: string, t: string, k: int)
  {
    0 <= k <= |s| - |t| && s[k..k + |t|] == t
  }

  /** `Contains` agrees with the textbook definition of a substring. */
  lemma {:induction false} ContainsIffOccurrence(s: string, t: string)
    ensures Contains(s, t) <==> exists k :: OccursAt(s, t, k)
  {
    if |s| > 0 {
      ContainsIffOccurrence(s[1..], t);
      if |t| <= |s| && s[..|t|] == t {
        assert s[0..|t|] == s[..|t|];
        assert OccursAt(s, t, 0);
      }
      if Contains(s[1..], t) {
        var k :| OccursAt(s[1..], t, k);
        assert s[k + 1..k + 1 + |t|] == s[1..][k..k + |t|];
        assert OccursAt(s, t, k + 1);
      }
      if exists k :: OccursAt(s, t, k) {
        var k :| OccursAt(s, t, k);
        if k > 0 {
          assert s[1..][k - 1..k - 1 + |t|] == s[k..k + |t|];
          assert OccursAt(s[1..], t, k - 1);
        } else {
          assert s[..|t|] == s[k..k + |t|];
        }
      }
    } else if |t| == 0 {
      assert OccursAt(s, t, 0);
    }
  }

  lemma {:induction false} ContainsInfix(p: string, t: string, q: string)
    ensures Contains(p + t + q, t)
  {
    if p == [] {
      assert (p + t + q)[..|t|] == t;
    } else {
      assert (p + t + q)[1..] == p[1..] + t + q;
      ContainsInfix(p[1..], t, q);
    }
  }

  /** `s.replace(pat, "")`: delete every non-overlapping occurrence, scanning left to right. */
  function RemoveAll(s: string, pat: string): string
    requires |pat| > 0
    decreases |s|
  {
    if |pat| <= |s| && s[..|pat|] == pat then RemoveAll(s[|pat|..], pat)
    else if s == [] then []
    else [s[0]] + RemoveAll(s[1..], pat)
  }

  lemma {:induction false} RemoveAllWithoutFirstChar(s: string, pat: string)
    requires |pat| > 0
    requires forall i :: 0 <= i < |s| ==> s[i] != pat[0]
    ensures RemoveAll(s, pat) == s
  {
    if s != [] {
      assert |pat| <= |s| ==> s[..|pat|][0] != pat[0];
      RemoveAllWithoutFirstChar(s[1..], pat);
    }
  }

  /** `("/dev/video" + d).replace("/dev/video", "") == d` for a string of digits. */
  lemma RemoveDevicePrefix(d: string)
    requires AllDigits(d)
    ensures RemoveAll("/dev/video" + d, "/dev/video") == d
  {
    var pat := "/dev/video";
    assert ("/dev/video" + d)[..|pat|] == pat;
    assert ("/dev/video" + d)[|pat|..] == d;
    RemoveAllWithoutFirstChar(d, pat);
  }
}
