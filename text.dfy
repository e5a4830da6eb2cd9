/** The string operations of the JavaScript standard library that the monitor
    relies on, stated over `seq<char>`. */
module Text {

  /** ECMAScript WhiteSpace and LineTerminator code points: exactly the
      characters that `String.prototype.trim` removes. */
  predicate IsWhitespace(c: char) {
    || c == '\t' || c == '\n' || c == '\U{B}' || c == '\U{C}' || c == '\r'
    || c == ' ' || c == '\U{A0}' || c == '\U{1680}'
    || ('\U{2000}' <= c <= '\U{200A}')
    || c == '\U{2028}' || c == '\U{2029}' || c == '\U{202F}' || c == '\U{205F}'
    || c == '\U{3000}' || c == '\U{FEFF}'
  }

  predicate IsSlash(c: char) {
    c == '/'
  }

  /** Number of leading characters of `s` that satisfy `p`. */
  function LeadCount(s: string, p: char -> bool): (n: nat)
    ensures n <= |s|
    ensures forall k :: 0 <= k < n ==> p(s[k])
    ensures n == |s| || !p(s[n])
  {
    if s != [] && p(s[0]) then 1 + LeadCount(s[1..], p) else 0
  }

  /** Number of trailing characters of `s` that satisfy `p`. */
  function TailCount(s: string, p: char -> bool): (n: nat)
    ensures n <= |s|
    ensures forall k :: |s| - n <= k < |s| ==> p(s[k])
    ensures n == |s| || !p(s[|s| - n - 1])
  {
    if s != [] && p(s[|s| - 1]) then 1 + TailCount(s[..|s| - 1], p) else 0
  }

  /** Neither end of `r` satisfies `p`. */
  predicate IsStripped(r: string, p: char -> bool) {
    r == [] || (!p(r[0]) && !p(r[|r| - 1]))
  }

  /** `s` with every leading and every trailing character satisfying `p` removed. */
  function Strip(s: string, p: char -> bool): (r: string)
    ensures IsStripped(r, p)
    ensures LeadCount(s, p) + |r| <= |s|
    ensures r == s[LeadCount(s, p)..LeadCount(s, p) + |r|]
  {
    var i := LeadCount(s, p);
    var t := s[i..];
    t[..|t| - TailCount(t, p)]
  }

  /** Every character Strip removes satisfies `p`. */
  lemma StripRemovesOnlyP(s: string, p: char -> bool)
    ensures var n := LeadCount(s, p);
            forall k :: 0 <= k < |s| && !(n <= k < n + |Strip(s, p)|) ==> p(s[k])
  {
    var i := LeadCount(s, p);
    var t := s[i..];
    var m := TailCount(t, p);
    forall k | 0 <= k < |s| && !(i <= k < i + |Strip(s, p)|) ensures p(s[k]) {
      if k >= i {
        assert s[k] == t[k - i];
      }
    }
  }

  /** Strip is determined by its contract: a middle part whose ends do not
      satisfy `p`, surrounded by runs that do, is what Strip returns. */
  lemma {:induction false} StripUnique(a: string, r: string, b: string, p: char -> bool)
    requires forall k :: 0 <= k < |a| ==> p(a[k])
    requires forall k :: 0 <= k < |b| ==> p(b[k])
    requires IsStripped(r, p)
    ensures Strip(a + r + b, p) == r
  {
    var s := a + r + b;
    if r == [] {
      forall k | 0 <= k < |s| ensures p(s[k]) {
        if k < |a| { assert s[k] == a[k]; } else { assert s[k] == b[k - |a|]; }
      }
      assert |Strip(s, p)| == 0;
    } else {
      StripUniqueNonEmpty(a, r, b, p);
    }
  }

  lemma StripUniqueNonEmpty(a: string, r: string, b: string, p: char -> bool)
    requires forall k :: 0 <= k < |a| ==> p(a[k])
    requires forall k :: 0 <= k < |b| ==> p(b[k])
    requires r != [] && !p(r[0]) && !p(r[|r| - 1])
    ensures Strip(a + r + b, p) == r
  {
    var s := a + r + b;
    var m := Strip(s, p);
    StripRemovesOnlyP(s, p);
    assert s[|a|] == r[0];
    assert s[|a| + |r| - 1] == r[|r| - 1];
    assert LeadCount(s, p) == |a| by {
      forall k | 0 <= k < |a| ensures p(s[k]) { assert s[k] == a[k]; }
    }
    assert |m| == |r| by {
      forall k | |a| + |r| <= k < |s| ensures p(s[k]) { assert s[k] == b[k - |a| - |r|]; }
    }
    assert m == s[|a|..|a| + |r|];
  }

  /** Stripping twice changes nothing. */
  lemma StripIdempotent(s: string, p: char -> bool)
    ensures Strip(Strip(s, p), p) == Strip(s, p)
  {
    var r := Strip(s, p);
    StripUnique([], r, [], p);
    assert [] + r + [] == r;
  }

  /** JavaScript `s.trim()`. */
  function Trim(s: string): (r: string)
    ensures IsStripped(r, IsWhitespace)
    ensures |r| <= |s|
  {
    Strip(s, IsWhitespace)
  }

  /** A string with no whitespace at either end is its own trim, and a
      leading space in front of it is trimmed away. */
  lemma TrimUnpadded(s: string)
    requires IsStripped(s, IsWhitespace)
    ensures Trim(s) == s
    ensures Trim([' '] + s) == s
  {
    assert Trim(s) == s by {
      StripUnique([], s, [], IsWhitespace);
      assert [] + s + [] == s;
    }
    assert Trim([' '] + s) == s by {
      StripUnique([' '], s, [], IsWhitespace);
      assert [' '] + s + [] == [' '] + s;
    }
  }

  lemma TrimIdempotent(s: string)
    ensures Trim(Trim(s)) == Trim(s)
  {
    StripIdempotent(s, IsWhitespace);
  }

  function ToLowerChar(c: char): char {
    if 'A' <= c <= 'Z' then (c as int + 32) as char else c
  }

  function ToUpperChar(c: char): char {
    if 'a' <= c <= 'z' then (c as int - 32) as char else c
  }

  /** JavaScript `toLowerCase()`, restricted to the ASCII letters. */
  function ToLower(s: string): (r: string)
    ensures |r| == |s|
    ensures forall i :: 0 <= i < |s| ==> r[i] == ToLowerChar(s[i])
  {
    seq(|s|, i requires 0 <= i < |s| => ToLowerChar(s[i]))
  }

  /** JavaScript `toUpperCase()`, restricted to the ASCII letters. */
  function ToUpper(s: string): (r: string)
    ensures |r| == |s|
    ensures forall i :: 0 <= i < |s| ==> r[i] == ToUpperChar(s[i])
  {
    seq(|s|, i requires 0 <= i < |s| => ToUpperChar(s[i]))
  }

  predicate EndsWith(s: string, suffix: string) {
    |suffix| <= |s| && s[|s| - |suffix|..] == suffix
  }

  /** `pat` occurs in `s` starting at index `i`. */
  predicate OccursAt(s: string, pat: string, i: nat) {
    i + |pat| <= |s| && s[i..i + |pat|] == pat
  }

  /** JavaScript `s.replace(pat, rep)` with a string pattern: only the first
      occurrence is replaced (the replacement holds no `$` patterns here). */
  function ReplaceFirst(s: string, pat: string, rep: string): (r: string)
    decreases |s|
  {
    if OccursAt(s, pat, 0) then rep + s[|pat|..]
    else if s == [] then s
    else [s[0]] + ReplaceFirst(s[1..], pat, rep)
  }

  /** Removing the first occurrence of a suffix that occurs nowhere earlier
      strips exactly that suffix. */
  lemma {:induction false} ReplaceFirstStripsSuffix(base: string, pat: string)
    requires pat != []
    requires forall i: nat :: i < |base| ==> !OccursAt(base + pat, pat, i)
    ensures ReplaceFirst(base + pat, pat, "") == base
  {
    var s := base + pat;
    if base == [] {
      assert s == pat && OccursAt(s, pat, 0);
    } else {
      assert !OccursAt(s, pat, 0);
      var t := base[1..] + pat;
      assert s[1..] == t;
      forall i: nat | i < |base[1..]| ensures !OccursAt(t, pat, i) {
        assert !OccursAt(s, pat, i + 1);
        if i + |pat| <= |t| {
          var u, v := t[i..i + |pat|], s[i + 1..i + 1 + |pat|];
          forall k | 0 <= k < |pat| ensures u[k] == v[k] {
            assert t[i + k] == s[i + 1 + k];
          }
          assert u == v;
        }
      }
      ReplaceFirstStripsSuffix(base[1..], pat);
      assert [base[0]] + base[1..] == base;
    }
  }

  function DigitChar(d: nat): (c: char)
    requires d < 10
    ensures '0' <= c <= '9'
  {
    ('0' as int + d) as char
  }

  /** Decimal rendering of a natural number, as JavaScript's `String(n)`. */
  function NatToString(n: nat): (r: string)
    ensures r != []
    ensures forall i :: 0 <= i < |r| ==> '0' <= r[i] <= '9'
    ensures |r| > 1 ==> r[0] != '0'
  {
    if n < 10 then [DigitChar(n)] else NatToString(n / 10) + [DigitChar(n % 10)]
  }

  /** Decimal rendering of an integer, with a leading minus sign when negative. */
  function IntToString(n: int): (r: string)
    ensures r != []
  {
    if n < 0 then "-" + NatToString(-n) else NatToString(n)
  }
}
