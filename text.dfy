/** The Python string operations the coordinator and the permission adapter use:
    `str.split()`, `str.split(sep)`, `str.strip()`, `str.startswith`, the `in` substring
    test, `str.lower()` (on ASCII letters) and `str()` of an integer. */
module Text {

  /** `c.isspace()`: the characters `str.split()` and `str.strip()` treat as whitespace. */
  predicate IsSpace(c: char) {
    var n := c as int;
    n == 0x20 || 0x09 <= n <= 0x0d || 0x1c <= n <= 0x1f || n == 0x85 || n == 0xa0
    || n == 0x1680 || 0x2000 <= n <= 0x200a || n == 0x2028 || n == 0x2029
    || n == 0x202f || n == 0x205f || n == 0x3000
  }

  predicate NoSpace(s: string) {
    forall k :: 0 <= k < |s| ==> !IsSpace(s[k])
  }

  predicate AllSpace(s: string) {
    forall k :: 0 <= k < |s| ==> IsSpace(s[k])
  }

  /** `s.startswith(p)` */
  predicate StartsWith(s: string, p: string) {
    |p| <= |s| && s[..|p|] == p
  }

  lemma DiffersAtStart(s: string, p: string)
    requires |s| > 0 && |p| > 0 && s[0] != p[0]
    ensures !StartsWith(s, p)
  {
    if |p| <= |s| {
      assert s[..|p|][0] != p[0];
    }
  }

  /** `p in s` for strings: `p` occurs in `s` as a contiguous substring. */
  predicate Contains(s: string, p: string)
    decreases |s|
  {
    StartsWith(s, p) || (|s| > 0 && Contains(s[1..], p))
  }

  /** `p` occurs in `s` starting at index `i`. */
  predicate OccursAt(s: string, p: string, i: int) {
    0 <= i <= |s| - |p| && s[i..i + |p|] == p
  }

  /** The recursive substring test agrees with "occurs at some index". */
  lemma {:induction false} ContainsAt(s: string, p: string)
    ensures Contains(s, p) <==> exists i :: OccursAt(s, p, i)
    decreases |s|
  {
    if StartsWith(s, p) {
      assert OccursAt(s, p, 0);
    } else if |s| > 0 {
      ContainsAt(s[1..], p);
      if Contains(s[1..], p) {
        var i :| OccursAt(s[1..], p, i);
        assert s[i + 1..i + 1 + |p|] == s[1..][i..i + |p|];
        assert OccursAt(s, p, i + 1);
      }
      if exists i :: OccursAt(s, p, i) {
        var i :| OccursAt(s, p, i);
        if i > 0 {
          assert s[1..][i - 1..i - 1 + |p|] == s[i..i + |p|];
          assert OccursAt(s[1..], p, i - 1);
        }
      }
    }
  }

  /** ASCII case folding of `str.lower()`. */
  function LowerChar(c: char): char {
    if 'A' <= c <= 'Z' then (c as int + 32) as char else c
  }

  function Lower(s: string): (r: string)
    ensures |r| == |s|
    ensures forall k :: 0 <= k < |s| ==> r[k] == LowerChar(s[k])
  {
    seq(|s|, k requires 0 <= k < |s| => LowerChar(s[k]))
  }

  // ---------------------------------------------------------------------------------------
  // str.split() with no argument: maximal runs of non-whitespace, leading and trailing
  // whitespace dropped, [] for a blank string.

  /** The first index at or after `i` that holds no whitespace, or |s|. */
  function SkipSpaces(s: string, i: nat): (j: nat)
    requires i <= |s|
    ensures i <= j <= |s| && AllSpace(s[i..j])
    ensures j < |s| ==> !IsSpace(s[j])
    decreases |s| - i
  {
    if i == |s| || !IsSpace(s[i]) then i else SkipSpaces(s, i + 1)
  }

  /** The first index at or after `i` that holds whitespace, or |s|. */
  function SkipWord(s: string, i: nat): (j: nat)
    requires i <= |s|
    ensures i <= j <= |s| && NoSpace(s[i..j])
    ensures j < |s| ==> IsSpace(s[j])
    decreases |s| - i
  {
    if i == |s| || IsSpace(s[i]) then i else SkipWord(s, i + 1)
  }

  /** The tokens of `s[i..]`. */
  function SplitFrom(s: string, i: nat): seq<string>
    requires i <= |s|
    decreases |s| - i
  {
    var j := SkipSpaces(s, i);
    if j == |s| then []
    else
      var k := SkipWord(s, j);
      [s[j..k]] + SplitFrom(s, k)
  }

  /** `s.split()` */
  function Split(s: string): seq<string> {
    SplitFrom(s, 0)
  }

  /** Every token `str.split()` returns is non-empty and holds no whitespace. */
  lemma {:induction false} SplitFromTokens(s: string, i: nat)
    requires i <= |s|
    ensures forall t :: t in SplitFrom(s, i) ==> t != "" && NoSpace(t)
    decreases |s| - i
  {
    var j := SkipSpaces(s, i);
    if j < |s| {
      var k := SkipWord(s, j);
      SplitFromTokens(s, k);
    }
  }

  lemma SplitTokens(s: string)
    ensures forall t :: t in Split(s) ==> t != "" && NoSpace(t)
  {
    SplitFromTokens(s, 0);
  }

  /** `s.split()` is empty exactly when `s` is blank. */
  lemma SplitEmpty(s: string)
    ensures Split(s) == [] <==> AllSpace(s)
  {
    var j := SkipSpaces(s, 0);
    assert s[0..j] == s[..j];
    if j == |s| {
      assert s[..j] == s;
    } else {
      assert !IsSpace(s[j]);
    }
  }

  /** `s.split()[0] if s.split() else ""` */
  function FirstWord(s: string): string {
    var ws := Split(s);
    if ws != [] then ws[0] else ""
  }

  /** `s[j..k]` is the first run of non-space characters of `s`: only whitespace comes
      before it, and it ends where `s` ends or at a whitespace character. */
  predicate LeadingRun(s: string, j: nat, k: nat) {
    j < k <= |s| && AllSpace(s[..j]) && NoSpace(s[j..k]) && (k == |s| || IsSpace(s[k]))
  }

  /** The first word of `s` is empty exactly when `s` is blank, and otherwise it is the
      first run of non-space characters of `s`. */
  lemma FirstWordIsLeadingRun(s: string)
    ensures FirstWord(s) == "" <==> AllSpace(s)
    ensures FirstWord(s) != "" ==> exists j: nat, k: nat :: LeadingRun(s, j, k) && FirstWord(s) == s[j..k]
  {
    SplitEmpty(s);
    var j := SkipSpaces(s, 0);
    assert s[0..j] == s[..j];
    if j < |s| {
      var k := SkipWord(s, j);
      assert !IsSpace(s[j]);
      assert LeadingRun(s, j, k);
    }
  }

  lemma {:induction false} SkipWordAt(s: string, i: nat, k: nat)
    requires i <= k <= |s| && NoSpace(s[i..k]) && (k == |s| || IsSpace(s[k]))
    ensures SkipWord(s, i) == k
    decreases k - i
  {
    if i < k {
      assert !IsSpace(s[i..k][0]);
      assert s[i + 1..k] == s[i..k][1..];
      SkipWordAt(s, i + 1, k);
    }
  }

  lemma {:induction false} SkipSpacesAt(s: string, i: nat, j: nat)
    requires i <= j <= |s| && AllSpace(s[i..j]) && (j == |s| || !IsSpace(s[j]))
    ensures SkipSpaces(s, i) == j
    decreases j - i
  {
    if i < j {
      assert IsSpace(s[i..j][0]);
      assert s[i + 1..j] == s[i..j][1..];
      SkipSpacesAt(s, i + 1, j);
    }
  }

  /** The first word of `s` is `s[j..k]` when `j` ends the leading whitespace and `k` ends
      the run of non-space characters after it. */
  lemma FirstWordAt(s: string, j: nat, k: nat)
    requires LeadingRun(s, j, k)
    ensures FirstWord(s) == s[j..k]
  {
    assert s[0..j] == s[..j];
    assert !IsSpace(s[j..k][0]);
    SkipSpacesAt(s, 0, j);
    SkipWordAt(s, j, k);
  }

  // ---------------------------------------------------------------------------------------
  // str.split(sep) with a one-character separator: every separator splits, empty parts kept.

  /** `s.split(sep)`, built from the right. */
  function SplitOn(s: string, sep: char): (parts: seq<string>)
    ensures |parts| >= 1
    decreases |s|
  {
    if |s| == 0 then [""]
    else
      var init := SplitOn(s[..|s| - 1], sep);
      var c := s[|s| - 1];
      if c == sep then init + [""]
      else init[..|init| - 1] + [init[|init| - 1] + [c]]
  }

  /** `s.split(sep)[-1]` */
  function LastPart(s: string, sep: char): string {
    var parts := SplitOn(s, sep);
    parts[|parts| - 1]
  }

  /** The last part of `s.split(sep)` is the suffix that follows the last separator (all of
      `s` when there is none): it holds no separator and is preceded by one or by nothing. */
  lemma {:induction false} LastPartIsSuffix(s: string, sep: char)
    ensures sep !in LastPart(s, sep)
    ensures exists head :: s == head + LastPart(s, sep) && (head == "" || head[|head| - 1] == sep)
    decreases |s|
  {
    if |s| == 0 {
      assert s == "" + "";
    } else {
      var c := s[|s| - 1];
      var init := s[..|s| - 1];
      assert s == init + [c];
      if c == sep {
        assert s == s + "";
      } else {
        LastPartIsSuffix(init, sep);
        var head :| init == head + LastPart(init, sep) && (head == "" || head[|head| - 1] == sep);
        assert LastPart(s, sep) == LastPart(init, sep) + [c];
        assert s == head + LastPart(s, sep);
      }
    }
  }

  /** The last part of `head + name` is `name` when `head` ends with the separator and
      `name` holds none. */
  lemma {:induction false} LastPartAfter(head: string, name: string, sep: char)
    requires head != "" && head[|head| - 1] == sep && sep !in name
    ensures LastPart(head + name, sep) == name
    decreases |name|
  {
    var s := head + name;
    if |name| == 0 {
      assert s == head;
      assert s[..|s| - 1] + [sep] == s;
    } else {
      var init := name[..|name| - 1];
      assert s[..|s| - 1] == head + init;
      assert init + [name[|name| - 1]] == name;
      LastPartAfter(head, init, sep);
    }
  }

  // ---------------------------------------------------------------------------------------
  // str.strip() with no argument.

  function TrimEnd(s: string): (r: string)
    ensures |r| <= |s| && r == s[..|r|]
    ensures r == "" || !IsSpace(r[|r| - 1])
    ensures AllSpace(s[|r|..])
    decreases |s|
  {
    if |s| > 0 && IsSpace(s[|s| - 1]) then TrimEnd(s[..|s| - 1]) else s
  }

  /** `s.strip()` */
  function Strip(s: string): (r: string)
    ensures r == "" <==> AllSpace(s)
    ensures r == "" || (!IsSpace(r[0]) && !IsSpace(r[|r| - 1]))
  {
    var j := SkipSpaces(s, 0);
    assert s[0..j] == s[..j];
    if j == |s| then ""
    else
      var r := TrimEnd(s[j..]);
      assert r != "" by { assert !IsSpace(s[j..][0]); }
      r
  }

  // ---------------------------------------------------------------------------------------
  // str() of an integer, for f-strings.

  function DigitChar(d: nat): char
    requires d < 10
  {
    "0123456789"[d]
  }

  function NatToString(n: nat): (r: string)
    ensures |r| >= 1
    decreases n
  {
    if n < 10 then [DigitChar(n)] else NatToString(n / 10) + [DigitChar(n % 10)]
  }

  function IntToString(n: int): string {
    if n < 0 then "-" + NatToString(-n) else NatToString(n)
  }
}
