/**
 * The operations of Python's `str` that the core relies on (`strip`, `in`,
 * `split`, `partition`, `replace`, `startswith`, `join`, `lower`), stated
 * over `string`, which is `seq<char>`.
 */
module Text {
  import opened Wrappers

  /** The characters `str.isspace` accepts, which are those `str.strip()` removes. */
  const SpaceChars: set<char> := {
    ' ', '\t', '\n', '\U{0b}', '\U{0c}', '\r', '\U{1c}', '\U{1d}', '\U{1e}', '\U{1f}',
    '\U{85}', '\U{a0}', '\U{1680}',
    '\U{2000}', '\U{2001}', '\U{2002}', '\U{2003}', '\U{2004}', '\U{2005}', '\U{2006}',
    '\U{2007}', '\U{2008}', '\U{2009}', '\U{200a}',
    '\U{2028}', '\U{2029}', '\U{202f}', '\U{205f}', '\U{3000}'
  }

  predicate IsSpace(c: char) {
    c in SpaceChars
  }

  predicate AllSpace(s: string) {
    forall i :: 0 <= i < |s| ==> IsSpace(s[i])
  }

  /** `s.lstrip()`: `s` without its leading whitespace. */
  function StripLeft(s: string): string {
    if |s| > 0 && IsSpace(s[0]) then StripLeft(s[1..]) else s
  }

  /** `s.lstrip()` is the longest suffix of `s` that does not start with whitespace. */
  lemma {:induction false} StripLeftSpec(s: string)
    ensures |StripLeft(s)| <= |s| && StripLeft(s) == s[|s| - |StripLeft(s)|..]
    ensures AllSpace(s[..|s| - |StripLeft(s)|])
    ensures StripLeft(s) == [] || !IsSpace(StripLeft(s)[0])
    decreases |s|
  {
    if |s| > 0 && IsSpace(s[0]) {
      var r := StripLeft(s[1..]);
      StripLeftSpec(s[1..]);
      assert s[1..][..|s| - 1 - |r|] == s[1..|s| - |r|];
      assert s[..|s| - |r|] == [s[0]] + s[1..|s| - |r|];
    }
  }

  /** `s.rstrip()`: `s` without its trailing whitespace. */
  function StripRight(s: string): string {
    if |s| > 0 && IsSpace(s[|s| - 1]) then StripRight(s[..|s| - 1]) else s
  }

  /** `s.rstrip()` is the longest prefix of `s` that does not end with whitespace. */
  lemma {:induction false} StripRightSpec(s: string)
    ensures |StripRight(s)| <= |s| && StripRight(s) == s[..|StripRight(s)|]
    ensures AllSpace(s[|StripRight(s)|..])
    ensures StripRight(s) == [] || !IsSpace(StripRight(s)[|StripRight(s)| - 1])
    decreases |s|
  {
    if |s| > 0 && IsSpace(s[|s| - 1]) {
      var r := StripRight(s[..|s| - 1]);
      StripRightSpec(s[..|s| - 1]);
      assert s[..|s| - 1][|r|..] + [s[|s| - 1]] == s[|r|..];
    }
  }

  /** `s.strip()`: `s` with its leading and trailing whitespace removed. */
  function Strip(s: string): string {
    StripRight(StripLeft(s))
  }

  /**
   * The result of `s.strip()` is the slice `s[i..i + |r|]` that has only
   * whitespace around it and does not itself start or end with whitespace.
   */
  lemma StripSpec(s: string)
    ensures |Strip(s)| <= |s|
    ensures Strip(s) == [] || (!IsSpace(Strip(s)[0]) && !IsSpace(Strip(s)[|Strip(s)| - 1]))
    ensures exists i :: 0 <= i <= |s| - |Strip(s)| && Strip(s) == s[i..i + |Strip(s)|] && AllSpace(s[..i]) && AllSpace(s[i + |Strip(s)|..])
  {
    var l := StripLeft(s);
    var r := StripRight(l);
    StripLeftSpec(s);
    StripRightSpec(l);
    var i := |s| - |l|;
    assert r == s[i..i + |r|];
    assert s[i + |r|..] == l[|r|..];
    if r != [] {
      assert r[0] == l[0];
    }
  }

  /** Stripping removes every character exactly when all of them are whitespace. */
  lemma StripEmptyIff(s: string)
    ensures Strip(s) == [] <==> AllSpace(s)
  {
    StripSpec(s);
    var r := Strip(s);
    var i :| 0 <= i <= |s| - |r| && r == s[i..i + |r|] && AllSpace(s[..i]) && AllSpace(s[i + |r|..]);
    if r == [] {
      assert s == s[..i] + s[i..];
    } else {
      assert s[i] == r[0];
    }
  }

  /** A string without surrounding whitespace is left as it is. */
  lemma StripUnchanged(s: string)
    requires s == [] || (!IsSpace(s[0]) && !IsSpace(s[|s| - 1]))
    ensures Strip(s) == s
  {
    if s != [] {
      assert StripLeft(s) == s;
    }
  }

  /** `s.strip().strip() == s.strip()`. */
  lemma StripIdempotent(s: string)
    ensures Strip(Strip(s)) == Strip(s)
  {
    StripSpec(s);
    StripUnchanged(Strip(s));
  }

  /** A leading whitespace character makes no difference to `strip()`. */
  lemma StripLeadingSpace(c: char, s: string)
    requires IsSpace(c)
    ensures Strip([c] + s) == Strip(s)
  {
    assert ([c] + s)[1..] == s;
  }

  /** `s.strip()` has no whitespace at either end. */
  predicate Trimmed(s: string) {
    s == [] || (!IsSpace(s[0]) && !IsSpace(s[|s| - 1]))
  }

  /** Stripping a suffix of `s` leaves a piece of `s`. */
  lemma StripOfSuffix(s: string, off: nat)
    requires off <= |s|
    ensures Trimmed(Strip(s[off..]))
    ensures exists i, j :: off <= i <= j <= |s| && Strip(s[off..]) == s[i..j]
  {
    var t := s[off..];
    StripSpec(t);
    var i :| 0 <= i <= |t| - |Strip(t)| && Strip(t) == t[i..i + |Strip(t)|] && AllSpace(t[..i]) && AllSpace(t[i + |Strip(t)|..]);
    assert Strip(t) == s[off + i..off + i + |Strip(t)|];
  }

  /** `pat` occurs in `s` starting at index `i`. */
  predicate OccursAt(s: string, pat: string, i: nat) {
    i + |pat| <= |s| && s[i..i + |pat|] == pat
  }

  /** `s.find(pat)`: the first index at which `pat` occurs in `s`, if any. */
  function IndexOf(s: string, pat: string): (r: Option<nat>)
    ensures r.Some? ==> OccursAt(s, pat, r.value)
    ensures r.Some? ==> forall k :: 0 <= k < r.value ==> !OccursAt(s, pat, k)
    ensures r.None? ==> forall k :: 0 <= k <= |s| ==> !OccursAt(s, pat, k)
    decreases |s|
  {
    if |pat| > |s| then None
    else if s[..|pat|] == pat then Some(0)
    else
      var rest := IndexOf(s[1..], pat);
      assert !OccursAt(s, pat, 0);
      assert forall j :: 1 <= j <= |s| ==> (OccursAt(s, pat, j) <==> OccursAt(s[1..], pat, j - 1));
      match rest
      case Some(k) => Some(k + 1)
      case None => None
  }

  /** `pat in s`. */
  predicate Contains(s: string, pat: string) {
    IndexOf(s, pat).Some?
  }

  /** A witnessed occurrence makes `pat in s` true. */
  lemma ContainsAt(s: string, pat: string, i: nat)
    requires OccursAt(s, pat, i)
    ensures Contains(s, pat)
  {
  }

  /** An occurrence inside a prefix is an occurrence in the whole string. */
  lemma OccursInLonger(s: string, more: string, pat: string, i: nat)
    requires OccursAt(s, pat, i)
    ensures OccursAt(s + more, pat, i)
  {
    assert (s + more)[i..i + |pat|] == s[i..i + |pat|];
  }

  /**
   * If `pat` first occurs in `s` at `k`, it first occurs at `k` in any
   * extension of `s` as well.
   */
  lemma {:induction false} IndexOfExtends(s: string, more: string, pat: string)
    requires IndexOf(s, pat).Some?
    ensures IndexOf(s + more, pat) == IndexOf(s, pat)
  {
    var k := IndexOf(s, pat).value;
    OccursInLonger(s, more, pat, k);
    forall j | 0 <= j < k
      ensures !OccursAt(s + more, pat, j)
    {
      NoEarlierInLonger(s, more, pat, k, j);
    }
    IndexOfIs(s + more, pat, k);
  }

  /** A window that fits inside `s` reads the same in `s + more`. */
  lemma NoEarlierInLonger(s: string, more: string, pat: string, k: nat, j: nat)
    requires k + |pat| <= |s| && j < k
    requires !OccursAt(s, pat, j)
    ensures !OccursAt(s + more, pat, j)
  {
    assert (s + more)[j..j + |pat|] == s[j..j + |pat|];
  }

  /** An occurrence at `k` with none before it is the one `IndexOf` finds. */
  lemma IndexOfIs(s: string, pat: string, k: nat)
    requires OccursAt(s, pat, k)
    requires forall j :: 0 <= j < k ==> !OccursAt(s, pat, j)
    ensures IndexOf(s, pat) == Some(k)
  {
    var r := IndexOf(s, pat);
    assert r.Some?;
    assert !(r.value < k);
    assert !(k < r.value);
  }

  /**
   * `pat` has no border: no proper non-empty suffix of it is also a prefix.
   * Occurrences of such a pattern cannot overlap.
   */
  predicate Unbordered(pat: string) {
    forall k :: 0 < k < |pat| ==> pat[k..] != pat[..|pat| - k]
  }

  /**
   * When `t` does not contain an unbordered `pat`, the first occurrence of
   * `pat` in `t + pat + rest` is the one right after `t`.
   */
  lemma {:induction false} IndexOfAfterFree(t: string, pat: string, rest: string)
    requires |pat| > 0 && Unbordered(pat)
    requires !Contains(t, pat)
    ensures IndexOf(t + pat + rest, pat) == Some(|t|)
  {
    var s := t + pat + rest;
    assert OccursAt(s, pat, |t|) by {
      assert s[|t|..|t| + |pat|] == pat;
    }
    forall j | 0 <= j < |t|
      ensures !OccursAt(s, pat, j)
    {
      if j + |pat| <= |t| {
        assert s[j..j + |pat|] == t[j..j + |pat|];
        assert !OccursAt(t, pat, j);
      } else if j + |pat| <= |s| {
        var k := |t| - j;
        var w := s[j..j + |pat|];
        assert w[k..] == pat[..|pat| - k] by {
          forall m | 0 <= m < |pat| - k
            ensures w[k..][m] == pat[..|pat| - k][m]
          {
            assert w[k + m] == s[|t| + m];
          }
        }
        assert pat[k..] != pat[..|pat| - k];
        assert w != pat;
      }
    }
  }

  /** A pattern holding a character that `s` lacks does not occur in `s`. */
  lemma LacksChar(s: string, pat: string, c: char)
    requires c in pat && c !in s
    ensures !Contains(s, pat)
  {
  }

  /** A pattern whose last character appears nowhere else in it has no border. */
  lemma UnborderedByLast(pat: string)
    requires |pat| > 0 && pat[|pat| - 1] !in pat[..|pat| - 1]
    ensures Unbordered(pat)
  {
    forall k | 0 < k < |pat|
      ensures pat[k..] != pat[..|pat| - k]
    {
      assert pat[k..][|pat| - k - 1] == pat[|pat| - 1];
      assert pat[..|pat| - k][|pat| - k - 1] == pat[..|pat| - 1][|pat| - k - 1];
    }
  }

  /** A pattern that ends in a character found nowhere before it has no border. */
  lemma UnborderedEndingIn(pre: string, c: char)
    requires c !in pre
    ensures Unbordered(pre + [c])
  {
    var pat := pre + [c];
    assert pat[..|pat| - 1] == pre;
    UnborderedByLast(pat);
  }

  /**
   * When an unbordered `sep` does not occur in `a`, partitioning
   * `a + sep + b` at `sep` gives back `a` and `b`.
   */
  lemma PartitionAt(a: string, sep: string, b: string)
    requires |sep| > 0 && Unbordered(sep) && !Contains(a, sep)
    ensures Partition(a + sep + b, sep) == (a, true, b)
  {
    IndexOfAfterFree(a, sep, b);
    var s := a + sep + b;
    assert s[..|a|] == a && s[|a| + |sep|..] == b;
  }

  /** A one-character pattern occurs exactly where that character stands. */
  lemma OccursAtChar(s: string, c: char, i: nat)
    ensures OccursAt(s, [c], i) <==> i < |s| && s[i] == c
  {
    if i < |s| && s[i] == c {
      assert s[i..i + 1] == [c];
    }
  }

  /** A character that is not in `s` is not found in it. */
  lemma NotContainsChar(s: string, c: char)
    requires c !in s
    ensures !Contains(s, [c])
  {
    if Contains(s, [c]) {
      OccursAtChar(s, c, IndexOf(s, [c]).value);
    }
  }

  /** The first `c` of `a + [c] + b` is the one after `a` when `a` has none. */
  lemma IndexOfChar(a: string, c: char, b: string)
    requires c !in a
    ensures IndexOf(a + [c] + b, [c]) == Some(|a|)
  {
    NotContainsChar(a, c);
    IndexOfAfterFree(a, [c], b);
  }

  /**
   * `s.partition(sep)`: the text before the first `sep`, whether `sep` was
   * found, and the text after it. `s.split(sep, 1)` is `[before, after]`
   * when `found` and `[s]` otherwise.
   */
  function Partition(s: string, sep: string): (r: (string, bool, string))
    ensures r.1 == Contains(s, sep)
    ensures r.1 ==> s == r.0 + sep + r.2 && IndexOf(s, sep) == Some(|r.0|)
    ensures !r.1 ==> r.0 == s && r.2 == ""
  {
    match IndexOf(s, sep)
    case Some(i) =>
      assert s == s[..i] + sep + s[i + |sep|..];
      (s[..i], true, s[i + |sep|..])
    case None => (s, false, "")
  }

  /** Partitioning at a character splits at its first occurrence. */
  lemma PartitionChar(a: string, c: char, b: string)
    requires c !in a
    ensures Partition(a + [c] + b, [c]) == (a, true, b)
  {
    IndexOfChar(a, c, b);
    var s := a + [c] + b;
    assert s[..|a|] == a && s[|a| + 1..] == b;
  }

  /** Partitioning at an absent character leaves the string whole. */
  lemma PartitionAbsent(s: string, c: char)
    requires c !in s
    ensures Partition(s, [c]) == (s, false, "")
  {
    NotContainsChar(s, c);
  }

  /** When `s` does not start with `pat`, `pat` occurs in `s` iff it occurs in `s[1..]`. */
  lemma ContainsPastHead(s: string, pat: string)
    requires |pat| > 0 && |s| >= |pat| && s[..|pat|] != pat
    ensures Contains(s[1..], pat) <==> Contains(s, pat)
  {
    if Contains(s[1..], pat) {
      var k := IndexOf(s[1..], pat).value;
      assert s[1..][k..k + |pat|] == s[k + 1..k + 1 + |pat|];
      ContainsAt(s, pat, k + 1);
    }
    if Contains(s, pat) {
      var k := IndexOf(s, pat).value;
      assert k != 0;
      assert s[1..][k - 1..k - 1 + |pat|] == s[k..k + |pat|];
      ContainsAt(s[1..], pat, k - 1);
    }
  }

  /**
   * `s.replace(pat, "")` for a non-empty `pat`: every occurrence found by a
   * left-to-right scan is removed.
   */
  function RemoveAll(s: string, pat: string): (r: string)
    requires |pat| > 0
    ensures !Contains(s, pat) ==> r == s
    ensures Contains(s, pat) ==> |r| <= |s| - |pat|
    decreases |s|
  {
    if |s| < |pat| then s
    else if s[..|pat|] == pat then
      RemoveAll(s[|pat|..], pat)
    else
      ContainsPastHead(s, pat);
      [s[0]] + RemoveAll(s[1..], pat)
  }

  /** A leading occurrence of the pattern is removed. */
  lemma RemoveAllLeading(pat: string, t: string)
    requires |pat| > 0
    ensures RemoveAll(pat + t, pat) == RemoveAll(t, pat)
  {
    assert (pat + t)[..|pat|] == pat && (pat + t)[|pat|..] == t;
  }

  /** Removing a pattern changes the string exactly when the pattern occurs in it. */
  lemma RemoveAllChangesIff(s: string, pat: string)
    requires |pat| > 0
    ensures RemoveAll(s, pat) == s <==> !Contains(s, pat)
  {
  }

  /**
   * `s.split(c)` for a one-character separator: the pieces between the
   * occurrences of `c`, in order. There is always at least one piece.
   */
  function SplitChar(s: string, c: char): (parts: seq<string>)
    ensures |parts| >= 1
    ensures forall k :: 0 <= k < |parts| ==> c !in parts[k]
    decreases |s|
  {
    if |s| == 0 then [""]
    else
      var rest := SplitChar(s[1..], c);
      if s[0] == c then [""] + rest
      else [[s[0]] + rest[0]] + rest[1..]
  }

  /** The first piece of `s.split(c)` is the prefix of `s` up to the first `c`. */
  lemma {:induction false} SplitCharHead(s: string, c: char)
    ensures SplitChar(s, c)[0] <= s
    ensures |SplitChar(s, c)[0]| < |s| ==> s[|SplitChar(s, c)[0]|] == c
    decreases |s|
  {
    if |s| > 0 && s[0] != c {
      SplitCharHead(s[1..], c);
    }
  }

  /** `sep.join(items)`. */
  function Join(sep: string, items: seq<string>): string {
    if |items| == 0 then ""
    else if |items| == 1 then items[0]
    else items[0] + sep + Join(sep, items[1..])
  }

  /** Joining the pieces of `s.split(c)` with `c` gives back `s`. */
  lemma {:induction false} JoinSplitChar(s: string, c: char)
    ensures Join([c], SplitChar(s, c)) == s
    decreases |s|
  {
    if |s| > 0 {
      var rest := SplitChar(s[1..], c);
      JoinSplitChar(s[1..], c);
      if s[0] == c {
        assert SplitChar(s, c) == [""] + rest;
        assert s == [s[0]] + s[1..];
      } else {
        var parts := [[s[0]] + rest[0]] + rest[1..];
        assert SplitChar(s, c) == parts;
        if |rest| == 1 {
          assert s == [s[0]] + rest[0];
        } else {
          assert Join([c], rest) == rest[0] + [c] + Join([c], rest[1..]);
          assert parts[1..] == rest[1..];
          assert s == [s[0]] + s[1..];
        }
      }
    }
  }

  /**
   * Splitting a `c`-joined sequence at `c` gives the pieces back, provided
   * there is at least one piece and no piece contains `c`.
   */
  lemma {:induction false} SplitCharJoin(items: seq<string>, c: char)
    requires |items| >= 1
    requires forall k :: 0 <= k < |items| ==> c !in items[k]
    ensures SplitChar(Join([c], items), c) == items
    decreases |items|, |items[0]|
  {
    if |items| == 1 {
      SplitCharNoSep(items[0], c);
    } else {
      var tail := Join([c], items[1..]);
      SplitCharJoin(items[1..], c);
      SplitCharPrefix(items[0], tail, c);
      assert Join([c], items) == items[0] + [c] + tail;
    }
  }

  /** A string without `c` splits into itself alone. */
  lemma {:induction false} SplitCharNoSep(s: string, c: char)
    requires c !in s
    ensures SplitChar(s, c) == [s]
    decreases |s|
  {
    if |s| > 0 {
      assert c !in s[1..];
      SplitCharNoSep(s[1..], c);
      assert s == [s[0]] + s[1..];
    }
  }

  /** A `c`-free first piece followed by `c` splits off as one piece. */
  lemma {:induction false} SplitCharPrefix(a: string, b: string, c: char)
    requires c !in a
    ensures SplitChar(a + [c] + b, c) == [a] + SplitChar(b, c)
    decreases |a|
  {
    var s := a + [c] + b;
    if |a| == 0 {
      assert s[1..] == b;
    } else {
      assert s[1..] == a[1..] + [c] + b;
      assert c !in a[1..];
      SplitCharPrefix(a[1..], b, c);
      assert a == [a[0]] + a[1..];
    }
  }

  /** ASCII `lower()`: maps `A`..`Z` to `a`..`z` and keeps every other character. */
  function AsciiLower(s: string): (r: string)
    ensures |r| == |s|
    ensures forall i :: 0 <= i < |s| ==> r[i] == if 'A' <= s[i] <= 'Z' then (s[i] as int + 32) as char else s[i]
  {
    if |s| == 0 then ""
    else [if 'A' <= s[0] <= 'Z' then (s[0] as int + 32) as char else s[0]] + AsciiLower(s[1..])
  }

  /** Lowering a string without capital letters leaves it unchanged. */
  lemma AsciiLowerUnchanged(s: string)
    requires forall i :: 0 <= i < |s| ==> !('A' <= s[i] <= 'Z')
    ensures AsciiLower(s) == s
  {
  }
}
