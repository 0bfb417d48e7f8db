/**
 * The String.prototype operations the screens use, over `seq<char>`.
 * Case mapping is restricted to ASCII letters; whitespace is the set that
 * JavaScript's `\s` and `trim` recognise.
 */
module Strings {
  import opened Seqs

  /** JavaScript WhiteSpace and LineTerminator code points (`\s`, `trim`). */
  predicate IsSpace(c: char) {
    c == ' ' || c == '\t' || c == '\n' || c == '\r' || c == '\U{000B}' || c == '\U{000C}'
    || c == '\U{00A0}' || c == '\U{1680}' || ('\U{2000}' <= c <= '\U{200A}')
    || c == '\U{2028}' || c == '\U{2029}' || c == '\U{202F}' || c == '\U{205F}'
    || c == '\U{3000}' || c == '\U{FEFF}'
  }

  function LowerChar(c: char): char {
    if 'A' <= c <= 'Z' then (c as int + 32) as char else c
  }

  function UpperChar(c: char): char {
    if 'a' <= c <= 'z' then (c as int - 32) as char else c
  }

  /** `s.toLowerCase()` on ASCII letters. */
  function ToLower(s: string): (r: string)
    ensures |r| == |s|
    ensures forall i :: 0 <= i < |s| ==> r[i] == LowerChar(s[i])
  {
    seq(|s|, i requires 0 <= i < |s| => LowerChar(s[i]))
  }

  /** `s.toUpperCase()` on ASCII letters. */
  function ToUpper(s: string): (r: string)
    ensures |r| == |s|
    ensures forall i :: 0 <= i < |s| ==> r[i] == UpperChar(s[i])
  {
    seq(|s|, i requires 0 <= i < |s| => UpperChar(s[i]))
  }

  /** `sub` occurs in `s` starting at position `i`. */
  ghost predicate OccursAt(s: string, sub: string, i: int) {
    0 <= i && i + |sub| <= |s| && s[i..i + |sub|] == sub
  }

  /** `s.includes(sub)`. */
  predicate Contains(s: string, sub: string)
    decreases |s|
  {
    sub <= s || (s != [] && Contains(s[1..], sub))
  }

  /** `Contains` holds exactly when `sub` occurs at some position of `s`. */
  lemma {:induction false} ContainsIff(s: string, sub: string)
    ensures Contains(s, sub) <==> exists i :: OccursAt(s, sub, i)
  {
    if sub <= s {
      assert OccursAt(s, sub, 0);
    } else if s != [] {
      ContainsIff(s[1..], sub);
      if Contains(s[1..], sub) {
        var i :| OccursAt(s[1..], sub, i);
        assert s[1..][i..i + |sub|] == s[i + 1..i + 1 + |sub|];
        assert OccursAt(s, sub, i + 1);
      }
      if exists i :: OccursAt(s, sub, i) {
        var i :| OccursAt(s, sub, i);
        if i != 0 {
          assert s[1..][i - 1..i - 1 + |sub|] == s[i..i + |sub|];
          assert OccursAt(s[1..], sub, i - 1);
        }
      }
    }
  }

  /** `s.replace(a, b)` with one-character strings: only the first `a` becomes `b`. */
  function ReplaceFirst(s: string, a: char, b: char): (r: string)
    ensures |r| == |s|
    ensures a !in s ==> r == s
    ensures a in s ==> r == s[IndexOf(s, a) := b]
  {
    if s == [] then []
    else if s[0] == a then [b] + s[1..]
    else
      var rest := ReplaceFirst(s[1..], a, b);
      assert s == [s[0]] + s[1..];
      [s[0]] + rest
  }

  /** `s.substring(start)`: a negative start counts as 0, one past the end as the end. */
  function SubstringFrom(s: string, start: int): (r: string)
    ensures start <= 0 ==> r == s
    ensures 0 <= start <= |s| ==> r == s[start..]
    ensures |s| < start ==> r == []
  {
    if start <= 0 then s else if start >= |s| then [] else s[start..]
  }

  /** `xs.join(sep)`. */
  function Join(xs: seq<string>, sep: string): string
  {
    if xs == [] then ""
    else if |xs| == 1 then xs[0]
    else xs[0] + sep + Join(xs[1..], sep)
  }

  /** `s.split(c)` with a one-character separator: the pieces between the occurrences of `c`. */
  function Split(s: string, c: char): (r: seq<string>)
    ensures |r| >= 1
    ensures forall i :: 0 <= i < |r| ==> c !in r[i]
    ensures Join(r, [c]) == s
    decreases |s|
  {
    var i := IndexOf(s, c);
    if i < 0 then [s]
    else
      var rest := Split(s[i + 1..], c);
      var r := [s[..i]] + rest;
      assert r[1..] == rest;
      assert s == s[..i] + [c] + s[i + 1..];
      r
  }

  /** The separator is found right after a prefix that does not contain it. */
  lemma IndexOfAfter(a: string, c: char, b: string)
    requires c !in a
    ensures IndexOf(a + [c] + b, c) == |a|
  {
    var s := a + [c] + b;
    var i := IndexOf(s, c);
    assert s[..|a|] == a;
    assert i <= |a| ==> s[..i] == a[..i];
    assert forall j :: |a| < j <= |s| ==> s[..j][|a|] == c;
  }

  /**
   * Splitting a `", "`-joined list on `','` gives the first entry (after any
   * comma-free prefix) and then each further entry with its leading space.
   */
  lemma {:induction false} SplitJoined(pre: string, xs: seq<string>)
    requires |xs| >= 1
    requires ',' !in pre
    requires forall i :: 0 <= i < |xs| ==> ',' !in xs[i]
    ensures |Split(pre + Join(xs, ", "), ',')| == |xs|
    ensures Split(pre + Join(xs, ", "), ',')[0] == pre + xs[0]
    ensures forall i :: 1 <= i < |xs| ==> Split(pre + Join(xs, ", "), ',')[i] == " " + xs[i]
    decreases |xs|
  {
    var s := pre + Join(xs, ", ");
    if |xs| == 1 {
      assert s == pre + xs[0];
      assert IndexOf(s, ',') == -1;
    } else {
      var a, rest := pre + xs[0], " " + Join(xs[1..], ", ");
      assert Join(xs, ", ") == xs[0] + ", " + Join(xs[1..], ", ");
      assert s == a + [','] + rest;
      SplitAfterFirst(a, ',', rest);
      var pieces := Split(rest, ',');
      SplitJoined(" ", xs[1..]);
      assert Split(s, ',') == [a] + pieces;
      forall i | 1 <= i < |xs|
        ensures Split(s, ',')[i] == " " + xs[i]
      {
        assert pieces[i - 1] == " " + xs[1..][i - 1];
      }
    }
  }

  /** Splitting at a first separator that follows a separator-free prefix. */
  lemma SplitAfterFirst(a: string, c: char, rest: string)
    requires c !in a
    ensures Split(a + [c] + rest, c) == [a] + Split(rest, c)
  {
    var s := a + [c] + rest;
    IndexOfAfter(a, c, rest);
    assert s[..|a|] == a;
    assert s[|a| + 1..] == rest;
  }

  /** `s.trimStart()`. */
  function TrimStart(s: string): (r: string)
    ensures |r| <= |s|
    ensures r == [] || !IsSpace(r[0])
    ensures s == [] || !IsSpace(s[0]) ==> r == s
  {
    if s != [] && IsSpace(s[0]) then TrimStart(s[1..]) else s
  }

  /** What `trimStart` keeps is a suffix of the text. */
  lemma {:induction false} TrimStartIsSuffix(s: string)
    ensures TrimStart(s) == s[|s| - |TrimStart(s)|..]
  {
    if s != [] && IsSpace(s[0]) {
      TrimStartIsSuffix(s[1..]);
    }
  }

  /** `s.trimEnd()`. */
  function TrimEnd(s: string): (r: string)
    ensures |r| <= |s| && r == s[..|r|]
    ensures r == [] || !IsSpace(r[|r| - 1])
    ensures s == [] || !IsSpace(s[|s| - 1]) ==> r == s
  {
    if s != [] && IsSpace(s[|s| - 1]) then TrimEnd(s[..|s| - 1]) else s
  }

  /** No whitespace at either end. */
  predicate IsTrimmed(s: string) {
    s == [] || (!IsSpace(s[0]) && !IsSpace(s[|s| - 1]))
  }

  /** `s.trim()`. */
  function Trim(s: string): (r: string)
    ensures IsTrimmed(r)
    ensures IsTrimmed(s) ==> r == s
  {
    TrimEnd(TrimStart(s))
  }

  /** Trimming undoes the space that `", "` puts before an already trimmed entry. */
  lemma TrimLeadingSpace(x: string)
    requires IsTrimmed(x)
    ensures Trim(" " + x) == x
  {
    assert (" " + x)[1..] == x;
  }

  /** No whitespace in `s[lo..hi]`. */
  predicate NoSpaceIn(s: string, lo: int, hi: int)
    requires 0 <= lo <= hi <= |s|
  {
    forall k | lo <= k < hi :: !IsSpace(s[k])
  }

  /**
   * The regular expression `/\S+@\S+\.\S+/` (unanchored) read literally: a run
   * of non-space characters `s[i..e]` with an `@` at `p` and a `.` at `q`, each
   * of the three `\S+` parts non-empty.
   */
  ghost predicate MatchesEmailRegex(s: string) {
    exists i, p, q, e :: 0 <= i < p && p + 1 < q && q + 1 < e <= |s| && s[p] == '@' && s[q] == '.' && NoSpaceIn(s, i, e)
  }

  /**
   * `/\S+@\S+\.\S+/.test(s)`: an `@` and a later `.` with at least one
   * character between them, one before the `@` and one after the `.`, all
   * without whitespace.
   */
  predicate IsEmailLike(s: string) {
    exists p, q | 1 <= p && p + 1 < q && q + 2 <= |s| :: s[p] == '@' && s[q] == '.' && NoSpaceIn(s, p - 1, q + 2)
  }

  /** The checked predicate accepts exactly the strings the regular expression matches. */
  lemma EmailLikeIffRegex(s: string)
    ensures IsEmailLike(s) <==> MatchesEmailRegex(s)
  {
    if MatchesEmailRegex(s) {
      var i, p, q, e :| 0 <= i < p && p + 1 < q && q + 1 < e <= |s| && s[p] == '@' && s[q] == '.' && NoSpaceIn(s, i, e);
      assert NoSpaceIn(s, p - 1, q + 2);
    }
    if IsEmailLike(s) {
      var p, q :| 1 <= p && p + 1 < q && q + 2 <= |s| && s[p] == '@' && s[q] == '.' && NoSpaceIn(s, p - 1, q + 2);
      assert 0 <= p - 1 < p && p + 1 < q && q + 1 < q + 2 <= |s|;
    }
  }
}
