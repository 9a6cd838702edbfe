/**
 * Character classes, lower-casing and trimming over ASCII, standing in for
 * Foundation's Unicode-aware `lowercased()` and `trimmingCharacters(in:)`.
 */
module Ascii {
  predicate IsUpper(c: char) { 'A' <= c <= 'Z' }

  predicate IsLowerLetter(c: char) { 'a' <= c <= 'z' }

  predicate IsDigit(c: char) { '0' <= c <= '9' }

  /** `CharacterSet.alphanumerics`, restricted to ASCII. */
  predicate IsAlnum(c: char) { IsUpper(c) || IsLowerLetter(c) || IsDigit(c) }

  predicate NotAlnum(c: char) { !IsAlnum(c) }

  /** `CharacterSet.whitespacesAndNewlines`, restricted to ASCII. */
  predicate IsWhitespace(c: char) {
    c == ' ' || c == '\t' || c == '\n' || c == '\r' || c == 11 as char || c == 12 as char
  }

  function ToLower(c: char): (l: char)
    ensures IsUpper(c) ==> l as int == c as int + 32
    ensures !IsUpper(c) ==> l == c
    ensures !IsUpper(l)
  {
    if IsUpper(c) then (c as int + 32) as char else c
  }

  /** `lowercased()`: every capital letter replaced by its small letter. */
  function Lower(s: string): (r: string)
    ensures |r| == |s|
    ensures forall i :: 0 <= i < |s| && IsUpper(s[i]) ==> IsLowerLetter(r[i]) && r[i] as int == s[i] as int + 32
    ensures forall i :: 0 <= i < |s| && !IsUpper(s[i]) ==> r[i] == s[i]
    ensures forall i :: 0 <= i < |r| ==> !IsUpper(r[i])
  {
    seq(|s|, i requires 0 <= i < |s| => ToLower(s[i]))
  }

  /** A string without capitals is its own lower-case form. */
  lemma LowerOfLower(s: string)
    requires forall i :: 0 <= i < |s| ==> !IsUpper(s[i])
    ensures Lower(s) == s
  {
  }

  /** Lower-casing is idempotent. */
  lemma LowerIdempotent(s: string)
    ensures Lower(Lower(s)) == Lower(s)
  {
    LowerOfLower(Lower(s));
  }

  /** First index at or after `i` whose character is kept. */
  function KeepFrom(s: string, strip: char -> bool, i: nat): (k: nat)
    requires i <= |s|
    ensures i <= k <= |s|
    ensures forall m :: i <= m < k ==> strip(s[m])
    ensures k < |s| ==> !strip(s[k])
    decreases |s| - i
  {
    if i == |s| || !strip(s[i]) then i else KeepFrom(s, strip, i + 1)
  }

  /** End of the kept part: the largest `k <= j`, not below `lo`, whose
      preceding character is kept. */
  function KeepTo(s: string, strip: char -> bool, lo: nat, j: nat): (k: nat)
    requires lo <= j <= |s|
    ensures lo <= k <= j
    ensures forall m :: k <= m < j ==> strip(s[m])
    ensures k > lo ==> !strip(s[k - 1])
    decreases j
  {
    if j == lo || !strip(s[j - 1]) then j else KeepTo(s, strip, lo, j - 1)
  }

  /** `trimmingCharacters(in:)`: the part of `s` left once the characters
      `strip` selects are removed from both ends. */
  function Trim(s: string, strip: char -> bool): (r: string)
    ensures var lo := KeepFrom(s, strip, 0); var hi := KeepTo(s, strip, lo, |s|);
      && r == s[lo..hi]
      && (forall m :: 0 <= m < lo ==> strip(s[m]))
      && (forall m :: hi <= m < |s| ==> strip(s[m]))
      && (|r| > 0 ==> !strip(r[0]) && !strip(r[|r| - 1]))
  {
    var lo := KeepFrom(s, strip, 0);
    s[lo..KeepTo(s, strip, lo, |s|)]
  }

  /** A string that starts and ends with kept characters is left alone. */
  lemma TrimKeeps(s: string, strip: char -> bool)
    requires |s| > 0 ==> !strip(s[0]) && !strip(s[|s| - 1])
    ensures Trim(s, strip) == s
  {
    var lo := KeepFrom(s, strip, 0);
    if |s| > 0 {
      assert lo == 0;
      assert KeepTo(s, strip, 0, |s|) == |s|;
    }
  }

  /** Trimming twice is trimming once. */
  lemma TrimIdempotent(s: string, strip: char -> bool)
    ensures Trim(Trim(s, strip), strip) == Trim(s, strip)
  {
    TrimKeeps(Trim(s, strip), strip);
  }

  /** Characters `strip` selects, added around a string, are trimmed away. */
  lemma TrimPadding(pre: string, s: string, post: string, strip: char -> bool)
    requires forall m :: 0 <= m < |pre| ==> strip(pre[m])
    requires forall m :: 0 <= m < |post| ==> strip(post[m])
    requires |s| > 0 && !strip(s[0]) && !strip(s[|s| - 1])
    ensures Trim(pre + s + post, strip) == s
  {
    var t := pre + s + post;
    assert t[|pre|] == s[0];
    assert KeepFrom(t, strip, 0) == |pre| by {
      KeepFromSkips(t, strip, 0, |pre|);
    }
    assert t[|pre| + |s| - 1] == s[|s| - 1];
    assert KeepTo(t, strip, |pre|, |t|) == |pre| + |s| by {
      KeepToSkips(t, strip, |pre|, |pre| + |s|, |t|);
    }
    assert t[|pre|..|pre| + |s|] == s;
  }

  lemma {:induction false} KeepFromSkips(s: string, strip: char -> bool, i: nat, k: nat)
    requires i <= k < |s| && !strip(s[k])
    requires forall m :: i <= m < k ==> strip(s[m])
    ensures KeepFrom(s, strip, i) == k
    decreases k - i
  {
    if i < k {
      KeepFromSkips(s, strip, i + 1, k);
    }
  }

  lemma {:induction false} KeepToSkips(s: string, strip: char -> bool, lo: nat, k: nat, j: nat)
    requires lo < k <= j <= |s| && !strip(s[k - 1])
    requires forall m :: k <= m < j ==> strip(s[m])
    ensures KeepTo(s, strip, lo, j) == k
    decreases j
  {
    if k < j {
      KeepToSkips(s, strip, lo, k, j - 1);
    }
  }
}
