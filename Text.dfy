/**
 * The string primitives the dialogue core is built from: Python's
 * `str.lower()`, `str.strip()`, the substring test `pat in text`, `any(...)`
 * over a keyword list and `sep.join(parts)`. Each computable definition is
 * tied by a lemma or its contract to a reference definition over indices.
 */
module Text {

  /** `c.lower()` on one character; only the ASCII letters A-Z change. */
  function LowerChar(c: char): (r: char)
    ensures 'A' <= c <= 'Z' ==> r as int == c as int + 32
    ensures !('A' <= c <= 'Z') ==> r == c
    ensures !('A' <= r <= 'Z')
  {
    if 'A' <= c <= 'Z' then (c as int + 32) as char else c
  }

  /** `s.lower()`: every character lowered in place, the length kept. */
  function Lower(s: string): (r: string)
    ensures |r| == |s|
    ensures forall i :: 0 <= i < |s| ==> r[i] == LowerChar(s[i])
  {
    seq(|s|, i requires 0 <= i < |s| => LowerChar(s[i]))
  }

  /** Lowering twice is lowering once. */
  lemma LowerIdempotent(s: string)
    ensures Lower(Lower(s)) == Lower(s)
  {
    assert forall i :: 0 <= i < |s| ==> Lower(Lower(s))[i] == Lower(s)[i];
  }

  /** True of the characters Python's `str.isspace()` accepts. */
  predicate IsSpace(c: char)
  {
    || c == ' '
    || '\t' <= c <= '\r'
    || '\U{1C}' <= c <= '\U{1F}'
    || c == '\U{85}' || c == '\U{A0}' || c == '\U{1680}'
    || '\U{2000}' <= c <= '\U{200A}'
    || c == '\U{2028}' || c == '\U{2029}' || c == '\U{202F}'
    || c == '\U{205F}' || c == '\U{3000}'
  }

  /** `s.lstrip()`: what is left after dropping the leading whitespace. */
  function TrimStart(s: string): (r: string)
    ensures |r| <= |s| && r == s[|s| - |r|..]
    ensures forall k :: 0 <= k < |s| - |r| ==> IsSpace(s[k])
    ensures r == [] || !IsSpace(r[0])
    ensures (forall k :: 0 <= k < |s| ==> IsSpace(s[k])) ==> r == []
  {
    if |s| > 0 && IsSpace(s[0]) then
      var r := TrimStart(s[1..]);
      assert s[1..][|s| - 1 - |r|..] == s[|s| - |r|..];
      assert forall k :: 1 <= k < |s| ==> s[k] == s[1..][k - 1];
      r
    else s
  }

  /** `s.rstrip()`: what is left after dropping the trailing whitespace. */
  function TrimEnd(s: string): (r: string)
    ensures |r| <= |s| && r == s[..|r|]
    ensures forall k :: |r| <= k < |s| ==> IsSpace(s[k])
    ensures r == [] || !IsSpace(r[|r| - 1])
  {
    if |s| > 0 && IsSpace(s[|s| - 1]) then TrimEnd(s[..|s| - 1]) else s
  }

  /** `s.strip()`: no whitespace is left at either end. */
  function Strip(s: string): (r: string)
    ensures |r| <= |s|
    ensures r == [] || (!IsSpace(r[0]) && !IsSpace(r[|r| - 1]))
  {
    var t := TrimStart(s);
    var r := TrimEnd(t);
    assert r != [] ==> r[0] == t[0];
    r
  }

  /** `s.strip()` keeps a contiguous slice of `s` and drops only whitespace. */
  lemma StripShape(s: string) returns (i: nat)
    ensures i + |Strip(s)| <= |s| && Strip(s) == s[i..i + |Strip(s)|]
    ensures forall k :: 0 <= k < i ==> IsSpace(s[k])
    ensures forall k :: i + |Strip(s)| <= k < |s| ==> IsSpace(s[k])
  {
    var t := TrimStart(s);
    i := |s| - |t|;
    var r := TrimEnd(t);
    assert r == Strip(s);
    SliceOfSuffix(s, i, |r|);
    SpacesOfSuffix(s, i, |r|);
  }

  /** Taking `n` characters of the suffix from `i` is the slice from `i` to `i + n`. */
  lemma SliceOfSuffix(s: string, i: nat, n: nat)
    requires i + n <= |s|
    ensures s[i..][..n] == s[i..i + n]
  {
  }

  /** Whitespace at the tail of a suffix is whitespace at the same place in the whole. */
  lemma SpacesOfSuffix(s: string, i: nat, lo: nat)
    requires i <= |s|
    requires forall k :: lo <= k < |s| - i ==> IsSpace(s[i..][k])
    ensures forall k :: i + lo <= k < |s| ==> IsSpace(s[k])
  {
    forall k | i + lo <= k < |s|
      ensures IsSpace(s[k])
    {
      assert s[k] == s[i..][k - i];
    }
  }

  /** An utterance strips to nothing exactly when it is all whitespace. */
  lemma StripBlankIff(s: string)
    ensures Strip(s) == [] <==> forall k :: 0 <= k < |s| ==> IsSpace(s[k])
  {
    var i := StripShape(s);
    assert (forall k :: 0 <= k < |s| ==> IsSpace(s[k])) ==> TrimStart(s) == [];
  }

  /** Stripping twice is stripping once. */
  lemma StripIdempotent(s: string)
    ensures Strip(Strip(s)) == Strip(s)
  {
    var r := Strip(s);
    var i := StripShape(s);
    assert TrimStart(r) == r;
    if r != [] {
      assert TrimStart(r)[|r| - 1] == r[|r| - 1];
    }
  }

  /** `pat` occurs in `text` at position `i`. */
  ghost predicate OccursAt(pat: string, text: string, i: int)
  {
    0 <= i <= |text| - |pat| && text[i..i + |pat|] == pat
  }

  /** Reference definition of the substring test: `pat` occurs somewhere in `text`. */
  ghost predicate Occurs(pat: string, text: string)
  {
    exists i :: OccursAt(pat, text, i)
  }

  /** `pat in text`, by trying each start position in turn. */
  predicate Contains(text: string, pat: string)
    decreases |text|
  {
    pat <= text || (|text| > 0 && Contains(text[1..], pat))
  }

  /** Occurring at position 0 is being a prefix. */
  lemma PrefixOccursAtStart(pat: string, text: string)
    ensures OccursAt(pat, text, 0) <==> pat <= text
  {
  }

  /** Dropping the first character shifts every occurrence one place to the left. */
  lemma OccursShift(pat: string, text: string, i: nat)
    requires |text| > 0
    ensures OccursAt(pat, text[1..], i) <==> OccursAt(pat, text, i + 1)
  {
    if i + |pat| <= |text| - 1 {
      assert text[1..][i..i + |pat|] == text[i + 1..i + 1 + |pat|];
    }
  }

  /** The search finds `pat` exactly when it occurs. */
  lemma {:induction false} ContainsIsOccurs(text: string, pat: string)
    ensures Contains(text, pat) <==> Occurs(pat, text)
    decreases |text|
  {
    PrefixOccursAtStart(pat, text);
    if pat <= text {
    } else if |text| == 0 {
    } else {
      ContainsIsOccurs(text[1..], pat);
      forall i | OccursAt(pat, text[1..], i)
        ensures OccursAt(pat, text, i + 1)
      {
        OccursShift(pat, text, i);
      }
      forall i | OccursAt(pat, text, i)
        ensures OccursAt(pat, text[1..], i - 1)
      {
        OccursShift(pat, text, i - 1);
      }
    }
  }

  /** `any(w in text for w in words)`. */
  predicate ContainsAny(text: string, words: seq<string>)
  {
    exists i :: 0 <= i < |words| && Contains(text, words[i])
  }

  /** Reference definition of `ContainsAny`. */
  ghost predicate OccursAny(words: seq<string>, text: string)
  {
    exists i :: 0 <= i < |words| && Occurs(words[i], text)
  }

  lemma ContainsAnyIsOccursAny(text: string, words: seq<string>)
    ensures ContainsAny(text, words) <==> OccursAny(words, text)
  {
    forall i | 0 <= i < |words| ensures Contains(text, words[i]) <==> Occurs(words[i], text) {
      ContainsIsOccurs(text, words[i]);
    }
  }

  /** A word with a character the text lacks does not occur in it. */
  lemma AbsentCharNotOccurs(pat: string, text: string, c: char)
    requires c in pat && c !in text
    ensures !Occurs(pat, text)
  {
    var j :| 0 <= j < |pat| && pat[j] == c;
    forall i | 0 <= i <= |text| - |pat|
      ensures !OccursAt(pat, text, i)
    {
      assert text[i..i + |pat|][j] == text[i + j] != c;
    }
  }

  /** An occurrence survives appending text after it. */
  lemma OccursInPrefix(pat: string, text: string, after: string)
    requires Occurs(pat, text)
    ensures Occurs(pat, text + after)
  {
    var i :| OccursAt(pat, text, i);
    assert (text + after)[i..i + |pat|] == text[i..i + |pat|];
    assert OccursAt(pat, text + after, i);
  }

  /** An occurrence survives prepending text before it. */
  lemma OccursInSuffix(pat: string, before: string, text: string)
    requires Occurs(pat, text)
    ensures Occurs(pat, before + text)
  {
    var i :| OccursAt(pat, text, i);
    assert (before + text)[|before| + i..|before| + i + |pat|] == text[i..i + |pat|];
    assert OccursAt(pat, before + text, |before| + i);
  }

  /** A string occurs in itself. */
  lemma OccursSelf(s: string)
    ensures Occurs(s, s)
  {
    assert OccursAt(s, s, 0);
  }

  /** `sep.join(parts)`. */
  function Join(parts: seq<string>, sep: string): (r: string)
  {
    if |parts| == 0 then ""
    else if |parts| == 1 then parts[0]
    else parts[0] + sep + Join(parts[1..], sep)
  }

  /**
   * Reference definition of the join, built from the other end: all parts
   * but the last joined, then the separator, then the last part.
   */
  ghost function JoinLeft(parts: seq<string>, sep: string): string
    decreases |parts|
  {
    if |parts| == 0 then ""
    else if |parts| == 1 then parts[0]
    else JoinLeft(parts[..|parts| - 1], sep) + sep + parts[|parts| - 1]
  }

  /** The join keeps the parts in order with one separator between neighbours, whichever end it starts from. */
  lemma {:induction false} JoinIsJoinLeft(parts: seq<string>, sep: string)
    ensures Join(parts, sep) == JoinLeft(parts, sep)
    decreases |parts|
  {
    var n := |parts|;
    if n == 2 {
      assert parts[..1] == [parts[0]];
      assert parts[1..] == [parts[1]];
    } else if n > 2 {
      var init, tail, mid := parts[..n - 1], parts[1..], parts[1..n - 1];
      assert tail[..|tail| - 1] == mid && tail[|tail| - 1] == parts[n - 1];
      assert init[1..] == mid && init[0] == parts[0];
      JoinIsJoinLeft(tail, sep);
      JoinIsJoinLeft(init, sep);
      JoinIsJoinLeft(mid, sep);
      calc {
        Join(parts, sep);
        parts[0] + sep + JoinLeft(tail, sep);
        parts[0] + sep + (JoinLeft(mid, sep) + sep + parts[n - 1]);
        { assert parts[0] + sep + (Join(mid, sep) + sep + parts[n - 1])
            == (parts[0] + sep + Join(mid, sep)) + sep + parts[n - 1]; }
        (parts[0] + sep + Join(mid, sep)) + sep + parts[n - 1];
        Join(init, sep) + sep + parts[n - 1];
        JoinLeft(parts, sep);
      }
    }
  }

  /** Every part occurs in the joined string. */
  lemma {:induction false} JoinHasParts(parts: seq<string>, sep: string, k: nat)
    requires k < |parts|
    ensures Occurs(parts[k], Join(parts, sep))
  {
    if k == 0 {
      OccursSelf(parts[0]);
      if |parts| > 1 {
        OccursInPrefix(parts[0], parts[0], sep);
        OccursInPrefix(parts[0], parts[0] + sep, Join(parts[1..], sep));
      }
    } else {
      JoinHasParts(parts[1..], sep, k - 1);
      OccursInSuffix(parts[k], parts[0] + sep, Join(parts[1..], sep));
    }
  }
}
