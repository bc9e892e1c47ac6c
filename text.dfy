/**
 * String operations the JavaScript code relies on: `trim`, `toLowerCase`,
 * `includes`, `length`, and the `x || 'fallback'` idiom on optional text.
 */
module Text {
  import opened Wrappers

  /**
   * JavaScript white space and line terminators: the characters `\s`
   * matches in a regular expression and `String.prototype.trim` removes.
   */
  predicate IsSpace(c: char)
  {
    || c == ' ' || c == '\t' || c == '\n' || c == '\U{B}' || c == '\U{C}' || c == '\r'
    || c == '\U{A0}' || c == '\U{1680}' || ('\U{2000}' <= c <= '\U{200A}')
    || c == '\U{2028}' || c == '\U{2029}' || c == '\U{202F}' || c == '\U{205F}'
    || c == '\U{3000}' || c == '\U{FEFF}'
  }

  predicate AllSpace(s: string)
  {
    forall i :: 0 <= i < |s| ==> IsSpace(s[i])
  }

  /** `s.trimStart()`: drops the leading white space and nothing else. */
  function TrimStart(s: string): (r: string)
    ensures |r| <= |s| && r == s[|s| - |r|..]
    ensures AllSpace(s[..|s| - |r|])
    ensures r == [] || !IsSpace(r[0])
  {
    if s != [] && IsSpace(s[0]) then
      var r := TrimStart(s[1..]);
      assert s[..|s| - |r|] == [s[0]] + s[1..][..|s| - 1 - |r|];
      r
    else s
  }

  /** `s.trimEnd()`: drops the trailing white space and nothing else. */
  function TrimEnd(s: string): (r: string)
    ensures |r| <= |s| && r == s[..|r|]
    ensures AllSpace(s[|r|..])
    ensures r == [] || !IsSpace(r[|r| - 1])
  {
    if s != [] && IsSpace(s[|s| - 1]) then
      var r := TrimEnd(s[..|s| - 1]);
      assert s[|r|..] == s[..|s| - 1][|r|..] + [s[|s| - 1]];
      r
    else s
  }

  /** `s.trim()` */
  function Trim(s: string): (r: string)
  {
    TrimEnd(TrimStart(s))
  }

  /**
   * What `trim` promises: the result is a slice of the input, only white
   * space is cut off either end, and the result neither starts nor ends
   * with white space; in particular it is empty exactly when the input is
   * all white space.
   */
  lemma TrimSpec(s: string)
    ensures var r := Trim(s);
      exists k :: 0 <= k <= |s| - |r|
        && r == s[k..k + |r|] && AllSpace(s[..k]) && AllSpace(s[k + |r|..])
    ensures Trim(s) == [] || (!IsSpace(Trim(s)[0]) && !IsSpace(Trim(s)[|Trim(s)| - 1]))
    ensures Trim(s) == [] <==> AllSpace(s)
  {
    var k := TrimSlice(s);
    TrimEmpty(s, k);
  }

  /** `Trim(s)` is the slice of `s` from `k`, with only white space around it. */
  lemma TrimSlice(s: string) returns (k: int)
    ensures var r := Trim(s);
      && 0 <= k <= |s| - |r|
      && r == s[k..k + |r|] && AllSpace(s[..k]) && AllSpace(s[k + |r|..])
      && (r == [] || (!IsSpace(r[0]) && !IsSpace(r[|r| - 1])))
  {
    var t := TrimStart(s);
    k := |s| - |t|;
    TrimEndSlices(s, k, t);
  }

  /** Trimming the end of the suffix `t` of `s` from `k` leaves a slice of `s`. */
  lemma TrimEndSlices(s: string, k: int, t: string)
    requires 0 <= k <= |s| && t == s[k..]
    ensures var r := TrimEnd(t);
      && |r| <= |s| - k && r == s[k..k + |r|] && t[|r|..] == s[k + |r|..]
      && (r == [] || r[0] == t[0])
  {
    var r := TrimEnd(t);
    SuffixSlices(s, k, |r|);
  }

  /** Slices of a suffix are slices of the whole. */
  lemma SuffixSlices(s: string, k: int, n: int)
    requires 0 <= k <= |s| && 0 <= n <= |s| - k
    ensures s[k..][..n] == s[k..k + n]
    ensures s[k..][n..] == s[k + n..]
  {
  }

  /** Given the slice, the result is empty exactly when the input is all white space. */
  lemma TrimEmpty(s: string, k: int)
    requires var r := Trim(s);
      && 0 <= k <= |s| - |r|
      && r == s[k..k + |r|] && AllSpace(s[..k]) && AllSpace(s[k + |r|..])
      && (r == [] || !IsSpace(r[0]))
    ensures Trim(s) == [] <==> AllSpace(s)
  {
    var r := Trim(s);
    if r == [] {
      forall i | 0 <= i < |s|
        ensures IsSpace(s[i])
      {
        if i < k {
          assert s[i] == s[..k][i];
        } else {
          assert s[i] == s[k + |r|..][i - k];
        }
      }
    } else {
      assert s[k] == r[0];
    }
  }

  /** ASCII case mapping of `toLowerCase`. */
  function LowerChar(c: char): char
  {
    if 'A' <= c <= 'Z' then (c as int + 32) as char else c
  }

  /** `s.toLowerCase()` */
  function Lower(s: string): (r: string)
    ensures |r| == |s|
    ensures forall i :: 0 <= i < |s| ==> r[i] == LowerChar(s[i])
  {
    seq(|s|, i requires 0 <= i < |s| => LowerChar(s[i]))
  }

  lemma LowerAppend(a: string, b: string)
    ensures Lower(a + b) == Lower(a) + Lower(b)
  {
    assert forall i :: 0 <= i < |a + b| ==> Lower(a + b)[i] == (Lower(a) + Lower(b))[i];
  }

  /** `s.includes(part)`: `part` occurs in `s` as a contiguous slice. */
  predicate Contains(s: string, part: string)
  {
    exists i | 0 <= i <= |s| - |part| :: OccursAt(s, part, i)
  }

  predicate OccursAt(s: string, part: string, i: int)
  {
    0 <= i <= |s| - |part| && s[i..i + |part|] == part
  }

  lemma ContainsInSuffix(a: string, b: string, part: string)
    requires Contains(b, part)
    ensures Contains(a + b, part)
  {
    var i :| 0 <= i <= |b| - |part| && OccursAt(b, part, i);
    assert b[i..i + |part|] == part;
    assert (a + b)[|a| + i..|a| + i + |part|] == part;
    assert OccursAt(a + b, part, |a| + i);
  }

  /** A text longer than `s` never occurs in `s`. */
  lemma LongerNotContained(s: string, part: string)
    requires |part| > |s|
    ensures !Contains(s, part)
  {
  }

  /** An optional text that JavaScript treats as true: present and non-empty. */
  predicate Filled(o: Option<string>)
  {
    o.Some? && o.value != ""
  }

  /** `o || fallback` on optional text. */
  function OrElse(o: Option<string>, fallback: string): (r: string)
    ensures Filled(o) ==> r == o.value
    ensures !Filled(o) ==> r == fallback
  {
    if Filled(o) then o.value else fallback
  }
}

/** JavaScript's string length, counted in UTF-16 code units. */
module Utf16 {
  import opened Seqs

  /** A character outside the Basic Multilingual Plane, which UTF-16 stores as a surrogate pair. */
  predicate Astral(c: char)
  {
    c as int > 0xFFFF
  }

  /**
   * `s.length`: the number of UTF-16 code units, one per character plus
   * one more per astral character; it equals the number of characters
   * exactly when none is astral.
   */
  function Utf16Length(s: string): (n: nat)
    ensures n == |s| + Count(s, Astral)
    ensures |s| <= n <= 2 * |s|
    ensures n == |s| <==> forall i :: 0 <= i < |s| ==> !Astral(s[i])
  {
    if s == [] then 0
    else (if Astral(s[0]) then 2 else 1) + Utf16Length(s[1..])
  }
}
