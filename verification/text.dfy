/** Ordinal string operations used by the discovery protocol: prefix test,
    substring search and replace-all, with the facts the protocol relies on. */
module Text {

  /** `s` begins with `prefix` (ordinal, character by character). */
  predicate StartsWith(s: string, prefix: string) {
    |prefix| <= |s| && s[..|prefix|] == prefix
  }

  /** `pat` occurs somewhere in `s`; the empty pattern occurs in every string. */
  predicate Contains(s: string, pat: string)
    decreases |s|
  {
    StartsWith(s, pat) || (|s| > 0 && Contains(s[1..], pat))
  }

  /** Replaces every occurrence of `pat` in `s` by `rep`, scanning left to
      right and never re-examining replaced text (non-overlapping matches). */
  function Replace(s: string, pat: string, rep: string): (r: string)
    requires pat != []
    ensures |pat| == |rep| ==> |r| == |s|
    ensures StartsWith(s, pat) ==> StartsWith(r, rep)
    decreases |s|
  {
    if |s| < |pat| then s
    else if StartsWith(s, pat) then rep + Replace(s[|pat|..], pat, rep)
    else [s[0]] + Replace(s[1..], pat, rep)
  }

  /** The length .NET reports for `s`: its number of UTF-16 code units, two
      for each character outside the Basic Multilingual Plane. */
  function Utf16Length(s: string): (n: nat)
    ensures |s| <= n <= 2 * |s|
    ensures (forall i :: 0 <= i < |s| ==> s[i] as int <= 0xFFFF) ==> n == |s|
    decreases |s|
  {
    if s == [] then 0
    else (if s[0] as int > 0xFFFF then 2 else 1) + Utf16Length(s[1..])
  }

  /** An occurrence needs room: a pattern found in `s` is no longer than `s`. */
  lemma {:induction false} ContainsFits(s: string, pat: string)
    requires Contains(s, pat)
    ensures |pat| <= |s|
    decreases |s|
  {
    if !StartsWith(s, pat) {
      ContainsFits(s[1..], pat);
    }
  }

  /** A string always contains any of its suffixes. */
  lemma {:induction false} ContainsSuffix(p: string, t: string)
    ensures Contains(p + t, t)
    decreases |p|
  {
    if p == [] {
      assert p + t == t;
      assert StartsWith(t, t);
    } else {
      ContainsSuffix(p[1..], t);
      assert (p + t)[1..] == p[1..] + t;
    }
  }

  /** Replacing a pattern that does not occur leaves the string as it was. */
  lemma {:induction false} ReplaceWithoutMatch(s: string, pat: string, rep: string)
    requires pat != [] && !Contains(s, pat)
    ensures Replace(s, pat, rep) == s
    decreases |s|
  {
    if |s| >= |pat| {
      ReplaceWithoutMatch(s[1..], pat, rep);
      assert [s[0]] + s[1..] == s;
    }
  }

  /** A leading occurrence is replaced and scanning resumes right after it. */
  lemma ReplaceLeading(pat: string, t: string, rep: string)
    requires pat != []
    ensures Replace(pat + t, pat, rep) == rep + Replace(t, pat, rep)
  {
  }

  /** The characters of a GUID in its default textual form. */
  const GuidAlphabet: string := "0123456789abcdef-"

  /** `s` looks like a GUID in its default textual form: 36 characters, each a
      lower-case hexadecimal digit or a dash. */
  predicate IsGuidText(s: string) {
    |s| == 36 && forall i :: 0 <= i < |s| ==> s[i] in GuidAlphabet
  }

  /** A pattern whose first character lies outside the GUID alphabet never
      occurs in a string made of GUID characters. */
  lemma {:induction false} GuidTextOmits(s: string, pat: string)
    requires forall i :: 0 <= i < |s| ==> s[i] in GuidAlphabet
    requires pat != [] && pat[0] !in GuidAlphabet
    ensures !Contains(s, pat)
    decreases |s|
  {
    if |s| > 0 {
      assert s[0] in GuidAlphabet;
      forall i | 0 <= i < |s[1..]| ensures s[1..][i] in GuidAlphabet {
        assert s[1..][i] == s[i + 1];
      }
      GuidTextOmits(s[1..], pat);
    }
  }

  /** In `p + t`, a pattern as long as `t` whose first character occurs
      nowhere in `p` can only be found by being `t` itself. */
  lemma {:induction false} ContainsAfterForeignPrefix(p: string, t: string, pat: string)
    requires |pat| == |t| && pat != []
    requires forall i :: 0 <= i < |p| ==> p[i] != pat[0]
    ensures Contains(p + t, pat) <==> pat == t
    decreases |p|
  {
    if p == [] {
      assert p + t == t;
      if Contains(t, pat) && !StartsWith(t, pat) {
        ContainsFits(t[1..], pat);
      }
      assert StartsWith(t, pat) <==> pat == t;
    } else {
      assert (p + t)[0] == p[0];
      assert (p + t)[1..] == p[1..] + t;
      forall i | 0 <= i < |p[1..]| ensures p[1..][i] != pat[0] {
        assert p[1..][i] == p[i + 1];
      }
      ContainsAfterForeignPrefix(p[1..], t, pat);
    }
  }
}
