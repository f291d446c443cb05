/**
 * The PHP string primitives the core relies on: `empty()` on a string, `strcasecmp(..) == 0`,
 * `str_replace` and `explode($sep, $s, 2)`.
 */
module Text {
  import opened Wrappers

  /** PHP's `empty()` on a string: true for "" and for "0". */
  predicate IsEmptyPhp(s: string) {
    s == "" || s == "0"
  }

  /** PHP's `empty()` on a string that may be null. */
  predicate IsEmptyOrNull(s: Option<string>) {
    s.None? || IsEmptyPhp(s.value)
  }

  /** ASCII lower-casing, the only folding `strcasecmp` does. */
  function LowerAscii(c: char): char {
    if 'A' <= c <= 'Z' then (c as int + 32) as char else c
  }

  function ToLowerAscii(s: string): (r: string)
    ensures |r| == |s|
    ensures forall i :: 0 <= i < |s| ==> r[i] == LowerAscii(s[i])
  {
    seq(|s|, i requires 0 <= i < |s| => LowerAscii(s[i]))
  }

  /** `strcasecmp(a, b) == 0`. */
  predicate EqualsIgnoreCase(a: string, b: string) {
    ToLowerAscii(a) == ToLowerAscii(b)
  }

  /** Two strings compare equal ignoring case exactly when they have the same length and agree letter by letter after ASCII folding. */
  lemma EqualsIgnoreCaseLetterwise(a: string, b: string)
    ensures EqualsIgnoreCase(a, b) <==> |a| == |b| && forall i :: 0 <= i < |a| ==> LowerAscii(a[i]) == LowerAscii(b[i])
  {
    if |a| == |b| && forall i :: 0 <= i < |a| ==> LowerAscii(a[i]) == LowerAscii(b[i]) {
      assert ToLowerAscii(a) == ToLowerAscii(b);
    }
    if EqualsIgnoreCase(a, b) {
      assert |ToLowerAscii(a)| == |a|;
      forall i | 0 <= i < |a| ensures LowerAscii(a[i]) == LowerAscii(b[i]) {
        assert ToLowerAscii(a)[i] == ToLowerAscii(b)[i];
      }
    }
  }

  /** `pat` occurs in `s` starting at position `i`. */
  predicate OccursAt(s: string, pat: string, i: nat) {
    i + |pat| <= |s| && s[i..i + |pat|] == pat
  }

  /** `str_replace(pat, rep, s)`: every occurrence of `pat`, scanned left to right without overlap, becomes `rep`. */
  function ReplaceAll(s: string, pat: string, rep: string): string
    decreases |s|
  {
    if |pat| == 0 || |s| < |pat| then s
    else if s[..|pat|] == pat then rep + ReplaceAll(s[|pat|..], pat, rep)
    else [s[0]] + ReplaceAll(s[1..], pat, rep)
  }

  /** A text in which `pat` does not occur comes back unchanged. */
  lemma {:induction false} ReplaceAllNoOccurrence(s: string, pat: string, rep: string)
    requires forall i :: 0 <= i <= |s| ==> !OccursAt(s, pat, i)
    ensures ReplaceAll(s, pat, rep) == s
    decreases |s|
  {
    if |pat| != 0 && |s| >= |pat| {
      assert !OccursAt(s, pat, 0);
      assert s[0..|pat|] == s[..|pat|];
      forall i | 0 <= i <= |s[1..]| ensures !OccursAt(s[1..], pat, i) {
        assert !OccursAt(s, pat, i + 1);
        if i + |pat| <= |s[1..]| {
          assert s[1..][i..i + |pat|] == s[i + 1..i + 1 + |pat|];
        }
      }
      ReplaceAllNoOccurrence(s[1..], pat, rep);
    }
  }

  /** Text before which the first letter of `pat` never appears is copied through unchanged. */
  lemma {:induction false} ReplaceAllCopiesPrefix(a: string, b: string, pat: string, rep: string)
    requires |pat| > 0 && pat[0] !in a
    ensures ReplaceAll(a + b, pat, rep) == a + ReplaceAll(b, pat, rep)
    decreases |a|
  {
    if |a| > 0 {
      var s := a + b;
      if |s| >= |pat| {
        assert s[..|pat|][0] == a[0];
        assert s[..|pat|] != pat;
        assert s[1..] == a[1..] + b;
      }
      ReplaceAllCopiesPrefix(a[1..], b, pat, rep);
      assert a == [a[0]] + a[1..];
    } else {
      assert a + b == b;
    }
  }

  /** A template `a + pat + b` whose head `a` holds no placeholder expands to `a + rep` followed by the expanded tail. */
  lemma ExpandPlaceholder(a: string, b: string, pat: string, rep: string)
    requires |pat| > 0 && pat[0] !in a
    ensures ReplaceAll(a + pat + b, pat, rep) == a + rep + ReplaceAll(b, pat, rep)
  {
    ReplaceAllCopiesPrefix(a, pat + b, pat, rep);
    assert a + pat + b == a + (pat + b);
    var s := pat + b;
    assert s[..|pat|] == pat;
    assert s[|pat|..] == b;
  }

  /** `explode(c, s, 2)[1]`: the text after the first `c`, or null when `c` does not occur. */
  function AfterFirst(s: string, c: char): (r: Option<string>)
    ensures r.None? <==> c !in s
    ensures r.Some? ==> exists i :: 0 <= i < |s| && s[i] == c && c !in s[..i] && r.value == s[i + 1..]
  {
    if |s| == 0 then None
    else if s[0] == c then
      assert s[..0] == [];
      Some(s[1..])
    else
      var rest := AfterFirst(s[1..], c);
      assert c in s <==> c in s[1..] by {
        assert s == [s[0]] + s[1..];
      }
      if rest.Some? then
        var i :| 0 <= i < |s[1..]| && s[1..][i] == c && c !in s[1..][..i] && rest.value == s[1..][i + 1..];
        assert s[..i + 1] == [s[0]] + s[1..][..i];
        assert s[i + 1] == c && s[i + 2..] == rest.value;
        rest
      else
        rest
  }

  /** The text after a `c` with no `c` before it is what explode leaves in the second part. */
  lemma AfterFirstAt(s: string, c: char, i: nat)
    requires i < |s| && s[i] == c && c !in s[..i]
    ensures AfterFirst(s, c) == Some(s[i + 1..])
  {
    assert s[..i + 1][i] == c;
  }
}
