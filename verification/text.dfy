/** The JavaScript string operations the core uses, on strings as sequences
    of characters: startsWith, endsWith, includes/indexOf, trim,
    split('\n')[0], replace(string, string) and join. */
module Text {
  import opened Js

  /** The characters JavaScript's trim() removes and the regular expression
      class \s matches: WhiteSpace and LineTerminator of ECMA-262. */
  predicate IsWhitespace(c: char) {
    c == '\t' || c == '\n' || c == '\U{000B}' || c == '\U{000C}' || c == '\r' || c == ' '
    || c == '\U{00A0}' || c == '\U{1680}' || ('\U{2000}' <= c <= '\U{200A}')
    || c == '\U{2028}' || c == '\U{2029}' || c == '\U{202F}' || c == '\U{205F}'
    || c == '\U{3000}' || c == '\U{FEFF}'
  }

  predicate StartsWith(s: string, prefix: string) {
    |prefix| <= |s| && s[..|prefix|] == prefix
  }

  predicate EndsWith(s: string, suffix: string) {
    |suffix| <= |s| && s[|s| - |suffix|..] == suffix
  }

  /** `pat` occurs in `s` starting at index `i`. */
  predicate OccursAt(s: string, pat: string, i: int) {
    0 <= i && i + |pat| <= |s| && s[i..i + |pat|] == pat
  }

  /** The first index at or after `from` where `pat` occurs, if any. */
  function IndexFrom(s: string, pat: string, from: nat): (r: Option<nat>)
    requires from <= |s|
    ensures r.Some? ==> from <= r.value && OccursAt(s, pat, r.value)
    ensures r.Some? ==> forall j :: from <= j < r.value ==> !OccursAt(s, pat, j)
    ensures r.None? ==> forall j :: from <= j ==> !OccursAt(s, pat, j)
    decreases |s| - from
  {
    if OccursAt(s, pat, from) then Some(from)
    else if from + |pat| >= |s| then None
    else IndexFrom(s, pat, from + 1)
  }

  /** `s.indexOf(pat)`, with -1 written as None. */
  function IndexOf(s: string, pat: string): (r: Option<nat>)
    ensures r.Some? ==> OccursAt(s, pat, r.value) && forall j :: 0 <= j < r.value ==> !OccursAt(s, pat, j)
    ensures r.None? ==> forall j :: !OccursAt(s, pat, j)
  {
    IndexFrom(s, pat, 0)
  }

  /** indexOf finds an occurrence exactly when no earlier one exists. */
  lemma {:induction false} IndexOfEarliest(s: string, pat: string, p: nat)
    requires OccursAt(s, pat, p)
    requires forall j :: 0 <= j < p ==> !OccursAt(s, pat, j)
    ensures IndexOf(s, pat) == Some(p)
  {
    var r := IndexOf(s, pat);
    if r.None? || r.value != p {
      assert false;
    }
  }

  /** `s.includes(pat)`. */
  predicate Includes(s: string, pat: string) {
    IndexOf(s, pat).Some?
  }

  lemma IncludesIff(s: string, pat: string)
    ensures Includes(s, pat) <==> exists i :: OccursAt(s, pat, i)
  {
    if !Includes(s, pat) {
      assert forall j :: !OccursAt(s, pat, j);
    }
  }

  /** The end of the run of whitespace that starts at index `i`. */
  function SkipWhitespace(s: string, i: nat): (j: nat)
    requires i <= |s|
    ensures i <= j <= |s|
    ensures forall k :: i <= k < j ==> IsWhitespace(s[k])
    ensures j < |s| ==> !IsWhitespace(s[j])
    decreases |s| - i
  {
    if i == |s| || !IsWhitespace(s[i]) then i else SkipWhitespace(s, i + 1)
  }

  /** The start of the run of whitespace that ends just before index `j`. */
  function BackWhitespace(s: string, j: nat): (i: nat)
    requires j <= |s|
    ensures i <= j
    ensures forall k :: i <= k < j ==> IsWhitespace(s[k])
    ensures i > 0 ==> !IsWhitespace(s[i - 1])
  {
    if j == 0 || !IsWhitespace(s[j - 1]) then j else BackWhitespace(s, j - 1)
  }

  /** How many leading whitespace characters `s.trim()` drops. */
  function TrimOffset(s: string): (a: nat)
    ensures a <= |s|
    ensures forall k :: 0 <= k < a ==> IsWhitespace(s[k])
    ensures a < |s| ==> !IsWhitespace(s[a])
  {
    SkipWhitespace(s, 0)
  }

  /** `s.trim()`: the contiguous part of `s` left after removing whitespace
      at both ends. */
  function Trim(s: string): (r: string)
    ensures TrimOffset(s) + |r| <= |s| && r == s[TrimOffset(s)..TrimOffset(s) + |r|]
    ensures forall k :: 0 <= k < TrimOffset(s) ==> IsWhitespace(s[k])
    ensures forall k :: TrimOffset(s) + |r| <= k < |s| ==> IsWhitespace(s[k])
    ensures r == [] || (!IsWhitespace(r[0]) && !IsWhitespace(r[|r| - 1]))
  {
    var a := TrimOffset(s);
    var b := BackWhitespace(s, |s|);
    if b <= a then [] else s[a..b]
  }

  /** Trimming a string whose first and last characters are not whitespace
      leaves it unchanged. */
  lemma {:induction false} TrimKeeps(s: string)
    requires s != [] && !IsWhitespace(s[0]) && !IsWhitespace(s[|s| - 1])
    ensures Trim(s) == s
  {
    assert TrimOffset(s) == 0;
    assert BackWhitespace(s, |s|) == |s|;
    assert s[0..|s|] == s;
  }

  /** Trimming a string that starts with one space and otherwise ends and
      begins with non-whitespace drops exactly that space. */
  lemma {:induction false} TrimLeadingSpace(s: string)
    requires s != [] && !IsWhitespace(s[0]) && !IsWhitespace(s[|s| - 1])
    ensures Trim(" " + s) == s
  {
    var t := " " + s;
    assert SkipWhitespace(t, 1) == 1;
    assert TrimOffset(t) == 1;
    assert BackWhitespace(t, |t|) == |t|;
    assert t[1..|t|] == s;
  }

  /** `s.split('\n')[0]`: everything before the first line feed. */
  function FirstLine(s: string): (r: string)
    ensures StartsWith(s, r)
    ensures '\n' !in r
    ensures |r| < |s| ==> s[|r|] == '\n'
  {
    match IndexOf(s, "\n")
    case None =>
      assert forall k :: 0 <= k < |s| ==> s[k] != '\n' by {
        forall k | 0 <= k < |s| ensures s[k] != '\n' {
          assert !OccursAt(s, "\n", k);
          assert s[k..k + 1] == [s[k]];
        }
      }
      s
    case Some(j) =>
      assert forall k :: 0 <= k < j ==> s[k] != '\n' by {
        forall k | 0 <= k < j ensures s[k] != '\n' {
          assert !OccursAt(s, "\n", k);
          assert s[k..k + 1] == [s[k]];
        }
      }
      assert s[j..j + 1] == "\n";
      s[..j]
  }

  /** A text without a line feed is its own first line. */
  lemma {:induction false} FirstLineWhole(s: string)
    requires '\n' !in s
    ensures FirstLine(s) == s
  {
    forall j | 0 <= j < |s| ensures !OccursAt(s, "\n", j) {
      assert s[j..j + 1] == [s[j]];
    }
  }

  /** The first line ends at the first line feed. */
  lemma {:induction false} FirstLineOfBrokenText(a: string, b: string)
    requires '\n' !in a
    ensures FirstLine(a + "\n" + b) == a
  {
    var s := a + "\n" + b;
    assert s[|a|..|a| + 1] == "\n";
    forall j | 0 <= j < |a| ensures !OccursAt(s, "\n", j) {
      assert s[j..j + 1] == [a[j]];
    }
    IndexOfEarliest(s, "\n", |a|);
    assert s[..|a|] == a;
  }

  /** `s.replace(pat, rep)` with a string pattern: only the first occurrence
      is replaced. The replacements used here contain no `$` patterns. */
  function ReplaceFirst(s: string, pat: string, rep: string): (r: string)
    ensures !Includes(s, pat) ==> r == s
    ensures Includes(s, pat) ==>
      var i := IndexOf(s, pat).value;
      r == s[..i] + rep + s[i + |pat|..]
  {
    match IndexOf(s, pat)
    case None => s
    case Some(i) => s[..i] + rep + s[i + |pat|..]
  }

  /** Replacing in a string that begins with the pattern replaces that
      beginning. */
  lemma {:induction false} ReplaceAtStart(s: string, pat: string, rep: string)
    ensures StartsWith(s, pat) ==> ReplaceFirst(s, pat, rep) == rep + s[|pat|..]
  {
    if StartsWith(s, pat) {
      assert OccursAt(s, pat, 0);
      IndexOfEarliest(s, pat, 0);
    }
  }

  /** `parts.join(sep)`. */
  function Join(parts: seq<string>, sep: string): string {
    if parts == [] then ""
    else if |parts| == 1 then parts[0]
    else parts[0] + sep + Join(parts[1..], sep)
  }

  /** `s.replace(/\/+$/, '')`: removes the run of slashes at the end. */
  function StripTrailingSlashes(s: string): (r: string)
    ensures StartsWith(s, r)
    ensures r == [] || r[|r| - 1] != '/'
    ensures forall k :: |r| <= k < |s| ==> s[k] == '/'
  {
    if s != [] && s[|s| - 1] == '/' then
      var r := StripTrailingSlashes(s[..|s| - 1]);
      assert s[..|s| - 1][..|r|] == s[..|r|];
      r
    else s
  }
}
