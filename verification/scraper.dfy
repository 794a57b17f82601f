/** Reference text from the Mercy House website
    (src/utils/website-scraper.js; the root server carries an identical
    copy). Each page's HTML goes through a chain of global regular-expression
    replacements, is trimmed and cut to 2000 characters, and the per-page
    chunks are joined. The network is a parameter: `fetch(url)` is the body
    text of the page, or None when the request or the body read fails. */
module WebsiteScraper {
  import opened Js
  import opened Text

  const MercyUrls: seq<string> := [
    "https://mercyhouseatc.com/",
    "https://mercyhouseatc.com/about/",
    "https://mercyhouseatc.com/program/",
    "https://mercyhouseatc.com/contact/"
  ]

  const ChunkLimit: nat := 2000
  const ChunkSeparator: string := "\n\n"

  // ---------------------------------------------------------------------
  // Searching.

  /** The first index at or after `from` holding `c`, if any. */
  function FindChar(s: string, c: char, from: nat): (r: Option<nat>)
    ensures r.Some? ==> from <= r.value < |s| && s[r.value] == c
    ensures r.Some? ==> forall k :: from <= k < r.value ==> s[k] != c
    ensures r.None? ==> forall k :: from <= k < |s| ==> s[k] != c
    decreases |s| - from
  {
    if from >= |s| then None
    else if s[from] == c then Some(from)
    else FindChar(s, c, from + 1)
  }

  /** Character equality under the `i` flag without `u`: ASCII letters
      match either case; no other character changes. */
  function Lower(c: char): char {
    if 'A' <= c <= 'Z' then (c as int + 32) as char else c
  }

  predicate SameIgnoringCase(a: char, b: char) {
    Lower(a) == Lower(b)
  }

  /** `pat` occurs in `s` at `i`, ignoring ASCII case. */
  predicate OccursAtCi(s: string, pat: string, i: int) {
    0 <= i && i + |pat| <= |s| && forall k :: 0 <= k < |pat| ==> SameIgnoringCase(s[i + k], pat[k])
  }

  /** The first index at or after `from` where `pat` occurs ignoring case. */
  function IndexFromCi(s: string, pat: string, from: nat): (r: Option<nat>)
    ensures r.Some? ==> from <= r.value && OccursAtCi(s, pat, r.value)
    ensures r.Some? ==> forall j :: from <= j < r.value ==> !OccursAtCi(s, pat, j)
    ensures r.None? ==> forall j :: from <= j ==> !OccursAtCi(s, pat, j)
    decreases |s| - from
  {
    if OccursAtCi(s, pat, from) then Some(from)
    else if from + |pat| >= |s| then None
    else IndexFromCi(s, pat, from + 1)
  }

  // ---------------------------------------------------------------------
  // `<name[^>]*>[\s\S]*?<\/name>` with the flags g and i, replaced by ''.

  /** The length of the block match at the very start of `s`: the opening
      `<name` in any case, everything up to the first `>`, then everything
      up to the first closing `</name>` in any case. */
  function BlockAt(s: string, name: string): (n: Option<nat>)
    ensures n.Some? ==> 2 * |name| + 5 <= n.value <= |s|
    ensures n.Some? ==> OccursAtCi(s, "<" + name, 0) && OccursAtCi(s, "</" + name + ">", n.value - (|name| + 3))
    ensures !OccursAtCi(s, "<" + name, 0) ==> n.None?
  {
    if !OccursAtCi(s, "<" + name, 0) then None
    else
      var j := FindChar(s, '>', |name| + 1);
      if j.None? then None
      else
        var k := IndexFromCi(s, "</" + name + ">", j.value + 1);
        if k.None? then None else Some(k.value + |name| + 3)
  }

  /** `s.replace(/<name[^>]*>[\s\S]*?<\/name>/gi, '')`: matches are found
      left to right, and the search resumes after each removed block. */
  function RemoveBlocks(s: string, name: string): (r: string)
    ensures |r| <= |s|
    decreases |s|
  {
    if s == [] then []
    else
      var n := BlockAt(s, name);
      if n.Some? then RemoveBlocks(s[n.value..], name)
      else [s[0]] + RemoveBlocks(s[1..], name)
  }

  /** Text without `<` before a block passes through unchanged. */
  lemma {:induction false} RemoveBlocksKeepsPlainText(pre: string, rest: string, name: string)
    requires '<' !in pre
    ensures RemoveBlocks(pre + rest, name) == pre + RemoveBlocks(rest, name)
    decreases |pre|
  {
    if pre != [] {
      RemoveBlocksKeepsPlainText(pre[1..], rest, name);
      RemoveBlocksPlainStep(pre, rest, name);
    } else {
      assert pre + rest == rest;
    }
  }

  /** One step of the induction above: a plain first character. */
  lemma RemoveBlocksPlainStep(pre: string, rest: string, name: string)
    requires pre != [] && pre[0] != '<'
    requires RemoveBlocks(pre[1..] + rest, name) == pre[1..] + RemoveBlocks(rest, name)
    ensures RemoveBlocks(pre + rest, name) == pre + RemoveBlocks(rest, name)
  {
    ConcatHead(pre, rest);
    RemoveBlocksPlainHead(pre + rest, name);
    ConcatHead(pre, RemoveBlocks(rest, name));
  }

  /** How a non-empty prefix splits into its head and tail. */
  lemma ConcatHead(pre: string, rest: string)
    requires pre != []
    ensures (pre + rest)[0] == pre[0] && (pre + rest)[1..] == pre[1..] + rest
    ensures [pre[0]] + (pre[1..] + rest) == pre + rest
  {
  }

  /** No block starts at a character other than `<`. */
  /** A first character other than `<` is kept as it is. */
  lemma RemoveBlocksPlainHead(s: string, name: string)
    requires s != [] && s[0] != '<'
    ensures RemoveBlocks(s, name) == [s[0]] + RemoveBlocks(s[1..], name)
  {
    NoBlockAtPlainChar(s, name);
  }

  lemma NoBlockAtPlainChar(s: string, name: string)
    requires s != [] && s[0] != '<'
    ensures BlockAt(s, name).None?
  {
    assert !SameIgnoringCase(s[0], ("<" + name)[0]);
  }

  /** A whole block disappears, whatever the case of its tags and whatever
      attributes the opening tag carries: `open` is `<name` in any case
      followed by text without `>`, and `close` is `</name>` in any case
      occurring nowhere earlier in `body + close`. */
  lemma {:induction false} RemoveBlocksDropsBlock(open: string, body: string, close: string, post: string, name: string)
    requires OccursAtCi(open, "<" + name, 0)
    requires forall k :: |name| + 1 <= k < |open| ==> open[k] != '>'
    requires |close| == |name| + 3 && OccursAtCi(close, "</" + name + ">", 0)
    requires forall p :: 0 <= p < |body| ==> !OccursAtCi(body + close, "</" + name + ">", p)
    ensures RemoveBlocks(open + ">" + body + close + post, name) == RemoveBlocks(post, name)
  {
    var s := open + ">" + body + close + post;
    var n := |open| + 1 + |body| + |close|;
    BlockAtBlock(open, body, close, post, name);
    assert s[n..] == post;
  }

  /** The block match at the start of such a text covers exactly the block. */
  lemma BlockAtBlock(open: string, body: string, close: string, post: string, name: string)
    requires OccursAtCi(open, "<" + name, 0)
    requires forall k :: |name| + 1 <= k < |open| ==> open[k] != '>'
    requires |close| == |name| + 3 && OccursAtCi(close, "</" + name + ">", 0)
    requires forall p :: 0 <= p < |body| ==> !OccursAtCi(body + close, "</" + name + ">", p)
    ensures BlockAt(open + ">" + body + close + post, name) == Some(|open| + 1 + |body| + |close|)
  {
    var s := open + ">" + body + close + post;
    var rest := ">" + body + close + post;
    assert s == open + rest;
    OpeningTagKept(open, rest, name);
    FirstCloseAfterOpening(open, rest, |name| + 1);
    CloseTagAfterBody(open + ">", body, close, post, "</" + name + ">");
  }

  /** The opening `<name` stays matched whatever follows it. */
  lemma OpeningTagKept(open: string, rest: string, name: string)
    requires OccursAtCi(open, "<" + name, 0)
    ensures OccursAtCi(open + rest, "<" + name, 0)
  {
    var s := open + rest;
    var pat := "<" + name;
    forall k | 0 <= k < |pat| ensures SameIgnoringCase(s[k], pat[k]) {
      assert s[k] == open[k];
    }
  }

  /** The first `>` at or after `from` is the one that opens `rest`. */
  lemma FirstCloseAfterOpening(open: string, rest: string, from: nat)
    requires from <= |open| && rest != [] && rest[0] == '>'
    requires forall k :: from <= k < |open| ==> open[k] != '>'
    ensures FindChar(open + rest, '>', from) == Some(|open|)
  {
    var s := open + rest;
    var j := |open|;
    assert s[j] == '>';
    forall k | from <= k < j ensures s[k] != '>' {
      assert s[k] == open[k];
    }
  }

  /** The first closing tag after the opening one is the one after the body. */
  lemma CloseTagAfterBody(head: string, body: string, close: string, post: string, tag: string)
    requires |close| == |tag| && OccursAtCi(close, tag, 0)
    requires forall p :: 0 <= p < |body| ==> !OccursAtCi(body + close, tag, p)
    ensures IndexFromCi(head + body + close + post, tag, |head|) == Some(|head| + |body|)
  {
    var s := head + body + close + post;
    var c := |head| + |body|;
    assert s[c..c + |tag|] == close;
    OccursAtCiSlice(s, tag, c);
    OccursAtCiSlice(close, tag, 0);
    assert close[0..|tag|] == close;
    NoCloseTagInBody(head, body, close, post, tag);
    FirstOccurrenceCi(s, tag, |head|, c);
  }

  lemma NoCloseTagInBody(head: string, body: string, close: string, post: string, tag: string)
    requires |close| == |tag|
    requires forall p :: 0 <= p < |body| ==> !OccursAtCi(body + close, tag, p)
    ensures forall p :: |head| <= p < |head| + |body| ==> !OccursAtCi(head + body + close + post, tag, p)
  {
    var s := head + body + close + post;
    var t := body + close;
    forall p | |head| <= p < |head| + |body| ensures !OccursAtCi(s, tag, p) {
      var q := p - |head|;
      assert !OccursAtCi(t, tag, q);
      if p + |tag| <= |s| {
        assert q + |tag| <= |t|;
        assert s[p..p + |tag|] == t[q..q + |tag|];
        OccursAtCiSlice(s, tag, p);
        OccursAtCiSlice(t, tag, q);
      }
    }
  }

  /** Whether `tag` occurs at c depends only on the characters it spans. */
  lemma OccursAtCiSlice(s: string, tag: string, c: nat)
    requires c + |tag| <= |s|
    ensures OccursAtCi(s, tag, c) <==> OccursAtCi(s[c..c + |tag|], tag, 0)
  {
    var t := s[c..c + |tag|];
    assert forall k :: 0 <= k < |tag| ==> t[k] == s[c + k];
  }

  /** An occurrence with none before it, from `from` on, is what the
      search finds. */
  lemma FirstOccurrenceCi(s: string, tag: string, from: nat, c: nat)
    requires from <= c && OccursAtCi(s, tag, c)
    requires forall p :: from <= p < c ==> !OccursAtCi(s, tag, p)
    ensures IndexFromCi(s, tag, from) == Some(c)
  {
  }

  // ---------------------------------------------------------------------
  // `<[^>]+>` with the flag g, replaced by ' '.

  /** The length of the tag match at the very start of `s`: `<`, then at
      least one character other than `>`, then the first `>`. */
  function TagAt(s: string): (n: Option<nat>)
    ensures n.Some? ==> 3 <= n.value <= |s| && IsTagMatch(s, 0, n.value - 1)
    ensures n.None? ==> forall j :: !IsTagMatch(s, 0, j)
  {
    if |s| >= 2 && s[0] == '<' && s[1] != '>' then
      var j := FindChar(s, '>', 2);
      if j.None? then None else Some(j.value + 1)
    else None
  }

  /** `s` has a substring matching `<[^>]+>` from index i to index j. */
  predicate IsTagMatch(s: string, i: int, j: int) {
    0 <= i && i + 2 <= j < |s| && s[i] == '<' && s[j] == '>' && forall k :: i < k < j ==> s[k] != '>'
  }

  /** The local form of "no tag": after every `<` comes either `>` at once
      or no `>` at all. */
  predicate TagFree(s: string) {
    forall i :: 0 <= i < |s| ==> OpensNoTag(s, i)
  }

  /** The character at i is not `<`, or is followed at once by `>`, or is
      followed by no `>` at all. */
  predicate OpensNoTag(s: string, i: int)
    requires 0 <= i < |s|
  {
    s[i] == '<' ==> (i + 1 < |s| && s[i + 1] == '>') || NoCloseAfter(s, i)
  }

  /** No `>` follows index i. */
  predicate NoCloseAfter(s: string, i: int) {
    forall k :: 0 <= k < |s| && i < k ==> s[k] != '>'
  }

  lemma {:induction false} TagFreeMeansNoTag(s: string)
    ensures TagFree(s) <==> forall i, j :: !IsTagMatch(s, i, j)
  {
    if TagFree(s) {
      forall i, j ensures !IsTagMatch(s, i, j) {
        if 0 <= i < |s| {
          assert OpensNoTag(s, i);
        }
      }
    } else {
      var i :| 0 <= i < |s| && !OpensNoTag(s, i);
      assert !NoCloseAfter(s, i);
      var k :| 0 <= k < |s| && i < k && s[k] == '>';
      var j := FindChar(s, '>', i + 1);
      assert j.Some?;
      assert IsTagMatch(s, i, j.value);
    }
  }

  lemma {:induction false} TagFreeCons(c: char, t: string)
    requires TagFree(t)
    requires c == '<' ==> (t != [] && t[0] == '>') || '>' !in t
    ensures TagFree([c] + t)
  {
    var s := [c] + t;
    forall i | 0 <= i < |s| ensures OpensNoTag(s, i) {
      if i == 0 {
        if '>' !in t {
          forall k | 0 < k < |s| ensures s[k] != '>' {
            assert s[k] == t[k - 1];
          }
        }
      } else {
        assert OpensNoTag(t, i - 1);
        forall k | i < k < |s| ensures s[k] == t[k - 1] {
        }
      }
    }
  }

  /** Cutting a piece out of a tag-free text leaves it tag-free. */
  lemma {:induction false} TagFreeSlice(s: string, a: nat, b: nat)
    requires a <= b <= |s| && TagFree(s)
    ensures TagFree(s[a..b])
  {
    var t := s[a..b];
    forall i | 0 <= i < |t| ensures OpensNoTag(t, i) {
      assert OpensNoTag(s, a + i);
      forall k | 0 <= k < |t| && i < k ensures t[k] == s[a + k] {
      }
    }
  }

  /** `s.replace(/<[^>]+>/g, ' ')`. */
  function StripTags(s: string): (r: string)
    ensures TagFree(r)
    ensures forall k :: 0 <= k < |r| && r[k] != ' ' ==> r[k] in s
    ensures s != [] && s[0] != '<' ==> r != [] && r[0] == s[0]
    decreases |s|
  {
    if s == [] then []
    else
      if TagAt(s).Some? then
        var n := TagAt(s).value;
        var t := StripTags(s[n..]);
        ConsKeepsChars(' ', s, n, t);
        TagFreeCons(' ', t);
        [' '] + t
      else
        var t := StripTags(s[1..]);
        ConsKeepsChars(s[0], s, 1, t);
        UntaggedHead(s, t);
        [s[0]] + t
  }

  /** Prepending a character of `s` to a text whose other characters come
      from a suffix of `s`. */
  lemma ConsKeepsChars(c: char, s: string, n: nat, t: string)
    requires n <= |s| && (c == ' ' || (n > 0 && c == s[0]))
    requires forall k :: 0 <= k < |t| && t[k] != ' ' ==> t[k] in s[n..]
    ensures forall k :: 0 <= k < |[c] + t| && ([c] + t)[k] != ' ' ==> ([c] + t)[k] in s
  {
    var r := [c] + t;
    forall k | 0 <= k < |r| && r[k] != ' ' ensures r[k] in s {
      if k > 0 {
        assert r[k] == t[k - 1];
        var m :| 0 <= m < |s[n..]| && s[n..][m] == t[k - 1];
        assert s[n + m] == r[k];
      }
    }
  }

  /** A `<` that does not start a tag stays tag-free once the rest is. */
  lemma UntaggedHead(s: string, t: string)
    requires s != [] && TagAt(s).None?
    requires TagFree(t)
    requires forall k :: 0 <= k < |t| && t[k] != ' ' ==> t[k] in s[1..]
    requires |s| > 1 && s[1] != '<' ==> t != [] && t[0] == s[1]
    ensures TagFree([s[0]] + t)
  {
    if s[0] == '<' && '>' in t {
      var k :| 0 <= k < |t| && t[k] == '>';
      var m :| 0 <= m < |s[1..]| && s[1..][m] == '>';
      assert s[m + 1] == '>';
      assert s[1] == '>';
    }
    TagFreeCons(s[0], t);
  }

  // ---------------------------------------------------------------------
  // `\s+` with the flag g, replaced by ' '.

  predicate NoDoubleWhitespace(s: string) {
    forall i :: 0 <= i && i + 1 < |s| ==> !WhitespacePairAt(s, i)
  }

  predicate WhitespacePairAt(s: string, i: int)
    requires 0 <= i && i + 1 < |s|
  {
    IsWhitespace(s[i]) && IsWhitespace(s[i + 1])
  }

  predicate OnlySpaces(s: string) {
    forall i :: 0 <= i < |s| && IsWhitespace(s[i]) ==> s[i] == ' '
  }

  /** `s.replace(/\s+/g, ' ')`: every run of whitespace becomes one space. */
  function CollapseWhitespace(s: string): (r: string)
    ensures NoDoubleWhitespace(r) && OnlySpaces(r)
    ensures s != [] ==> r != [] && r[0] == (if IsWhitespace(s[0]) then ' ' else s[0])
    ensures NoDoubleWhitespace(s) && OnlySpaces(s) ==> r == s
    decreases |s|
  {
    if s == [] then []
    else if IsWhitespace(s[0]) then
      TrimStartDrops(s);
      var t := CollapseWhitespace(s[TrimOffset(s)..]);
      ConsKeepsSpacing(' ', t);
      TidyTail(s);
      [' '] + t
    else
      var t := CollapseWhitespace(s[1..]);
      ConsKeepsSpacing(s[0], t);
      TidyTail(s);
      [s[0]] + t
  }

  /** Dropping the first character of a tidy text leaves a tidy text, and
      a leading space of a tidy text is the whole run of whitespace. */
  lemma TidyTail(s: string)
    requires s != []
    ensures NoDoubleWhitespace(s) && OnlySpaces(s) ==>
      && NoDoubleWhitespace(s[1..]) && OnlySpaces(s[1..]) && s == [s[0]] + s[1..]
      && (IsWhitespace(s[0]) ==> s[0] == ' ' && TrimOffset(s) == 1)
  {
    if NoDoubleWhitespace(s) && OnlySpaces(s) {
      SliceKeepsSpacing(s, 1, |s|);
      assert s[1..|s|] == s[1..];
      if IsWhitespace(s[0]) && |s| > 1 {
        assert !WhitespacePairAt(s, 0);
      }
    }
  }

  /** A character in front of a tidy text keeps it tidy when it is not
      whitespace, or is a space in front of a non-whitespace character. */
  lemma ConsKeepsSpacing(c: char, t: string)
    requires NoDoubleWhitespace(t) && OnlySpaces(t)
    requires IsWhitespace(c) ==> c == ' ' && (t == [] || !IsWhitespace(t[0]))
    ensures NoDoubleWhitespace([c] + t) && OnlySpaces([c] + t)
  {
    var r := [c] + t;
    forall i | 0 <= i && i + 1 < |r| ensures !WhitespacePairAt(r, i) {
      if i > 0 {
        assert !WhitespacePairAt(t, i - 1);
      }
    }
    forall i | 0 <= i < |r| && IsWhitespace(r[i]) ensures r[i] == ' ' {
      if i > 0 {
        assert r[i] == t[i - 1];
      }
    }
  }

  /** Collapsing whitespace adds no character but spaces, so it creates no
      tag. */
  lemma {:induction false} CollapseKeepsTagFree(s: string)
    ensures forall k :: 0 <= k < |CollapseWhitespace(s)| && CollapseWhitespace(s)[k] != ' ' ==> CollapseWhitespace(s)[k] in s
    ensures TagFree(s) ==> TagFree(CollapseWhitespace(s))
    decreases |s|
  {
    if s != [] {
      var n := if IsWhitespace(s[0]) then TrimOffset(s) else 1;
      if IsWhitespace(s[0]) {
        TrimStartDrops(s);
      }
      var t := CollapseWhitespace(s[n..]);
      CollapseKeepsTagFree(s[n..]);
      ConsKeepsChars(if IsWhitespace(s[0]) then ' ' else s[0], s, n, t);
      CollapseHeadTagFree(s, n, t);
    }
  }

  /** A text that opens with whitespace loses at least one character to
      the leading trim. */
  lemma TrimStartDrops(s: string)
    requires s != [] && IsWhitespace(s[0])
    ensures 0 < TrimOffset(s) <= |s|
  {
  }

  lemma CollapseHeadTagFree(s: string, n: nat, t: string)
    requires 0 < n <= |s|
    requires n > 1 ==> IsWhitespace(s[0])
    requires TagFree(s[n..]) ==> TagFree(t)
    requires forall k :: 0 <= k < |t| && t[k] != ' ' ==> t[k] in s[n..]
    requires n < |s| ==> t != [] && t[0] == (if IsWhitespace(s[n]) then ' ' else s[n])
    ensures TagFree(s) ==> TagFree([if IsWhitespace(s[0]) then ' ' else s[0]] + t)
  {
    if TagFree(s) {
      TagFreeSlice(s, n, |s|);
      assert s[n..|s|] == s[n..];
      var c := if IsWhitespace(s[0]) then ' ' else s[0];
      if c == '<' && '>' in t {
        var k :| 0 <= k < |t| && t[k] == '>';
        var m :| 0 <= m < |s[n..]| && s[n..][m] == '>';
        assert s[n + m] == '>';
        assert n == 1;
        assert OpensNoTag(s, 0);
        assert s[1] == '>' && !IsWhitespace(s[1]);
        assert t[0] == '>';
      }
      TagFreeCons(c, t);
    }
  }

  lemma {:induction false} SliceKeepsSpacing(s: string, a: nat, b: nat)
    requires a <= b <= |s| && NoDoubleWhitespace(s) && OnlySpaces(s)
    ensures NoDoubleWhitespace(s[a..b]) && OnlySpaces(s[a..b])
  {
    var t := s[a..b];
    forall i | 0 <= i && i + 1 < |t| ensures !WhitespacePairAt(t, i) {
      assert !WhitespacePairAt(s, a + i);
    }
  }

  // ---------------------------------------------------------------------
  // One page.

  /** `text.slice(0, n)`. */
  function Prefix(s: string, n: nat): (r: string)
    ensures |r| == (if |s| <= n then |s| else n) && StartsWith(s, r)
    ensures |s| <= n ==> r == s
  {
    if |s| <= n then s else s[..n]
  }

  lemma TrimKeepsTagFree(s: string)
    ensures TagFree(s) ==> TagFree(Trim(s))
  {
    var a := TrimOffset(s);
    var r := Trim(s);
    assert r == s[a..a + |r|];
    if TagFree(s) {
      TagFreeSlice(s, a, a + |r|);
    }
  }

  /** Single spaces between words and no whitespace at either end: what
      `.replace(/\s+/g, ' ').trim()` produces. */
  predicate Tidied(s: string) {
    NoDoubleWhitespace(s) && OnlySpaces(s) && (s == [] || (!IsWhitespace(s[0]) && !IsWhitespace(s[|s| - 1])))
  }

  /** Tidying a text that is already tidy leaves it unchanged. */
  lemma TidyKeepsTidied(s: string)
    ensures Tidied(s) ==> Trim(CollapseWhitespace(s)) == s
  {
    if Tidied(s) {
      assert CollapseWhitespace(s) == s;
      if s != [] {
        TrimKeeps(s);
      }
    }
  }

  /** `.replace(/\s+/g, ' ').trim()`: single spaces between words and
      none at either end. */
  function Tidy(s: string): (r: string)
    ensures Tidied(r)
    ensures TagFree(s) ==> TagFree(r)
    ensures Tidied(s) ==> r == s
  {
    var collapsed := CollapseWhitespace(s);
    CollapseKeepsTagFree(s);
    TrimKeepsTagFree(collapsed);
    TrimmedCollapseTidied(s);
    TidyKeepsTidied(s);
    Trim(collapsed)
  }

  /** Collapsing and then trimming always yields a tidied text. */
  lemma TrimmedCollapseTidied(s: string)
    ensures Tidied(Trim(CollapseWhitespace(s)))
  {
    TrimKeepsSpacing(CollapseWhitespace(s));
  }

  /** Trimming a text of single spaces leaves it tidied. */
  lemma TrimKeepsSpacing(c: string)
    requires NoDoubleWhitespace(c) && OnlySpaces(c)
    ensures Tidied(Trim(c))
  {
    var r := Trim(c);
    var a := TrimOffset(c);
    SliceKeepsSpacing(c, a, a + |r|);
  }

  /** The cleaning chain applied to a page's HTML: script blocks, then
      style blocks, then the remaining tags go, then whitespace is tidied. */
  function Clean(html: string): (r: string)
    ensures TagFree(r) && NoDoubleWhitespace(r) && OnlySpaces(r)
    ensures r == [] || (!IsWhitespace(r[0]) && !IsWhitespace(r[|r| - 1]))
    ensures '<' !in html && Tidied(html) ==> r == html
  {
    PlainTextKeepsMarkup(html);
    Tidy(StripTags(RemoveBlocks(RemoveBlocks(html, "script"), "style")))
  }

  /** Text without `<` holds neither a block nor a tag to remove. */
  lemma PlainTextKeepsMarkup(s: string)
    ensures '<' !in s ==> StripTags(RemoveBlocks(RemoveBlocks(s, "script"), "style")) == s
  {
    if '<' !in s {
      RemoveBlocksKeepsPlainText(s, [], "script");
      RemoveBlocksKeepsPlainText(s, [], "style");
      assert s + [] == s;
      StripTagsKeepsText(s);
    }
  }

  /** The text of a paragraph survives cleaning: the tags become spaces,
      which the tidying removes again. */
  lemma {:induction false} CleanParagraph(w: string)
    requires '<' !in w && w != [] && Tidied(w)
    ensures Clean("<p>" + w + "</p>") == w
  {
    var html := "<p>" + w + "</p>";
    ParagraphHasNoBlock(w, "script");
    ParagraphHasNoBlock(w, "style");
    RemoveBlocksWithoutOpening(html, "script");
    RemoveBlocksWithoutOpening(html, "style");
    StripParagraph(w);
    TidyPadded(w);
  }

  /** Stripping the tags of a paragraph leaves its text between two spaces. */
  lemma StripParagraph(w: string)
    requires '<' !in w
    ensures StripTags("<p>" + w + "</p>") == " " + w + " "
  {
    assert "<p>" + w + "</p>" == "<p>" + (w + "</p>");
    StripOpeningParagraph(w + "</p>");
    StripTagsKeepsPlainText(w, "</p>");
    StripClosingParagraph();
  }

  /** An opening `<p>` becomes one space. */
  lemma StripOpeningParagraph(x: string)
    ensures StripTags("<p>" + x) == " " + StripTags(x)
  {
    var s := "<p>" + x;
    assert IsTagMatch(s, 0, 2);
    assert TagAt(s) == Some(3);
    assert s[3..] == x;
  }

  /** A closing `</p>` on its own becomes one space. */
  lemma StripClosingParagraph()
    ensures StripTags("</p>") == " "
  {
    var s := "</p>";
    assert IsTagMatch(s, 0, 3);
    assert TagAt(s) == Some(4);
    assert s[4..] == [];
  }

  /** Tidying removes the single spaces around a tidied text. */
  lemma TidyPadded(w: string)
    requires w != [] && Tidied(w)
    ensures Tidy(" " + w + " ") == w
  {
    PaddedSpacing(w);
    assert CollapseWhitespace(" " + w + " ") == " " + w + " ";
    TrimPadded(w);
  }

  /** A paragraph whose text has no `<` opens no block whose tag name
      starts with neither `p` nor `/`. */
  lemma ParagraphHasNoBlock(w: string, name: string)
    requires '<' !in w && name != [] && Lower(name[0]) != 'p' && Lower(name[0]) != '/'
    ensures forall i :: !OccursAtCi("<p>" + w + "</p>", "<" + name, i)
  {
    var html := "<p>" + w + "</p>";
    var pat := "<" + name;
    forall i ensures !OccursAtCi(html, pat, i) {
      if 0 <= i && i + 1 < |html| {
        if i == 0 || i == |w| + 3 {
          assert !SameIgnoringCase(html[i + 1], pat[1]);
        } else {
          if 3 <= i < |w| + 3 {
            assert html[i] == w[i - 3];
          }
          assert html[i] != '<';
          assert !SameIgnoringCase(html[i], pat[0]);
        }
      }
    }
  }

  /** Block removal leaves alone a text in which no block opens. */
  lemma {:induction false} RemoveBlocksWithoutOpening(s: string, name: string)
    requires forall i :: !OccursAtCi(s, "<" + name, i)
    ensures RemoveBlocks(s, name) == s
    decreases |s|
  {
    if s != [] {
      assert BlockAt(s, name).None?;
      forall i ensures !OccursAtCi(s[1..], "<" + name, i) {
        OccursAtCiShift(s, "<" + name, i);
      }
      RemoveBlocksWithoutOpening(s[1..], name);
      assert [s[0]] + s[1..] == s;
    }
  }

  /** An occurrence in the tail is an occurrence one place further on. */
  lemma OccursAtCiShift(s: string, pat: string, i: int)
    requires s != []
    ensures OccursAtCi(s[1..], pat, i) ==> OccursAtCi(s, pat, i + 1)
  {
    if OccursAtCi(s[1..], pat, i) {
      forall k | 0 <= k < |pat| ensures SameIgnoringCase(s[i + 1 + k], pat[k]) {
        assert s[1..][i + k] == s[i + 1 + k];
      }
    }
  }

  /** A first character other than `<` is kept as it is. */
  lemma StripTagsPlainHead(s: string)
    requires s != [] && s[0] != '<'
    ensures StripTags(s) == [s[0]] + StripTags(s[1..])
  {
    assert TagAt(s).None?;
  }

  /** One step of the induction below: a plain first character. */
  lemma StripTagsPlainStep(pre: string, rest: string)
    requires pre != [] && pre[0] != '<'
    requires StripTags(pre[1..] + rest) == pre[1..] + StripTags(rest)
    ensures StripTags(pre + rest) == pre + StripTags(rest)
  {
    ConcatHead(pre, rest);
    StripTagsPlainHead(pre + rest);
    ConcatHead(pre, StripTags(rest));
  }

  /** Tag stripping leaves a text without `<` as it is. */
  lemma StripTagsKeepsText(s: string)
    ensures '<' !in s ==> StripTags(s) == s
  {
    if '<' !in s {
      StripTagsKeepsPlainText(s, []);
      assert s + [] == s;
    }
  }

  /** Text without `<` before a tag passes through tag stripping unchanged. */
  lemma {:induction false} StripTagsKeepsPlainText(pre: string, rest: string)
    requires '<' !in pre
    ensures StripTags(pre + rest) == pre + StripTags(rest)
    decreases |pre|
  {
    if pre != [] {
      StripTagsKeepsPlainText(pre[1..], rest);
      StripTagsPlainStep(pre, rest);
    } else {
      assert pre + rest == rest;
    }
  }

  /** A tidy text between two spaces still has single spaces only. */
  lemma PaddedSpacing(w: string)
    requires w != [] && Tidied(w)
    ensures NoDoubleWhitespace(" " + w + " ") && OnlySpaces(" " + w + " ")
  {
    var t := " " + w + " ";
    forall i | 0 <= i && i + 1 < |t| ensures !WhitespacePairAt(t, i) {
      if i == 0 {
        assert t[1] == w[0];
      } else if i == |t| - 2 {
        assert t[i] == w[|w| - 1];
      } else {
        assert t[i] == w[i - 1] && t[i + 1] == w[i];
        assert !WhitespacePairAt(w, i - 1);
      }
    }
    forall i | 0 <= i < |t| && IsWhitespace(t[i]) ensures t[i] == ' ' {
      if 0 < i < |t| - 1 {
        assert t[i] == w[i - 1];
      }
    }
  }

  /** Trimming drops exactly one space at each end of a text that neither
      begins nor ends with whitespace. */
  lemma TrimPadded(w: string)
    requires w != [] && !IsWhitespace(w[0]) && !IsWhitespace(w[|w| - 1])
    ensures Trim(" " + w + " ") == w
  {
    var t := " " + w + " ";
    assert t[1] == w[0];
    assert SkipWhitespace(t, 1) == 1;
    assert TrimOffset(t) == 1;
    assert t[|t| - 2] == w[|w| - 1];
    assert BackWhitespace(t, |t| - 1) == |t| - 1;
    assert BackWhitespace(t, |t|) == |t| - 1;
    assert t[1..|t| - 1] == w;
  }

  /** `From ${url}:\n${text.slice(0, 2000)}`. */
  function Chunk(url: string, html: string): string {
    ChunkHeader(url) + Prefix(Clean(html), ChunkLimit)
  }

  /** A chunk is its header followed by at most 2000 characters that open
      the cleaned page, and those characters are as clean as the page. */
  lemma ChunkShape(url: string, html: string)
    ensures StartsWith(Chunk(url, html), ChunkHeader(url))
    ensures |Chunk(url, html)| == |ChunkHeader(url)| + (if |Clean(html)| <= ChunkLimit then |Clean(html)| else ChunkLimit)
    ensures StartsWith(Clean(html), Chunk(url, html)[|ChunkHeader(url)|..])
    ensures TagFree(Chunk(url, html)[|ChunkHeader(url)|..])
    ensures NoDoubleWhitespace(Chunk(url, html)[|ChunkHeader(url)|..])
  {
    var page := Clean(html);
    var text := Prefix(page, ChunkLimit);
    TagFreeSlice(page, 0, |text|);
    SliceKeepsSpacing(page, 0, |text|);
    assert page[0..|text|] == text;
    var r := ChunkHeader(url) + text;
    assert r[..|ChunkHeader(url)|] == ChunkHeader(url);
    assert r[|ChunkHeader(url)|..] == text;
  }

  function ChunkHeader(url: string): string {
    "From " + url + ":\n"
  }

  // ---------------------------------------------------------------------
  // All pages.

  predicate AllFetched(urls: seq<string>, fetch: string -> Option<string>) {
    forall k :: 0 <= k < |urls| ==> fetch(urls[k]).Some?
  }

  /** The chunks of the pages at `urls`, in order, each made by `chunk`
      from its URL and its page. */
  function PageChunks(urls: seq<string>, fetch: string -> Option<string>, chunk: (string, string) -> string): (r: seq<string>)
    requires AllFetched(urls, fetch)
    ensures |r| == |urls|
    ensures forall k :: 0 <= k < |urls| ==> r[k] == chunk(urls[k], fetch(urls[k]).value)
  {
    if urls == [] then []
    else
      var last := urls[|urls| - 1];
      PageChunks(urls[..|urls| - 1], fetch, chunk) + [chunk(last, fetch(last).value)]
  }

  /** The result of reading `urls`: the chunks joined by a blank line, or
      "" when any page cannot be read. */
  function PagesContent(urls: seq<string>, fetch: string -> Option<string>, chunk: (string, string) -> string): string {
    if AllFetched(urls, fetch) then Join(PageChunks(urls, fetch, chunk), ChunkSeparator) else ""
  }

  /** What fetchMercyHouseContent resolves to. */
  function MercyHouseContent(fetch: string -> Option<string>): string {
    PagesContent(MercyUrls, fetch, Chunk)
  }

  /** The loop of fetchMercyHouseContent over `urls`: pages are read one
      after another, and the first failure abandons the rest with "". */
  method FetchPages(urls: seq<string>, fetch: string -> Option<string>, chunk: (string, string) -> string) returns (content: string)
    ensures content == PagesContent(urls, fetch, chunk)
  {
    var chunks: seq<string> := [];
    var i := 0;
    while i < |urls|
      invariant 0 <= i <= |urls|
      invariant AllFetched(urls[..i], fetch)
      invariant chunks == PageChunks(urls[..i], fetch, chunk)
    {
      var url := urls[i];
      var html := fetch(url);
      if html.None? {
        assert !AllFetched(urls, fetch) by {
          assert fetch(urls[i]).None?;
        }
        return "";
      }
      var prefix := urls[..i + 1];
      assert prefix[..i] == urls[..i];
      chunks := chunks + [chunk(url, html.value)];
      i := i + 1;
    }
    assert urls[..i] == urls;
    content := Join(chunks, ChunkSeparator);
  }

  /** fetchMercyHouseContent(). */
  method FetchMercyHouseContent(fetch: string -> Option<string>) returns (content: string)
    ensures content == MercyHouseContent(fetch)
  {
    content := FetchPages(MercyUrls, fetch, Chunk);
  }

  /** Any page that cannot be read empties the whole result. */
  lemma {:induction false} AnyFailureGivesNothing(fetch: string -> Option<string>, k: nat)
    requires k < |MercyUrls| && fetch(MercyUrls[k]).None?
    ensures MercyHouseContent(fetch) == ""
  {
  }

  /** When every page is read, the chunks of the four pages appear in the
      order of the URLs, separated by blank lines. */
  lemma {:induction false} ChunksInUrlOrder(fetch: string -> Option<string>)
    requires AllFetched(MercyUrls, fetch)
    ensures var c := PageChunks(MercyUrls, fetch, Chunk);
      MercyHouseContent(fetch) == c[0] + ChunkSeparator + c[1] + ChunkSeparator + c[2] + ChunkSeparator + c[3]
  {
    JoinFour(PageChunks(MercyUrls, fetch, Chunk), ChunkSeparator);
  }

  lemma JoinFour(c: seq<string>, sep: string)
    requires |c| == 4
    ensures Join(c, sep) == c[0] + sep + c[1] + sep + c[2] + sep + c[3]
  {
    assert c[1..][1..][1..] == [c[3]];
    assert c[1..][1..] == [c[2], c[3]];
    assert c[1..] == [c[1], c[2], c[3]];
    assert Join(c[1..][1..], sep) == c[2] + sep + c[3];
    assert Join(c[1..], sep) == c[1] + sep + (c[2] + sep + c[3]);
    assert c[1] + sep + (c[2] + sep + c[3]) == c[1] + sep + c[2] + sep + c[3];
    assert c[0] + sep + (c[1] + sep + c[2] + sep + c[3]) == c[0] + sep + c[1] + sep + c[2] + sep + c[3];
  }
}
