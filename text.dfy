/**
 * The few Python string operations the supermarket code relies on:
 * `str.lower()` comparisons, `in` (substring containment), `str.split()`,
 * `str.strip()` and `str.replace(old, "")`.
 */
module Text {
  import opened Wrappers

  /** Upper-case letters of the ASCII and Latin-1 ranges, which `str.lower()` maps 32 code points down. */
  predicate IsUpper(c: char) {
    ('A' <= c <= 'Z') || ('\U{C0}' <= c <= '\U{DE}' && c != '\U{D7}')
  }

  /** `str.lower()` on one character: a capital moves 32 code points down to its small letter, anything else is kept. */
  function LowerChar(c: char): (r: char)
    ensures !IsUpper(r)
    ensures IsUpper(c) ==> r as int == c as int + 32
    ensures !IsUpper(c) ==> r == c
  {
    if IsUpper(c) then (c as int + 32) as char else c
  }

  /** `str.lower()`: character by character. */
  function Lower(s: string): (r: string)
    ensures |r| == |s|
    ensures forall i :: 0 <= i < |s| ==> r[i] == LowerChar(s[i])
  {
    seq(|s|, i requires 0 <= i < |s| => LowerChar(s[i]))
  }

  /** `a.lower() == b.lower()`. */
  predicate EqualsIgnoreCase(a: string, b: string) {
    Lower(a) == Lower(b)
  }

  /** Index of the first name equal to `name` up to case: the `for ... if p['nome'].lower() == name.lower()` scans. */
  function FirstIgnoreCase(names: seq<string>, name: string): (r: Option<nat>)
    ensures r.Some? ==> r.value < |names| && EqualsIgnoreCase(names[r.value], name)
    ensures r.Some? ==> forall j :: 0 <= j < r.value ==> !EqualsIgnoreCase(names[j], name)
    ensures r.None? <==> forall j :: 0 <= j < |names| ==> !EqualsIgnoreCase(names[j], name)
    decreases |names|
  {
    if |names| == 0 then None
    else if EqualsIgnoreCase(names[0], name) then Some(0)
    else match FirstIgnoreCase(names[1..], name)
      case None => None
      case Some(k) => Some(k + 1)
  }

  /** Appending a name never changes an earlier match; it is found only when nothing before it matches. */
  lemma {:induction false} FirstIgnoreCaseAppend(names: seq<string>, x: string, name: string)
    ensures FirstIgnoreCase(names + [x], name) ==
      if FirstIgnoreCase(names, name).Some? then FirstIgnoreCase(names, name)
      else if EqualsIgnoreCase(x, name) then Some(|names|)
      else None
    decreases |names|
  {
    if |names| > 0 {
      assert (names + [x])[1..] == names[1..] + [x];
      FirstIgnoreCaseAppend(names[1..], x, name);
    }
  }

  /** Python's `sub in s`. */
  predicate Contains(s: string, sub: string)
    decreases |s|
  {
    (|sub| <= |s| && s[..|sub|] == sub) || (|s| > 0 && Contains(s[1..], sub))
  }

  /** An occurrence at position `i` makes `sub in s` true. */
  lemma {:induction false} ContainsAt(s: string, sub: string, i: nat)
    requires i + |sub| <= |s| && s[i..i + |sub|] == sub
    ensures Contains(s, sub)
    decreases i
  {
    if i > 0 {
      assert s[1..][i - 1..i - 1 + |sub|] == s[i..i + |sub|];
      ContainsAt(s[1..], sub, i - 1);
    }
  }

  /** Every character of a contained string occurs in the containing one. */
  lemma {:induction false} ContainsHasChars(s: string, sub: string, k: nat)
    requires Contains(s, sub) && k < |sub|
    ensures sub[k] in s
    decreases |s|
  {
    if |sub| <= |s| && s[..|sub|] == sub {
      assert s[k] == sub[k];
    } else {
      ContainsHasChars(s[1..], sub, k);
    }
  }

  /** A string is not contained if it has a character the other lacks, or is longer. */
  lemma NotContains(s: string, sub: string, k: nat)
    requires (k < |sub| && sub[k] !in s) || |sub| > |s|
    ensures !Contains(s, sub)
  {
    if Contains(s, sub) {
      if k < |sub| && sub[k] !in s {
        ContainsHasChars(s, sub, k);
      } else {
        ContainsTooLong(s, sub);
      }
    }
  }

  lemma {:induction false} ContainsTooLong(s: string, sub: string)
    requires |sub| > |s|
    ensures !Contains(s, sub)
    decreases |s|
  {
    if |s| > 0 {
      ContainsTooLong(s[1..], sub);
    }
  }

  /** Python's `str.isspace()` for one character, the separators of `str.split()` and `str.strip()`. */
  predicate IsSpace(c: char) {
    var n := c as int;
    (9 <= n <= 13) || (28 <= n <= 32) || n == 0x85 || n == 0xA0 || n == 0x1680
    || (0x2000 <= n <= 0x200A) || n == 0x2028 || n == 0x2029 || n == 0x202F
    || n == 0x205F || n == 0x3000
  }

  /** Length of the run of non-space characters at the start of `s`. */
  function WordLength(s: string): (n: nat)
    ensures n <= |s|
    ensures forall j :: 0 <= j < n ==> !IsSpace(s[j])
    ensures n < |s| ==> IsSpace(s[n])
    decreases |s|
  {
    if |s| == 0 || IsSpace(s[0]) then 0 else 1 + WordLength(s[1..])
  }

  /** A word of `str.split()`: non-empty and free of spaces. */
  predicate IsWord(w: string) {
    w != [] && forall j :: 0 <= j < |w| ==> !IsSpace(w[j])
  }

  /** Python's `s.split()` with no separator: the maximal runs of non-space characters, in order. */
  function Words(s: string): (ws: seq<string>)
    ensures forall k :: 0 <= k < |ws| ==> IsWord(ws[k])
    decreases |s|
  {
    if |s| == 0 then []
    else if IsSpace(s[0]) then Words(s[1..])
    else
      var n := WordLength(s);
      [s[..n]] + Words(s[n..])
  }

  /** The split joined back together is the text with its spaces deleted. */
  lemma {:induction false} WordsJoin(s: string)
    ensures Join(Words(s)) == NonSpace(s)
    decreases |s|
  {
    if |s| > 0 {
      if IsSpace(s[0]) {
        WordsJoin(s[1..]);
        assert s == [s[0]] + s[1..];
        NonSpaceConcat([s[0]], s[1..]);
      } else {
        var n := WordLength(s);
        WordsJoin(s[n..]);
        assert s == s[..n] + s[n..];
        NonSpaceConcat(s[..n], s[n..]);
        NonSpaceOfWord(s[..n]);
        assert Words(s) == [s[..n]] + Words(s[n..]);
        assert ([s[..n]] + Words(s[n..]))[1..] == Words(s[n..]);
      }
    }
  }

  /** A word that ends at a space or at the end of the text is the first piece of the split. */
  lemma WordsOfWordThen(w: string, post: string)
    requires IsWord(w)
    requires post == [] || IsSpace(post[0])
    ensures Words(w + post) == [w] + Words(post)
  {
    WordLengthOf(w, post);
    var s := w + post;
    assert s[..|w|] == w && s[|w|..] == post;
  }

  /** A space in front of the text is skipped by the split. */
  lemma WordsSkipSpace(c: char, s: string)
    requires IsSpace(c)
    ensures Words([c] + s) == Words(s)
  {
    assert ([c] + s)[1..] == s;
  }

  /** Splitting a single word with leading and trailing spaces yields just that word. */
  lemma {:induction false} WordsOfPadded(pre: string, w: string, post: string)
    requires forall j :: 0 <= j < |pre| ==> IsSpace(pre[j])
    requires forall j :: 0 <= j < |post| ==> IsSpace(post[j])
    requires IsWord(w)
    ensures Words(pre + w + post) == [w]
    decreases |pre|
  {
    if |pre| > 0 {
      assert (pre + w + post)[1..] == pre[1..] + w + post;
      WordsOfPadded(pre[1..], w, post);
    } else {
      var s := pre + w + post;
      assert s == w + post;
      WordLengthOf(w, post);
      assert s[..|w|] == w;
      assert s[|w|..] == post;
      WordsOfSpaces(post);
    }
  }

  lemma {:induction false} WordLengthOf(w: string, post: string)
    requires IsWord(w)
    requires |post| > 0 ==> IsSpace(post[0])
    ensures WordLength(w + post) == |w|
    decreases |w|
  {
    if |w| > 1 {
      assert (w + post)[1..] == w[1..] + post;
      WordLengthOf(w[1..], post);
    } else {
      assert (w + post)[1..] == post;
    }
  }

  lemma {:induction false} WordsOfSpaces(s: string)
    requires forall j :: 0 <= j < |s| ==> IsSpace(s[j])
    ensures Words(s) == []
    decreases |s|
  {
    if |s| > 0 {
      WordsOfSpaces(s[1..]);
    }
  }

  /** The pieces of a split laid end to end. */
  function Join(ws: seq<string>): string
    decreases |ws|
  {
    if |ws| == 0 then [] else ws[0] + Join(ws[1..])
  }

  /** The text with every space deleted. */
  function NonSpace(s: string): string
    decreases |s|
  {
    if |s| == 0 then [] else if IsSpace(s[0]) then NonSpace(s[1..]) else [s[0]] + NonSpace(s[1..])
  }

  lemma {:induction false} NonSpaceConcat(a: string, b: string)
    ensures NonSpace(a + b) == NonSpace(a) + NonSpace(b)
    decreases |a|
  {
    if |a| > 0 {
      assert (a + b)[1..] == a[1..] + b;
      NonSpaceConcat(a[1..], b);
    } else {
      assert a + b == b;
    }
  }

  lemma {:induction false} NonSpaceOfWord(w: string)
    requires forall j :: 0 <= j < |w| ==> !IsSpace(w[j])
    ensures NonSpace(w) == w
    decreases |w|
  {
    if |w| > 0 {
      NonSpaceOfWord(w[1..]);
      assert w == [w[0]] + w[1..];
    }
  }

  /** Python's `s.lstrip()`. */
  function StripStart(s: string): (r: string)
    ensures |r| <= |s| && r == s[|s| - |r|..]
    ensures forall j :: 0 <= j < |s| - |r| ==> IsSpace(s[j])
    ensures r == [] || !IsSpace(r[0])
    decreases |s|
  {
    if |s| > 0 && IsSpace(s[0]) then StripStart(s[1..]) else s
  }

  /** Python's `s.rstrip()`. */
  function StripEnd(s: string): (r: string)
    ensures |r| <= |s| && r == s[..|r|]
    ensures forall j :: |r| <= j < |s| ==> IsSpace(s[j])
    ensures r == [] || !IsSpace(r[|r| - 1])
    decreases |s|
  {
    if |s| > 0 && IsSpace(s[|s| - 1]) then StripEnd(s[..|s| - 1]) else s
  }

  /** Python's `s.strip()`. */
  function Strip(s: string): string {
    StripEnd(StripStart(s))
  }

  /** Python's `s.replace(pat, '')` for a non-empty `pat`: occurrences deleted left to right, without overlap. */
  function RemoveAll(s: string, pat: string): (r: string)
    requires |pat| > 0
    ensures |r| <= |s|
    ensures !Contains(s, pat) ==> r == s
    ensures Contains(s, pat) ==> |r| <= |s| - |pat|
    decreases |s|
  {
    if |s| < |pat| then ContainsTooLong(s, pat); s
    else if s[..|pat|] == pat then RemoveAll(s[|pat|..], pat)
    else [s[0]] + RemoveAll(s[1..], pat)
  }
}
