/**
 * Character classes and the Python string operations the analysis core relies on:
 * case mapping, whitespace, `strip`, `split`, `join`, `in` (substring test),
 * `count` and `str(int)`.
 *
 * Case mapping, whitespace and word characters are the ASCII ones.
 */
module Text {

  /**
   * The characters Python's `str.isspace`, `str.split()`, `str.strip()` and `\s` treat as
   * whitespace (ASCII part): space, tab, line feed, vertical tab, form feed, carriage
   * return (`\t` to `\r`) and the four separators `\x1c`-`\x1f`.
   */
  predicate IsSpace(c: char) { c == ' ' || '\t' <= c <= '\r' || '\U{001C}' <= c <= '\U{001F}' }

  const Whitespace: set<char> := set c: char | IsSpace(c)

  predicate IsUpperLetter(c: char) { 'A' <= c <= 'Z' }
  predicate IsLowerLetter(c: char) { 'a' <= c <= 'z' }
  predicate IsLetter(c: char) { IsUpperLetter(c) || IsLowerLetter(c) }
  predicate IsDigit(c: char) { '0' <= c <= '9' }

  /** `\w`: letters, digits and the underscore. */
  predicate IsWordChar(c: char) { IsLetter(c) || IsDigit(c) || c == '_' }

  function UpperChar(c: char): (r: char)
    ensures !IsLowerLetter(r)
    ensures IsWordChar(r) == IsWordChar(c) && IsSpace(r) == IsSpace(c)
    ensures !IsLowerLetter(c) ==> r == c
  {
    if IsLowerLetter(c) then (c as int - 'a' as int + 'A' as int) as char else c
  }

  function LowerChar(c: char): (r: char)
    ensures !IsUpperLetter(r)
    ensures IsWordChar(r) == IsWordChar(c) && IsSpace(r) == IsSpace(c)
    ensures !IsUpperLetter(c) ==> r == c
  {
    if IsUpperLetter(c) then (c as int - 'A' as int + 'a' as int) as char else c
  }

  /** `s.upper()` */
  function Upper(s: string): (r: string)
    ensures |r| == |s|
    ensures forall i :: 0 <= i < |s| ==> r[i] == UpperChar(s[i])
  {
    seq(|s|, i requires 0 <= i < |s| => UpperChar(s[i]))
  }

  /** `s.lower()` */
  function Lower(s: string): (r: string)
    ensures |r| == |s|
    ensures forall i :: 0 <= i < |s| ==> r[i] == LowerChar(s[i])
  {
    seq(|s|, i requires 0 <= i < |s| => LowerChar(s[i]))
  }

  lemma UpperOfLower(s: string)
    ensures Upper(Lower(s)) == Upper(s)
  {
    forall i | 0 <= i < |s| ensures Upper(Lower(s))[i] == Upper(s)[i] {
      var c := s[i];
      if IsUpperLetter(c) {
        assert LowerChar(c) as int == c as int - 'A' as int + 'a' as int;
      }
    }
  }

  lemma UpperAppend(a: string, b: string)
    ensures Upper(a + b) == Upper(a) + Upper(b)
  {
    assert forall i :: 0 <= i < |a + b| ==> Upper(a + b)[i] == (Upper(a) + Upper(b))[i];
  }

  lemma UpperSlice(s: string, i: nat, j: nat)
    requires i <= j <= |s|
    ensures Upper(s)[i..j] == Upper(s[i..j])
  {
  }

  /** Text without lower-case letters is its own upper-case form. */
  lemma UpperUnchanged(s: string)
    requires forall k :: 0 <= k < |s| ==> !IsLowerLetter(s[k])
    ensures Upper(s) == s
  {
  }

  /** Text without upper-case letters is its own lower-case form. */
  lemma LowerUnchanged(s: string)
    requires forall k :: 0 <= k < |s| ==> !IsUpperLetter(s[k])
    ensures Lower(s) == s
  {
  }

  /** `s.lstrip(chars)`: drops the leading characters that belong to `cs`. */
  function StripLeft(s: string, cs: set<char>): (r: string)
    ensures |r| <= |s| && r == s[|s| - |r|..]
    ensures r == [] || r[0] !in cs
    ensures forall i :: 0 <= i < |s| - |r| ==> s[i] in cs
  {
    if |s| > 0 && s[0] in cs then StripLeft(s[1..], cs) else s
  }

  /** `s.rstrip(chars)`: drops the trailing characters that belong to `cs`. */
  function StripRight(s: string, cs: set<char>): (r: string)
    ensures |r| <= |s| && r == s[..|r|]
    ensures r == [] || r[|r| - 1] !in cs
    ensures forall i :: |r| <= i < |s| ==> s[i] in cs
  {
    if |s| > 0 && s[|s| - 1] in cs then StripRight(s[..|s| - 1], cs) else s
  }

  /**
   * `r` is the piece of `s` starting at `a`, and every character of `s` before or after
   * that piece belongs to `cs`.
   */
  predicate StrippedAt(s: string, r: string, a: nat, cs: set<char>)
  {
    && a + |r| <= |s| && r == s[a..a + |r|]
    && (forall k :: 0 <= k < a ==> s[k] in cs)
    && (forall k :: a + |r| <= k < |s| ==> s[k] in cs)
  }

  /**
   * A piece `l` ending `s` after characters of `cs`, cut to a piece `r` starting `l` before
   * characters of `cs`: what `rstrip` after `lstrip` leaves.
   */
  lemma StripBothEnds(s: string, l: string, r: string, cs: set<char>)
    requires |l| <= |s| && l == s[|s| - |l|..] && forall i :: 0 <= i < |s| - |l| ==> s[i] in cs
    requires |r| <= |l| && r == l[..|r|] && forall i :: |r| <= i < |l| ==> l[i] in cs
    ensures StrippedAt(s, r, |s| - |l|, cs)
  {
    var a := |s| - |l|;
    assert r == s[a..a + |r|];
    forall k | a + |r| <= k < |s| ensures s[k] in cs {
      assert s[k] == l[k - a];
    }
  }

  /** `s.strip(chars)`: the piece of `s` left when the characters of `cs` are removed from both ends. */
  function StripChars(s: string, cs: set<char>): (r: string)
    ensures r == [] || (r[0] !in cs && r[|r| - 1] !in cs)
    ensures |r| <= |s|
    ensures forall c :: c in r ==> c in s
    ensures (forall k :: 0 <= k < |s| ==> s[k] !in cs) ==> r == s
    ensures r == [] <==> forall k :: 0 <= k < |s| ==> s[k] in cs
  {
    var l := StripLeft(s, cs);
    var r := StripRight(l, cs);
    SliceChars(s, |s| - |l|, |s| - |l| + |r|);
    assert r == [] ==> forall k :: 0 <= k < |s| ==> s[k] in cs by {
      if r == [] {
        assert l == [];
      }
    }
    r
  }

  /** A slice holds only characters of the whole. */
  lemma SliceChars(s: string, a: nat, b: nat)
    requires a <= b <= |s|
    ensures forall c :: c in s[a..b] ==> c in s
  {
    forall c | c in s[a..b] ensures c in s {
      var k :| 0 <= k < b - a && s[a..b][k] == c;
      assert s[a + k] == c;
    }
  }

  /** `s.strip()` */
  function Strip(s: string): (r: string)
    ensures r == [] || (!IsSpace(r[0]) && !IsSpace(r[|r| - 1]))
    ensures |r| <= |s|
    ensures forall c :: c in r ==> c in s
    ensures (forall k :: 0 <= k < |s| ==> !IsSpace(s[k])) ==> r == s
    ensures r == [] <==> forall k :: 0 <= k < |s| ==> IsSpace(s[k])
  {
    StripChars(s, Whitespace)
  }

  /**
   * `strip()` returns the piece of `s` left when its leading and trailing whitespace is
   * removed: with `Strip`'s ensures (the piece neither starts nor ends with whitespace)
   * this fixes the result.
   */
  lemma StripExact(s: string)
    ensures exists a: nat :: StrippedAt(s, Strip(s), a, Whitespace)
  {
    var l := StripLeft(s, Whitespace);
    assert Strip(s) == StripRight(l, Whitespace);
    StripBothEnds(s, l, Strip(s), Whitespace);
  }

  /** Text that neither starts nor ends with whitespace is unchanged by `strip()`. */
  lemma StripTrimmed(s: string)
    requires s == [] || (!IsSpace(s[0]) && !IsSpace(s[|s| - 1]))
    ensures Strip(s) == s
  {
    assert StripLeft(s, Whitespace) == s;
    assert StripRight(s, Whitespace) == s;
  }

  /** Leading characters of `cs` are dropped by `lstrip` and hence by `strip`. */
  lemma StripLeftPrefix(ws: string, s: string, cs: set<char>)
    requires forall k :: 0 <= k < |ws| ==> ws[k] in cs
    ensures StripLeft(ws + s, cs) == StripLeft(s, cs)
    ensures StripChars(ws + s, cs) == StripChars(s, cs)
  {
    StripLeftDrops(ws, s, cs);
  }

  /** `lstrip` removes a leading run of characters of `cs` whatever follows it. */
  lemma {:induction false} StripLeftDrops(ws: string, s: string, cs: set<char>)
    requires forall k :: 0 <= k < |ws| ==> ws[k] in cs
    ensures StripLeft(ws + s, cs) == StripLeft(s, cs)
    decreases |ws|
  {
    if ws == [] {
      assert ws + s == s;
    } else {
      assert (ws + s)[1..] == ws[1..] + s;
      StripLeftDrops(ws[1..], s, cs);
    }
  }

  /** A non-empty prefix without whitespace is still a prefix after `strip()`. */
  lemma PrefixSurvivesStrip(s: string, p: string)
    requires p <= s && |p| > 0
    requires forall k :: 0 <= k < |p| ==> !IsSpace(p[k])
    ensures p <= Strip(s)
  {
    var l := StripLeft(s, Whitespace);
    assert l == s;
    var r := StripRight(l, Whitespace);
    assert s[|p| - 1] == p[|p| - 1] && s[|p| - 1] !in Whitespace;
    assert r[..|p|] == s[..|p|];
  }

  /** Number of occurrences of the character `c` in `s`. */
  function CountChar(s: string, c: char): nat
  {
    if s == [] then 0 else (if s[0] == c then 1 else 0) + CountChar(s[1..], c)
  }

  /** `s.split(sep)` for a one-character separator. */
  function Split(s: string, sep: char): (r: seq<string>)
    ensures |r| == CountChar(s, sep) + 1
    ensures forall k :: 0 <= k < |r| ==> sep !in r[k]
    decreases |s|
  {
    if s == [] then [""]
    else
      var rest := Split(s[1..], sep);
      if s[0] == sep then [""] + rest
      else [[s[0]] + rest[0]] + rest[1..]
  }

  /** `sep.join(parts)` */
  function Join(parts: seq<string>, sep: string): string
  {
    if |parts| == 0 then ""
    else if |parts| == 1 then parts[0]
    else parts[0] + sep + Join(parts[1..], sep)
  }

  /** Splitting on a character and joining with it gives back the original text. */
  lemma {:induction false} JoinSplit(s: string, sep: char)
    ensures Join(Split(s, sep), [sep]) == s
    decreases |s|
  {
    if s != [] {
      var rest := Split(s[1..], sep);
      JoinSplit(s[1..], sep);
      if s[0] == sep {
        assert Split(s, sep) == [""] + rest;
        assert ([""] + rest)[1..] == rest;
      } else {
        var parts := Split(s, sep);
        assert parts == [[s[0]] + rest[0]] + rest[1..];
        if |rest| == 1 {
          assert Join(rest, [sep]) == rest[0];
        } else {
          assert parts[1..] == rest[1..];
          assert Join(rest, [sep]) == rest[0] + [sep] + Join(rest[1..], [sep]);
        }
      }
    }
  }

  /** Splitting a text without the separator gives the text itself. */
  lemma {:induction false} SplitNoSep(s: string, sep: char)
    requires sep !in s
    ensures Split(s, sep) == [s]
    decreases |s|
  {
    if s != [] {
      SplitNoSep(s[1..], sep);
      assert [s[0]] + s[1..] == s;
    }
  }

  /** A separator-free piece followed by the separator splits off as the first piece. */
  lemma {:induction false} SplitAfterPiece(a: string, sep: char, b: string)
    requires sep !in a
    ensures Split(a + [sep] + b, sep) == [a] + Split(b, sep)
    decreases |a|
  {
    var s := a + [sep] + b;
    if a == [] {
      assert s == [sep] + b && s[1..] == b;
    } else {
      assert s[1..] == a[1..] + [sep] + b;
      SplitAfterPiece(a[1..], sep, b);
      assert [a[0]] + a[1..] == a;
    }
  }

  /** Joining pieces that do not contain the separator and splitting again gives the pieces back. */
  lemma {:induction false} SplitJoin(parts: seq<string>, sep: char)
    requires |parts| > 0
    requires forall k :: 0 <= k < |parts| ==> sep !in parts[k]
    ensures Split(Join(parts, [sep]), sep) == parts
    decreases |parts|
  {
    if |parts| == 1 {
      SplitNoSep(parts[0], sep);
    } else {
      SplitJoin(parts[1..], sep);
      SplitAfterPiece(parts[0], sep, Join(parts[1..], [sep]));
      assert [parts[0]] + parts[1..] == parts;
    }
  }

  /** The first piece of `s.split(sep)` is the text before the first `sep`. */
  lemma {:induction false} SplitFirst(s: string, sep: char)
    ensures Split(s, sep)[0] <= s
    ensures |Split(s, sep)[0]| < |s| ==> s[|Split(s, sep)[0]|] == sep
    decreases |s|
  {
    if s != [] && s[0] != sep {
      SplitFirst(s[1..], sep);
    }
  }

  /** Index of the first whitespace character of `s`, or `|s|` when there is none. */
  function WordLength(s: string): (n: nat)
    ensures n <= |s|
    ensures forall k :: 0 <= k < n ==> !IsSpace(s[k])
    ensures n < |s| ==> IsSpace(s[n])
  {
    if s == [] || IsSpace(s[0]) then 0 else 1 + WordLength(s[1..])
  }

  /** `s.split()`: the maximal runs of non-whitespace characters, in order. */
  function Words(s: string): (r: seq<string>)
    ensures forall k :: 0 <= k < |r| ==> |r[k]| > 0 && NoSpace(r[k])
    decreases |s|
  {
    if s == [] then []
    else if IsSpace(s[0]) then Words(s[1..])
    else
      var n := WordLength(s);
      [s[..n]] + Words(s[n..])
  }

  /**
   * `split()` cuts the text into its words and the whitespace around and between them:
   * the text is the words woven with whitespace gaps, never two words adjacent.
   */
  lemma {:induction false} WordsSeparate(s: string)
    ensures exists gaps :: Separated(gaps, Words(s)) && Weave(gaps, Words(s)) == s
    decreases |s|
  {
    if s == [] {
      assert Words(s) == [];
      assert AllSpace("");
      assert Separated([""], Words(s)) && Weave([""], Words(s)) == s;
    } else if IsSpace(s[0]) {
      WordsSeparate(s[1..]);
      var gaps :| Separated(gaps, Words(s[1..])) && Weave(gaps, Words(s[1..])) == s[1..];
      SpaceBeforeWeave(s, gaps, Words(s[1..]));
      var g := [[s[0]] + gaps[0]] + gaps[1..];
      assert Words(s) == Words(s[1..]);
      assert Separated(g, Words(s)) && Weave(g, Words(s)) == s;
    } else {
      var n := WordLength(s);
      WordsSeparate(s[n..]);
      var gaps :| Separated(gaps, Words(s[n..])) && Weave(gaps, Words(s[n..])) == s[n..];
      WordBeforeWeave(s, n, gaps, Words(s[n..]));
      var g := [""] + gaps;
      assert Words(s) == [s[..n]] + Words(s[n..]);
      assert Separated(g, Words(s)) && Weave(g, Words(s)) == s;
    }
  }

  /** Text made only of whitespace. */
  predicate AllSpace(s: string) { forall k :: 0 <= k < |s| ==> IsSpace(s[k]) }

  /** `gaps[0] + words[0] + gaps[1] + ... + words[n - 1] + gaps[n]`. */
  function Weave(gaps: seq<string>, words: seq<string>): string
    requires |gaps| == |words| + 1
    decreases |words|
  {
    if words == [] then gaps[0] else gaps[0] + words[0] + Weave(gaps[1..], words[1..])
  }

  /**
   * The words are non-empty and hold no whitespace, the gaps hold only whitespace, and
   * two words are never adjacent: the words are the maximal non-whitespace runs of
   * `Weave(gaps, words)`, in order.
   */
  predicate Separated(gaps: seq<string>, words: seq<string>)
  {
    && |gaps| == |words| + 1
    && (forall k :: 0 <= k < |words| ==> |words[k]| > 0 && NoSpace(words[k]))
    && (forall k :: 0 <= k < |gaps| ==> AllSpace(gaps[k]))
    && (forall k :: 0 < k < |words| ==> gaps[k] != [])
  }

  /** One more whitespace character in front widens the first gap. */
  lemma SpaceBeforeWeave(s: string, gaps: seq<string>, words: seq<string>)
    requires s != [] && IsSpace(s[0])
    requires Separated(gaps, words) && Weave(gaps, words) == s[1..]
    ensures Separated([[s[0]] + gaps[0]] + gaps[1..], words)
    ensures Weave([[s[0]] + gaps[0]] + gaps[1..], words) == s
  {
    var g := [[s[0]] + gaps[0]] + gaps[1..];
    assert g[1..] == gaps[1..];
    assert forall k :: 0 < k < |g| ==> g[k] == gaps[k];
    if words == [] {
      assert Weave(g, words) == [s[0]] + gaps[0];
    } else {
      assert Weave(g, words) == ([s[0]] + gaps[0]) + words[0] + Weave(gaps[1..], words[1..]);
    }
    assert s == [s[0]] + s[1..];
  }

  /** A word in front of text that is empty or starts with whitespace becomes the first word. */
  lemma WordBeforeWeave(s: string, n: nat, gaps: seq<string>, rest: seq<string>)
    requires 0 < n <= |s| && NoSpace(s[..n]) && (n < |s| ==> IsSpace(s[n]))
    requires Separated(gaps, rest) && Weave(gaps, rest) == s[n..]
    ensures Separated([""] + gaps, [s[..n]] + rest)
    ensures Weave([""] + gaps, [s[..n]] + rest) == s
  {
    var g := [""] + gaps;
    var ws := [s[..n]] + rest;
    assert g[1..] == gaps && ws[1..] == rest;
    assert Weave(g, ws) == "" + s[..n] + Weave(gaps, rest);
    assert s == s[..n] + s[n..];
    assert AllSpace("");
    forall k | 0 < k < |ws| ensures g[k] != [] {
      assert g[k] == gaps[k - 1];
    }
    forall k | 0 <= k < |ws| ensures |ws[k]| > 0 && NoSpace(ws[k]) {
      if k > 0 {
        assert ws[k] == rest[k - 1];
      }
    }
    forall k | 0 <= k < |g| ensures AllSpace(g[k]) {
      if k > 0 {
        assert g[k] == gaps[k - 1];
      }
    }
  }

  /** Leading whitespace does not change the words. */
  lemma {:induction false} WordsAfterSpace(ws: string, t: string)
    requires AllSpace(ws)
    ensures Words(ws + t) == Words(t)
    decreases |ws|
  {
    if ws != [] {
      assert (ws + t)[0] == ws[0] && IsSpace(ws[0]);
      assert (ws + t)[1..] == ws[1..] + t;
      WordsAfterSpace(ws[1..], t);
    } else {
      assert ws + t == t;
    }
  }

  /**
   * Words with whitespace around and between them are exactly what `split()` returns,
   * whatever that whitespace is: with `Words`' own ensures, `split()` returns the maximal
   * non-whitespace runs, in order.
   */
  lemma {:induction false} WordsOfWeave(gaps: seq<string>, words: seq<string>)
    requires Separated(gaps, words)
    ensures Words(Weave(gaps, words)) == words
    decreases |words|
  {
    if words == [] {
      WordsAfterSpace(gaps[0], "");
      assert gaps[0] + "" == gaps[0];
    } else {
      var rest := Weave(gaps[1..], words[1..]);
      assert Separated(gaps[1..], words[1..]) by {
        assert forall k :: 0 <= k < |words| - 1 ==> words[1..][k] == words[k + 1];
        assert forall k :: 0 <= k < |gaps| - 1 ==> gaps[1..][k] == gaps[k + 1];
      }
      WordsOfWeave(gaps[1..], words[1..]);
      if |words| > 1 {
        assert rest == gaps[1] + words[1] + Weave(gaps[2..], words[2..]);
        assert gaps[1] != [] && AllSpace(gaps[1]);
        assert rest[0] == gaps[1][0];
      } else {
        assert rest == gaps[1];
        assert AllSpace(gaps[1]);
      }
      assert Weave(gaps, words) == gaps[0] + (words[0] + rest);
      WordsAfterSpace(gaps[0], words[0] + rest);
      WordsOfWord(words[0], rest);
    }
  }

  predicate NoSpace(w: string) { forall k :: 0 <= k < |w| ==> !IsSpace(w[k]) }

  /** Words separated by single spaces are split back into the same words. */
  lemma {:induction false} WordsOfJoin(ws: seq<string>)
    requires forall k :: 0 <= k < |ws| ==> |ws[k]| > 0 && NoSpace(ws[k])
    ensures Words(Join(ws, " ")) == ws
    decreases |ws|
  {
    if |ws| == 1 {
      WordsOfWord(ws[0], "");
      assert ws[0] + "" == ws[0] && Join(ws, " ") == ws[0];
      assert ws == [ws[0]];
    } else if |ws| > 1 {
      var rest := Join(ws[1..], " ");
      WordsOfJoin(ws[1..]);
      assert Join(ws, " ") == ws[0] + (" " + rest);
      WordsOfWord(ws[0], " " + rest);
      assert (" " + rest)[1..] == rest;
    }
  }

  /** A word followed by text that is empty or starts with whitespace is the first word. */
  lemma {:induction false} WordsOfWord(w: string, tail: string)
    requires |w| > 0 && NoSpace(w)
    requires tail == [] || IsSpace(tail[0])
    ensures Words(w + tail) == [w] + Words(tail)
  {
    var s := w + tail;
    WordLengthOf(w, tail);
    assert s[..|w|] == w && s[|w|..] == tail;
  }

  lemma {:induction false} WordLengthOf(w: string, tail: string)
    requires NoSpace(w)
    requires tail == [] || IsSpace(tail[0])
    ensures WordLength(w + tail) == |w|
    decreases |w|
  {
    if w != [] {
      WordLengthOf(w[1..], tail);
      assert (w + tail)[1..] == w[1..] + tail;
    }
  }

  /** `sub` occurs in `s` starting at index `i`. */
  predicate OccursAt(s: string, sub: string, i: nat)
  {
    i + |sub| <= |s| && s[i..i + |sub|] == sub
  }

  /** `sub in s` */
  predicate Contains(s: string, sub: string)
    decreases |s|
  {
    sub <= s || (|s| > 0 && Contains(s[1..], sub))
  }

  lemma {:induction false} ContainsAt(s: string, sub: string, i: nat)
    requires OccursAt(s, sub, i)
    ensures Contains(s, sub)
    decreases i
  {
    if i > 0 {
      assert s[1..][i - 1..i - 1 + |sub|] == sub;
      ContainsAt(s[1..], sub, i - 1);
    } else {
      assert s[..|sub|] == sub;
    }
  }

  lemma {:induction false} ContainsWitness(s: string, sub: string)
    requires Contains(s, sub)
    ensures exists i: nat :: OccursAt(s, sub, i)
    decreases |s|
  {
    if !(sub <= s) {
      ContainsWitness(s[1..], sub);
      var i: nat :| OccursAt(s[1..], sub, i);
      var t := s[1..];
      forall k | 0 <= k < |sub|
        ensures s[i + 1 + k] == sub[k]
      {
        assert t[i..i + |sub|][k] == sub[k];
        assert t[i + k] == s[i + 1 + k];
      }
      assert s[i + 1..i + 1 + |sub|] == sub;
      assert OccursAt(s, sub, i + 1);
    } else {
      assert s[0..|sub|] == sub;
      assert OccursAt(s, sub, 0);
    }
  }

  lemma ContainsIff(s: string, sub: string)
    ensures Contains(s, sub) <==> exists i: nat :: OccursAt(s, sub, i)
  {
    if Contains(s, sub) {
      ContainsWitness(s, sub);
    } else if exists i: nat :: OccursAt(s, sub, i) {
      var i: nat :| OccursAt(s, sub, i);
      ContainsAt(s, sub, i);
    }
  }

  lemma ContainsInfix(a: string, sub: string, b: string)
    ensures Contains(a + sub + b, sub)
  {
    assert (a + sub + b)[|a|..|a| + |sub|] == sub;
    ContainsAt(a + sub + b, sub, |a|);
  }

  lemma ContainsWithin(s: string, i: nat, j: nat, sub: string)
    requires i <= j <= |s| && Contains(s[i..j], sub)
    ensures Contains(s, sub)
  {
    ContainsWitness(s[i..j], sub);
    var k: nat :| OccursAt(s[i..j], sub, k);
    var t := s[i..j];
    assert t[k..k + |sub|] == sub;
    forall m | 0 <= m < |sub| ensures sub[m] == s[i + k + m] {
      assert sub[m] == t[k + m];
    }
    assert s[i + k..i + k + |sub|] == sub;
    ContainsAt(s, sub, i + k);
  }

  /** What occurs in a substring of `s` occurs in `s`. */
  lemma ContainsTransitive(s: string, w: string, sub: string)
    requires Contains(s, w) && Contains(w, sub)
    ensures Contains(s, sub)
  {
    ContainsWitness(s, w);
    var i: nat :| OccursAt(s, w, i);
    ContainsWithin(s, i, i + |w|, sub);
  }

  /** `any(p in s for p in patterns)` */
  predicate MentionsAny(s: string, patterns: seq<string>)
  {
    exists k :: 0 <= k < |patterns| && Contains(s, patterns[k])
  }

  /** `s.count(sub)`: non-overlapping occurrences, scanned from the left. */
  function CountOccurrences(s: string, sub: string): nat
    requires |sub| > 0
    decreases |s|
  {
    if |s| < |sub| then 0
    else if sub <= s then 1 + CountOccurrences(s[|sub|..], sub)
    else CountOccurrences(s[1..], sub)
  }

  lemma {:induction false} CountZeroIffAbsent(s: string, sub: string)
    requires |sub| > 0
    ensures CountOccurrences(s, sub) == 0 <==> !Contains(s, sub)
    decreases |s|
  {
    if |s| < |sub| {
      NotContainsShort(s, sub);
    } else if !(sub <= s) {
      CountZeroIffAbsent(s[1..], sub);
    }
  }

  lemma {:induction false} NotContainsShort(s: string, sub: string)
    requires |s| < |sub|
    ensures !Contains(s, sub)
    decreases |s|
  {
    if |s| > 0 {
      NotContainsShort(s[1..], sub);
    }
  }

  /**
   * `round(x, 1)`: the nearest multiple of a tenth, halves going to the even tenth.
   * It rounds the exact value, where Python rounds the nearest binary float.
   */
  function RoundTenth(x: real): (r: real)
    ensures (r * 10.0).Floor as real == r * 10.0
    ensures x - 0.05 <= r <= x + 0.05
    ensures x * 10.0 - (x * 10.0).Floor as real == 0.5 ==> (r * 10.0).Floor % 2 == 0
    ensures 0.0 <= x ==> 0.0 <= r
    ensures x <= 100.0 ==> r <= 100.0
  {
    var t := x * 10.0;
    var f := t.Floor;
    var frac := t - f as real;
    var k := if frac > 0.5 then f + 1 else if frac < 0.5 then f else if f % 2 == 0 then f else f + 1;
    assert (k as real / 10.0) * 10.0 == k as real;
    k as real / 10.0
  }

  function DigitChar(d: nat): (c: char)
    requires d < 10
    ensures IsDigit(c)
  {
    ('0' as int + d) as char
  }

  /** `str(n)` for a natural number. */
  function NatToString(n: nat): (r: string)
    ensures |r| > 0
    ensures forall k :: 0 <= k < |r| ==> IsDigit(r[k])
  {
    if n < 10 then [DigitChar(n)] else NatToString(n / 10) + [DigitChar(n % 10)]
  }

  /** `str(i)` for an integer. */
  function IntToString(i: int): (r: string)
    ensures |r| > 0
  {
    if i < 0 then "-" + NatToString(-i) else NatToString(i)
  }

  /** The value of a string of decimal digits. */
  function DigitsValue(s: string): nat
    requires forall k :: 0 <= k < |s| ==> IsDigit(s[k])
  {
    if s == [] then 0
    else
      assert IsDigit(s[|s| - 1]);
      10 * DigitsValue(s[..|s| - 1]) + (s[|s| - 1] as int - '0' as int)
  }

  /** Reading back the decimal text of a number gives the number. */
  lemma {:induction false} NatToStringRoundTrip(n: nat)
    ensures DigitsValue(NatToString(n)) == n
  {
    if n >= 10 {
      NatToStringRoundTrip(n / 10);
      var s := NatToString(n);
      assert s[..|s| - 1] == NatToString(n / 10);
    }
  }
}
