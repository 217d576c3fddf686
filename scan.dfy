/**
 * The regular-expression searches of the analysis core, written as explicit scans
 * over the text. Each scan follows the matching order of Python's `re` module: a
 * search tries the start positions from left to right, `\s+`, `\s*` and character
 * classes are greedy, `.+?` is lazy, and `findall` resumes at the end of the
 * previous match.
 */
module Scan {
  import opened Text
  import opened Wrappers

  /** `\b` at index `i`: a word character on exactly one side. */
  predicate Boundary(q: string, i: nat)
  {
    (0 < i <= |q| && IsWordChar(q[i - 1])) != (i < |q| && IsWordChar(q[i]))
  }

  /** The literal `kw` (written in upper case) occurs at `i`, ignoring case. */
  predicate KeywordAt(q: string, i: nat, kw: string)
  {
    i + |kw| <= |q| && Upper(q[i..i + |kw|]) == kw
  }

  /** One of the keywords `kws` occurs at `i`, ignoring case. */
  predicate AnyKeywordAt(q: string, i: nat, kws: seq<string>)
  {
    exists w :: w in kws && KeywordAt(q, i, w)
  }

  /** The end of the longest run of characters satisfying `p` that starts at `i`. */
  function SkipWhile(q: string, i: nat, p: char -> bool): (j: nat)
    ensures i <= j
    ensures i <= |q| ==> j <= |q|
    ensures forall k :: i <= k < j ==> k < |q| && p(q[k])
    ensures j < |q| ==> !p(q[j])
    decreases |q| - i
  {
    if i < |q| && p(q[i]) then SkipWhile(q, i + 1, p) else i
  }

  /** A run is entered anywhere before its end gives the same end. */
  lemma {:induction false} SkipWhileInside(q: string, i: nat, k: nat, p: char -> bool)
    requires i <= k <= SkipWhile(q, i, p)
    ensures SkipWhile(q, k, p) == SkipWhile(q, i, p)
    decreases k - i
  {
    if i < k {
      SkipWhileInside(q, i + 1, k, p);
    }
  }

  /** The end of the whitespace run starting at `i` (what a greedy `\s*` consumes). */
  function SkipSpaces(q: string, i: nat): (j: nat)
    ensures i <= j
    ensures i <= |q| ==> j <= |q|
    ensures forall k :: i <= k < j ==> k < |q| && IsSpace(q[k])
    ensures j < |q| ==> !IsSpace(q[j])
  {
    SkipWhile(q, i, IsSpace)
  }

  /** The least `k` with `i <= k <= n` at which `at` holds. */
  function FirstWhere(at: nat -> bool, i: nat, n: nat): (r: Option<nat>)
    ensures r.Some? ==> i <= r.value <= n && at(r.value)
    ensures r.Some? ==> forall k :: i <= k < r.value ==> !at(k)
    ensures r.None? ==> forall k :: i <= k <= n ==> !at(k)
    decreases n - i
  {
    if n < i then None else if at(i) then Some(i) else FirstWhere(at, i + 1, n)
  }

  /** The greatest `k` with `i <= k <= n` at which `at` holds. */
  function LastWhere(at: nat -> bool, i: nat, n: nat): (r: Option<nat>)
    ensures r.Some? ==> i <= r.value <= n && at(r.value)
    ensures r.Some? ==> forall k :: r.value < k <= n ==> !at(k)
    ensures r.None? ==> forall k :: i <= k <= n ==> !at(k)
    decreases n
  {
    if n < i then None else if at(n) then Some(n) else if n == 0 then None else LastWhere(at, i, n - 1)
  }

  /**
   * The lookahead `(?=\s+(?:KW1|KW2|...|$))` holds at `k`: whitespace follows, and the
   * whitespace run reaches the end of the text or is followed by one of the keywords.
   */
  predicate LookaheadAt(q: string, k: nat, kws: seq<string>)
  {
    k < |q| && IsSpace(q[k]) && (SkipSpaces(q, k) == |q| || AnyKeywordAt(q, SkipSpaces(q, k), kws))
  }

  /** The least `k >= i` at which the lookahead holds. */
  function FirstLookahead(q: string, i: nat, kws: seq<string>): (r: Option<nat>)
    ensures r.Some? ==> i <= r.value < |q| && LookaheadAt(q, r.value, kws)
    ensures r.Some? ==> forall k :: i <= k < r.value ==> !LookaheadAt(q, k, kws)
    ensures r.None? ==> forall k :: i <= k ==> !LookaheadAt(q, k, kws)
    decreases |q| - i
  {
    if i >= |q| then None
    else if LookaheadAt(q, i, kws) then Some(i)
    else FirstLookahead(q, i + 1, kws)
  }

  /**
   * The span `(start, end)` captured by `\s+(.+?)(?=\s+(?:KWs|$))` when the match
   * begins at `at` with the DOTALL flag. The greedy `\s+` first takes the whole
   * whitespace run and the lazy group then ends at the first position where the
   * lookahead holds. When there is none, the engine gives back whitespace: with
   * three or more whitespace characters before the end or a keyword, the group
   * captures the second-to-last of them.
   */
  function LazyCapture(q: string, at: nat, kws: seq<string>): (r: Option<(nat, nat)>)
    ensures r.Some? ==> at < r.value.0 < r.value.1 <= |q|
    ensures r.Some? ==> forall k :: at <= k < r.value.0 ==> IsSpace(q[k])
    ensures r.Some? ==> LookaheadAt(q, r.value.1, kws)
  {
    var p := SkipSpaces(q, at);
    if p == at then None
    else
      match FirstLookahead(q, p + 1, kws)
      case Some(k) => Some((p, k))
      case None =>
        if p - at >= 3 && (p == |q| || AnyKeywordAt(q, p, kws)) then
          assert SkipSpaces(q, p - 1) == p by { SkipWhileInside(q, at, p - 1, IsSpace); }
          Some((p - 2, p - 1))
        else None
  }

  /**
   * The capture exists exactly when whitespace follows `at` and the lookahead holds
   * somewhere at least two characters further on.
   */
  lemma LazyCaptureIff(q: string, at: nat, kws: seq<string>)
    ensures LazyCapture(q, at, kws).Some? <==>
      (at < |q| && IsSpace(q[at]) && exists k: nat :: at + 2 <= k && LookaheadAt(q, k, kws))
  {
    var r := LazyCapture(q, at, kws);
    if r.Some? {
      var e: nat := r.value.1;
      assert at + 2 <= e && LookaheadAt(q, e, kws);
    } else if at < |q| && IsSpace(q[at]) && exists k: nat :: at + 2 <= k && LookaheadAt(q, k, kws) {
      var k: nat :| at + 2 <= k && LookaheadAt(q, k, kws);
      LazyCaptureFrom(q, at, k, kws);
    }
  }

  /** A lookahead position two or more characters after `at` is enough for a capture. */
  lemma LazyCaptureFrom(q: string, at: nat, k: nat, kws: seq<string>)
    requires at < |q| && IsSpace(q[at])
    requires at + 2 <= k && LookaheadAt(q, k, kws)
    ensures LazyCapture(q, at, kws).Some?
  {
    var p := SkipSpaces(q, at);
    if FirstLookahead(q, p + 1, kws).None? {
      assert k <= p;
      assert k < p;
      SkipWhileInside(q, at, k, IsSpace);
      assert SkipSpaces(q, k) == p;
    }
  }

  /** `[a-zA-Z_]` */
  predicate IdentStart(c: char)
  {
    IsLetter(c) || c == '_'
  }

  /** `[a-zA-Z0-9_.]` */
  predicate TableChar(c: char)
  {
    IsWordChar(c) || c == '.'
  }

  /** `[\w\."`]`: word characters, dots and both quote characters. */
  predicate QuotedWordChar(c: char)
  {
    IsWordChar(c) || c == '.' || c == '"' || c == '`'
  }

  /** `at` holds somewhere in `i <= j < n`. */
  predicate AnyFrom(at: nat -> bool, i: nat, n: nat)
    decreases n - i
  {
    i < n && (at(i) || AnyFrom(at, i + 1, n))
  }

  lemma {:induction false} AnyFromIff(at: nat -> bool, i: nat, n: nat)
    ensures AnyFrom(at, i, n) <==> exists j :: i <= j < n && at(j)
    decreases n - i
  {
    if i < n {
      AnyFromIff(at, i + 1, n);
    }
  }

  /** The three FROM/JOIN reference patterns of the source. */
  datatype RefSyntax =
    | AnalyzerRefs   // \b(?:FROM|JOIN)\s+([a-zA-Z_][a-zA-Z0-9_.]*)
    | CoverageRefs   // \b(from|join)\s+([a-zA-Z0-9_\."]+)
    | FallbackRefs   // (?:FROM|JOIN)\s+([\w\."`]+)
  {
    predicate NeedsBoundary()
    {
      !FallbackRefs?
    }

    /** The characters allowed first in a reference. */
    predicate First(c: char)
    {
      match this
      case AnalyzerRefs => IdentStart(c)
      case CoverageRefs => IsWordChar(c) || c == '.' || c == '"'
      case FallbackRefs => QuotedWordChar(c)
    }

    /** The characters allowed after the first. */
    predicate Rest(c: char)
    {
      match this
      case AnalyzerRefs => TableChar(c)
      case _ => First(c)
    }

    predicate Shaped(r: string)
    {
      |r| > 0 && First(r[0]) && forall k :: 0 < k < |r| ==> Rest(r[k])
    }
  }

  /** A match of the reference pattern starting at `i`: the span of the captured reference. */
  function RefAt(q: string, syn: RefSyntax, i: nat): (r: Option<(nat, nat)>)
    ensures r.Some? ==> i + 4 < r.value.0 < r.value.1 <= |q|
    ensures r.Some? ==> syn.Shaped(q[r.value.0..r.value.1])
  {
    if (syn.NeedsBoundary() ==> Boundary(q, i)) && (KeywordAt(q, i, "FROM") || KeywordAt(q, i, "JOIN")) then
      RefAfter(q, syn, i + 4)
    else None
  }

  /** `\s+` then a reference at `t`: the span of the reference. */
  function RefAfter(q: string, syn: RefSyntax, t: nat): (r: Option<(nat, nat)>)
    ensures r.Some? ==> t < r.value.0 < r.value.1 <= |q|
    ensures r.Some? ==> syn.Shaped(q[r.value.0..r.value.1])
  {
    var p := SkipSpaces(q, t);
    if p > t && p < |q| && syn.First(q[p]) then
      var e := SkipWhile(q, p + 1, c => syn.Rest(c));
      assert forall k :: 0 < k < e - p ==> syn.Rest(q[p..e][k]) by {
        forall k | 0 < k < e - p ensures syn.Rest(q[p..e][k]) {
          assert q[p..e][k] == q[p + k];
        }
      }
      Some((p, e))
    else None
  }

  /** `re.findall` of the reference pattern from index `i`: the references, in order. */
  function RefsFrom(q: string, syn: RefSyntax, i: nat): (r: seq<string>)
    ensures forall k :: 0 <= k < |r| ==> syn.Shaped(r[k])
    decreases |q| - i
  {
    if i >= |q| then []
    else
      match RefAt(q, syn, i)
      case Some((p, e)) => [q[p..e]] + RefsFrom(q, syn, e)
      case None => RefsFrom(q, syn, i + 1)
  }

  /** Every reference found follows a FROM or JOIN keyword in the text. */
  lemma {:induction false} RefsFollowKeyword(q: string, syn: RefSyntax, i: nat, ref: string)
    requires ref in RefsFrom(q, syn, i)
    ensures exists j: nat :: i <= j && RefAt(q, syn, j).Some? && q[RefAt(q, syn, j).value.0..RefAt(q, syn, j).value.1] == ref
    decreases |q| - i
  {
    if i < |q| {
      match RefAt(q, syn, i)
      case Some((p, e)) =>
        if ref != q[p..e] {
          RefsFollowKeyword(q, syn, e, ref);
        }
      case None =>
        RefsFollowKeyword(q, syn, i + 1, ref);
    }
  }

  /** A text without FROM and JOIN has no references. */
  lemma {:induction false} RefsNeedKeyword(q: string, syn: RefSyntax, i: nat)
    requires forall j: nat :: !KeywordAt(q, j, "FROM") && !KeywordAt(q, j, "JOIN")
    ensures RefsFrom(q, syn, i) == []
    decreases |q| - i
  {
    if i < |q| {
      RefsNeedKeyword(q, syn, i + 1);
    }
  }

  /** What `[\w\."`]+\.[\w\."`]+` matches as a whole run: a dot with a character on each side. */
  predicate DottedOperand(r: string)
  {
    && (forall k :: 0 <= k < |r| ==> QuotedWordChar(r[k]))
    && exists k :: 0 < k < |r| - 1 && r[k] == '.'
  }

  /**
   * The end of the operand that starts at `p`. The operand is the whole run of
   * `[\w\."`]` characters: what follows it in the pattern (`\s*=` or nothing) cannot
   * start inside the run, so backtracking never shortens it, and it matches only when
   * some dot of the run has a run character on each side.
   */
  function OperandAt(q: string, p: nat): (r: Option<nat>)
    requires p <= |q|
    ensures r.Some? ==> p < r.value <= |q| && DottedOperand(q[p..r.value])
    ensures r.Some? ==> r.value == |q| || !QuotedWordChar(q[r.value])
  {
    var e := SkipWhile(q, p, QuotedWordChar);
    if exists k :: p < k < e - 1 && q[k] == '.' then
      var k :| p < k < e - 1 && q[k] == '.';
      assert q[p..e][k - p] == '.';
      assert forall j :: 0 <= j < e - p ==> QuotedWordChar(q[p..e][j]) by {
        forall j | 0 <= j < e - p ensures QuotedWordChar(q[p..e][j]) {
          assert q[p..e][j] == q[p + j];
        }
      }
      Some(e)
    else None
  }

  /**
   * A match of `ON\s+(operand)\s*=\s*(operand)` (ignoring case) at `i`: the spans of
   * the two operands.
   */
  function OnMatchAt(q: string, i: nat): (r: Option<(nat, nat, nat, nat)>)
    ensures r.Some? ==> i + 2 < r.value.0 < r.value.1 < r.value.2 < r.value.3 <= |q|
    ensures r.Some? ==> DottedOperand(q[r.value.0..r.value.1]) && DottedOperand(q[r.value.2..r.value.3])
  {
    if !KeywordAt(q, i, "ON") then None
    else
      var p := SkipSpaces(q, i + 2);
      if p == i + 2 then None
      else
        match OperandAt(q, p)
        case None => None
        case Some(e1) =>
          var s := SkipSpaces(q, e1);
          if s < |q| && q[s] == '=' then
            var t := SkipSpaces(q, s + 1);
            match OperandAt(q, t)
            case None => None
            case Some(e2) => Some((p, e1, t, e2))
          else None
  }

  /** `re.findall` of the ON-clause pattern from index `i`: the operand pairs, in order. */
  function OnPairsFrom(q: string, i: nat): (r: seq<(string, string)>)
    ensures forall k :: 0 <= k < |r| ==> DottedOperand(r[k].0) && DottedOperand(r[k].1)
    decreases |q| - i
  {
    if i >= |q| then []
    else
      match OnMatchAt(q, i)
      case Some((p, e1, t, e2)) => [(q[p..e1], q[t..e2])] + OnPairsFrom(q, e2)
      case None => OnPairsFrom(q, i + 1)
  }

  /** A text in which `ON` never occurs, in any case, has no ON-clause pairs. */
  lemma {:induction false} OnPairsNeedKeyword(q: string, i: nat)
    requires forall j: nat :: !KeywordAt(q, j, "ON")
    ensures OnPairsFrom(q, i) == []
    decreases |q| - i
  {
    if i < |q| {
      OnPairsNeedKeyword(q, i + 1);
    }
  }
}
