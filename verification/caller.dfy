/** The built-in caller resolver: pick one line of the stack trace, trim
    it, and take what the pattern `.*\((.*)\)` captures. The stack itself
    is an input; the pattern is stated as a search for parentheses. */
module Caller {
  import opened Values

  /** The characters `.` does not match (ECMA-262 LineTerminator). */
  predicate IsLineTerminator(c: char)
  {
    c == '\n' || c == '\r' || c == '\U{2028}' || c == '\U{2029}'
  }

  /** The characters `trim` removes: white space and line terminators. */
  predicate IsSpace(c: char)
  {
    IsLineTerminator(c) || c == '\t' || c == '\U{000B}' || c == '\U{000C}' || c == ' '
    || c == '\U{00A0}' || c == '\U{1680}' || ('\U{2000}' <= c <= '\U{200A}')
    || c == '\U{202F}' || c == '\U{205F}' || c == '\U{3000}' || c == '\U{FEFF}'
  }

  /** The first position at or after `i` that is not white space. */
  function SkipSpaces(s: string, i: nat): (k: nat)
    requires i <= |s|
    ensures i <= k <= |s|
    ensures forall m :: i <= m < k ==> IsSpace(s[m])
    ensures k < |s| ==> !IsSpace(s[k])
    decreases |s| - i
  {
    if i == |s| || !IsSpace(s[i]) then i else SkipSpaces(s, i + 1)
  }

  /** The end of `s[lo..j]` once trailing white space is dropped. */
  function DropTrailingSpaces(s: string, lo: nat, j: nat): (k: nat)
    requires lo <= j <= |s|
    ensures lo <= k <= j
    ensures forall m :: k <= m < j ==> IsSpace(s[m])
    ensures k > lo ==> !IsSpace(s[k - 1])
    decreases j
  {
    if j == lo || !IsSpace(s[j - 1]) then j else DropTrailingSpaces(s, lo, j - 1)
  }

  /** The slice `trim` keeps: everything outside it is white space, and it
      neither starts nor ends with white space. */
  function TrimBounds(s: string): (b: (nat, nat))
    ensures b.0 <= b.1 <= |s|
    ensures forall m :: 0 <= m < b.0 ==> IsSpace(s[m])
    ensures forall m :: b.1 <= m < |s| ==> IsSpace(s[m])
    ensures b.0 < b.1 ==> !IsSpace(s[b.0]) && !IsSpace(s[b.1 - 1])
  {
    var i := SkipSpaces(s, 0);
    (i, DropTrailingSpaces(s, i, |s|))
  }

  function Trim(s: string): string
  {
    var b := TrimBounds(s);
    s[b.0..b.1]
  }

  /** No line terminator in `t[a..b]`. */
  predicate SameLine(t: string, a: nat, b: nat)
    requires a <= b <= |t|
  {
    forall k :: a <= k < b ==> !IsLineTerminator(t[k])
  }

  /** A `(` at `o` and a `)` at `c` that `.*\((.*)\)` can match around
      `t[o+1..c]`: no line terminator in between. */
  predicate IsPair(t: string, o: int, c: int)
  {
    0 <= o < c < |t| && t[o] == '(' && t[c] == ')' && SameLine(t, o, c)
  }

  /** The pair the backtracking search picks: on the first line holding a
      pair, the last `(` that has a `)` after it on that line, and the last
      such `)`. */
  ghost predicate Chosen(t: string, o: nat, c: nat)
  {
    IsPair(t, o, c) &&
    forall o', c' :: IsPair(t, o', c') ==>
      (o' < o ==> SameLine(t, o', o)) &&
      (o' > o ==> !SameLine(t, o, o')) &&
      (o' == o ==> c' <= c)
  }

  /** The first line end at or after `i`. */
  function LineEnd(t: string, i: nat): (e: nat)
    requires i <= |t|
    ensures i <= e <= |t| && SameLine(t, i, e)
    ensures e < |t| ==> IsLineTerminator(t[e])
    decreases |t| - i
  {
    if i == |t| || IsLineTerminator(t[i]) then i else LineEnd(t, i + 1)
  }

  /** The last position in `[lo, hi)` holding `ch`. */
  function LastIn(t: string, ch: char, lo: nat, hi: nat): (r: Option<nat>)
    requires lo <= hi <= |t|
    ensures r.Some? ==> lo <= r.value < hi && t[r.value] == ch
    ensures r.Some? ==> forall k :: r.value < k < hi ==> t[k] != ch
    ensures r.None? ==> forall k :: lo <= k < hi ==> t[k] != ch
    decreases hi - lo
  {
    if hi == lo then None
    else if t[hi - 1] == ch then Some(hi - 1)
    else LastIn(t, ch, lo, hi - 1)
  }

  /** The greedy pair inside one line `t[lo..hi)`: the last `)`, and the
      last `(` before it. */
  function PairIn(t: string, lo: nat, hi: nat): (r: Option<(nat, nat)>)
    requires lo <= hi <= |t| && SameLine(t, lo, hi)
    ensures r.Some? ==> lo <= r.value.0 && r.value.1 < hi && IsPair(t, r.value.0, r.value.1)
    ensures r.Some? ==> forall o', c' :: lo <= o' && c' < hi && IsPair(t, o', c') ==>
      o' < r.value.0 || (o' == r.value.0 && c' <= r.value.1)
    ensures r.None? ==> forall o', c' :: lo <= o' && c' < hi ==> !IsPair(t, o', c')
  {
    match LastIn(t, ')', lo, hi)
    case None => None
    case Some(c) =>
      match LastIn(t, '(', lo, c)
      case None => None
      case Some(o) => Some((o, c))
  }

  /** The search from the start `i` of a line onwards. */
  function MatchFrom(t: string, i: nat): (r: Option<(nat, nat)>)
    requires i <= |t| && (i == 0 || IsLineTerminator(t[i - 1]))
    ensures r.Some? ==> i <= r.value.0 && IsPair(t, r.value.0, r.value.1)
    ensures r.Some? ==> forall o', c' :: i <= o' && IsPair(t, o', c') ==>
      (o' < r.value.0 ==> SameLine(t, o', r.value.0)) &&
      (o' > r.value.0 ==> !SameLine(t, r.value.0, o')) &&
      (o' == r.value.0 ==> c' <= r.value.1)
    ensures r.None? ==> forall o', c' :: i <= o' ==> !IsPair(t, o', c')
    decreases |t| - i
  {
    var e := LineEnd(t, i);
    // a pair that starts on this line also ends on it
    assert forall o', c' :: i <= o' < e && IsPair(t, o', c') ==> c' < e;
    match PairIn(t, i, e)
    case Some(p) =>
      forall o' | e < o' <= |t| ensures !SameLine(t, p.0, o') {
        assert IsLineTerminator(t[e]);
      }
      Some(p)
    case None =>
      if e == |t| then None else MatchFrom(t, e + 1)
  }

  /** The regular-expression search on a whole (trimmed) line: where the
      captured group sits, if the pattern matches at all. */
  function Match(t: string): (r: Option<(nat, nat)>)
    ensures r.Some? ==> Chosen(t, r.value.0, r.value.1)
    ensures r.None? <==> forall o, c :: !IsPair(t, o, c)
  {
    MatchFrom(t, 0)
  }

  /** `getCaller`: nothing when the stack has no line `offset`; otherwise the
      text the pattern captures on that trimmed line, or nothing when it
      does not match. */
  function GetCaller(stack: seq<string>, offset: nat): (r: Option<string>)
    ensures |stack| < offset + 1 ==> r.None?
    ensures offset < |stack| ==>
      (r.None? <==> forall o, c :: !IsPair(Trim(stack[offset]), o, c))
    ensures offset < |stack| && r.Some? ==>
      exists o: nat, c: nat :: Chosen(Trim(stack[offset]), o, c) && r.value == Trim(stack[offset])[o + 1..c]
  {
    if |stack| < offset + 1 then None
    else
      var line := Trim(stack[offset]);
      match Match(line)
      case Some(p) => Some(line[p.0 + 1..p.1])
      case None => None
  }

  /** There is only one pair the search can pick. */
  lemma ChosenUnique(t: string, o: nat, c: nat, o': nat, c': nat)
    requires Chosen(t, o, c) && Chosen(t, o', c')
    ensures o == o' && c == c'
  {
    assert IsPair(t, o', c') && IsPair(t, o, c);
  }

  /** The captured text holds no `(` and no line terminator, and nothing
      after the closing `)` on its line is a `)`. */
  lemma CaptureShape(t: string, o: nat, c: nat)
    requires Chosen(t, o, c)
    ensures forall k :: o < k < c ==> t[k] != '(' && !IsLineTerminator(t[k])
    ensures forall k :: c < k < |t| && SameLine(t, c, k) ==> t[k] != ')'
  {
    forall k | o < k < c
      ensures t[k] != '('
    {
      assert IsPair(t, k, c) ==> k <= o;
    }
    forall k | c < k < |t| && SameLine(t, c, k)
      ensures t[k] != ')'
    {
      assert IsPair(t, o, k) ==> k <= c;
    }
  }

  /** Whatever pair is shown to be the chosen one determines the caller. */
  lemma GetCallerOfChosen(stack: seq<string>, offset: nat, o: nat, c: nat)
    requires offset < |stack| && Chosen(Trim(stack[offset]), o, c)
    ensures GetCaller(stack, offset) == Some(Trim(stack[offset])[o + 1..c])
  {
    var t := Trim(stack[offset]);
    var r := GetCaller(stack, offset);
    assert r.Some?;
    var o': nat, c': nat :| Chosen(t, o', c') && r.value == t[o' + 1..c'];
    ChosenUnique(t, o, c, o', c');
  }

  /** A stack frame line: the text between its parentheses. */
  lemma GetCallerFrame()
    ensures GetCaller(["Error", "  at f (a.js:3)"], 1) == Some("a.js:3")
  {
    var t := "at f (a.js:3)";
    assert t[6..12] == "a.js:3";
    FrameLineTrim();
    FrameLineChosen();
    GetCallerOfChosen(["Error", "  at f (a.js:3)"], 1, 5, 12);
  }

  lemma FrameLineTrim()
    ensures Trim("  at f (a.js:3)") == "at f (a.js:3)"
  {
    var l := "  at f (a.js:3)";
    assert SkipSpaces(l, 0) == 2;
    assert !IsSpace(l[|l| - 1]);
    assert DropTrailingSpaces(l, 2, |l|) == |l|;
  }

  lemma FrameLineChosen()
    ensures Chosen("at f (a.js:3)", 5, 12)
  {
    var t := "at f (a.js:3)";
    assert t[..5] == "at f " && t[6..] == "a.js:3)" && t[..12] == "at f (a.js:3";
    assert '(' !in t[..5] && '(' !in t[6..] && ')' !in t[..12];
    assert forall k :: 0 <= k < 5 ==> t[k] == t[..5][k];
    assert forall k :: 6 <= k < |t| ==> t[k] == t[6..][k - 6];
    assert forall k :: 0 <= k < 12 ==> t[k] == t[..12][k];
  }

  /** Nested parentheses: the capture runs from the last `(` to the final
      `)`, so it may hold a `)` but never a `(`. */
  lemma GetCallerGreedy()
    ensures GetCaller(["g (x (y) z)"], 0) == Some("y) z")
  {
    var t := "g (x (y) z)";
    assert t[6..10] == "y) z";
    assert Trim(t) == t by {
      assert SkipSpaces(t, 0) == 0;
      assert !IsSpace(t[|t| - 1]);
      assert DropTrailingSpaces(t, 0, |t|) == |t|;
    }
    assert Chosen(t, 5, 10) by {
      assert t[6..] == "y) z)" && '(' !in t[6..];
      assert forall k :: 6 <= k < |t| ==> t[k] == t[6..][k - 6];
      assert forall k :: 0 <= k < |t| ==> !IsLineTerminator(t[k]);
    }
    GetCallerOfChosen([t], 0, 5, 10);
  }
}
