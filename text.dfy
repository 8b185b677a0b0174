/** Character classes, ASCII case folding and the small string operations
    that the filing pipeline's hand-written pattern matchers are built from.
    Python's `\s`, `\d`, `\w` and `str.upper()` are Unicode-aware; this model
    covers ASCII (and Latin-1 whitespace). */
module Text {

  datatype Option<T> = None | Some(value: T)

  /** A successful search: the start position and what the pattern captured there. */
  datatype Hit<C> = Hit(pos: nat, cap: C)

  /** Python's `\s` (and the separators of `str.split()`/`str.strip()`). */
  predicate IsSpace(c: char) {
    var n := c as int;
    n == 32 || 9 <= n <= 13 || 28 <= n <= 31 || n == 0x85 || n == 0xA0
  }

  predicate IsLineBreak(c: char) { c == '\n' || c == '\r' }

  predicate IsDigit(c: char) { '0' <= c <= '9' }

  predicate IsLetter(c: char) { 'A' <= c <= 'Z' || 'a' <= c <= 'z' }

  lemma LetterNotSpace(c: char)
    requires IsLetter(c) || IsDigit(c)
    ensures !IsSpace(c)
  {
  }

  /** Python's `\w`: letters, digits and the underscore. */
  predicate IsWordChar(c: char) { IsLetter(c) || IsDigit(c) || c == '_' }

  function Upper(c: char): (u: char)
    ensures IsDigit(c) ==> u == c
    ensures IsSpace(c) <==> IsSpace(u)
    ensures !IsLetter(c) ==> u == c
  {
    if 'a' <= c <= 'z' then (c as int - 32) as char else c
  }

  /** `s.upper()`: position by position, so every index keeps its meaning. */
  function UpperStr(s: string): (u: string)
    ensures |u| == |s|
    ensures forall k :: 0 <= k < |s| ==> u[k] == Upper(s[k])
  {
    seq(|s|, k requires 0 <= k < |s| => Upper(s[k]))
  }

  predicate StartsWith(s: string, p: string) {
    |p| <= |s| && s[..|p|] == p
  }

  /** Case-insensitive prefix test against an upper-case literal `p`. */
  predicate StartsWithCI(s: string, p: string) {
    |p| <= |s| && UpperStr(s[..|p|]) == p
  }

  /** A prefix in upper case is also a case-insensitive prefix. */
  lemma StartsWithUpper(s: string, p: string)
    requires StartsWith(s, p)
    requires forall k :: 0 <= k < |p| ==> !('a' <= p[k] <= 'z')
    ensures StartsWithCI(s, p)
  {
    assert UpperStr(s[..|p|]) == p;
  }

  lemma Regroup3(a: string, b: string, c: string)
    ensures a + b + c == a + (b + c)
  {
  }

  lemma Regroup4(a: string, b: string, c: string, d: string)
    ensures a + b + c + d == a + (b + c + d)
    ensures a + (b + c) + d == a + b + c + d
  {
  }

  lemma Regroup5(a: string, b: string, c: string, d: string, e: string)
    ensures a + b + c + d + e == a + (b + c + d + e)
  {
  }

  lemma Regroup6(a: string, b: string, c: string, d: string, e: string, f: string)
    ensures a + b + c + d + e + f == a + (b + c + (d + e + f))
    ensures a + b + c + d + e + f == a + (b + c + d + e + f)
  {
  }

  /** Python's `p in s`. */
  predicate Contains(s: string, p: string) {
    exists i | 0 <= i <= |s| :: StartsWith(s[i..], p)
  }

  lemma ContainsAt(s: string, p: string, i: nat)
    requires i <= |s| && StartsWith(s[i..], p)
    ensures Contains(s, p)
  {
  }

  lemma ContainsSelf(s: string)
    ensures Contains(s, s)
  {
    assert StartsWith(s[0..], s);
  }

  /** `head` matches at position `i` of `t` and at no earlier position. */
  predicate FirstAt<C>(t: string, head: string -> Option<C>, i: nat) {
    i <= |t| && head(t[i..]).Some? && forall j :: 0 <= j < i ==> head(t[j..]).None?
  }

  /** `head` matches at no position of `t`. */
  predicate NoMatch<C>(t: string, head: string -> Option<C>) {
    forall j :: 0 <= j <= |t| ==> head(t[j..]).None?
  }

  /** Python's `re.search`: the leftmost start position at which `head`
      matches, with what it captured there. `head` sees the suffix from that
      position on, so a pattern only ever looks forward. */
  function FindFirst<C>(t: string, head: string -> Option<C>): (r: Option<Hit<C>>)
    decreases |t|
    ensures r.Some? ==> r.value.pos <= |t| && head(t[r.value.pos..]) == Some(r.value.cap)
    ensures r.Some? ==> forall j :: 0 <= j < r.value.pos ==> head(t[j..]).None?
    ensures r.None? ==> forall j :: 0 <= j <= |t| ==> head(t[j..]).None?
  {
    match head(t)
    case Some(c) => Some(Hit(0, c))
    case None =>
      if t == [] then None
      else
        var rest := FindFirst(t[1..], head);
        assert forall j :: 1 <= j <= |t| ==> t[1..][j - 1..] == t[j..];
        match rest
        case Some(h) => Some(Hit(h.pos + 1, h.cap))
        case None => None
  }

  /** The search finds the leftmost match, whichever it is, and reports no
      match exactly when there is none. */
  lemma FindFirstIs<C>(t: string, head: string -> Option<C>, i: nat)
    requires FirstAt(t, head, i)
    ensures FindFirst(t, head) == Some(Hit(i, head(t[i..]).value))
  {
  }

  lemma FindNone<C>(t: string, head: string -> Option<C>)
    ensures FindFirst(t, head).None? <==> NoMatch(t, head)
  {
    var r := FindFirst(t, head);
    if r.Some? {
      assert head(t[r.value.pos..]).Some?;
    }
  }

  /** The suffix of `s` after its leading whitespace. */
  function SkipSpace(s: string): (r: string)
    decreases |s|
    ensures |r| <= |s| && r == s[|s| - |r|..]
    ensures forall k :: 0 <= k < |s| - |r| ==> IsSpace(s[k])
    ensures r == [] || !IsSpace(r[0])
  {
    if |s| > 0 && IsSpace(s[0]) then
      var r := SkipSpace(s[1..]);
      assert s[1..][|s[1..]| - |r|..] == s[|s| - |r|..];
      r
    else s
  }

  /** The prefix of `s` before its trailing whitespace. */
  function TrimEnd(s: string): (r: string)
    decreases |s|
    ensures |r| <= |s| && r == s[..|r|]
    ensures forall k :: |r| <= k < |s| ==> IsSpace(s[k])
    ensures r == [] || !IsSpace(r[|r| - 1])
  {
    if |s| > 0 && IsSpace(s[|s| - 1]) then
      var r := TrimEnd(s[..|s| - 1]);
      assert s[..|s| - 1][..|r|] == s[..|r|];
      r
    else s
  }

  /** `r` stands at position `a` of `s` with only whitespace around it. */
  predicate StrippedAt(s: string, a: nat, r: string) {
    && a + |r| <= |s| && s[a..a + |r|] == r
    && (forall k :: 0 <= k < a ==> IsSpace(s[k]))
    && (forall k :: a + |r| <= k < |s| ==> IsSpace(s[k]))
  }

  /** Python's `str.strip()`: the longest infix with no whitespace at either end. */
  function Strip(s: string): (r: string)
    ensures |r| <= |s|
    ensures r == [] || (!IsSpace(r[0]) && !IsSpace(r[|r| - 1]))
    ensures StrippedAt(s, LeadingSpace(s), r)
  {
    TrimEnd(SkipSpace(s))
  }

  /** The number of whitespace characters `s` starts with. */
  function LeadingSpace(s: string): nat {
    |s| - |SkipSpace(s)|
  }

  lemma StripNoSpaceAtEnds(s: string)
    requires s == [] || (!IsSpace(s[0]) && !IsSpace(s[|s| - 1]))
    ensures Strip(s) == s
  {
  }

  /** The index of the first occurrence of `p` in `s`. */
  function IndexOf(s: string, p: string): (r: Option<nat>)
    ensures r.Some? ==> r.value <= |s| && StartsWith(s[r.value..], p)
    ensures r.Some? ==> forall j :: 0 <= j < r.value ==> !StartsWith(s[j..], p)
    ensures r.None? <==> !Contains(s, p)
  {
    match FindFirst(s, (u: string) => if StartsWith(u, p) then Some(()) else None)
    case Some(h) => Some(h.pos)
    case None => None
  }

  /** `s.split(p, 1)[1]` when `p in s`: the text after the first occurrence. */
  function AfterFirst(s: string, p: string): (r: Option<string>)
    ensures r.Some? <==> Contains(s, p)
    ensures forall i :: 0 <= i <= |s| && StartsWith(s[i..], p) && (forall j :: 0 <= j < i ==> !StartsWith(s[j..], p))
                        ==> r == Some(s[i + |p|..])
  {
    match IndexOf(s, p)
    case Some(i) => Some(s[i + |p|..])
    case None => None
  }

  /** The end of the run of characters satisfying `inRun` that starts at `i`. */
  function RunEnd(s: string, i: nat, inRun: char -> bool): (e: nat)
    requires i <= |s|
    decreases |s| - i
    ensures i <= e <= |s|
    ensures e == |s| || !inRun(s[e])
  {
    if i < |s| && inRun(s[i]) then RunEnd(s, i + 1, inRun) else i
  }

  /** Every character of the run satisfies `inRun`. (Kept out of `RunEnd`'s
      own contract so that each use does not bring a quantifier along.) */
  lemma {:induction false} RunEndRun(s: string, i: nat, inRun: char -> bool)
    requires i <= |s|
    decreases |s| - i
    ensures forall k :: i <= k < RunEnd(s, i, inRun) ==> inRun(s[k])
  {
    if i < |s| && inRun(s[i]) { RunEndRun(s, i + 1, inRun); }
  }

  /** The end of the run of non-whitespace characters that starts at `i`. */
  function WordEnd(s: string, i: nat): (e: nat)
    requires i <= |s|
    decreases |s| - i
    ensures i <= e <= |s|
    ensures forall k :: i <= k < e ==> !IsSpace(s[k])
    ensures e == |s| || IsSpace(s[e])
  {
    if i < |s| && !IsSpace(s[i]) then WordEnd(s, i + 1) else i
  }

  /** The end of the run of whitespace that starts at `i`. */
  function SpaceEnd(s: string, i: nat): (e: nat)
    requires i <= |s|
    decreases |s| - i
    ensures i <= e <= |s|
    ensures e == |s| || !IsSpace(s[e])
  {
    if i < |s| && IsSpace(s[i]) then SpaceEnd(s, i + 1) else i
  }

  /** Every character of the run is whitespace. */
  lemma {:induction false} SpaceEndRun(s: string, i: nat)
    requires i <= |s|
    decreases |s| - i
    ensures forall k :: i <= k < SpaceEnd(s, i) ==> IsSpace(s[k])
  {
    if i < |s| && IsSpace(s[i]) { SpaceEndRun(s, i + 1); }
  }

  /** The end of a whitespace run is where the whitespace stops. */
  lemma {:induction false} SpaceEndAt(s: string, i: nat, e: nat)
    requires i <= e <= |s|
    requires forall k :: i <= k < e ==> IsSpace(s[k])
    requires e == |s| || !IsSpace(s[e])
    decreases e - i
    ensures SpaceEnd(s, i) == e
  {
    if i < e { SpaceEndAt(s, i + 1, e); }
  }

  /** The end of a non-whitespace run is where the whitespace starts. */
  lemma {:induction false} WordEndAt(s: string, i: nat, e: nat)
    requires i <= e <= |s|
    requires forall k :: i <= k < e ==> !IsSpace(s[k])
    requires e == |s| || IsSpace(s[e])
    decreases e - i
    ensures WordEnd(s, i) == e
  {
    if i < e { WordEndAt(s, i + 1, e); }
  }

  /** The end of any run is where the run's class stops. */
  lemma {:induction false} RunEndAt(s: string, i: nat, e: nat, inRun: char -> bool)
    requires i <= e <= |s|
    requires forall k :: i <= k < e ==> inRun(s[k])
    requires e == |s| || !inRun(s[e])
    decreases e - i
    ensures RunEnd(s, i, inRun) == e
  {
    if i < e { RunEndAt(s, i + 1, e, inRun); }
  }

  /** The end of the run of ASCII digits that starts at `i`. */
  function DigitEnd(s: string, i: nat): (e: nat)
    requires i <= |s|
    decreases |s| - i
    ensures i <= e <= |s|
    ensures forall k :: i <= k < e ==> IsDigit(s[k])
    ensures e == |s| || !IsDigit(s[e])
  {
    if i < |s| && IsDigit(s[i]) then DigitEnd(s, i + 1) else i
  }

  /** The end of a digit run is where the digits stop. */
  lemma {:induction false} DigitEndAt(s: string, i: nat, e: nat)
    requires i <= e <= |s|
    requires forall k :: i <= k < e ==> IsDigit(s[k])
    requires e == |s| || !IsDigit(s[e])
    decreases e - i
    ensures DigitEnd(s, i) == e
  {
    if i < e { DigitEndAt(s, i + 1, e); }
  }

  predicate AllDigits(s: string) {
    forall k :: 0 <= k < |s| ==> IsDigit(s[k])
  }

  predicate IsWord(w: string) {
    |w| > 0 && forall j :: 0 <= j < |w| ==> !IsSpace(w[j])
  }

  /** Python's `str.split()` with no separator: the maximal runs of
      non-whitespace characters, in order. */
  function Words(s: string): (ws: seq<string>)
    ensures forall k :: 0 <= k < |ws| ==> IsWord(ws[k])
  {
    WordsFrom(s, 0)
  }

  /** The words of `s` from `i` on. */
  function WordsFrom(s: string, i: nat): (ws: seq<string>)
    requires i <= |s|
    decreases |s| - i
    ensures forall k :: 0 <= k < |ws| ==> IsWord(ws[k])
  {
    var j := SpaceEnd(s, i);
    if j == |s| then []
    else
      var e := WordEnd(s, j);
      var w := s[j..e];
      assert IsWord(w) by {
        assert forall k :: 0 <= k < |w| ==> w[k] == s[j + k];
      }
      [w] + WordsFrom(s, e)
  }

  predicate AllSpace(g: string) {
    forall k :: 0 <= k < |g| ==> IsSpace(g[k])
  }

  /** `gaps[0] + ws[0] + gaps[1] + ... + ws[n-1] + gaps[n]`. */
  function Interleave(gaps: seq<string>, ws: seq<string>): string
    requires |gaps| == |ws| + 1
    decreases |ws|
  {
    if ws == [] then gaps[0] else gaps[0] + ws[0] + Interleave(gaps[1..], ws[1..])
  }

  /** `t` is the words `ws` separated by whitespace `gaps`; only the two
      outer gaps may be empty, so each word is a maximal run. */
  predicate SplitsInto(t: string, gaps: seq<string>, ws: seq<string>) {
    && |gaps| == |ws| + 1
    && (forall k :: 0 <= k < |gaps| ==> AllSpace(gaps[k]))
    && (forall k :: 0 < k < |ws| ==> gaps[k] != [])
    && (forall k :: 0 <= k < |ws| ==> IsWord(ws[k]))
    && t == Interleave(gaps, ws)
  }

  /** The words are the maximal whitespace-free runs of the text, in order. */
  lemma WordsAreRuns(s: string)
    ensures exists gaps :: SplitsInto(s, gaps, Words(s))
  {
    var gaps := WordsFromRuns(s, 0);
    assert s[0..] == s;
    assert SplitsInto(s, gaps, Words(s));
  }

  lemma {:induction false} WordsFromRuns(s: string, i: nat) returns (gaps: seq<string>)
    requires i <= |s|
    decreases |s| - i
    ensures SplitsInto(s[i..], gaps, WordsFrom(s, i))
  {
    var j := SpaceEnd(s, i);
    SpaceEndRun(s, i);
    var g0 := s[i..j];
    assert AllSpace(g0) by {
      assert forall k :: 0 <= k < |g0| ==> g0[k] == s[i + k];
    }
    if j == |s| {
      gaps := [g0];
      assert SplitsInto(s[i..], gaps, []);
    } else {
      var e := WordEnd(s, j);
      var g' := WordsFromRuns(s, e);
      gaps := [g0] + g';
      WordsStep(s, i, j, e, g');
    }
  }

  /** One word more: the gap before it, the word, then the rest of the split. */
  lemma WordsStep(s: string, i: nat, j: nat, e: nat, g': seq<string>)
    requires i <= j < |s| && j == SpaceEnd(s, i) && AllSpace(s[i..j]) && e == WordEnd(s, j)
    requires SplitsInto(s[e..], g', WordsFrom(s, e))
    ensures SplitsInto(s[i..], [s[i..j]] + g', WordsFrom(s, i))
  {
    var g0 := s[i..j];
    var w := s[j..e];
    var rest := WordsFrom(s, e);
    assert WordsFrom(s, i) == [w] + rest;
    WordAt(s, j);
    if rest != [] {
      FirstGapSpace(s, e, g', rest);
    }
    InterleaveCons(g0, w, g', rest);
    SliceThree(s, i, j, e);
    SplitsCons(s[i..], g0, w, g', rest, s[e..]);
  }

  /** The run starting at a non-blank character is a non-empty word. */
  lemma WordAt(s: string, j: nat)
    requires j < |s| && !IsSpace(s[j])
    ensures WordEnd(s, j) > j && IsWord(s[j..WordEnd(s, j)])
  {
    var e := WordEnd(s, j);
    assert forall k :: 0 <= k < e - j ==> s[j..e][k] == s[j + k];
  }

  lemma SliceThree(s: string, i: nat, j: nat, e: nat)
    requires i <= j <= e <= |s|
    ensures s[i..] == s[i..j] + s[j..e] + s[e..]
  {
  }

  /** After a word of the text the next gap is not empty when another word follows. */
  lemma FirstGapSpace(s: string, e: nat, g': seq<string>, rest: seq<string>)
    requires 0 < e <= |s| && !IsSpace(s[e - 1]) && (e == |s| || IsSpace(s[e]))
    requires SplitsInto(s[e..], g', rest) && rest != []
    ensures g'[0] != []
  {
  }

  lemma InterleaveCons(g0: string, w: string, g': seq<string>, rest: seq<string>)
    requires |g'| == |rest| + 1
    ensures Interleave([g0] + g', [w] + rest) == g0 + w + Interleave(g', rest)
  {
    assert ([g0] + g')[1..] == g' && ([w] + rest)[1..] == rest;
  }

  lemma SplitsCons(t: string, g0: string, w: string, g': seq<string>, rest: seq<string>, u: string)
    requires AllSpace(g0) && IsWord(w) && SplitsInto(u, g', rest)
    requires rest != [] ==> g'[0] != []
    requires t == g0 + w + u && Interleave([g0] + g', [w] + rest) == g0 + w + Interleave(g', rest)
    ensures SplitsInto(t, [g0] + g', [w] + rest)
  {
    var gaps := [g0] + g';
    var ws := [w] + rest;
    assert forall k :: 0 < k < |gaps| ==> gaps[k] == g'[k - 1];
    assert forall k :: 0 < k < |ws| ==> ws[k] == rest[k - 1];
  }
}
