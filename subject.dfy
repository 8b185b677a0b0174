/** The patterns `process_email` and `extract_caption_info` apply to an
    email subject or to a caption: the case number, the claim or file
    number, the "LAST, FIRST v PARTY" pair, the style after the case
    number, and the three caption case-number forms. Each is a matcher on
    the suffix at a start position; `FindFirst` turns it into a search. */
module Subject {
  import opened Text

  // ---------------------------------------------------------------------
  // `CASE NUMBER\s*:?\s*(\S+)`, case-insensitive
  // ---------------------------------------------------------------------

  /** The label, then optional whitespace, then a non-whitespace character. */
  predicate LabelledToken(s: string) {
    StartsWithCI(s, "CASE NUMBER") && SpaceEnd(s[11..], 0) < |s| - 11
  }

  /** `\s*:?\s*(\S+)` at the head of the text after the label. When the
      colon is followed only by whitespace, the optional `:?` backs off and
      `\S+` takes the colon itself. */
  function TokenAfterLabel(t: string): (r: Option<string>)
    ensures r.Some? <==> SpaceEnd(t, 0) < |t|
    ensures r.Some? ==> IsWord(r.value)
  {
    var a := SpaceEnd(t, 0);
    if a == |t| then None
    else if t[a] == ':' && SpaceEnd(t, a + 1) < |t| then
      var b := SpaceEnd(t, a + 1);
      Some(t[b..WordEnd(t, b)])
    else Some(t[a..WordEnd(t, a)])
  }

  /** The pattern at the head of `s`. */
  function CaseNumberHead(s: string): (r: Option<string>)
    ensures r.Some? <==> LabelledToken(s)
    ensures r.Some? ==> IsWord(r.value)
  {
    if !StartsWithCI(s, "CASE NUMBER") then None else TokenAfterLabel(s[11..])
  }

  /** `re.sub(r'[^\w]+$', '', s)`: drops the trailing run of non-word characters. */
  function DropTrailingNonWord(s: string): (r: string)
    decreases |s|
    ensures |r| <= |s| && r == s[..|r|]
    ensures r == [] || IsWordChar(r[|r| - 1])
    ensures forall k :: |r| <= k < |s| ==> !IsWordChar(s[k])
  {
    if |s| > 0 && !IsWordChar(s[|s| - 1]) then
      var r := DropTrailingNonWord(s[..|s| - 1]);
      assert s[..|s| - 1][..|r|] == s[..|r|];
      r
    else s
  }

  /** `.strip()` and then `re.sub(r'[^\w]+$', '', ...)` on the captured
      token: what is left is a prefix of the token that ends in a word
      character, or nothing. */
  function CleanToken(w: string): (r: string)
    requires IsWord(w)
    ensures |r| <= |w| && r == w[..|r|]
    ensures r == [] || IsWordChar(r[|r| - 1])
  {
    StripNoSpaceAtEnds(w);
    DropTrailingNonWord(Strip(w))
  }

  /** What the cleaning drops from a token is exactly its trailing run of
      non-word characters. */
  lemma CleanTokenDrops(w: string)
    requires IsWord(w)
    ensures forall k :: |CleanToken(w)| <= k < |w| ==> !IsWordChar(w[k])
  {
    StripNoSpaceAtEnds(w);
  }

  /** `extract_case_number_from_subject`. The result may be empty (a label
      followed only by punctuation); the caller treats that as no number. */
  function ExtractCaseNumberFromSubject(subject: string): (r: Option<string>)
    ensures r.Some? <==> exists i :: 0 <= i <= |subject| && LabelledToken(subject[i..])
    ensures r.Some? ==> forall k :: 0 <= k < |r.value| ==> !IsSpace(r.value[k])
    ensures r.Some? ==> r.value == [] || IsWordChar(r.value[|r.value| - 1])
  {
    match FindFirst(subject, CaseNumberHead)
    case Some(h) =>
      assert LabelledToken(subject[h.pos..]);
      var r := CleanToken(h.cap);
      assert forall k :: 0 <= k < |r| ==> r[k] == h.cap[k];
      Some(r)
    case None =>
      NoLabel(subject);
      None
  }

  lemma NoLabel(subject: string)
    requires forall j :: 0 <= j <= |subject| ==> CaseNumberHead(subject[j..]).None?
    ensures forall i :: 0 <= i <= |subject| ==> !LabelledToken(subject[i..])
  {
    forall i | 0 <= i <= |subject|
      ensures !LabelledToken(subject[i..])
    {
      assert CaseNumberHead(subject[i..]).None?;
    }
  }

  /** The number is the cleaned token after the first label in the subject. */
  lemma CaseNumberIsFirst(subject: string, i: nat)
    requires FirstAt(subject, CaseNumberHead, i)
    ensures ExtractCaseNumberFromSubject(subject) == Some(CleanToken(CaseNumberHead(subject[i..]).value))
  {
    FindFirstIs(subject, CaseNumberHead, i);
  }

  /** The forms the source documents (`CASE NUMBER x`, `CASE NUMBER: x`,
      `CASE NUMBER:x`), with trailing punctuation `p` and any text after a
      space: all yield the bare number `x`. */
  lemma CaseNumberForms(sep: string, x: string, p: string, rest: string)
    requires sep == " " || sep == ": " || sep == ":"
    requires IsWord(x) && x[0] != ':' && IsWordChar(x[|x| - 1])
    requires forall k :: 0 <= k < |p| ==> !IsWordChar(p[k]) && !IsSpace(p[k])
    requires rest == [] || IsSpace(rest[0])
    ensures ExtractCaseNumberFromSubject("CASE NUMBER" + sep + x + p + rest) == Some(x)
  {
    var t := sep + x + p + rest;
    var s := "CASE NUMBER" + t;
    var w := x + p;
    ConcatWord(x, p);
    assert w[0] == x[0];
    assert CaseNumberHead(s) == Some(w) by {
      LabelThen(t);
      TokenForms(sep, w, rest);
      Regroup4(sep, x, p, rest);
    }
    assert CleanToken(w) == x by {
      DropAfter(x, p);
      StripNoSpaceAtEnds(w);
    }
    ExtractAtHead(s, w);
    Regroup5("CASE NUMBER", sep, x, p, rest);
  }

  lemma ConcatWord(x: string, p: string)
    requires IsWord(x)
    requires forall k :: 0 <= k < |p| ==> !IsSpace(p[k])
    ensures IsWord(x + p)
  {
    var w := x + p;
    forall k | 0 <= k < |w| ensures !IsSpace(w[k]) {
      if k < |x| { assert w[k] == x[k]; } else { assert w[k] == p[k - |x|]; }
    }
  }

  /** A match at the very start of the subject decides the result. */
  lemma ExtractAtHead(s: string, w: string)
    requires CaseNumberHead(s) == Some(w)
    ensures ExtractCaseNumberFromSubject(s) == Some(CleanToken(w))
  {
  }

  /** The label, then anything: the label is recognised and the rest follows it. */
  lemma LabelThen(t: string)
    ensures StartsWithCI("CASE NUMBER" + t, "CASE NUMBER")
    ensures ("CASE NUMBER" + t)[11..] == t
  {
    StartsWithUpper("CASE NUMBER" + t, "CASE NUMBER");
  }

  /** The separator forms, then a token, then the end or whitespace. */
  lemma TokenForms(sep: string, w: string, rest: string)
    requires sep == " " || sep == ": " || sep == ":"
    requires IsWord(w) && w[0] != ':'
    requires rest == [] || IsSpace(rest[0])
    ensures TokenAfterLabel(sep + w + rest) == Some(w)
  {
    var t := sep + w + rest;
    var b := |sep|;
    WordEndAt(t, b, b + |w|);
    assert t[b..b + |w|] == w;
    if sep == " " {
      SpaceEndAt(t, 0, 1);
    } else {
      SpaceEndAt(t, 0, 0);
      SpaceEndAt(t, 1, b);
    }
  }

  /** A word-final token followed by non-word characters loses exactly those. */
  lemma {:induction false} DropAfter(x: string, p: string)
    requires x != [] && IsWordChar(x[|x| - 1])
    requires forall k :: 0 <= k < |p| ==> !IsWordChar(p[k])
    decreases |p|
    ensures DropTrailingNonWord(x + p) == x
  {
    if p != [] {
      var q := p[..|p| - 1];
      assert (x + p)[..|x + p| - 1] == x + q;
      DropAfter(x, q);
    } else {
      assert x + p == x;
    }
  }

  /** A colon followed only by whitespace is what `\S+` captures, and the
      trailing-punctuation step leaves nothing. */
  lemma ColonOnly(w: string)
    requires forall k :: 0 <= k < |w| ==> IsSpace(w[k])
    ensures ExtractCaseNumberFromSubject("CASE NUMBER:" + w) == Some([])
  {
    var t := ":" + w;
    var s := "CASE NUMBER" + t;
    assert s == "CASE NUMBER:" + w;
    LabelThen(t);
    SpaceEndAt(t, 0, 0);
    SpaceEndAt(t, 1, |t|);
    WordEndAt(t, 0, 1);
    assert t[0..1] == ":";
    assert CaseNumberHead(s[0..]) == Some(":");
    StripNoSpaceAtEnds(":");
    assert DropTrailingNonWord(":") == DropTrailingNonWord([]);
  }

  // ---------------------------------------------------------------------
  // `(?:claim|file)[\s#:]+([0-9-]+)`, case-insensitive
  // ---------------------------------------------------------------------

  predicate IsClaimSep(c: char) { IsSpace(c) || c == '#' || c == ':' }

  predicate IsClaimChar(c: char) { IsDigit(c) || c == '-' }

  /** The length of the keyword at the head of `s`: "CLAIM", "FILE" or none. */
  function ClaimKeyword(s: string): (k: nat)
    ensures k == 0 || k == 4 || k == 5
    ensures k <= |s|
  {
    if StartsWithCI(s, "CLAIM") then 5 else if StartsWithCI(s, "FILE") then 4 else 0
  }

  /** `[\s#:]+([0-9-]+)` at the head of `t`. The separator run is greedy and
      no separator character is a claim character, so backing off never helps. */
  function NumberAfterSep(t: string): (r: Option<string>)
    ensures r.Some? ==> r.value != [] && forall k :: 0 <= k < |r.value| ==> IsClaimChar(r.value[k])
  {
    var a := RunEnd(t, 0, IsClaimSep);
    if a == 0 then None
    else
      var b := RunEnd(t, a, IsClaimChar);
      if b == a then None else RunEndRun(t, a, IsClaimChar); Some(t[a..b])
  }

  /** The pattern at the head of `s`. */
  function ClaimHead(s: string): (r: Option<string>)
    ensures r.Some? ==> r.value != [] && forall k :: 0 <= k < |r.value| ==> IsClaimChar(r.value[k])
  {
    var k := ClaimKeyword(s);
    if k == 0 then None else NumberAfterSep(s[k..])
  }

  /** The claim or file number of a subject. */
  function ExtractClaimNumber(subject: string): (r: Option<string>)
    ensures r.Some? ==> r.value != [] && forall k :: 0 <= k < |r.value| ==> IsClaimChar(r.value[k])
    ensures r.None? <==> forall j :: 0 <= j <= |subject| ==> ClaimHead(subject[j..]).None?
    ensures forall i: nat :: FirstAt(subject, ClaimHead, i) ==> r == ClaimHead(subject[i..])
  {
    forall i: nat | FirstAt(subject, ClaimHead, i)
      ensures FindFirst(subject, ClaimHead) == Some(Hit(i, ClaimHead(subject[i..]).value))
    {
      FindFirstIs(subject, ClaimHead, i);
    }
    match FindFirst(subject, ClaimHead)
    case Some(h) =>
      assert h.cap != [] && !IsSpace(h.cap[0]) && !IsSpace(h.cap[|h.cap| - 1]);
      StripNoSpaceAtEnds(h.cap);
      Some(Strip(h.cap))
    case None => None
  }

  /** "Claim #: 2023-632391 ..." at the head of a subject yields the number. */
  lemma ClaimForm(key: string, sep: string, n: string, rest: string)
    requires key == "Claim" || key == "File" || key == "CLAIM" || key == "FILE"
    requires sep != [] && forall k :: 0 <= k < |sep| ==> IsClaimSep(sep[k])
    requires n != [] && forall k :: 0 <= k < |n| ==> IsClaimChar(n[k])
    requires rest == [] || !IsClaimChar(rest[0])
    ensures ExtractClaimNumber(key + sep + n + rest) == Some(n)
  {
    var t := sep + n + rest;
    var s := key + t;
    assert ClaimHead(s) == Some(n) by {
      KeywordThen(key, t);
      SepThenNumber(sep, n, rest);
    }
    assert ExtractClaimNumber(s) == Some(n) by {
      StripNoSpaceAtEnds(n);
    }
    Regroup4(key, sep, n, rest);
  }

  /** Each spelling of a keyword is recognised, and the rest follows it. */
  lemma KeywordThen(key: string, t: string)
    requires key == "Claim" || key == "File" || key == "CLAIM" || key == "FILE"
    ensures ClaimKeyword(key + t) == |key| && (key + t)[|key|..] == t
  {
    var s := key + t;
    assert s[..|key|] == key;
    if key == "File" || key == "FILE" {
      assert s[0] == 'F';
      if |s| >= 5 { assert UpperStr(s[..5])[0] == Upper(s[..5][0]); }
    }
  }

  /** Separators, then a number, then something that cannot extend it. */
  lemma SepThenNumber(sep: string, n: string, rest: string)
    requires sep != [] && forall k :: 0 <= k < |sep| ==> IsClaimSep(sep[k])
    requires n != [] && forall k :: 0 <= k < |n| ==> IsClaimChar(n[k])
    requires rest == [] || !IsClaimChar(rest[0])
    ensures NumberAfterSep(sep + n + rest) == Some(n)
  {
    var t := sep + n + rest;
    var a := |sep|;
    var b := a + |n|;
    RunEndAt(t, 0, a, IsClaimSep);
    RunEndAt(t, a, b, IsClaimChar);
    assert t[a..b] == n;
  }

  // ---------------------------------------------------------------------
  // `([A-Z][A-Za-z]+)(?:,\s*[A-Z][A-Za-z\s]+?)?\s+(?:v\.?s?\.?)\s+([A-Z][A-Za-z\s/]+?)(?:\s+-|\s+/|$)`,
  // case-insensitive
  // ---------------------------------------------------------------------

  predicate IsTailChar(c: char) { IsLetter(c) || IsSpace(c) }

  predicate IsDefendantChar(c: char) { IsLetter(c) || IsSpace(c) || c == '/' }

  /** `(?:\s+-|\s+/|$)` at position `p` of `u`; `$` also matches before a
      final newline. */
  predicate PartyStop(u: string, p: nat)
    requires p <= |u|
  {
    var w := SpaceEnd(u, p);
    (w > p && w < |u| && (u[w] == '-' || u[w] == '/')) || p == |u| || (p + 1 == |u| && u[p] == '\n')
  }

  /** The lazy `[A-Za-z\s/]+?` of the defendant that starts `v`: the
      shortest end, from `e` on, at which the stop follows. */
  function DefendantEnd(v: string, e: nat): (r: Option<nat>)
    requires 0 < e <= |v|
    decreases |v| - e
    ensures r.Some? ==> e <= r.value <= |v| && PartyStop(v, r.value)
    ensures r.Some? ==> forall k :: e - 1 <= k < r.value ==> IsDefendantChar(v[k])
    ensures r.Some? ==> forall k :: e <= k < r.value ==> !PartyStop(v, k)
  {
    if !IsDefendantChar(v[e - 1]) then None
    else if PartyStop(v, e) then Some(e)
    else if e < |v| then DefendantEnd(v, e + 1)
    else None
  }

  /** `([A-Z][A-Za-z\s/]+?)` followed by the stop, at the head of `v`. */
  function Defendant(v: string): (r: Option<string>)
    ensures r.Some? ==> |r.value| >= 2 && IsLetter(r.value[0])
    ensures r.Some? ==> forall k :: 1 <= k < |r.value| ==> IsDefendantChar(r.value[k])
  {
    if |v| < 2 || !IsLetter(v[0]) then None
    else
      match DefendantEnd(v, 2)
      case Some(e) => Some(v[..e])
      case None => None
  }

  /** The versus marker `\s+v\.?s?\.?\s+` at the head of `u`: where the
      defendant starts. Each optional piece is followed by a character that
      the next piece cannot start with, so the greedy choice is the only one. */
  function VersusEnd(u: string): (r: Option<nat>)
    ensures r.Some? ==> 0 < r.value <= |u| && IsSpace(u[0]) && IsSpace(u[r.value - 1])
  {
    var a := SpaceEnd(u, 0);
    if a == 0 || a == |u| || (u[a] != 'v' && u[a] != 'V') then None
    else
      var b1 := if a + 1 < |u| && u[a + 1] == '.' then a + 2 else a + 1;
      var b2 := if b1 < |u| && (u[b1] == 's' || u[b1] == 'S') then b1 + 1 else b1;
      var b3 := if b2 < |u| && u[b2] == '.' then b2 + 1 else b2;
      var c := SpaceEnd(u, b3);
      if c == b3 then None else SpaceEndRun(u, 0); SpaceEndRun(u, b3); Some(c)
  }

  /** The versus marker, then the defendant up to the stop. */
  function VersusRest(u: string): (r: Option<string>)
    ensures r.Some? ==> |r.value| >= 2 && IsLetter(r.value[0])
    ensures r.Some? ==> u != [] && IsSpace(u[0])
  {
    match VersusEnd(u)
    case None => None
    case Some(c) => Defendant(u[c..])
  }

  /** The lazy `[A-Za-z\s]+?` after `LAST, F`: the shortest tail, ending at
      `e` or later, after which the versus marker and a defendant follow. */
  function CommaTail(v: string, e: nat): (r: Option<string>)
    requires 1 <= e <= |v|
    decreases |v| - e
    ensures r.Some? ==> |r.value| >= 2 && IsLetter(r.value[0])
  {
    if !IsTailChar(v[e - 1]) then None
    else
      match VersusRest(v[e..])
      case Some(d) => Some(d)
      case None => if e < |v| then CommaTail(v, e + 1) else None
  }

  /** Everything after the surname: either `,\s*[A-Z]` and the comma tail,
      or directly the versus marker. A present comma cannot be skipped, as
      the marker starts with whitespace. */
  function AfterSurname(v: string): (r: Option<string>)
    ensures r.Some? ==> |r.value| >= 2 && IsLetter(r.value[0])
  {
    if v != [] && v[0] == ',' then
      var k := SpaceEnd(v, 1);
      if k + 1 < |v| && IsLetter(v[k]) then CommaTail(v, k + 2) else None
    else VersusRest(v)
  }

  /** The pattern at the head of `s`: the plaintiff's surname (the whole
      letter run; a shorter one is followed by a letter, where neither the
      comma nor the whitespace can match) and the raw defendant. */
  function PartyHead(s: string): (r: Option<(string, string)>)
    ensures r.Some? ==> |r.value.0| >= 2 && StartsWith(s, r.value.0)
    ensures r.Some? ==> forall k :: 0 <= k < |r.value.0| ==> IsLetter(r.value.0[k])
    ensures r.Some? ==> |r.value.1| >= 2 && IsLetter(r.value.1[0])
  {
    var e1 := RunEnd(s, 0, IsLetter);
    if e1 < 2 then None
    else
      RunEndRun(s, 0, IsLetter);
      match AfterSurname(s[e1..])
      case Some(d) => Some((s[..e1], d))
      case None => None
  }

  /** The plaintiff's surname and the defendant named in a subject, both stripped. */
  function ExtractParties(subject: string): (r: Option<(string, string)>)
    ensures r.None? <==> forall j :: 0 <= j <= |subject| ==> PartyHead(subject[j..]).None?
    ensures r.Some? ==> |r.value.0| >= 2 && forall k :: 0 <= k < |r.value.0| ==> IsLetter(r.value.0[k])
    ensures r.Some? ==> r.value.1 != [] && IsLetter(r.value.1[0])
    ensures forall i: nat :: FirstAt(subject, PartyHead, i) ==>
      var c := PartyHead(subject[i..]).value; r == Some(StripParties(c.0, c.1))
  {
    forall i: nat | FirstAt(subject, PartyHead, i)
      ensures FindFirst(subject, PartyHead) == Some(Hit(i, PartyHead(subject[i..]).value))
    {
      FindFirstIs(subject, PartyHead, i);
    }
    match FindFirst(subject, PartyHead)
    case Some(h) => Some(StripParties(h.cap.0, h.cap.1))
    case None => None
  }

  /** Both captures stripped: the surname has no whitespace to lose, and the
      defendant keeps its leading letter. */
  function StripParties(p: string, d: string): (r: (string, string))
    requires |p| >= 2 && forall k :: 0 <= k < |p| ==> IsLetter(p[k])
    requires |d| >= 2 && IsLetter(d[0])
    ensures r.0 == p && r.1 != [] && r.1[0] == d[0]
  {
    LetterNotSpace(p[0]);
    LetterNotSpace(p[|p| - 1]);
    StripNoSpaceAtEnds(p);
    var d' := Strip(d);
    var a := LeadingSpace(d);
    assert !IsSpace(d[0]);
    assert a == 0 && d' != [];
    (Strip(p), d')
  }

  /** A match at the very start of the subject decides the result. */
  lemma PartiesAtHead(s: string, p: string, d: string)
    requires PartyHead(s) == Some((p, d))
    ensures ExtractParties(s) == Some(StripParties(p, d))
  {
  }

  /** "LAST, FIRST v PARTY - ..." at the head of a subject names LAST and PARTY. */
  lemma LastFirstForm(last: string, first: string, vs: string, party: string, rest: string)
    requires |last| >= 2 && forall k :: 0 <= k < |last| ==> IsLetter(last[k])
    requires |first| >= 2 && forall k :: 0 <= k < |first| ==> IsLetter(first[k])
    requires vs == " v " || vs == " v. " || vs == " vs " || vs == " vs. "
    requires |party| >= 2 && forall k :: 0 <= k < |party| ==> IsLetter(party[k])
    requires rest == [] || StartsWith(rest, " - ")
    ensures ExtractParties(last + ", " + first + vs + party + rest) == Some((last, party))
  {
    var w := vs + party + rest;
    var v := ", " + first + w;
    var s := last + v;
    assert PartyHead(s) == Some((last, party)) by {
      assert AfterSurname(v) == Some(party) by {
        VersusOf(vs, party, rest);
        CommaForm(first, w);
      }
      LetterRunThen(last, v);
    }
    assert ExtractParties(s) == Some((last, party)) by {
      PartiesAtHead(s, last, party);
      StripNoSpaceAtEnds(party);
    }
    Regroup6(last, ", ", first, vs, party, rest);
  }

  /** A run of letters, then something else: the run is the surname. */
  lemma LetterRunThen(last: string, v: string)
    requires |last| >= 2 && forall k :: 0 <= k < |last| ==> IsLetter(last[k])
    requires v != [] && !IsLetter(v[0])
    ensures RunEnd(last + v, 0, IsLetter) == |last|
    ensures (last + v)[..|last|] == last && (last + v)[|last|..] == v
  {
    RunEndAt(last + v, 0, |last|, IsLetter);
  }

  /** `, FIRST` then a versus marker: the comma tail ends with FIRST. */
  lemma CommaForm(first: string, w: string)
    requires |first| >= 2 && forall k :: 0 <= k < |first| ==> IsLetter(first[k])
    requires VersusRest(w).Some?
    ensures AfterSurname(", " + first + w) == VersusRest(w)
  {
    var v := ", " + first + w;
    var f := 2 + |first|;
    assert forall k :: 2 <= k < f ==> v[k] == first[k - 2];
    SpaceEndAt(v, 1, 2);
    assert v[f..] == w;
    NoMarkerInside(v, f);
    CommaTailFirst(v, 4, f);
  }

  /** A versus marker starts with whitespace, so none starts inside a word. */
  lemma NoMarkerInside(v: string, f: nat)
    requires f <= |v| && forall k :: 2 <= k < f ==> IsLetter(v[k])
    ensures forall e :: 4 <= e < f ==> VersusRest(v[e..]).None?
  {
    forall e | 4 <= e < f
      ensures VersusRest(v[e..]).None?
    {
      assert v[e..][0] == v[e];
    }
  }

  /** `CommaTail` stops at the first end where the versus marker follows,
      when every character before it is a letter. */
  lemma {:induction false} CommaTailFirst(v: string, e: nat, f: nat)
    requires 1 <= e <= f <= |v|
    requires forall k :: e - 1 <= k < f ==> IsLetter(v[k])
    requires forall k :: e <= k < f ==> VersusRest(v[k..]).None?
    requires VersusRest(v[f..]).Some?
    decreases f - e
    ensures CommaTail(v, e) == VersusRest(v[f..])
  {
    if e < f {
      CommaTailFirst(v, e + 1, f);
    }
  }

  /** The versus marker, then a one-word party, then the end or " - ". */
  lemma VersusOf(vs: string, party: string, rest: string)
    requires vs == " v " || vs == " v. " || vs == " vs " || vs == " vs. "
    requires |party| >= 2 && forall k :: 0 <= k < |party| ==> IsLetter(party[k])
    requires rest == [] || StartsWith(rest, " - ")
    ensures VersusRest(vs + party + rest) == Some(party)
  {
    var t := party + rest;
    assert VersusEnd(vs + t) == Some(|vs|) by {
      MarkerThen(vs, t);
    }
    assert Defendant(t) == Some(party) by {
      OneWordDefendant(party, rest);
    }
    Regroup3(vs, party, rest);
    assert (vs + t)[|vs|..] == t;
  }

  /** Each spelling of the versus marker, before a letter, ends where the letter starts. */
  lemma MarkerThen(vs: string, t: string)
    requires vs == " v " || vs == " v. " || vs == " vs " || vs == " vs. "
    requires t != [] && IsLetter(t[0])
    ensures VersusEnd(vs + t) == Some(|vs|)
  {
    var u := vs + t;
    var n := |vs|;
    assert u[..n] == vs && u[n] == t[0];
    SpaceEndAt(u, 0, 1);
    SpaceEndAt(u, n - 1, n);
  }

  /** One word of letters, then the end or " - ": the lazy group stops at the word's end. */
  lemma OneWordDefendant(party: string, rest: string)
    requires |party| >= 2 && forall k :: 0 <= k < |party| ==> IsLetter(party[k])
    requires rest == [] || StartsWith(rest, " - ")
    ensures Defendant(party + rest) == Some(party)
  {
    var v := party + rest;
    var e := |party|;
    assert forall k :: 0 <= k < e ==> v[k] == party[k];
    forall p | 2 <= p < e
      ensures !PartyStop(v, p)
    {
      SpaceEndAt(v, p, p);
    }
    if rest != [] {
      assert v[e] == ' ' && v[e + 1] == '-';
      SpaceEndAt(v, e, e + 1);
    }
    assert PartyStop(v, e);
    DefendantEndFirst(v, 2, e);
    assert v[..e] == party;
  }

  /** `DefendantEnd` stops at the first stop, when every character before it
      is a letter. */
  lemma {:induction false} DefendantEndFirst(v: string, e: nat, f: nat)
    requires 0 < e <= f <= |v|
    requires forall k :: e - 1 <= k < f ==> IsLetter(v[k])
    requires forall k :: e <= k < f ==> !PartyStop(v, k)
    requires PartyStop(v, f)
    decreases f - e
    ensures DefendantEnd(v, e) == Some(f)
  {
    if e < f {
      DefendantEndFirst(v, e + 1, f);
    }
  }

  // ---------------------------------------------------------------------
  // `CASE NUMBER\s+\S+\s+([^,]+)`, case-sensitive
  // ---------------------------------------------------------------------

  predicate NotComma(c: char) { c != ',' }

  /** `\s+\S+\s+([^,]+)` at the head of the text after the label. When the
      text after the case number starts with a comma (or ends), `[^,]+` can
      only take the last whitespace character, which needs two of them. */
  function StyleAfterLabel(t: string): (r: Option<string>)
    ensures r.Some? ==> r.value != [] && forall k :: 0 <= k < |r.value| ==> r.value[k] != ','
  {
    var a := SpaceEnd(t, 0);
    if a == 0 then None
    else
      var b := WordEnd(t, a);
      if b == a then None
      else
        var c := SpaceEnd(t, b);
        if c == b then None
        else if c < |t| && t[c] != ',' then RunEndRun(t, c, NotComma); Some(t[c..RunEnd(t, c, NotComma)])
        else if c - b >= 2 then SpaceEndRun(t, b); Some(t[c - 1..c])
        else None
  }

  /** The pattern at the head of `s`. */
  function StyleHead(s: string): (r: Option<string>)
    ensures r.Some? ==> r.value != [] && forall k :: 0 <= k < |r.value| ==> r.value[k] != ','
  {
    if !StartsWith(s, "CASE NUMBER") then None else StyleAfterLabel(s[11..])
  }

  /** The style used when a registry row is created from the subject:
      the stripped capture, or "Unknown" when the pattern does not match. */
  function SubjectStyle(subject: string): (r: string)
    ensures forall k :: 0 <= k < |r| ==> r[k] != ','
    ensures (forall j :: 0 <= j <= |subject| ==> StyleHead(subject[j..]).None?) ==> r == "Unknown"
    ensures forall i: nat :: FirstAt(subject, StyleHead, i) ==> r == Strip(StyleHead(subject[i..]).value)
  {
    forall i: nat | FirstAt(subject, StyleHead, i)
      ensures FindFirst(subject, StyleHead) == Some(Hit(i, StyleHead(subject[i..]).value))
    {
      FindFirstIs(subject, StyleHead, i);
    }
    match FindFirst(subject, StyleHead)
    case Some(h) =>
      StripStyle(h.cap)
    case None => "Unknown"
  }

  /** The style capture stripped. It has no comma, so neither does the result. */
  function StripStyle(c: string): (r: string)
    requires forall k :: 0 <= k < |c| ==> c[k] != ','
    ensures forall k :: 0 <= k < |r| ==> r[k] != ','
    ensures r == Strip(c)
  {
    var t := Strip(c);
    var a := LeadingSpace(c);
    assert forall k :: 0 <= k < |t| ==> t[k] == c[a + k];
    t
  }

  /** "CASE NUMBER x STYLE, rest" gives the style up to the comma. */
  lemma StyleForm(x: string, style: string, rest: string)
    requires IsWord(x)
    requires style != [] && !IsSpace(style[0]) && !IsSpace(style[|style| - 1])
    requires forall k :: 0 <= k < |style| ==> style[k] != ','
    requires rest == [] || rest[0] == ','
    ensures SubjectStyle("CASE NUMBER" + " " + x + " " + style + rest) == style
  {
    var t := " " + x + " " + style + rest;
    var s := "CASE NUMBER" + t;
    assert StyleHead(s) == Some(style) by {
      assert s[..11] == "CASE NUMBER" && s[11..] == t;
      StyleOf(x, style, rest);
    }
    assert SubjectStyle(s) == style by {
      StripNoSpaceAtEnds(style);
    }
    Regroup6("CASE NUMBER", " ", x, " ", style, rest);
  }

  /** The text after the label in the form " x STYLE, rest". */
  lemma StyleOf(x: string, style: string, rest: string)
    requires IsWord(x)
    requires style != [] && !IsSpace(style[0])
    requires forall k :: 0 <= k < |style| ==> style[k] != ','
    requires rest == [] || rest[0] == ','
    ensures StyleAfterLabel(" " + x + " " + style + rest) == Some(style)
  {
    var t := " " + x + " " + style + rest;
    var b := 1 + |x|;
    var c := b + 1;
    var e := c + |style|;
    assert forall k :: 1 <= k < b ==> t[k] == x[k - 1];
    assert forall k :: c <= k < e ==> t[k] == style[k - c];
    SpaceEndAt(t, 0, 1);
    WordEndAt(t, 1, b);
    SpaceEndAt(t, b, c);
    RunEndAt(t, c, e, NotComma);
    assert t[c..e] == style;
  }

  // ---------------------------------------------------------------------
  // Caption case numbers, case-sensitive, tried in order
  // ---------------------------------------------------------------------

  predicate IsUpperOrDigit(c: char) { 'A' <= c <= 'Z' || IsDigit(c) }

  predicate IsUpperLetter(c: char) { 'A' <= c <= 'Z' }

  /** `([A-Z0-9]+)` after optional whitespace from `i`. */
  function TokenAfterSpace(s: string, i: nat): (r: Option<string>)
    requires i <= |s|
    ensures r.Some? ==> r.value != [] && forall k :: 0 <= k < |r.value| ==> IsUpperOrDigit(r.value[k])
  {
    var a := SpaceEnd(s, i);
    var b := RunEnd(s, a, IsUpperOrDigit);
    if b == a then None else RunEndRun(s, a, IsUpperOrDigit); Some(s[a..b])
  }

  /** `[Cc]ase [Nn]o\.?:?\s*([A-Z0-9]+)`. Neither `.` nor `:` is whitespace
      or a token character, so taking each optional piece when present is
      the only choice that can succeed. */
  function CaseNoHead(s: string): (r: Option<string>)
    ensures r.Some? ==> r.value != [] && forall k :: 0 <= k < |r.value| ==> IsUpperOrDigit(r.value[k])
  {
    if |s| < 7 || (s[0] != 'C' && s[0] != 'c') || s[1..5] != "ase " || (s[5] != 'N' && s[5] != 'n') || s[6] != 'o' then None
    else
      var a := if 7 < |s| && s[7] == '.' then 8 else 7;
      var b := if a < |s| && s[a] == ':' then a + 1 else a;
      TokenAfterSpace(s, b)
  }

  /** `[Cc]ase #:?\s*([A-Z0-9]+)`. */
  function CaseHashHead(s: string): (r: Option<string>)
    ensures r.Some? ==> r.value != [] && forall k :: 0 <= k < |r.value| ==> IsUpperOrDigit(r.value[k])
  {
    if |s| < 6 || (s[0] != 'C' && s[0] != 'c') || s[1..6] != "ase #" then None
    else
      var b := if 6 < |s| && s[6] == ':' then 7 else 6;
      TokenAfterSpace(s, b)
  }

  /** Florida's uniform case number, `[0-9]{2}[0-9]{4}[A-Z]{2}[0-9]+[A-Z]+[0-9]*`
      (for example 062024CA018136AXXXCE): six digits, a two-letter court
      code, the sequence number, the letter suffix and optional digits. */
  function UniformHead(s: string): (r: Option<string>)
    ensures r.Some? ==> StartsWith(s, r.value) && |r.value| >= 10
    ensures r.Some? ==> forall k :: 0 <= k < |r.value| ==> IsUpperOrDigit(r.value[k])
  {
    if |s| < 10 || !(forall k :: 0 <= k < 6 ==> IsDigit(s[k])) || !IsUpperLetter(s[6]) || !IsUpperLetter(s[7]) then None
    else
      var d := DigitEnd(s, 8);
      if d == 8 then None
      else
        var l := RunEnd(s, d, IsUpperLetter);
        if l == d then None
        else
          RunEndRun(s, d, IsUpperLetter);
          var e := DigitEnd(s, l);
          Some(s[..e])
  }

  /** The caption's case number: the first of the three patterns that
      matches anywhere in the first pages' text. */
  function CaptionCaseNumber(text: string): (r: Option<string>)
    ensures r.Some? ==> r.value != [] && forall k :: 0 <= k < |r.value| ==> IsUpperOrDigit(r.value[k])
    ensures r.None? <==>
      (forall j :: 0 <= j <= |text| ==> CaseNoHead(text[j..]).None? && CaseHashHead(text[j..]).None? && UniformHead(text[j..]).None?)
    ensures forall i: nat :: FirstAt(text, CaseNoHead, i) ==> r == CaseNoHead(text[i..])
    ensures NoMatch(text, CaseNoHead) ==> forall i: nat :: FirstAt(text, CaseHashHead, i) ==> r == CaseHashHead(text[i..])
    ensures NoMatch(text, CaseNoHead) && NoMatch(text, CaseHashHead) ==>
      forall i: nat :: FirstAt(text, UniformHead, i) ==> r == UniformHead(text[i..])
  {
    forall i: nat | FirstAt(text, CaseNoHead, i)
      ensures FindFirst(text, CaseNoHead) == Some(Hit(i, CaseNoHead(text[i..]).value))
    {
      FindFirstIs(text, CaseNoHead, i);
    }
    forall i: nat | FirstAt(text, CaseHashHead, i)
      ensures FindFirst(text, CaseHashHead) == Some(Hit(i, CaseHashHead(text[i..]).value))
    {
      FindFirstIs(text, CaseHashHead, i);
    }
    forall i: nat | FirstAt(text, UniformHead, i)
      ensures FindFirst(text, UniformHead) == Some(Hit(i, UniformHead(text[i..]).value))
    {
      FindFirstIs(text, UniformHead, i);
    }
    FindNone(text, CaseNoHead);
    FindNone(text, CaseHashHead);
    match FindFirst(text, CaseNoHead)
    case Some(h) => Some(h.cap)
    case None =>
      match FindFirst(text, CaseHashHead)
      case Some(h) => Some(h.cap)
      case None =>
        match FindFirst(text, UniformHead)
        case Some(h) => Some(h.cap)
        case None => None
  }

  /** "Case No." wins over a uniform number elsewhere in the caption. */
  lemma CaseNoFirst(text: string, j: nat)
    requires j <= |text| && CaseNoHead(text[j..]).Some?
    ensures CaptionCaseNumber(text).Some?
    ensures exists i :: 0 <= i <= j && CaptionCaseNumber(text) == CaseNoHead(text[i..])
  {
  }
}
