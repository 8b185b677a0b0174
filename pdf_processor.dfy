/** The regex-based extraction of `PDFProcessor`: normalising the text that
    the PDF library produced, tagging UTO/CMO orders, pulling the trial
    period and calendar call, and reading the e-filing date from the first
    page. PDF text extraction itself is outside the model: every operation
    takes the extracted text as a string. */
module PdfProcessor {
  import opened Text
  import opened Dates

  // ---------------------------------------------------------------------
  // Text normalisation (automation.py:611-613)
  // ---------------------------------------------------------------------

  predicate HasLineBreak(s: string) {
    exists k :: 0 <= k < |s| && IsLineBreak(s[k])
  }

  predicate IsMeridiem(s: string) {
    |s| == 2 && (Upper(s[0]) == 'A' || Upper(s[0]) == 'P') && Upper(s[1]) == 'M'
  }

  /** `\d{2}-\d{2}-` at the head of `s`. */
  predicate SplitDatePrefix(s: string) {
    && |s| >= 6
    && IsDigit(s[0]) && IsDigit(s[1]) && s[2] == '-'
    && IsDigit(s[3]) && IsDigit(s[4]) && s[5] == '-'
  }

  /** The pattern `(\d{2}-\d{2})-\s*[\n\r]+\s*(?:AM|PM)?\s*[\n\r]*\s*(\d{4})`
      (case-insensitive) at the head of `s`: how many characters it spans.
      The gap between the dashes and the year is a run of whitespace holding
      at least one line break, optionally followed by AM or PM and more
      whitespace. Since neither a digit nor A/P is whitespace, the gap is
      always the longest whitespace run, and the match is unique. */
  function SplitDateHead(s: string): (n: Option<nat>)
    ensures n.Some? ==> 11 <= n.value <= |s| && SplitDatePrefix(s) && AllDigits(s[n.value - 4..n.value])
  {
    if !SplitDatePrefix(s) then None
    else
      var w := SpaceEnd(s, 6);
      if !HasLineBreak(s[6..w]) then None else YearAfterGap(s, w)
  }

  /** After the whitespace gap ending at `w`: the year, or AM/PM, more
      whitespace and the year. */
  function YearAfterGap(s: string, w: nat): (n: Option<nat>)
    requires w <= |s|
    ensures n.Some? ==> w + 4 <= n.value <= |s| && AllDigits(s[n.value - 4..n.value])
  {
    if w + 4 <= |s| && AllDigits(s[w..w + 4]) then Some(w + 4)
    else if w + 2 <= |s| && IsMeridiem(s[w..w + 2]) then
      var w2 := SpaceEnd(s, w + 2);
      if w2 + 4 <= |s| && AllDigits(s[w2..w2 + 4]) then Some(w2 + 4) else None
    else None
  }

  /** `re.sub` of that pattern by `\1-\2`: scanning left to right, each
      match is replaced by `MM-DD-YYYY` and scanning resumes after it. */
  function Normalize(t: string): (r: string)
    decreases |t|
  {
    if t == [] then []
    else
      match SplitDateHead(t)
      case Some(n) => t[..5] + "-" + t[n - 4..n] + Normalize(t[n..])
      case None => [t[0]] + Normalize(t[1..])
  }

  /** Normalising never lengthens the text. */
  lemma {:induction false} NormalizeShrinks(t: string)
    decreases |t|
    ensures |Normalize(t)| <= |t|
  {
    if t != [] {
      match SplitDateHead(t)
      case Some(n) => NormalizeShrinks(t[n..]);
      case None => NormalizeShrinks(t[1..]);
    }
  }

  /** Without a line break there is nothing to rejoin: the text is unchanged. */
  lemma {:induction false} NormalizeNoBreak(t: string)
    requires forall k :: 0 <= k < |t| ==> !IsLineBreak(t[k])
    decreases |t|
    ensures Normalize(t) == t
  {
    if t != [] {
      if SplitDatePrefix(t) {
        var w := SpaceEnd(t, 6);
        assert !HasLineBreak(t[6..w]);
      }
      assert SplitDateHead(t).None?;
      NormalizeNoBreak(t[1..]);
    }
  }

  /** A date split as `MM-DD-`, whitespace with a line break, an optional
      AM/PM and more whitespace, then `YYYY` is rejoined into `MM-DD-YYYY`,
      and the rest of the text is normalised on its own. */
  lemma {:induction false} NormalizeRejoins(md: string, w1: string, m: string, w2: string, y: string, rest: string)
    requires SplitDatePrefix(md) && |md| == 6
    requires (forall k :: 0 <= k < |w1| ==> IsSpace(w1[k])) && HasLineBreak(w1)
    requires m == [] || IsMeridiem(m)
    requires forall k :: 0 <= k < |w2| ==> IsSpace(w2[k])
    requires |y| == 4 && AllDigits(y)
    ensures Normalize(md + w1 + m + w2 + y + rest) == md[..5] + "-" + y + Normalize(rest)
  {
    var t := md + w1 + m + w2 + y + rest;
    var n := |md + w1 + m + w2 + y|;
    if m == [] {
      SplitHeadNoMeridiem(md, w1, w2, y, rest);
    } else {
      SplitHeadMeridiem(md, w1, m, w2, y, rest);
    }
    NormalizeStep(t, n);
    RejoinSlices(t, md, w1, m, w2, y, rest);
  }

  /** One step of the scan at a match spanning `n` characters. */
  lemma NormalizeStep(t: string, n: nat)
    requires SplitDateHead(t) == Some(n)
    ensures Normalize(t) == t[..5] + "-" + t[n - 4..n] + Normalize(t[n..])
  {
  }

  lemma RejoinSlices(t: string, md: string, w1: string, m: string, w2: string, y: string, rest: string)
    requires |md| == 6 && |y| == 4 && t == md + w1 + m + w2 + y + rest
    ensures var n := |md + w1 + m + w2 + y|;
      t[..5] == md[..5] && t[n..] == rest && t[n - 4..n] == y
  {
    var n := |md + w1 + m + w2 + y|;
    assert t[..5] == md[..5];
    assert t[n..] == rest;
    assert t[n - 4..n] == y;
  }

  lemma SplitHeadNoMeridiem(md: string, w1: string, w2: string, y: string, rest: string)
    requires SplitDatePrefix(md) && |md| == 6
    requires (forall k :: 0 <= k < |w1| ==> IsSpace(w1[k])) && HasLineBreak(w1)
    requires forall k :: 0 <= k < |w2| ==> IsSpace(w2[k])
    requires |y| == 4 && AllDigits(y)
    ensures SplitDateHead(md + w1 + [] + w2 + y + rest) == Some(|md + w1 + [] + w2 + y|)
  {
    assert HasLineBreak(w1 + w2) by {
      var k :| 0 <= k < |w1| && IsLineBreak(w1[k]);
      assert (w1 + w2)[k] == w1[k];
    }
    SplitHeadPlain(md, w1 + w2, y, rest);
    assert md + w1 + [] + w2 + y + rest == md + (w1 + w2) + y + rest;
  }

  lemma {:induction false} SplitHeadPlain(md: string, w: string, y: string, rest: string)
    requires SplitDatePrefix(md) && |md| == 6
    requires (forall k :: 0 <= k < |w| ==> IsSpace(w[k])) && HasLineBreak(w)
    requires |y| == 4 && AllDigits(y)
    ensures SplitDateHead(md + w + y + rest) == Some(|md + w + y|)
  {
    var t := md + w + y + rest;
    assert t[..6] == md;
    forall k | 6 <= k < 6 + |w| ensures IsSpace(t[k]) { assert t[k] == w[k - 6]; }
    assert t[6 + |w|] == y[0];
    SpaceEndAt(t, 6, 6 + |w|);
    assert t[6..6 + |w|] == w;
    assert t[6 + |w|..6 + |w| + 4] == y;
  }

  lemma {:induction false} SplitHeadMeridiem(md: string, w1: string, m: string, w2: string, y: string, rest: string)
    requires SplitDatePrefix(md) && |md| == 6
    requires (forall k :: 0 <= k < |w1| ==> IsSpace(w1[k])) && HasLineBreak(w1)
    requires IsMeridiem(m)
    requires forall k :: 0 <= k < |w2| ==> IsSpace(w2[k])
    requires |y| == 4 && AllDigits(y)
    ensures SplitDateHead(md + w1 + m + w2 + y + rest) == Some(|md + w1 + m + w2 + y|)
  {
    var t := md + w1 + m + w2 + y + rest;
    assert t[..6] == md;
    var w := 6 + |w1|;
    forall k | 6 <= k < w ensures IsSpace(t[k]) { assert t[k] == w1[k - 6]; }
    assert |m| == 2 && t[w] == m[0];
    assert !IsSpace(m[0]) && !IsDigit(m[0]);
    SpaceEndAt(t, 6, w);
    assert t[6..w] == w1;
    assert t[w..w + 2] == m;
    var w' := w + 2 + |w2|;
    forall k | w + 2 <= k < w' ensures IsSpace(t[k]) { assert t[k] == w2[k - w - 2]; }
    assert t[w'] == y[0];
    SpaceEndAt(t, w + 2, w');
    assert t[w'..w' + 4] == y;
    MeridiemHead(t, w, w');
  }

  /** The unfolding of the pattern for a gap with AM or PM in it. */
  lemma MeridiemHead(s: string, w: nat, w': nat)
    requires SplitDatePrefix(s) && SpaceEnd(s, 6) == w && HasLineBreak(s[6..w])
    requires w + 2 <= |s| && !IsDigit(s[w]) && IsMeridiem(s[w..w + 2])
    requires SpaceEnd(s, w + 2) == w' && w' + 4 <= |s| && AllDigits(s[w'..w' + 4])
    ensures SplitDateHead(s) == Some(w' + 4)
  {
    assert !(w + 4 <= |s| && AllDigits(s[w..w + 4])) by {
      if w + 4 <= |s| { assert s[w..w + 4][0] == s[w]; }
    }
    MeridiemAfterGap(s, w, w');
  }

  lemma MeridiemAfterGap(s: string, w: nat, w': nat)
    requires w + 2 <= |s| && !(w + 4 <= |s| && AllDigits(s[w..w + 4])) && IsMeridiem(s[w..w + 2])
    requires SpaceEnd(s, w + 2) == w' && w' + 4 <= |s| && AllDigits(s[w'..w' + 4])
    ensures YearAfterGap(s, w) == Some(w' + 4)
  {
  }

  /** A date split across lines by the PDF layout is rejoined. */
  lemma NormalizeExample(t: string)
    requires t == "09-16-\nAM\n2024"
    ensures Normalize(t) == "09-16-2024"
  {
    var md, w, m, y := "09-16-", "\n", "AM", "2024";
    assert t == md + w + m + w + y + [];
    assert HasLineBreak(w) by { assert IsLineBreak(w[0]); }
    NormalizeRejoins(md, w, m, w, y, []);
    assert Normalize([]) == [];
    ExampleJoined();
  }

  lemma ExampleJoined()
    ensures "09-16-"[..5] + "-" + "2024" == "09-16-2024"
  {
  }

  // ---------------------------------------------------------------------
  // Trial-order patterns (automation.py:624-649)
  // ---------------------------------------------------------------------

  /** The coarse tag that `_extract_with_regex` gives a document. */
  datatype OrderTag = UTO | CMO | Other

  /** What `_extract_with_regex` returns (dates as text, as in the source). */
  datatype TrialDates = TrialDates(
    calendarCall: Option<string>,
    trialStart: Option<string>,
    trialEnd: Option<string>,
    documentType: OrderTag)

  /** `\d{2}-\d{2}-\d{4}` at the head of `s`. */
  predicate DateHead(s: string) {
    |s| >= 10 && DateShaped(s[..10])
  }

  /** `TRIAL PERIOD COMMENCING:\s*(\d{2}-\d{2}-\d{4})\s*to\s*(\d{2}-\d{2}-\d{4})`,
      case-insensitive, at the head of `s`: both dates of the one match. */
  function TrialPeriodHead(s: string): (r: Option<(string, string)>)
    ensures r.Some? ==> DateShaped(r.value.0) && DateShaped(r.value.1)
  {
    var key := "TRIAL PERIOD COMMENCING:";
    if !StartsWithCI(s, key) then None
    else
      var a := SkipSpace(s[|key|..]);
      if !DateHead(a) then None
      else
        var b := SkipSpace(a[10..]);
        if !StartsWithCI(b, "TO") then None
        else
          var c := SkipSpace(b[2..]);
          if !DateHead(c) then None
          else Some((a[..10], c[..10]))
  }

  /** `CALENDAR CALL:\s*(\d{2}-\d{2}-\d{4})`, case-insensitive. */
  function CalendarCallHead(s: string): (r: Option<string>)
    ensures r.Some? ==> DateShaped(r.value)
  {
    var key := "CALENDAR CALL:";
    if !StartsWithCI(s, key) then None
    else
      var a := SkipSpace(s[|key|..]);
      if DateHead(a) then Some(a[..10]) else None
  }

  /** `\d{1,2}:\d{2}` at the head of `s`. A third digit before the colon
      makes the greedy `\d{1,2}` fail: it can back off to one digit, but a
      digit, not a colon, follows. */
  predicate TimeHead(s: string) {
    && |s| >= 4 && IsDigit(s[0])
    && ((s[1] == ':' && IsDigit(s[2]) && IsDigit(s[3]))
        || (|s| >= 5 && IsDigit(s[1]) && s[2] == ':' && IsDigit(s[3]) && IsDigit(s[4])))
  }

  /** `(\d{2}-\d{2}-\d{4})[\s\n\r]+\d{1,2}:\d{2}` at the head of `s` (the
      optional trailing AM/PM never decides whether the pattern matches). */
  predicate DateTimeHead(s: string) {
    DateHead(s) && var w := SpaceEnd(s, 10); w > 10 && TimeHead(s[w..])
  }

  /** The lazy `[\s\S]{0,200}?`: the shortest gap `g`, from `g` up to 200,
      after which a date and a time follow. */
  function LazyGap(s: string, g: nat): (r: Option<nat>)
    requires g <= 200
    decreases 200 - g
    ensures r.Some? ==> g <= r.value <= 200 && r.value <= |s| && DateTimeHead(s[r.value..])
    ensures r.Some? ==> forall h :: g <= h < r.value ==> h > |s| || !DateTimeHead(s[h..])
    ensures r.None? ==> forall h :: g <= h <= 200 ==> h > |s| || !DateTimeHead(s[h..])
  {
    if g <= |s| && DateTimeHead(s[g..]) then Some(g)
    else if g < 200 then LazyGap(s, g + 1)
    else None
  }

  /** `(?:held|on)[\s\S]{0,200}?(\d{2}-\d{2}-\d{4})[\s\n\r]+\d{1,2}:\d{2}(?:[\s\n\r]*[AP]M)?`,
      case-insensitive. There is no word boundary: "on" also matches inside
      a word such as "CONDITION". */
  function CalendarFallbackHead(s: string): (r: Option<string>)
    ensures r.Some? ==> DateShaped(r.value)
  {
    var k := if StartsWithCI(s, "HELD") then 4 else if StartsWithCI(s, "ON") then 2 else 0;
    if k == 0 then None
    else
      match LazyGap(s[k..], 0)
      case Some(g) => Some(s[k..][g..][..10])
      case None => None
  }

  function TrialPeriod(t: string): Option<Hit<(string, string)>> {
    FindFirst(t, TrialPeriodHead)
  }

  function CalendarCall(t: string): Option<Hit<string>> {
    FindFirst(t, CalendarCallHead)
  }

  function CalendarFallback(t: string): Option<Hit<string>> {
    FindFirst(t, CalendarFallbackHead)
  }

  function ConvertOpt(s: Option<string>): Option<string> {
    match s
    case Some(v) => Some(ConvertDateFormat(v))
    case None => None
  }

  /** A stored trial-order date: `YYYY-MM-DD` of a real date, or a captured
      `MM-DD-YYYY` that did not parse, passed through. */
  predicate StoredDate(v: string) {
    |v| == 10 && (DateShaped(v) || (v[4] == '-' && v[7] == '-'))
  }

  lemma ConvertShapedStored(s: string)
    requires DateShaped(s)
    ensures StoredDate(ConvertDateFormat(s))
  {
    ConvertShaped(s);
  }

  /** Every date that is set is a stored date. */
  predicate AllStored(r: TrialDates) {
    && (r.calendarCall.Some? ==> StoredDate(r.calendarCall.value))
    && (r.trialStart.Some? ==> StoredDate(r.trialStart.value))
    && (r.trialEnd.Some? ==> StoredDate(r.trialEnd.value))
  }

  function Capture<C>(h: Option<Hit<C>>): Option<C> {
    match h
    case Some(x) => Some(x.cap)
    case None => None
  }

  /** `_extract_with_regex` on the text the PDF library produced: `None`
      when there is no text or when neither a calendar call nor a trial
      start was found. The result is filled in field by field, as in the
      source. */
  method ExtractWithRegex(pdfText: string) returns (r: Option<TrialDates>)
    ensures pdfText == [] ==> r == None
    ensures pdfText != [] ==>
      (r.Some? <==> TrialPeriod(Normalize(pdfText)).Some? || CalendarCall(Normalize(pdfText)).Some?
                    || CalendarFallback(Normalize(pdfText)).Some?)
    ensures r.Some? ==> r.value.calendarCall.Some? || r.value.trialStart.Some?
    ensures r.Some? ==> AllStored(r.value)
    ensures r.Some? ==> (r.value.documentType == UTO <==> Contains(UpperStr(Normalize(pdfText)), "UNIFORM TRIAL ORDER"))
    ensures r.Some? ==> (r.value.documentType == CMO <==>
      !Contains(UpperStr(Normalize(pdfText)), "UNIFORM TRIAL ORDER")
      && Contains(UpperStr(Normalize(pdfText)), "CASE MANAGEMENT ORDER"))
    ensures r.Some? ==> (r.value.trialStart.Some? <==> r.value.trialEnd.Some?)
    ensures r.Some? ==> match TrialPeriod(Normalize(pdfText))
      case Some(h) => r.value.trialStart == Some(ConvertDateFormat(h.cap.0))
                      && r.value.trialEnd == Some(ConvertDateFormat(h.cap.1))
      case None => r.value.trialStart.None?
    ensures r.Some? ==> r.value.calendarCall == ConvertOpt(
      if CalendarCall(Normalize(pdfText)).Some? then Capture(CalendarCall(Normalize(pdfText)))
      else Capture(CalendarFallback(Normalize(pdfText))))
  {
    if pdfText == [] {
      return None;
    }
    var text := Normalize(pdfText);
    var result := TrialDates(None, None, None, Other);

    var upper := UpperStr(text);
    if Contains(upper, "UNIFORM TRIAL ORDER") {
      result := result.(documentType := UTO);
    } else if Contains(upper, "CASE MANAGEMENT ORDER") {
      result := result.(documentType := CMO);
    }

    var trial := TrialPeriod(text);
    if trial.Some? {
      result := result.(trialStart := Some(trial.value.cap.0), trialEnd := Some(trial.value.cap.1));
    }

    var call := CalendarCall(text);
    if call.Some? {
      result := result.(calendarCall := Some(call.value.cap));
    }

    var cmc := CalendarFallback(text);
    if cmc.Some? && result.calendarCall.None? {
      result := result.(calendarCall := Some(cmc.value.cap));
    }

    ghost var raw := result;
    result := result.(
      calendarCall := ConvertOpt(result.calendarCall),
      trialStart := ConvertOpt(result.trialStart),
      trialEnd := ConvertOpt(result.trialEnd));
    if raw.calendarCall.Some? { ConvertShapedStored(raw.calendarCall.value); }
    if raw.trialStart.Some? { ConvertShapedStored(raw.trialStart.value); }
    if raw.trialEnd.Some? { ConvertShapedStored(raw.trialEnd.value); }

    if result.calendarCall.Some? || result.trialStart.Some? {
      return Some(result);
    }
    return None;
  }

  /** `extract_trial_dates`: the regex result, or all dates `None` and the
      tag `Other` when that found nothing. */
  method ExtractTrialDates(pdfText: string) returns (r: TrialDates)
    ensures pdfText == [] ==> r == TrialDates(None, None, None, Other)
    ensures r.trialStart.Some? <==> r.trialEnd.Some?
    ensures r.calendarCall.None? && r.trialStart.None? ==> r == TrialDates(None, None, None, Other)
    ensures AllStored(r)
    ensures var t := Normalize(pdfText);
      pdfText != [] && (TrialPeriod(t).Some? || CalendarCall(t).Some? || CalendarFallback(t).Some?) ==>
        && (r.documentType == UTO <==> Contains(UpperStr(t), "UNIFORM TRIAL ORDER"))
        && (r.documentType == CMO <==> !Contains(UpperStr(t), "UNIFORM TRIAL ORDER") && Contains(UpperStr(t), "CASE MANAGEMENT ORDER"))
        && r.trialStart == ConvertOpt(if TrialPeriod(t).Some? then Some(TrialPeriod(t).value.cap.0) else None)
        && r.trialEnd == ConvertOpt(if TrialPeriod(t).Some? then Some(TrialPeriod(t).value.cap.1) else None)
        && r.calendarCall == ConvertOpt(if CalendarCall(t).Some? then Capture(CalendarCall(t)) else Capture(CalendarFallback(t)))
    ensures var t := Normalize(pdfText);
      pdfText != [] && !(TrialPeriod(t).Some? || CalendarCall(t).Some? || CalendarFallback(t).Some?) ==>
        r == TrialDates(None, None, None, Other)
  {
    var found := ExtractWithRegex(pdfText);
    if found.Some? {
      return found.value;
    }
    return TrialDates(None, None, None, Other);
  }

  // ---------------------------------------------------------------------
  // E-filing date (automation.py:690-713)
  // ---------------------------------------------------------------------

  /** The three label patterns, in the order they are tried. They are
      case-sensitive apart from their bracketed first letters. */
  datatype EfilingPattern =
    | EFiled     // [Ee]-?[Ff]iled?:?\s*(...)
    | Filed      // [Ff]iled?:?\s*(...)
    | DateFiled  // [Dd]ate [Ff]iled:?\s*(...)

  const EfilingPatterns: seq<EfilingPattern> := [EFiled, Filed, DateFiled]

  predicate IsEfSep(c: char) { c == '-' || c == '/' }

  /** `c` is `\d{1,2}[-/]\d{1,2}[-/]\d{4}`, with its separators at `a` and `b`. */
  predicate EfSplit(c: string, a: nat, b: nat) {
    && 1 <= a <= 2 && a + 2 <= b <= a + 3 && b + 5 == |c|
    && AllDigits(c[..a]) && IsEfSep(c[a])
    && AllDigits(c[a + 1..b]) && IsEfSep(c[b])
    && AllDigits(c[b + 1..])
  }

  /** `\d{1,2}[-/]\d{1,2}[-/]\d{4}` at the head of `s`: the captured text.
      Each one-or-two-digit field must be followed by a separator, so a run
      of three digits cannot match. */
  function EfDateHead(s: string): (r: Option<string>)
    ensures r.Some? ==> StartsWith(s, r.value)
    ensures r.Some? ==> exists a: nat, b: nat :: EfSplit(r.value, a, b)
  {
    var a := DigitEnd(s, 0);
    if !(1 <= a <= 2) || a >= |s| || (s[a] != '-' && s[a] != '/') then None
    else
      var b := DigitEnd(s, a + 1);
      if !(1 <= b - (a + 1) <= 2) || b >= |s| || (s[b] != '-' && s[b] != '/') then None
      else if b + 5 <= |s| && AllDigits(s[b + 1..b + 5]) then
        assert EfSplit(s[..b + 5], a, b);
        Some(s[..b + 5])
      else None
  }

  /** Conversely, every text of that form is captured, whatever follows it. */
  lemma EfDateHeadFields(m: string, d: string, y: string, s1: char, s2: char, rest: string)
    requires 1 <= |m| <= 2 && AllDigits(m) && 1 <= |d| <= 2 && AllDigits(d) && |y| == 4 && AllDigits(y)
    requires IsEfSep(s1) && IsEfSep(s2)
    ensures EfDateHead(m + [s1] + d + [s2] + y + rest) == Some(m + [s1] + d + [s2] + y)
  {
    var s := m + [s1] + d + [s2] + y + rest;
    assert s[..|m|] == m;
    DigitEndAt(s, 0, |m|);
    var b := |m| + 1 + |d|;
    assert s[|m| + 1..b] == d;
    DigitEndAt(s, |m| + 1, b);
    assert s[b + 1..b + 5] == y;
    assert s[..b + 5] == m + [s1] + d + [s2] + y;
  }

  /** `:?\s*(...)` */
  function ColonDate(s: string): Option<string> {
    var a := if |s| > 0 && s[0] == ':' then 1 else 0;
    EfDateHead(s[SpaceEnd(s, a)..])
  }

  /** `d?:?\s*(...)`, the tail of `[Ff]iled?`. */
  function OptionalDColonDate(s: string): Option<string> {
    ColonDate(if |s| > 0 && s[0] == 'd' then s[1..] else s)
  }

  predicate IsF(c: char) { c == 'F' || c == 'f' }

  function EfilingHead(p: EfilingPattern, s: string): Option<string> {
    match p
    case EFiled =>
      if |s| >= 1 && (s[0] == 'E' || s[0] == 'e') then
        var i := if |s| >= 2 && s[1] == '-' then 2 else 1;
        if i + 4 <= |s| && IsF(s[i]) && s[i + 1..i + 4] == "ile" then OptionalDColonDate(s[i + 4..]) else None
      else None
    case Filed =>
      if |s| >= 4 && IsF(s[0]) && s[1..4] == "ile" then OptionalDColonDate(s[4..]) else None
    case DateFiled =>
      if |s| >= 10 && (s[0] == 'D' || s[0] == 'd') && s[1..5] == "ate " && IsF(s[5]) && s[6..10] == "iled"
      then ColonDate(s[10..]) else None
  }

  /** The first format of `['%m/%d/%Y', '%m-%d-%Y']` that parses the capture. */
  function ParseEfiling(cap: string): (r: Option<Date>)
    ensures r.Some? ==> IsValid(r.value)
  {
    match Strptime(cap, '/')
    case Some(d) => Some(d)
    case None => Strptime(cap, '-')
  }

  /** A capture `m s1 d s2 y` gives the date with those digits exactly when
      both separators agree and the date is real; mixed separators, such as
      `01/15-2026`, match the pattern but never parse. */
  lemma EfilingFields(m: string, d: string, y: string, s1: char, s2: char)
    requires 1 <= |m| <= 2 && AllDigits(m) && 1 <= |d| <= 2 && AllDigits(d) && |y| == 4 && AllDigits(y)
    requires IsEfSep(s1) && IsEfSep(s2)
    ensures ParseEfiling(m + [s1] + d + [s2] + y) ==
      if s1 == s2 && IsValid(Date(Num(y), Num(m), Num(d))) then Some(Date(Num(y), Num(m), Num(d))) else None
  {
    StrptimeFields(m, d, y, s1, s2, '/');
    StrptimeFields(m, d, y, s1, s2, '-');
  }

  /** The label pattern `p` tried at the head of a text. */
  function EfHead(p: EfilingPattern): string -> Option<string> {
    (s: string) => EfilingHead(p, s)
  }

  /** What one pattern yields: its leftmost capture, if that parses. */
  function PatternDate(text: string, p: EfilingPattern): (r: Option<Date>)
    ensures forall i: nat :: FirstAt(text, EfHead(p), i) ==> r == ParseEfiling(EfilingHead(p, text[i..]).value)
    ensures NoMatch(text, EfHead(p)) ==> r.None?
  {
    FindNone(text, EfHead(p));
    match FindFirst(text, EfHead(p))
    case Some(h) =>
      assert forall i: nat :: FirstAt(text, EfHead(p), i) ==> i == h.pos;
      ParseEfiling(h.cap)
    case None => None
  }

  /** The first candidate date from the `i`-th on that is present. */
  function FirstDate(dates: seq<Option<Date>>, i: nat): (r: Option<Date>)
    requires i <= |dates|
    decreases |dates| - i
    ensures r.Some? ==> exists k :: i <= k < |dates| && dates[k] == r && forall j :: i <= j < k ==> dates[j].None?
    ensures r.None? ==> forall k :: i <= k < |dates| ==> dates[k].None?
  {
    if i == |dates| then None
    else if dates[i].Some? then dates[i]
    else FirstDate(dates, i + 1)
  }

  /** What each pattern yields, in order. */
  function PatternDates(text: string, pats: seq<EfilingPattern>): (ds: seq<Option<Date>>)
    ensures |ds| == |pats| && forall k :: 0 <= k < |pats| ==> ds[k] == PatternDate(text, pats[k])
  {
    seq(|pats|, k requires 0 <= k < |pats| => PatternDate(text, pats[k]))
  }

  /** `for pattern in patterns`: the first pattern whose capture parses
      decides; a capture that does not parse moves on to the next pattern. */
  function EfilingFrom(text: string, pats: seq<EfilingPattern>): (r: Option<string>)
    ensures r.Some? ==> exists k :: (0 <= k < |pats| && PatternDate(text, pats[k]).Some?
      && r.value == DateText(PatternDate(text, pats[k]).value, '.')
      && forall j :: 0 <= j < k ==> PatternDate(text, pats[j]).None?)
    ensures r.None? ==> forall k :: 0 <= k < |pats| ==> PatternDate(text, pats[k]).None?
  {
    var ds := PatternDates(text, pats);
    match FirstDate(ds, 0)
    case Some(d) => Some(DateText(d, '.'))
    case None => None
  }

  /** `extract_efiling_date` on the first page's text (`None` when the PDF
      has no pages): a zero-padded `YYYY.MM.DD` of a real date, or `None`. */
  function ExtractEfilingDate(firstPage: Option<string>): (r: Option<string>)
    ensures firstPage.None? ==> r.None?
    ensures r.Some? ==> exists d :: IsValid(d) && r.value == DateText(d, '.')
    ensures firstPage.Some? ==> (r.None? <==> forall k :: 0 <= k < |EfilingPatterns| ==> PatternDate(firstPage.value, EfilingPatterns[k]).None?)
  {
    match firstPage
    case None => None
    case Some(text) => EfilingFrom(text, EfilingPatterns)
  }

  /** A first page that opens with `Filed: ` and a real `MM<sep>DD<sep>YYYY`
      date is filed under that date, its digits reordered as `YYYY.MM.DD`:
      the `E-Filed` pattern finds no `E` to start from, and the `Filed`
      pattern captures the date at the head of the text. */
  lemma FiledAtHead(text: string, m: string, d: string, y: string, sep: char)
    requires |m| == 2 && AllDigits(m) && |d| == 2 && AllDigits(d) && |y| == 4 && AllDigits(y)
    requires IsEfSep(sep) && IsValid(Date(Num(y), Num(m), Num(d)))
    requires text == "Filed: " + (m + [sep] + d + [sep] + y)
    ensures ExtractEfilingDate(Some(text)) == Some(y + ['.'] + m + ['.'] + d)
  {
    var cap := m + [sep] + d + [sep] + y;
    var dt := Date(Num(y), Num(m), Num(d));
    NoEFiledBefore(text, cap);
    FiledCapture(text, m, d, y, sep);
    EfilingFields(m, d, y, sep, sep);
    SecondPatternDecides(text, dt);
    Pad4OfNum(y);
    Pad2OfNum(m);
    Pad2OfNum(d);
  }

  /** When `E-Filed` yields nothing and `Filed` yields a date, that date decides. */
  lemma SecondPatternDecides(text: string, dt: Date)
    requires PatternDate(text, EFiled).None? && PatternDate(text, Filed) == Some(dt)
    ensures IsValid(dt)
    ensures ExtractEfilingDate(Some(text)) == Some(DateText(dt, '.'))
  {
    var ds := PatternDates(text, EfilingPatterns);
    assert EfilingPatterns[0] == EFiled && EfilingPatterns[1] == Filed;
    assert ds[0].None? && ds[1] == Some(dt);
    assert FirstDate(ds, 0) == FirstDate(ds, 1) == Some(dt);
  }

  /** An `E-Filed` label needs an `E` and then a hyphen or an `F`. */
  lemma EFiledStart(s: string)
    requires |s| < 2 || (s[0] != 'E' && s[0] != 'e') || (s[1] != '-' && !IsF(s[1]))
    ensures EfilingHead(EFiled, s).None?
  {
  }

  /** No `E-Filed` label starts anywhere in `Filed: ` followed by digits and separators. */
  lemma NoEFiledBefore(text: string, cap: string)
    requires forall k :: 0 <= k < |cap| ==> IsDigit(cap[k]) || IsEfSep(cap[k])
    requires text == "Filed: " + cap
    ensures PatternDate(text, EFiled).None?
  {
    forall j | 0 <= j <= |text|
      ensures EfHead(EFiled)(text[j..]).None?
    {
      NoEFiledAt(text, cap, j);
    }
  }

  lemma NoEFiledAt(text: string, cap: string, j: nat)
    requires forall k :: 0 <= k < |cap| ==> IsDigit(cap[k]) || IsEfSep(cap[k])
    requires text == "Filed: " + cap
    requires j <= |text|
    ensures EfilingHead(EFiled, text[j..]).None?
  {
    if j < |text| && j != 3 {
      if j >= 7 {
        assert text[j] == cap[j - 7];
      }
      assert text[j..][0] != 'E' && text[j..][0] != 'e';
    } else if j == 3 {
      assert text[j..][1] == 'd';
    }
    EFiledStart(text[j..]);
  }

  /** The `Filed` pattern matches at the head and captures the date. */
  lemma FiledCapture(text: string, m: string, d: string, y: string, sep: char)
    requires 1 <= |m| <= 2 && AllDigits(m) && 1 <= |d| <= 2 && AllDigits(d) && |y| == 4 && AllDigits(y)
    requires IsEfSep(sep)
    requires text == "Filed: " + (m + [sep] + d + [sep] + y)
    ensures PatternDate(text, Filed) == ParseEfiling(m + [sep] + d + [sep] + y)
  {
    FiledHead(text, m, d, y, sep);
    assert FirstAt(text, EfHead(Filed), 0);
  }

  lemma FiledHead(text: string, m: string, d: string, y: string, sep: char)
    requires 1 <= |m| <= 2 && AllDigits(m) && 1 <= |d| <= 2 && AllDigits(d) && |y| == 4 && AllDigits(y)
    requires IsEfSep(sep)
    requires text == "Filed: " + (m + [sep] + d + [sep] + y)
    ensures EfilingHead(Filed, text) == Some(m + [sep] + d + [sep] + y)
  {
    var cap := m + [sep] + d + [sep] + y;
    assert IsF(text[0]) && text[1..4] == "ile";
    var u := text[4..];
    assert u == "d: " + cap;
    var v := u[1..];
    assert v == ": " + cap;
    ColonCapture(v, m, d, y, sep);
    assert OptionalDColonDate(u) == Some(cap);
  }

  lemma ColonCapture(v: string, m: string, d: string, y: string, sep: char)
    requires 1 <= |m| <= 2 && AllDigits(m) && 1 <= |d| <= 2 && AllDigits(d) && |y| == 4 && AllDigits(y)
    requires IsEfSep(sep)
    requires v == ": " + (m + [sep] + d + [sep] + y)
    ensures ColonDate(v) == Some(m + [sep] + d + [sep] + y)
  {
    var cap := m + [sep] + d + [sep] + y;
    assert SpaceEnd(v, 1) == 2 by {
      assert IsSpace(v[1]) && !IsSpace(v[2]);
      assert SpaceEnd(v, 2) == 2;
    }
    assert v[2..] == cap + "";
    EfDateHeadFields(m, d, y, sep, sep, "");
  }

  /** `"Filed: 01/15/2026"` is filed under `2026.01.15`. (The text is a
      parameter so that the verifier reasons about it through the lemmas
      above rather than by unfolding the matcher on a literal.) */
  lemma EfilingExample(text: string)
    requires text == "Filed: 01/15/2026"
    ensures ExtractEfilingDate(Some(text)) == Some("2026.01.15")
  {
    var m, d, y := "01", "15", "2026";
    Num2(m);
    Num2(d);
    Num4(y);
    assert text == "Filed: " + (m + ['/'] + d + ['/'] + y);
    FiledAtHead(text, m, d, y, '/');
    DottedExample(m, d, y);
  }

  lemma DottedExample(m: string, d: string, y: string)
    requires m == "01" && d == "15" && y == "2026"
    ensures y + ['.'] + m + ['.'] + d == "2026.01.15"
  {
  }
}
