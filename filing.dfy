/** The filing decisions of the orchestrator: the sanitised document title,
    the defendant-to-client mapping, the four-tier filing ladder and the
    name a document is stored under. */
module Filing {
  import opened Text
  import opened Dates
  import Classifier
  import SharePoint
  import PdfProcessor

  // ---------------------------------------------------------------------
  // sanitize_filename
  // ---------------------------------------------------------------------

  /** A character SharePoint refuses in a file name: one of < > : " / \ | ? * */
  predicate IsInvalidChar(c: char) {
    c == '<' || c == '>' || c == ':' || c == '"' || c == '/' || c == '\\' || c == '|' || c == '?' || c == '*'
  }

  predicate NoInvalidChar(s: string) {
    forall k :: 0 <= k < |s| ==> !IsInvalidChar(s[k])
  }

  /** The substitution of `sanitize_filename`: every refused character becomes '-'. */
  function ReplaceInvalid(s: string): (r: string)
    ensures |r| == |s| && NoInvalidChar(r)
    ensures forall k :: 0 <= k < |s| ==> (IsInvalidChar(s[k]) ==> r[k] == '-') && (!IsInvalidChar(s[k]) ==> r[k] == s[k])
  {
    if s == [] then []
    else
      var r := [if IsInvalidChar(s[0]) then '-' else s[0]] + ReplaceInvalid(s[1..]);
      assert forall k :: 1 <= k < |s| ==> r[k] == ReplaceInvalid(s[1..])[k - 1];
      r
  }

  /** `sanitize_filename`: refused characters replaced, then stripped. */
  function Sanitize(s: string): (r: string)
    ensures NoInvalidChar(r)
    ensures r == [] || (!IsSpace(r[0]) && !IsSpace(r[|r| - 1]))
  {
    var t := ReplaceInvalid(s);
    StripKeepsClean(t);
    Strip(t)
  }

  lemma StripKeepsClean(t: string)
    requires NoInvalidChar(t)
    ensures NoInvalidChar(Strip(t))
  {
    var r := Strip(t);
    var a := LeadingSpace(t);
    SliceClean(t, a, a + |r|);
  }

  /** Any slice of a clean name is clean. */
  lemma SliceClean(t: string, a: nat, b: nat)
    requires NoInvalidChar(t) && a <= b <= |t|
    ensures NoInvalidChar(t[a..b])
  {
    assert forall k :: 0 <= k < b - a ==> t[a..b][k] == t[a + k];
  }

  /** The substitution puts no whitespace at either end of the name. */
  lemma ReplaceKeepsEdges(s: string)
    requires s == [] || (!IsSpace(s[0]) && !IsSpace(s[|s| - 1]))
    ensures var t := ReplaceInvalid(s); t == [] || (!IsSpace(t[0]) && !IsSpace(t[|t| - 1]))
  {
    if s != [] {
      var t := ReplaceInvalid(s);
      var n := |s| - 1;
      assert t[0] == '-' || t[0] == s[0];
      assert t[n] == '-' || t[n] == s[n];
    }
  }

  /** With no whitespace at either end, sanitising only substitutes:
      the name keeps its length and every character that is not refused. */
  lemma SanitizeSubstitutes(s: string)
    requires s == [] || (!IsSpace(s[0]) && !IsSpace(s[|s| - 1]))
    ensures Sanitize(s) == ReplaceInvalid(s)
  {
    ReplaceKeepsEdges(s);
    StripNoSpaceAtEnds(ReplaceInvalid(s));
  }

  /** A name that is already clean is kept as it is. */
  lemma SanitizeKeepsClean(s: string)
    requires NoInvalidChar(s)
    requires s == [] || (!IsSpace(s[0]) && !IsSpace(s[|s| - 1]))
    ensures Sanitize(s) == s
  {
    assert ReplaceInvalid(s) == s;
    StripNoSpaceAtEnds(s);
  }

  /** Sanitising twice is sanitising once. */
  lemma SanitizeIdempotent(s: string)
    ensures Sanitize(Sanitize(s)) == Sanitize(s)
  {
    SanitizeKeepsClean(Sanitize(s));
  }

  // ---------------------------------------------------------------------
  // identify_client_from_defendant / identify_client_from_subject
  // ---------------------------------------------------------------------

  /** The mapping from defendant names to client numbers, in the order of
      the configuration's keys. */
  type ClientMap = seq<(string, string)>

  /** The mapping entry's defendant occurs, case-insensitively, in `text`. */
  predicate KeyIn(e: (string, string), text: string) {
    Contains(UpperStr(text), UpperStr(e.0))
  }

  /** `identify_client_from_defendant`: the client of the first defendant
      key found in the text, or `None`. */
  function ClientFromDefendant(clientMap: ClientMap, text: string): (r: Option<string>)
    ensures r.None? <==> forall k :: 0 <= k < |clientMap| ==> !KeyIn(clientMap[k], text)
    ensures r.Some? ==> exists k :: (0 <= k < |clientMap| && KeyIn(clientMap[k], text) && r.value == clientMap[k].1
      && forall j :: 0 <= j < k ==> !KeyIn(clientMap[j], text))
  {
    match SharePoint.FirstWhere(clientMap, e => KeyIn(e, text))
    case Some(k) => Some(clientMap[k].1)
    case None => None
  }

  /** `identify_client_from_subject`: the mapped client, or the default when
      no key matches or the mapped client is empty. */
  function ClientFromSubject(clientMap: ClientMap, defaultClient: string, subject: string): (r: string)
    ensures (forall k :: 0 <= k < |clientMap| ==> !KeyIn(clientMap[k], subject)) ==> r == defaultClient
    ensures r == defaultClient || exists k :: 0 <= k < |clientMap| && KeyIn(clientMap[k], subject) && r == clientMap[k].1
    ensures ClientFromDefendant(clientMap, subject).Some? && ClientFromDefendant(clientMap, subject).value != "" ==>
      r == ClientFromDefendant(clientMap, subject).value
  {
    match ClientFromDefendant(clientMap, subject)
    case Some(c) => if c != "" then c else defaultClient
    case None => defaultClient
  }

  /** An earlier key wins even when a later key matches too. */
  lemma {:induction false} FirstKeyWins(clientMap: ClientMap, text: string, k: nat)
    requires k < |clientMap| && KeyIn(clientMap[k], text)
    requires forall j :: 0 <= j < k ==> !KeyIn(clientMap[j], text)
    ensures ClientFromDefendant(clientMap, text) == Some(clientMap[k].1)
  {
    var r := ClientFromDefendant(clientMap, text);
    var i :| 0 <= i < |clientMap| && KeyIn(clientMap[i], text) && r.value == clientMap[i].1
      && forall j :: 0 <= j < i ==> !KeyIn(clientMap[j], text);
    assert i == k;
  }

  // ---------------------------------------------------------------------
  // determine_filing_path
  // ---------------------------------------------------------------------

  /** The four tiers, from least to most specific. */
  datatype Level = Unknown | UnsortedClient | UnsortedMatter | Sorted

  function Rank(l: Level): nat {
    match l
    case Unknown => 0
    case UnsortedClient => 1
    case UnsortedMatter => 2
    case Sorted => 3
  }

  /** The client the ladder files under: the case's, else the client the
      caption's defendant maps to. An empty string counts as no client. */
  function FilingClient(clientMap: ClientMap, captionDefendant: Option<string>, caseInfo: Option<SharePoint.CaseInfo>): (r: Option<string>)
    ensures r.Some? ==> r.value != ""
    ensures caseInfo.Some? && caseInfo.value.client != "" ==> r == Some(caseInfo.value.client)
    ensures (caseInfo.None? || caseInfo.value.client == "") && (captionDefendant.None? || captionDefendant.value == "") ==> r.None?
    ensures (caseInfo.None? || caseInfo.value.client == "") && captionDefendant.Some? && captionDefendant.value != "" ==>
      r == (var c := ClientFromDefendant(clientMap, captionDefendant.value); if c.Some? && c.value != "" then c else None)
  {
    if caseInfo.Some? && caseInfo.value.client != "" then Some(caseInfo.value.client)
    else if captionDefendant.Some? && captionDefendant.value != "" then
      match ClientFromDefendant(clientMap, captionDefendant.value)
      case Some(c) => if c != "" then Some(c) else None
      case None => None
    else None
  }

  predicate KnownClient(c: Option<string>) {
    c.Some? && c.value != "Unknown"
  }

  predicate HasMatter(caseInfo: Option<SharePoint.CaseInfo>) {
    caseInfo.Some? && caseInfo.value.matter != "" && caseInfo.value.matter != "Unknown"
  }

  /** `determine_filing_path`: the folder a document is filed in and the tier. */
  function DetermineFilingPath(clientMap: ClientMap, captionDefendant: Option<string>, caseInfo: Option<SharePoint.CaseInfo>,
                               docType: Classifier.DocType, subfolder: string, title: string): (r: (string, Level))
    ensures r.1 == Unknown <==> !KnownClient(FilingClient(clientMap, captionDefendant, caseInfo))
    ensures r.1 == UnsortedClient <==> KnownClient(FilingClient(clientMap, captionDefendant, caseInfo)) && !HasMatter(caseInfo)
    ensures r.1 == Sorted <==>
      KnownClient(FilingClient(clientMap, captionDefendant, caseInfo)) && HasMatter(caseInfo)
      && docType != Classifier.Unknown && subfolder != ""
    ensures r.1 == Unknown ==> r.0 == "Unknown\\" + Sanitize(title)
    ensures r.1 == UnsortedClient ==> r.0 == FilingClient(clientMap, captionDefendant, caseInfo).value + "\\Unsorted\\" + Sanitize(title)
    ensures r.1 == UnsortedMatter ==> r.0 == caseInfo.value.relativePath + "\\Unsorted"
    ensures r.1 == Sorted ==> r.0 == caseInfo.value.relativePath + "\\" + subfolder
  {
    var client := FilingClient(clientMap, captionDefendant, caseInfo);
    if !KnownClient(client) then ("Unknown\\" + Sanitize(title), Unknown)
    else if !HasMatter(caseInfo) then (client.value + "\\Unsorted\\" + Sanitize(title), UnsortedClient)
    else if docType == Classifier.Unknown || subfolder == "" then (caseInfo.value.relativePath + "\\Unsorted", UnsortedMatter)
    else (caseInfo.value.relativePath + "\\" + subfolder, Sorted)
  }

  /** A case whose folder is `client\matter` is filed inside that folder,
      whatever the caption says. */
  lemma FiledUnderCaseFolder(clientMap: ClientMap, captionDefendant: Option<string>, ci: SharePoint.CaseInfo,
                             docType: Classifier.DocType, subfolder: string, title: string)
    requires ci.client != "" && ci.client != "Unknown" && ci.matter != "" && ci.matter != "Unknown"
    requires ci.relativePath == SharePoint.RelativePath(ci.client, ci.matter)
    ensures var r := DetermineFilingPath(clientMap, captionDefendant, Some(ci), docType, subfolder, title);
      Rank(r.1) >= 2 && StartsWith(r.0, ci.client + "\\" + ci.matter + "\\")
  {
    var r := DetermineFilingPath(clientMap, captionDefendant, Some(ci), docType, subfolder, title);
    var p := ci.client + "\\" + ci.matter + "\\";
    if r.1 == Sorted {
      assert r.0 == p + subfolder;
    } else {
      assert r.0 == p + "Unsorted";
    }
  }

  /** A document whose first page could be read always gets a document type,
      so with a known matter it is filed in its type's subfolder. */
  lemma ReadableIsSorted(clientMap: ClientMap, captionDefendant: Option<string>, caseInfo: Option<SharePoint.CaseInfo>,
                         firstPage: string, title: string)
    requires KnownClient(FilingClient(clientMap, captionDefendant, caseInfo)) && HasMatter(caseInfo)
    ensures var (t, sub) := Classifier.DetectDocumentType(Some(firstPage), title);
      DetermineFilingPath(clientMap, captionDefendant, caseInfo, t, sub, title).1 == Sorted
  {
    Classifier.ReadableHasType(firstPage, title);
  }

  /** A document with no pages is never sorted into a type's subfolder. */
  lemma UnreadableIsNotSorted(clientMap: ClientMap, captionDefendant: Option<string>, caseInfo: Option<SharePoint.CaseInfo>, title: string)
    ensures var (t, sub) := Classifier.DetectDocumentType(None, title);
      Rank(DetermineFilingPath(clientMap, captionDefendant, caseInfo, t, sub, title).1) <= 2
  {
  }

  // ---------------------------------------------------------------------
  // The stored file name
  // ---------------------------------------------------------------------

  /** The date a file name starts with: the e-filing date, else today's. */
  function DatePrefix(efiling: Option<string>, today: Date): (r: string)
    requires IsValid(today)
    ensures efiling.Some? && efiling.value != "" ==> r == efiling.value
    ensures efiling.None? ==> r == DateText(today, '.')
  {
    if efiling.Some? && efiling.value != "" then efiling.value else DateText(today, '.')
  }

  /** `<date_prefix> - <sanitized title>.pdf` */
  function FileName(prefix: string, title: string): string {
    prefix + " - " + Sanitize(title) + ".pdf"
  }

  lemma CleanConcat(a: string, b: string)
    requires NoInvalidChar(a) && NoInvalidChar(b)
    ensures NoInvalidChar(a + b)
  {
    assert forall k :: |a| <= k < |a + b| ==> (a + b)[k] == b[k - |a|];
  }

  /** A dotted date has only digits and dots. */
  lemma DottedIsClean(d: Date)
    requires IsValid(d)
    ensures NoInvalidChar(DateText(d, '.'))
  {
    var s := DateText(d, '.');
    var y := Pad4(d.year);
    var m := Pad2(d.month);
    var dd := Pad2(d.day);
    assert s == y + "." + m + "." + dd;
    assert forall k :: 0 <= k < 4 ==> s[k] == y[k];
    assert forall k :: 0 <= k < 2 ==> s[5 + k] == m[k] && s[8 + k] == dd[k];
  }

  /** The name a document is stored under never holds a refused character,
      whether it is dated by its e-filing stamp or by today. */
  lemma FileNameIsClean(firstPage: Option<string>, today: Date, title: string)
    requires IsValid(today)
    ensures NoInvalidChar(FileName(DatePrefix(PdfProcessor.ExtractEfilingDate(firstPage), today), title))
  {
    var e := PdfProcessor.ExtractEfilingDate(firstPage);
    if e.Some? {
      var d :| IsValid(d) && e.value == DateText(d, '.');
      DottedIsClean(d);
    } else {
      DottedIsClean(today);
    }
    var p := DatePrefix(e, today);
    assert NoInvalidChar(" - ") && NoInvalidChar(".pdf");
    CleanConcat(p, " - ");
    CleanConcat(p + " - ", Sanitize(title));
    CleanConcat(p + " - " + Sanitize(title), ".pdf");
  }
}
