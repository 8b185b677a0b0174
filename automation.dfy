/** The orchestrator: finding a case by a party's name, the order in which
    an email's subject is tried against the registry and the folders, and
    the per-email pipeline that files each of its PDFs. */
module Automation {
  import opened Text
  import opened Dates
  import Subject
  import SharePoint
  import Classifier
  import PdfProcessor
  import Filing

  type CaseInfo = SharePoint.CaseInfo

  /** The case folders as (client folder, matter folder) names. */
  type Listing = seq<(string, string)>

  // ---------------------------------------------------------------------
  // find_case_by_party_name
  // ---------------------------------------------------------------------

  /** A matter folder whose upper-cased name contains the (upper-cased) party. */
  predicate NamesParty(e: (string, string), partyU: string) {
    Contains(UpperStr(e.1), partyU)
  }

  /** What a party match records: the folder, its style, no case number. */
  function PartyCase(e: (string, string)): (r: CaseInfo)
    ensures r.client == e.0 && r.matter == e.1 && r.caseNumber.None?
    ensures r.style == SharePoint.NameStyle(e.1, "Unknown")
    ensures r.relativePath == SharePoint.RelativePath(e.0, e.1)
  {
    SharePoint.CaseInfo(e.0, e.1, SharePoint.NameStyle(e.1, "Unknown"), None, SharePoint.RelativePath(e.0, e.1))
  }

  /** The folders among the first `n` naming the party, in listing order. */
  function PartyMatches(listing: Listing, partyU: string, n: nat): seq<CaseInfo>
    requires n <= |listing|
  {
    if n == 0 then []
    else
      var init := PartyMatches(listing, partyU, n - 1);
      var e := listing[n - 1];
      if NamesParty(e, partyU) then init + [PartyCase(e)] else init
  }

  /** `party_name.upper().strip()` */
  function PartyKey(party: string): string {
    Strip(UpperStr(party))
  }

  /** The result of `find_case_by_party_name`. */
  function PartyMatch(listing: Listing, party: string): Option<CaseInfo> {
    var partyU := PartyKey(party);
    if |partyU| < 3 then None
    else
      var ms := PartyMatches(listing, partyU, |listing|);
      if |ms| == 1 then Some(ms[0]) else None
  }

  /** Folder `j` is the only one among the first `n` naming the party. */
  predicate OnlyMatch(listing: Listing, partyU: string, n: nat, j: int)
    requires n <= |listing|
  {
    && 0 <= j < n && NamesParty(listing[j], partyU)
    && forall i :: 0 <= i < n && i != j ==> !NamesParty(listing[i], partyU)
  }

  /** No match at all exactly when no folder names the party. */
  lemma {:induction false} NoMatches(listing: Listing, partyU: string, n: nat)
    requires n <= |listing|
    ensures PartyMatches(listing, partyU, n) == [] <==> forall i :: 0 <= i < n ==> !NamesParty(listing[i], partyU)
  {
    if n > 0 {
      NoMatches(listing, partyU, n - 1);
    }
  }

  /** One match exactly when one folder names the party, and the match is that folder. */
  lemma {:induction false} OneMatch(listing: Listing, partyU: string, n: nat)
    requires n <= |listing|
    ensures |PartyMatches(listing, partyU, n)| == 1 <==> exists j :: OnlyMatch(listing, partyU, n, j)
    ensures forall j :: OnlyMatch(listing, partyU, n, j) ==> PartyMatches(listing, partyU, n) == [PartyCase(listing[j])]
  {
    if n > 0 {
      OneMatch(listing, partyU, n - 1);
      NoMatches(listing, partyU, n - 1);
      if NamesParty(listing[n - 1], partyU) {
        OneMatchHit(listing, partyU, n);
      } else {
        SkipFolder(listing, partyU, n - 1);
      }
    }
  }

  /** Step of `OneMatch` when folder `n - 1` names the party. */
  lemma OneMatchHit(listing: Listing, partyU: string, n: nat)
    requires 0 < n <= |listing| && NamesParty(listing[n - 1], partyU)
    requires PartyMatches(listing, partyU, n - 1) == [] <==> forall i :: 0 <= i < n - 1 ==> !NamesParty(listing[i], partyU)
    ensures |PartyMatches(listing, partyU, n)| == 1 <==> exists j :: OnlyMatch(listing, partyU, n, j)
    ensures forall j :: OnlyMatch(listing, partyU, n, j) ==> PartyMatches(listing, partyU, n) == [PartyCase(listing[j])]
  {
    var m := n - 1;
    if |PartyMatches(listing, partyU, n)| == 1 {
      assert OnlyMatch(listing, partyU, n, m);
    }
    forall j | OnlyMatch(listing, partyU, n, j)
      ensures PartyMatches(listing, partyU, n) == [PartyCase(listing[j])]
    {
      assert j == m;
    }
  }

  /** A folder that does not name the party changes neither the matches
      nor which folder is the only match. */
  lemma SkipFolder(listing: Listing, partyU: string, m: nat)
    requires m < |listing| && !NamesParty(listing[m], partyU)
    ensures PartyMatches(listing, partyU, m + 1) == PartyMatches(listing, partyU, m)
    ensures forall j :: OnlyMatch(listing, partyU, m, j) <==> OnlyMatch(listing, partyU, m + 1, j)
  {
  }

  /** A party match is accepted only when exactly one folder names the
      party, and a party shorter than three characters never matches. */
  lemma PartyMatchIsUnique(listing: Listing, party: string)
    ensures |PartyKey(party)| < 3 ==> PartyMatch(listing, party).None?
    ensures PartyMatch(listing, party).Some? <==> |PartyKey(party)| >= 3 && exists j :: OnlyMatch(listing, PartyKey(party), |listing|, j)
    ensures forall j :: |PartyKey(party)| >= 3 && OnlyMatch(listing, PartyKey(party), |listing|, j) ==>
      PartyMatch(listing, party) == Some(PartyCase(listing[j]))
  {
    OneMatch(listing, PartyKey(party), |listing|);
  }

  /** Two folders naming the party make the match ambiguous: no result. */
  lemma Ambiguous(listing: Listing, party: string, i: nat, j: nat)
    requires i < j < |listing|
    requires NamesParty(listing[i], PartyKey(party)) && NamesParty(listing[j], PartyKey(party))
    ensures PartyMatch(listing, party).None?
  {
    PartyMatchIsUnique(listing, party);
    assert forall k :: OnlyMatch(listing, PartyKey(party), |listing|, k) ==> k == i && k == j;
  }

  /** One more folder: it joins the matches when it names the party. */
  lemma MatchesStep(listing: Listing, partyU: string, j: nat, names: bool)
    requires j < |listing| && names == NamesParty(listing[j], partyU)
    ensures PartyMatches(listing, partyU, j + 1) ==
      if names then PartyMatches(listing, partyU, j) + [PartyCase(listing[j])] else PartyMatches(listing, partyU, j)
  {
  }

  /** The loop of `find_case_by_party_name` over the case folders. */
  method CollectMatches(listing: Listing, partyU: string) returns (matches: seq<CaseInfo>)
    ensures matches == PartyMatches(listing, partyU, |listing|)
  {
    matches := [];
    var j := 0;
    while j < |listing|
      invariant 0 <= j <= |listing|
      invariant matches == PartyMatches(listing, partyU, j)
    {
      var names := NamesParty(listing[j], partyU);
      MatchesStep(listing, partyU, j, names);
      if names {
        matches := matches + [PartyCase(listing[j])];
      }
      j := j + 1;
    }
  }

  /** `find_case_by_party_name`. */
  method FindCaseByPartyName(listing: Listing, party: string) returns (r: Option<CaseInfo>)
    ensures r == PartyMatch(listing, party)
  {
    var partyU := PartyKey(party);
    if |partyU| < 3 {
      return None;
    }
    var matches := CollectMatches(listing, partyU);
    if |matches| == 1 {
      r := Some(matches[0]);
    } else {
      r := None;
    }
  }

  // ---------------------------------------------------------------------
  // The subject's fallback chain in process_email
  // ---------------------------------------------------------------------

  /** The subject's case number; an empty one counts as none. */
  function SubjectCaseNumber(subject: string): (r: Option<string>)
    ensures r.Some? ==> r.value != [] && forall k :: 0 <= k < |r.value| ==> !IsSpace(r.value[k])
    ensures r.Some? <==> Subject.ExtractCaseNumberFromSubject(subject).Some? && Subject.ExtractCaseNumberFromSubject(subject).value != []
  {
    match Subject.ExtractCaseNumberFromSubject(subject)
    case Some(c) => if c != [] then Some(c) else None
    case None => None
  }

  /** Where the subject leads before any PDF is opened: a case (or none),
      or a registry row to create for a case number nothing matched. */
  datatype Resolution = Found(info: Option<CaseInfo>) | NeedsRow(caseNumber: string, client: string, style: string)

  /** A case-number lookup, as `get_case_by_number` answers it. */
  type Lookup = string -> Option<CaseInfo>

  /** The lookup against a registry index and the case folders. */
  function LookupIn(index: map<string, SharePoint.CaseRecord>, listing: Listing): Lookup {
    cn => SharePoint.CaseByNumber(index, listing, cn)
  }

  /** The lookups tried after the subject's case number: the claim or file
      number, then the plaintiff's surname, then the defendant. */
  function ByClaimOrParty(lookup: Lookup, listing: Listing, subject: string): Option<CaseInfo> {
    var byClaim := match Subject.ExtractClaimNumber(subject)
      case Some(n) => lookup(n)
      case None => None;
    if byClaim.Some? then byClaim else PartiesMatch(listing, Subject.ExtractParties(subject))
  }

  /** The lookup of the subject's own case number, when it has one. */
  function BySubject(lookup: Lookup, cn: Option<string>): Option<CaseInfo> {
    if cn.Some? then lookup(cn.value) else None
  }

  /** The chain of `process_email` up to the row it may create. */
  function ResolveSubject(lookup: Lookup, listing: Listing,
                          clientMap: Filing.ClientMap, defaultClient: string, subject: string): Resolution
  {
    var cn := SubjectCaseNumber(subject);
    var found := FoundFor(lookup, listing, subject, cn);
    if found.None? && cn.Some? then NewCase(clientMap, defaultClient, subject, cn.value)
    else Found(found)
  }

  /** The case the lookups find: by the subject's case number, else by the fallbacks. */
  function FoundFor(lookup: Lookup, listing: Listing, subject: string, cn: Option<string>): Option<CaseInfo> {
    var bySubject := BySubject(lookup, cn);
    if bySubject.Some? then bySubject else ByClaimOrParty(lookup, listing, subject)
  }

  /** An unknown case number: the row to create, with the subject's client and style. */
  function NewCase(clientMap: Filing.ClientMap, defaultClient: string, subject: string, cn: string): Resolution {
    NeedsRow(cn, Filing.ClientFromSubject(clientMap, defaultClient, subject), Subject.SubjectStyle(subject))
  }

  /** The subject's case number is tried first: when the registry and the
      folders know it, nothing else is consulted. */
  lemma SubjectNumberFirst(lookup: Lookup, listing: Listing,
                           clientMap: Filing.ClientMap, defaultClient: string, subject: string)
    requires SubjectCaseNumber(subject).Some? && lookup(SubjectCaseNumber(subject).value).Some?
    ensures ResolveSubject(lookup, listing, clientMap, defaultClient, subject) == Found(lookup(SubjectCaseNumber(subject).value))
  {
  }

  /** The plaintiff's surname is tried before the defendant: a unique
      surname match decides even when the defendant would match too. */
  lemma PlaintiffBeforeDefendant(lookup: Lookup, listing: Listing,
                                 clientMap: Filing.ClientMap, defaultClient: string, subject: string, j: nat)
    requires SubjectCaseNumber(subject).None? && Subject.ExtractClaimNumber(subject).None?
    requires Subject.ExtractParties(subject).Some?
    requires var p := PartyKey(Subject.ExtractParties(subject).value.0); |p| >= 3 && OnlyMatch(listing, p, |listing|, j)
    ensures ResolveSubject(lookup, listing, clientMap, defaultClient, subject) == Found(Some(PartyCase(listing[j])))
  {
    PartyMatchIsUnique(listing, Subject.ExtractParties(subject).value.0);
  }

  /** A row is created only for a subject case number that nothing matched;
      it carries the client inferred from the subject and the subject's style. */
  lemma NewRowOnlyForUnmatchedNumber(lookup: Lookup, listing: Listing,
                                     clientMap: Filing.ClientMap, defaultClient: string, subject: string)
    ensures var r := ResolveSubject(lookup, listing, clientMap, defaultClient, subject);
      r.NeedsRow? <==>
        SubjectCaseNumber(subject).Some? && lookup(SubjectCaseNumber(subject).value).None?
        && ByClaimOrParty(lookup, listing, subject).None?
    ensures var r := ResolveSubject(lookup, listing, clientMap, defaultClient, subject);
      r.NeedsRow? ==> (r.caseNumber == SubjectCaseNumber(subject).value
        && r.client == Filing.ClientFromSubject(clientMap, defaultClient, subject)
        && r.style == Subject.SubjectStyle(subject))
  {
  }

  /** The identity a created row stands for until the folders catch up:
      the case number doubles as the matter. */
  function SyntheticCase(caseNumber: string, client: string, style: string): (r: CaseInfo)
    ensures r.client == client && r.matter == caseNumber && r.style == style && r.caseNumber == Some(caseNumber)
  {
    SharePoint.CaseInfo(client, caseNumber, style, Some(caseNumber), client + "\\" + caseNumber + " - " + style)
  }

  /** The row `process_email` asks for. */
  function NewCaseData(caseNumber: string, client: string, style: string): SharePoint.CaseData {
    SharePoint.CaseData(Some("EAZ"), Some(client), None, Some(style), None, Some(caseNumber))
  }

  /** Once the registry has the created row, a fresh load of the index finds
      the case under its number, with the inferred client and the number as
      its matter. */
  lemma NewRowIsFoundNextTime(sh: SharePoint.Sheet, subject: string, client: string, style: string)
    requires SharePoint.IndexColumnsOf(sh.headers).Some?
    requires SubjectCaseNumber(subject).Some? && client != ""
    ensures var cn := SubjectCaseNumber(subject).value;
      var idx := SharePoint.CaseIndexOf(Some(SharePoint.Sheet(sh.headers, sh.rows + [SharePoint.NewRow(sh.headers, NewCaseData(cn, client, style))])));
      cn in idx && idx[cn].client == client && idx[cn].matter == cn
  {
    var cn := SubjectCaseNumber(subject).value;
    assert !IsSpace(cn[0]) && !IsSpace(cn[|cn| - 1]);
    StripNoSpaceAtEnds(cn);
    SharePoint.AppendedRowIsIndexed(sh, NewCaseData(cn, client, style));
  }

  /** A document filed under a synthetic case with a known client lands in
      the folder named after the case number and the style. */
  lemma SyntheticFolder(clientMap: Filing.ClientMap, captionDefendant: Option<string>, cn: string, client: string, style: string,
                        docType: Classifier.DocType, subfolder: string, title: string)
    requires client != "" && client != "Unknown" && cn != "" && cn != "Unknown"
    ensures var r := Filing.DetermineFilingPath(clientMap, captionDefendant, Some(SyntheticCase(cn, client, style)), docType, subfolder, title);
      Filing.Rank(r.1) >= 2 && StartsWith(r.0, client + "\\" + cn + " - " + style + "\\")
  {
    var ci := SyntheticCase(cn, client, style);
    var r := Filing.DetermineFilingPath(clientMap, captionDefendant, Some(ci), docType, subfolder, title);
    var p := client + "\\" + cn + " - " + style + "\\";
    if r.1 == Filing.Sorted {
      assert r.0 == p + subfolder;
    } else {
      assert r.0 == p + "Unsorted";
    }
  }

  // ---------------------------------------------------------------------
  // The documents of an email
  // ---------------------------------------------------------------------

  /** A PDF as the pipeline reads it: the text of its pages and the
      defendant its caption names, if any. */
  datatype Pdf = Pdf(pages: seq<string>, captionDefendant: Option<string>)

  /** A document to file: its title and its content, `None` when the
      download failed. */
  datatype Document = Document(title: string, content: Option<Pdf>)

  /** An email: its id, subject, age in days when its receipt time is known,
      the PDF links found in its body and its direct PDF attachments with
      their titles. */
  datatype Email = Email(id: string, subject: string, ageDays: Option<int>, links: seq<Document>, attachments: seq<(string, Pdf)>)

  /** What is stored: the folder, the file name and the tier. */
  datatype Upload = Upload(folder: string, fileName: string, level: Filing.Level)

  /** The documents processed, in order: the body's links except the first
      (the archive of all of them), then the attachments. */
  function Documents(email: Email): (r: seq<Document>)
    ensures |r| == (if |email.links| > 1 then |email.links| - 1 else 0) + |email.attachments|
    ensures forall k :: 0 <= k < |email.links| - 1 ==> r[k] == email.links[k + 1]
    ensures r[|r| - |email.attachments|..] == Attached(email.attachments)
  {
    (if |email.links| > 1 then email.links[1..] else []) + Attached(email.attachments)
  }

  /** Attachments as documents: their content is always at hand. */
  function Attached(atts: seq<(string, Pdf)>): (r: seq<Document>)
    ensures |r| == |atts|
    ensures forall k :: 0 <= k < |r| ==> r[k] == Document(atts[k].0, Some(atts[k].1))
  {
    if atts == [] then []
    else [Document(atts[0].0, Some(atts[0].1))] + Attached(atts[1..])
  }

  function FirstPage(pdf: Pdf): Option<string> {
    if pdf.pages == [] then None else Some(pdf.pages[0])
  }

  /** The text the caption is read from: the first two pages. */
  function CaptionText(pdf: Pdf): string {
    if |pdf.pages| == 0 then "" else if |pdf.pages| == 1 then pdf.pages[0] else pdf.pages[0] + pdf.pages[1]
  }

  /** The caption's case number; a PDF with no pages has no caption. */
  function CaptionNumber(pdf: Pdf): Option<string> {
    if pdf.pages == [] then None else Subject.CaptionCaseNumber(CaptionText(pdf))
  }

  function CaptionDefendant(pdf: Pdf): Option<string> {
    if pdf.pages == [] then None else pdf.captionDefendant
  }

  /** The day of processing, a real date. */
  type Today = d: Date | IsValid(d) witness Date(2000, 1, 1)

  /** How one readable document is stored, given the case it is filed under. */
  type Filer = (Option<CaseInfo>, string, Pdf) -> Upload

  /** Where and under which name one readable document is stored. */
  function DocumentUpload(clientMap: Filing.ClientMap, ci: Option<CaseInfo>, title: string, pdf: Pdf, today: Today): Upload {
    var (t, sub) := Classifier.DetectDocumentType(FirstPage(pdf), title);
    var (folder, level) := Filing.DetermineFilingPath(clientMap, CaptionDefendant(pdf), ci, t, sub, title);
    var name := Filing.FileName(Filing.DatePrefix(PdfProcessor.ExtractEfilingDate(FirstPage(pdf)), today), title);
    Upload(folder, name, level)
  }

  function FilerFor(clientMap: Filing.ClientMap, today: Today): Filer {
    (ci, title, pdf) => DocumentUpload(clientMap, ci, title, pdf, today)
  }

  /** The case a document is filed under: the caption's case number is
      looked up only when the subject had none and no case is known yet. */
  function DocumentCase(lookup: Lookup, cn: Option<string>, ci: Option<CaseInfo>, pdf: Pdf): Option<CaseInfo> {
    var capNo := CaptionNumber(pdf);
    if cn.None? && capNo.Some? && ci.None? then lookup(capNo.value) else ci
  }

  /** How the known case evolves over one readable document. */
  type Step = (Option<CaseInfo>, Pdf) -> Option<CaseInfo>

  function DocumentStep(lookup: Lookup, cn: Option<string>): Step {
    (ci, pdf) => DocumentCase(lookup, cn, ci, pdf)
  }

  /** A step that never replaces a case already known. */
  ghost predicate KeepsKnown(step: Step) {
    forall ci: Option<CaseInfo>, pdf: Pdf :: ci.Some? ==> step(ci, pdf) == ci
  }

  /** A document step keeps a known case, and with a case number in the
      subject it keeps any case, even none. */
  lemma DocumentStepKeeps(lookup: Lookup, cn: Option<string>)
    ensures KeepsKnown(DocumentStep(lookup, cn))
    ensures cn.Some? ==> forall ci: Option<CaseInfo>, pdf: Pdf :: DocumentStep(lookup, cn)(ci, pdf) == ci
  {
  }

  /** The case known after the first `i` documents of an email. */
  function CaseAfter(step: Step, ci: Option<CaseInfo>, docs: seq<Document>, i: nat): Option<CaseInfo>
    requires i <= |docs|
  {
    if i == 0 then ci
    else
      var c := CaseAfter(step, ci, docs, i - 1);
      if docs[i - 1].content.None? then c else step(c, docs[i - 1].content.value)
  }

  /** The uploads of the loop over the first `i` documents of an email, one
      per document that could be fetched, each filed under the case known at
      that point. */
  function UploadsOf(step: Step, file: Filer, ci: Option<CaseInfo>, docs: seq<Document>, i: nat): seq<Upload>
    requires i <= |docs|
  {
    if i == 0 then []
    else
      var us := UploadsOf(step, file, ci, docs, i - 1);
      var d := docs[i - 1];
      if d.content.None? then us
      else us + [file(CaseAfter(step, ci, docs, i), d.title, d.content.value)]
  }

  /** The number of documents among the first `i` that could be fetched. */
  function Fetched(docs: seq<Document>, i: nat): nat
    requires i <= |docs|
  {
    if i == 0 then 0 else Fetched(docs, i - 1) + (if docs[i - 1].content.Some? then 1 else 0)
  }

  /** Every fetched document is stored, and only those. */
  lemma {:induction false} OneUploadPerFetched(step: Step, file: Filer, ci: Option<CaseInfo>, docs: seq<Document>, i: nat)
    requires i <= |docs|
    ensures |UploadsOf(step, file, ci, docs, i)| == Fetched(docs, i)
  {
    if i > 0 {
      OneUploadPerFetched(step, file, ci, docs, i - 1);
    }
  }

  /** A case no step changes stays through any documents. */
  lemma {:induction false} FixedCase(step: Step, ci: Option<CaseInfo>, docs: seq<Document>, i: nat)
    requires i <= |docs| && forall pdf: Pdf :: step(ci, pdf) == ci
    ensures CaseAfter(step, ci, docs, i) == ci
  {
    if i > 0 {
      FixedCase(step, ci, docs, i - 1);
    }
  }

  /** Once a case is known, or when the subject carried a case number,
      every later document of the email is filed under the same case. */
  lemma CaseSticks(lookup: Lookup, cn: Option<string>, ci: Option<CaseInfo>, docs: seq<Document>, i: nat)
    requires i <= |docs| && (cn.Some? || ci.Some?)
    ensures CaseAfter(DocumentStep(lookup, cn), ci, docs, i) == ci
  {
    DocumentStepKeeps(lookup, cn);
    FixedCase(DocumentStep(lookup, cn), ci, docs, i);
  }

  /** Under a step that keeps a known case, a case known after the first
      `k` documents is the case after any longer prefix. */
  lemma {:induction false} KnownStays(step: Step, ci: Option<CaseInfo>, docs: seq<Document>, k: nat, i: nat)
    requires k <= i <= |docs| && KeepsKnown(step) && CaseAfter(step, ci, docs, k).Some?
    ensures CaseAfter(step, ci, docs, i) == CaseAfter(step, ci, docs, k)
  {
    if k < i {
      KnownStays(step, ci, docs, k, i - 1);
    }
  }

  /** A caption's case found in one PDF is reused by its later siblings. */
  lemma CaptionCaseReused(lookup: Lookup, cn: Option<string>, ci: Option<CaseInfo>, docs: seq<Document>, k: nat, i: nat)
    requires k <= i <= |docs| && CaseAfter(DocumentStep(lookup, cn), ci, docs, k).Some?
    ensures CaseAfter(DocumentStep(lookup, cn), ci, docs, i) == CaseAfter(DocumentStep(lookup, cn), ci, docs, k)
  {
    DocumentStepKeeps(lookup, cn);
    KnownStays(DocumentStep(lookup, cn), ci, docs, k, i);
  }

  /** One readable document: the caption lookup, if due, and the upload. */
  method FileOne(sp: SharePoint.SharePointClient, file: Filer,
                 cn: Option<string>, ci: Option<CaseInfo>, title: string, pdf: Pdf)
    returns (caseInfo: Option<CaseInfo>, upload: Upload)
    requires sp.Valid()
    modifies sp
    ensures sp.Valid() && sp.Index() == old(sp.Index()) && sp.sheet == old(sp.sheet)
    ensures caseInfo == DocumentCase(LookupIn(old(sp.Index()), sp.listing), cn, ci, pdf)
    ensures upload == file(caseInfo, title, pdf)
  {
    caseInfo := ci;
    var capNo := CaptionNumber(pdf);
    if cn.None? && capNo.Some? && ci.None? {
      caseInfo := sp.GetCaseByNumber(capNo.value);
    }
    upload := file(caseInfo, title, pdf);
  }

  /** The loop of `process_email` over the documents. */
  method FileDocuments(sp: SharePoint.SharePointClient, file: Filer,
                       cn: Option<string>, ci: Option<CaseInfo>, docs: seq<Document>)
    returns (caseInfo: Option<CaseInfo>, uploads: seq<Upload>, processed: nat)
    requires sp.Valid()
    modifies sp
    ensures sp.Valid() && sp.Index() == old(sp.Index()) && sp.sheet == old(sp.sheet)
    ensures caseInfo == CaseAfter(DocumentStep(LookupIn(old(sp.Index()), sp.listing), cn), ci, docs, |docs|)
    ensures uploads == UploadsOf(DocumentStep(LookupIn(old(sp.Index()), sp.listing), cn), file, ci, docs, |docs|)
    ensures processed == Fetched(docs, |docs|)
  {
    ghost var index, sheet := sp.Index(), sp.sheet;
    ghost var step := DocumentStep(LookupIn(index, sp.listing), cn);
    caseInfo, uploads, processed := ci, [], 0;
    var i := 0;
    while i < |docs|
      invariant 0 <= i <= |docs|
      invariant sp.Valid() && sp.Index() == index && sp.sheet == sheet
      invariant FiledUpTo(step, file, ci, docs, i, caseInfo, uploads, processed)
    {
      caseInfo, uploads, processed := FileNext(sp, file, cn, ci, docs, i, caseInfo, uploads, processed, step);
      i := i + 1;
    }
  }

  /** The state of `FileDocuments` after the first `i` documents. */
  ghost predicate FiledUpTo(step: Step, file: Filer, ci: Option<CaseInfo>, docs: seq<Document>, i: nat,
                            caseInfo: Option<CaseInfo>, uploads: seq<Upload>, processed: nat)
  {
    && i <= |docs|
    && caseInfo == CaseAfter(step, ci, docs, i)
    && uploads == UploadsOf(step, file, ci, docs, i)
    && processed == Fetched(docs, i)
  }

  /** The body of the loop of `FileDocuments`: the document at `i`. */
  method FileNext(sp: SharePoint.SharePointClient, file: Filer, cn: Option<string>, ci: Option<CaseInfo>,
                  docs: seq<Document>, i: nat, caseInfo: Option<CaseInfo>, uploads: seq<Upload>, processed: nat,
                  ghost step: Step)
    returns (caseInfo': Option<CaseInfo>, uploads': seq<Upload>, processed': nat)
    requires sp.Valid() && i < |docs| && step == DocumentStep(LookupIn(sp.Index(), sp.listing), cn)
    requires FiledUpTo(step, file, ci, docs, i, caseInfo, uploads, processed)
    modifies sp
    ensures sp.Valid() && sp.Index() == old(sp.Index()) && sp.sheet == old(sp.sheet)
    ensures FiledUpTo(step, file, ci, docs, i + 1, caseInfo', uploads', processed')
  {
    DocumentAt(step, file, ci, docs, i);
    caseInfo', uploads', processed' := caseInfo, uploads, processed;
    if docs[i].content.Some? {
      var upload;
      caseInfo', upload := FileOne(sp, file, cn, caseInfo, docs[i].title, docs[i].content.value);
      uploads' := uploads + [upload];
      processed' := processed + 1;
    }
  }

  /** One more document of an email: fetched, it moves the case and adds an upload. */
  lemma DocumentAt(step: Step, file: Filer, ci: Option<CaseInfo>, docs: seq<Document>, i: nat)
    requires i < |docs|
    ensures var c := CaseAfter(step, ci, docs, i);
      var d := docs[i];
      if d.content.None? then
        CaseAfter(step, ci, docs, i + 1) == c && UploadsOf(step, file, ci, docs, i + 1) == UploadsOf(step, file, ci, docs, i)
        && Fetched(docs, i + 1) == Fetched(docs, i)
      else
        CaseAfter(step, ci, docs, i + 1) == step(c, d.content.value)
        && UploadsOf(step, file, ci, docs, i + 1) == UploadsOf(step, file, ci, docs, i) + [file(step(c, d.content.value), d.title, d.content.value)]
        && Fetched(docs, i + 1) == Fetched(docs, i) + 1
  {
  }

  // ---------------------------------------------------------------------
  // TrialOrdersAutomation
  // ---------------------------------------------------------------------

  /** The claim-number and party-name lookups of `process_email`. */
  method LookupFallbacks(sp: SharePoint.SharePointClient, subject: string) returns (ci: Option<CaseInfo>)
    requires sp.Valid()
    modifies sp
    ensures sp.Valid() && sp.Index() == old(sp.Index()) && sp.sheet == old(sp.sheet) && (old(sp.loaded) ==> sp.loaded)
    ensures ci == ByClaimOrParty(LookupIn(old(sp.Index()), sp.listing), sp.listing, subject)
  {
    ghost var index := sp.Index();
    ci := None;
    var claim := Subject.ExtractClaimNumber(subject);
    if claim.Some? {
      ci := sp.GetCaseByNumber(claim.value);
    }
    assert sp.Index() == index;
    if ci.None? {
      ci := PartiesFallback(sp.listing, Subject.ExtractParties(subject));
    }
  }

  /** The plaintiff's surname, then the defendant. */
  function PartiesMatch(listing: Listing, parties: Option<(string, string)>): Option<CaseInfo> {
    match parties
    case Some((p, d)) =>
      var byPlaintiff := PartyMatch(listing, p);
      if byPlaintiff.Some? then byPlaintiff else PartyMatch(listing, d)
    case None => None
  }

  /** The party-name lookups of `process_email`. */
  method PartiesFallback(listing: Listing, parties: Option<(string, string)>) returns (ci: Option<CaseInfo>)
    ensures ci == PartiesMatch(listing, parties)
  {
    ci := None;
    if parties.Some? {
      ci := FindCaseByPartyName(listing, parties.value.0);
      if ci.None? {
        ci := FindCaseByPartyName(listing, parties.value.1);
      }
    }
  }

  /** The lookup of the subject's own case number. */
  method SubjectLookup(sp: SharePoint.SharePointClient, cn: Option<string>) returns (found: Option<CaseInfo>)
    requires sp.Valid()
    modifies sp
    ensures sp.Valid() && sp.Index() == old(sp.Index()) && sp.sheet == old(sp.sheet)
    ensures (cn.Some? || old(sp.loaded)) ==> sp.loaded
    ensures found == BySubject(LookupIn(old(sp.Index()), sp.listing), cn)
  {
    found := None;
    if cn.Some? {
      found := sp.GetCaseByNumber(cn.value);
    }
  }

  /** The subject's case number, then the fallbacks, then the row to create. */
  method ResolveCase(sp: SharePoint.SharePointClient, clientMap: Filing.ClientMap, defaultClient: string, subject: string)
    returns (r: Resolution)
    requires sp.Valid()
    modifies sp
    ensures sp.Valid() && sp.Index() == old(sp.Index()) && sp.sheet == old(sp.sheet)
    ensures r.NeedsRow? ==> sp.loaded
    ensures r == ResolveSubject(LookupIn(old(sp.Index()), sp.listing), sp.listing, clientMap, defaultClient, subject)
  {
    ghost var lookup := LookupIn(sp.Index(), sp.listing);
    var cn := SubjectCaseNumber(subject);
    var found := SubjectLookup(sp, cn);
    assert found == BySubject(lookup, cn);
    if found.None? {
      found := LookupFallbacks(sp, subject);
      assert found == ByClaimOrParty(lookup, sp.listing, subject);
    }
    assert found == FoundFor(lookup, sp.listing, subject, cn);
    if found.None? && cn.Some? {
      r := NewCase(clientMap, defaultClient, subject, cn.value);
    } else {
      r := Found(found);
    }
  }

  /** The case a resolution files under: the one found, or the synthetic
      one of a row about to be created. */
  function CaseOf(r: Resolution): Option<CaseInfo> {
    if r.Found? then r.info else Some(SyntheticCase(r.caseNumber, r.client, r.style))
  }

  /** The registry sheet once a resolution is settled: an unmatched case
      number appends its row, when there is a sheet to append to. */
  function WithCaseRow(sheet: Option<SharePoint.Sheet>, r: Resolution): Option<SharePoint.Sheet> {
    if r.NeedsRow? && sheet.Some? then
      Some(SharePoint.Sheet(sheet.value.headers,
        sheet.value.rows + [SharePoint.NewRow(sheet.value.headers, NewCaseData(r.caseNumber, r.client, r.style))]))
    else sheet
  }

  /** The case resolution of `process_email` and, for an unknown case
      number, the creation of its registry row; `ready` is false only when
      that row cannot be written. */
  method SettleCase(sp: SharePoint.SharePointClient, clientMap: Filing.ClientMap, defaultClient: string, subject: string)
    returns (caseInfo: Option<CaseInfo>, ready: bool)
    requires sp.Valid()
    modifies sp
    ensures sp.Valid() && sp.Index() == old(sp.Index())
    ensures caseInfo == CaseOf(ResolveSubject(LookupIn(old(sp.Index()), sp.listing), sp.listing, clientMap, defaultClient, subject))
    ensures ready <==>
      !(ResolveSubject(LookupIn(old(sp.Index()), sp.listing), sp.listing, clientMap, defaultClient, subject).NeedsRow? && old(sp.sheet).None?)
    ensures ResolveSubject(LookupIn(old(sp.Index()), sp.listing), sp.listing, clientMap, defaultClient, subject).Found? || !ready ==>
      sp.sheet == old(sp.sheet)
    ensures sp.sheet == WithCaseRow(old(sp.sheet), ResolveSubject(LookupIn(old(sp.Index()), sp.listing), sp.listing, clientMap, defaultClient, subject))
  {
    var res := ResolveCase(sp, clientMap, defaultClient, subject);
    caseInfo := CaseOf(res);
    ready := true;
    if res.NeedsRow? {
      ready := sp.CreateCaseRow(NewCaseData(res.caseNumber, res.client, res.style));
    }
  }

  class TrialOrdersAutomation {
    const sp: SharePoint.SharePointClient
    const clientMap: Filing.ClientMap
    const defaultClient: string
    /** The documents stored so far. */
    var uploads: seq<Upload>
    /** The ids of the emails marked as read. */
    var markedRead: seq<string>

    constructor (sp: SharePoint.SharePointClient, clientMap: Filing.ClientMap, defaultClient: string)
      ensures this.sp == sp && this.clientMap == clientMap && this.defaultClient == defaultClient
      ensures uploads == [] && markedRead == []
    {
      this.sp := sp;
      this.clientMap := clientMap;
      this.defaultClient := defaultClient;
      uploads := [];
      markedRead := [];
    }

    /** The case resolution `process_email` starts from, on the registry
        index as it is when the email arrives. */
    ghost function ResolutionOf(email: Email): Resolution
      reads this, sp
    {
      ResolveSubject(LookupIn(sp.Index(), sp.listing), sp.listing, clientMap, defaultClient, email.subject)
    }

    /** `process_email`. `today` is the day of processing; the email's age
        has been measured against it. */
    method ProcessEmail(email: Email, today: Today) returns (ok: bool)
      requires sp.Valid()
      modifies this, sp
      ensures sp.Valid() && sp.Index() == old(sp.Index())
      ensures email.ageDays.Some? && email.ageDays.value > 7 ==>
        !ok && uploads == old(uploads) && markedRead == old(markedRead) && sp.sheet == old(sp.sheet)
      ensures old(ResolutionOf(email)).Found? ==> sp.sheet == old(sp.sheet)
      ensures !(email.ageDays.Some? && email.ageDays.value > 7) ==> sp.sheet == WithCaseRow(old(sp.sheet), old(ResolutionOf(email)))
      ensures ok ==> !(email.ageDays.Some? && email.ageDays.value > 7) && Documents(email) != []
      ensures !ok ==> uploads == old(uploads) && markedRead == old(markedRead)
      ensures ok <==>
        !(email.ageDays.Some? && email.ageDays.value > 7)
        && !(old(ResolutionOf(email)).NeedsRow? && old(sp.sheet).None?)
        && Documents(email) != []
      ensures ok ==> markedRead == old(markedRead) + [email.id]
      ensures ok ==>
        uploads == old(uploads) + UploadsOf(DocumentStep(LookupIn(old(sp.Index()), sp.listing), SubjectCaseNumber(email.subject)),
                                            FilerFor(clientMap, today), CaseOf(old(ResolutionOf(email))), Documents(email), |Documents(email)|)
    {
      if email.ageDays.Some? && email.ageDays.value > 7 {
        return false;
      }
      var cn := SubjectCaseNumber(email.subject);
      var caseInfo, ready := SettleCase(sp, clientMap, defaultClient, email.subject);
      if !ready {
        return false;
      }
      var docs := Documents(email);
      if docs == [] {
        return false;
      }
      var filed, stored, processed := FileDocuments(sp, FilerFor(clientMap, today), cn, caseInfo, docs);
      uploads := uploads + stored;
      markedRead := markedRead + [email.id];
      ok := true;
    }
  }
}
