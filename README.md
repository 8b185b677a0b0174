# Trial-orders filing pipeline, modelled in Dafny

This project models the core of `automation.py`, a court-filing pipeline for a
law office. The pipeline reads court-service emails and files every PDF they
carry into the right matter folder. For each email it:

- finds the case the email is about by trying, in order:
  - the subject's case number;
  - a claim or file number;
  - the plaintiff's surname and then the defendant, each matched uniquely
    against the names of the matter folders;
  - a new registry row, when an unknown case number is all there is;
- gathers the email's documents (the body's download links after the first,
  then the direct attachments);
- for each document:
  - reads the caption's case number from the first two pages;
  - classifies the document by its first page and its title;
  - picks a folder on a four-tier ladder (Unknown, client Unsorted, matter
    Unsorted, the document type's subfolder);
  - names the file after the e-filing stamp, or after today's date;
- marks the email as read.

The registry is the "Lookup Table 2" sheet of the trial-tracker workbook. The
`SharePointClient` caches it, together with the folder listing, on first use.
The client also appends rows to the sheet and records trial-order dates in
it. The regex extractor of `PDFProcessor` normalises dates that the PDF
layout split across lines, then reads the trial period and the calendar call.

The model is organised by modules:

| module | file | what it holds |
|---|---|---|
| `Text` | text.dfy | Python's `\s`, `\d`, `\w`, `upper()`, `strip()`, `split()`, `in` and `re.search`, on ASCII |
| `Dates` | dates.dfy | `datetime.strptime` for `%m?%d?%Y`, and `strftime` for `%Y-%m-%d` and `%Y.%m.%d` |
| `PdfProcessor` | pdf_processor.dfy | date normalisation, trial dates, e-filing date |
| `Classifier` | classifier.dfy | `detect_document_type` |
| `Subject` | subject.dfy | the subject-line patterns and the caption case-number patterns |
| `SharePoint` | sharepoint.dfy | the registry sheet, the caches (a class), the lookups, the row writes, `parse_assignment_email` |
| `Filing` | filing.dfy | `sanitize_filename`, the defendant-to-client mapping, the filing ladder, the file name |
| `Automation` | automation.dfy | `find_case_by_party_name`, the subject's fallback chain, `process_email` (a class) |

Each regular expression is a function on the suffix of the text at a start
position (`...Head`), and `Text.FindFirst` turns it into `re.search`. Where a
pattern could backtrack, the doc comment says why the match is unique or which
end the lazy group takes.

Four behaviours of the code that are easy to miss:

- `detect_document_type` recognises trial orders (UTO, CMO) from the first
  page's text only; the title never makes a document a trial order
  (automation.py:1053-1056).
- Documents are filed in the subfolders "09 Orders", "02 Pleadings",
  "03 Discovery" and "04 Depositions" (automation.py:1052-1073).
- `create_case_row` appends to the sheet but does not add the row to the
  in-memory case index. Once the caches are loaded, later lookups in the same
  run do not see it (automation.py:463-513).
- `create_trial_order_record` always overwrites the Order Date cell with the
  day of processing (automation.py:555-560).

## Model

| member | source | states |
|---|---|---|
| Text.UpperStr | automation.py:1049-1050 | upper-casing keeps the length and maps each position by itself |
| Text.Strip | automation.py:931 | `strip()` gives the longest infix with no whitespace at either end, with only whitespace around it |
| Text.FindFirst | automation.py:929 | `re.search` reports the leftmost start where the pattern matches; no earlier start matches; no match means no start matches |
| Text.AfterFirst | automation.py:242 | `split(" - ", 1)[1]` exists exactly when `" - "` occurs, and is the text after its earliest occurrence |
| Text.Words | automation.py:255 | `split()` yields non-empty words without whitespace |
| Text.WordsAreRuns | automation.py:255 | the words of `split()` are the maximal whitespace-free runs of the text, in order: the text is the words separated by non-empty whitespace gaps, with possibly empty gaps at the two ends |
| Text.FindFirstIs | automation.py:929 | when a pattern matches at `i` and at no earlier start, `re.search` reports the match at `i` |
| Text.FindNone | automation.py:929 | `re.search` finds nothing exactly when the pattern matches at no start |
| Dates.Strptime | automation.py:656 | `strptime` yields only real calendar dates |
| Dates.StrptimeShaped | automation.py:652-659 | a captured `MM-DD-YYYY` parses exactly when it names a real date |
| Dates.ConvertShaped | automation.py:652-659 | a real date is re-emitted as `YYYY-MM-DD` with the same digits; any other text passes through unchanged |
| Dates.StrptimeRoundTrip | automation.py:656-657 | every real date survives printing as zero-padded `MM-DD-YYYY` and parsing back |
| Dates.ConvertExampleValid | automation.py:652-657 | "09-16-2024" is stored as "2024-09-16" |
| Dates.ConvertExampleInvalid | automation.py:658-659 | "13-45-2024" is passed through, not dropped |
| Dates.StrptimeFields | automation.py:704-709 | a one- or two-digit month and day and a four-digit year parse under `%m<sep>%d<sep>%Y` exactly when both separators are `sep` and the date is real, and then give `Date(year, month, day)` of those digits |
| PdfProcessor.SplitDateHead | automation.py:613 | a split-date match spans at least 11 characters: `MM-DD-` at its head and four digits at its end |
| PdfProcessor.YearAfterGap | automation.py:613 | after the line-break gap come the year, or AM/PM, more whitespace and the year |
| PdfProcessor.NormalizeShrinks | automation.py:613 | normalising never lengthens the text |
| PdfProcessor.NormalizeNoBreak | automation.py:613 | text without a line break is left unchanged |
| PdfProcessor.NormalizeRejoins | automation.py:611-613 | `MM-DD-`, a gap with a line break, an optional AM/PM and `YYYY` become `MM-DD-YYYY`; the rest is normalised on its own |
| PdfProcessor.NormalizeStep | automation.py:613 | each match is replaced by `MM-DD-YYYY`, and scanning resumes after it |
| PdfProcessor.SplitHeadMeridiem | automation.py:613 | with AM or PM in the gap, the match ends after the year |
| PdfProcessor.NormalizeExample | automation.py:611-612 | "09-16-\nAM\n2024" becomes "09-16-2024" |
| PdfProcessor.TrialPeriodHead | automation.py:631 | the trial-period pattern captures two `\d{2}-\d{2}-\d{4}` dates |
| PdfProcessor.CalendarCallHead | automation.py:638 | the calendar-call pattern captures one `\d{2}-\d{2}-\d{4}` date |
| PdfProcessor.LazyGap | automation.py:646 | the lazy `[\s\S]{0,200}?` takes the shortest gap of at most 200 after which a date and a time follow |
| PdfProcessor.CalendarFallbackHead | automation.py:646 | the held/on pattern captures a `\d{2}-\d{2}-\d{4}` date |
| PdfProcessor.ConvertShapedStored | automation.py:652-663 | every converted capture is either `YYYY-MM-DD` or an unparsed `MM-DD-YYYY` |
| PdfProcessor.ExtractWithRegex | automation.py:595-675 | no text, or no date found, gives None; otherwise: the UTO/CMO tag comes from the text; trial start and end come from one trial-period match; the calendar call comes from its pattern, else from the held/on fallback; every date is converted |
| PdfProcessor.ExtractTrialDates | automation.py:719-734 | the regex result when it found a date; otherwise all dates None and the tag Other |
| PdfProcessor.EfDateHead | automation.py:692-694 | the capture is a prefix of the text after the label, of the form `\d{1,2}[-/]\d{1,2}[-/]\d{4}` |
| PdfProcessor.EfDateHeadFields | automation.py:692-694 | every text of that form is captured in full, whatever follows it |
| PdfProcessor.ParseEfiling | automation.py:704-709 | the first format of `%m/%d/%Y`, `%m-%d-%Y` that parses yields a real date |
| PdfProcessor.EfilingFields | automation.py:702-709 | a capture `m s1 d s2 y` gives `Date(y, m, d)` of its digits exactly when the two separators agree and the date is real; otherwise nothing |
| PdfProcessor.PatternDate | automation.py:697-700 | a label pattern yields the parse of its leftmost capture, and nothing when it matches nowhere |
| PdfProcessor.FiledAtHead | automation.py:690-711 | a first page opening with `Filed: ` and a real `MM<sep>DD<sep>YYYY` date is filed under `YYYY.MM.DD` of the same digits |
| PdfProcessor.EfilingExample | automation.py:693 | "Filed: 01/15/2026" gives "2026.01.15" |
| PdfProcessor.FirstDate | automation.py:697-711 | the first pattern whose capture parses decides; None only when none does |
| PdfProcessor.PatternDates | automation.py:697-699 | what each label pattern yields, in order |
| PdfProcessor.EfilingFrom | automation.py:697-713 | the result is `YYYY.MM.DD` of the first pattern's parsed date, every earlier pattern having failed; None when all fail |
| PdfProcessor.ExtractEfilingDate | automation.py:677-717 | a PDF without pages has no date; a result is a zero-padded `YYYY.MM.DD` of a real date; None exactly when no label pattern yields a date |
| Classifier.FirstFiring | automation.py:1052-1069 | the outcome of the first rule that fires, whichever it is; Other/"03 Discovery" when none fires |
| Classifier.FiringOutcome | automation.py:1052-1069 | the outcome is the default or that of one of the rules |
| Classifier.DetectDocumentType | automation.py:1032-1073 | no pages gives Unknown/"03 Discovery"; otherwise the rule table is tried in order on the upper-cased first page and title; the subfolder is never empty; UTO exactly when the first page says "UNIFORM TRIAL ORDER", CMO exactly when it says "CASE MANAGEMENT ORDER" and not that, so the title never makes a trial order |
| Classifier.FiringChain | automation.py:1053-1066 | each rule fires exactly on the keywords the if-chain tests |
| Classifier.FirstOfSix | automation.py:1053-1069 | the six-rule chain written out as nested ifs |
| Classifier.AnswerBeatsInterrogatories | automation.py:1059-1062 | a title with both "ANSWER" and "INTERROGATOR" is a pleading: first match wins |
| Classifier.SubfolderIsKnown | automation.py:1036-1073 | every outcome is one of the four subfolders |
| Classifier.ReadableHasType | automation.py:1049-1069 | a PDF with pages never gets type Unknown |
| Subject.TokenAfterLabel | automation.py:929 | after "CASE NUMBER", `\s*:?\s*(\S+)` captures a word exactly when non-whitespace follows |
| Subject.CaseNumberHead | automation.py:929 | the label pattern matches exactly at a labelled token |
| Subject.DropTrailingNonWord | automation.py:933 | only the trailing run of non-word characters is removed |
| Subject.CleanToken | automation.py:931-933 | the cleaned token is a prefix of the capture, ending in a word character or empty |
| Subject.CleanTokenDrops | automation.py:933 | everything the cleaning drops from a word is a non-word character, so only the trailing non-word run goes |
| Subject.ExtractCaseNumberFromSubject | automation.py:921-935 | a number exactly when a labelled token occurs; it has no whitespace and ends in a word character or is empty |
| Subject.CaseNumberIsFirst | automation.py:929-934 | the number is the cleaned token of the leftmost labelled match |
| Subject.CaseNumberForms | automation.py:922-935 | "CASE NUMBER x", "CASE NUMBER: x" and "CASE NUMBER:x", with trailing punctuation, all yield x |
| Subject.ExtractAtHead | automation.py:929-934 | a match at the start of the subject decides the result |
| Subject.ColonOnly | automation.py:929-934 | "CASE NUMBER:" followed only by whitespace yields the empty number |
| Subject.ClaimHead | automation.py:1277 | the claim/file pattern captures a non-empty run of digits and dashes |
| Subject.ExtractClaimNumber | automation.py:1277-1279 | None exactly when the pattern matches at no position; otherwise the capture of the leftmost match, digits and dashes |
| Subject.ClaimForm | automation.py:1276-1280 | "Claim #: 2023-632391 ..." and the other keyword spellings yield the number |
| Subject.Defendant | automation.py:1286 | the lazy defendant group starts with a letter and holds letters, whitespace and slashes |
| Subject.VersusEnd | automation.py:1286 | the versus marker starts and ends with whitespace |
| Subject.PartyHead | automation.py:1286 | the surname is a run of at least two letters at the match's start; the defendant starts with a letter |
| Subject.ExtractParties | automation.py:1286-1289 | None exactly when the party pattern matches nowhere; otherwise the leftmost match's surname and stripped defendant, a surname of letters and a defendant starting with a letter |
| Subject.StripParties | automation.py:1288-1289 | stripping keeps the surname and the defendant's first letter |
| Subject.PartiesAtHead | automation.py:1286-1289 | a match at the start of the subject decides the result |
| Subject.LastFirstForm | automation.py:1284-1289 | "LAST, FIRST v PARTY - ..." names LAST as plaintiff and PARTY as defendant, for v, v., vs and vs. |
| Subject.StyleAfterLabel | automation.py:1308 | the style capture is non-empty and has no comma |
| Subject.SubjectStyle | automation.py:1307-1309 | the stripped capture of the leftmost match, with no comma; "Unknown" when the pattern matches nowhere |
| Subject.StripStyle | automation.py:1309 | the stripped style is `strip()` of the capture and still has no comma |
| Subject.StyleForm | automation.py:1307-1309 | "CASE NUMBER x STYLE, ..." yields STYLE |
| Subject.TokenAfterSpace | automation.py:765-766 | `\s*([A-Z0-9]+)` captures upper-case letters and digits |
| Subject.CaseNoHead | automation.py:765 | "Case No." captures upper-case letters and digits |
| Subject.CaseHashHead | automation.py:766 | "Case #" captures upper-case letters and digits |
| Subject.UniformHead | automation.py:767 | a Florida uniform case number has at least ten upper-case letters and digits |
| Subject.CaptionCaseNumber | automation.py:763-774 | the first of the three patterns that matches anywhere decides, with the capture of its leftmost match; None exactly when none matches |
| Subject.CaseNoFirst | automation.py:764-774 | a "Case No." anywhere wins over a uniform number, even an earlier one |
| SharePoint.Column | automation.py:209-213 | `headers.index(name)` is the first column with that header; None exactly when there is none |
| SharePoint.IndexColumnsOf | automation.py:209-213 | the index is built exactly when "Case No.", "Client" and "Matter" are all headers, from their first columns |
| SharePoint.RowEntry | automation.py:215-226 | a row is indexed under its stripped case number exactly when that and the client are present; Matter defaults to the case number; Style is the Style cell when present, else "Unknown" |
| SharePoint.RowEntryKeepsStyle | automation.py:219 | the index keeps the Style cell from any Style column, the first included |
| SharePoint.StyleInFirstColumn | automation.py:219 | as written, a Style column at index 0 is ignored: the style is "Unknown" |
| SharePoint.StyleElsewhere | automation.py:219 | the written and the corrected reading agree when Style is not the first column |
| SharePoint.LastWinsKeys | automation.py:221-226 | a key is in the index exactly when some row carries it |
| SharePoint.LastWinsValue | automation.py:221-226 | a key maps to the record of the last row that carries it |
| SharePoint.CaseIndexLastWins | automation.py:215-226 | a case number is indexed exactly when some row carries it, with the record of the last such row |
| SharePoint.CaseIndexStep | automation.py:215-226 | one more row updates the index built from the rows before it |
| SharePoint.BuildCaseIndex | automation.py:201-228 | the row pass builds the case index of the sheet; no sheet, or a missing column, gives an empty index |
| SharePoint.NameStyle | automation.py:242 | a folder's style is the text after the earliest " - " in its name, else the fallback |
| SharePoint.AddWordsSound | automation.py:255-258 | appending a folder under its words keeps the party index sound |
| SharePoint.PartyIndexIsSound | automation.py:253-258 | every party-index key has at least three characters and is a word of each listed folder's upper-cased style |
| SharePoint.IndexWords | automation.py:255-258 | the word loop appends the folder under each word of three or more characters |
| SharePoint.BuildFolderIndexes | automation.py:230-260 | the folder pass builds the folder index and the party index of the listing |
| SharePoint.SharePointClient.EnsureCachesLoaded | automation.py:194-265 | the caches are built once from the sheet and the listing; a second call changes nothing |
| SharePoint.SharePointClient.LookupCaseFromExcel | automation.py:267-278 | an exact-key lookup in the case index as loaded |
| SharePoint.FirstWhere | automation.py:345-346 | the first element that satisfies the test; None exactly when none does |
| SharePoint.FolderFor | automation.py:333-395 | with a registry hit: the case of the first folder, in listing order, of its client whose name starts with its matter, styled after the name or the registry; without one: the case of the first folder whose name contains the case number |
| SharePoint.CaseByNumber | automation.py:328-399 | a registry hit is found exactly when a folder of its client starts with its matter, and then as the first such folder; a miss is found exactly when a folder names the case number, and then as the first such folder |
| SharePoint.ScanFolders | automation.py:341-395 | the folder loops return what `FolderFor` specifies |
| SharePoint.HitHasNoFallback | automation.py:333-366 | a registry hit whose client has no matching folder fails, even when another folder names the case |
| SharePoint.SharePointClient.GetCaseByNumber | automation.py:328-399 | the lookup against the case index and the listing, leaving the sheet and the index unchanged |
| SharePoint.Put | automation.py:492-503 | a guarded write changes only its column, and only when the guard holds |
| SharePoint.NewRow | automation.py:489-503 | the new row is as wide as the header row |
| SharePoint.NewRowCells | automation.py:483-503 | each cell of the new row holds its column's value: Attorney always (default "EAZ"), the others only when truthy |
| SharePoint.BuildNewRow | automation.py:489-503 | the row buffer is filled as `NewRow` specifies |
| SharePoint.AppendedRowIsIndexed | automation.py:505 | a row appended with a case number and a client is found by a fresh index load, with that client and matter |
| SharePoint.SharePointClient.CreateCaseRow | automation.py:463-513 | without a sheet nothing is written and the result is false; otherwise the new row is appended and the caches are untouched |
| SharePoint.FirstRowOf | automation.py:549-552 | the first data row whose stripped Case No. is the stripped target |
| SharePoint.FindCaseRow | automation.py:549-553 | the row scan finds the first row of the case |
| SharePoint.UpdatedRowCells | automation.py:555-570 | Order Date is set to today; Calendar Call and Trial Date only when given; every other cell is kept |
| SharePoint.UpdateRow | automation.py:555-570 | the row is updated as `UpdatedRow` specifies |
| SharePoint.TrialOrderUpdate | automation.py:515-581 | without a sheet, a Case No. column or a row of the case, nothing changes; otherwise only the first row of the case is replaced |
| SharePoint.TrialOrderKeepsShape | automation.py:549-572 | the update keeps every row as wide as the header row |
| SharePoint.ApplyTrialOrder | automation.py:528-577 | the sheet is updated as `TrialOrderUpdate` specifies |
| SharePoint.SharePointClient.CreateTrialOrderRecord | automation.py:515-586 | the sheet becomes `TrialOrderUpdate` of the old one; the caches are untouched |
| SharePoint.ClaimTail | automation.py:439 | ` vs <defendant> (<claim>)` captures a non-empty claim without ")" |
| SharePoint.LazyStyle | automation.py:439 | the lazy style group ends at the first end after which the tail matches |
| SharePoint.StyleAndClaim | automation.py:439 | the style has no "(" and the claim no ")" |
| SharePoint.AssignmentHead | automation.py:439 | client and matter are digits; the style has no "(" and the claim no ")" |
| SharePoint.ParseAssignmentEmail | automation.py:433-461 | None exactly when the pattern matches nowhere; otherwise the leftmost match, with style and claim stripped |
| SharePoint.TailForm | automation.py:439 | " vs DEF (CLAIM)" yields CLAIM |
| SharePoint.AssignmentForm | automation.py:434-450 | "Our File no. C-M NAME vs DEF (CLAIM)" yields client C, matter M, style NAME and claim CLAIM, stripped |
| SharePoint.ParseLaid | automation.py:439-450 | a subject laid out as file number, name and tail parses to those parts |
| Filing.ReplaceInvalid | automation.py:1115-1116 | each refused character becomes "-", and every other character is kept |
| Filing.Sanitize | automation.py:1113-1117 | a sanitised name has no refused character and no whitespace at either end |
| Filing.SanitizeSubstitutes | automation.py:1113-1117 | a name with no whitespace at its ends is only substituted |
| Filing.SanitizeKeepsClean | automation.py:1113-1117 | a clean, stripped name is kept as it is |
| Filing.SanitizeIdempotent | automation.py:1113-1117 | sanitising twice is sanitising once |
| Filing.ClientFromDefendant | automation.py:850-860 | the client of the first mapping key found case-insensitively in the text; None exactly when no key occurs |
| Filing.ClientFromSubject | automation.py:862-864 | the client of the first matching key when it is non-empty; the default when no key matches or that client is empty |
| Filing.FirstKeyWins | automation.py:855-857 | an earlier key wins even when a later one matches too |
| Filing.FilingClient | automation.py:885-891 | the case's client when it has one; else, for a non-empty caption defendant, its mapped client when that is non-empty, and none otherwise; an empty client counts as none |
| Filing.DetermineFilingPath | automation.py:866-919 | each of the four tiers exactly under its condition (no known client; no matter; no type or subfolder; everything), with its folder |
| Filing.FiledUnderCaseFolder | automation.py:902-919 | a case with a known client and matter files inside its `client\matter` folder |
| Filing.ReadableIsSorted | automation.py:915-919 | with a known client and matter, a readable document reaches the Sorted tier |
| Filing.UnreadableIsNotSorted | automation.py:1045-1046 | a document without pages never reaches the Sorted tier |
| Filing.DatePrefix | automation.py:1411-1412 | the file name starts with the e-filing date, else with today's `YYYY.MM.DD` |
| Filing.DottedIsClean | automation.py:707 | a dotted date has no refused character |
| Filing.FileNameIsClean | automation.py:1411-1418 | a stored file name never holds a refused character |
| Automation.PartyCase | automation.py:817-832 | a party match records the folder, its style and no case number |
| Automation.NoMatches | automation.py:834-837 | no candidate exactly when no folder names the party |
| Automation.OneMatch | automation.py:834-841 | one candidate exactly when one folder names the party, and it is that folder |
| Automation.PartyMatchIsUnique | automation.py:796-848 | a party shorter than three characters never matches; a match exists exactly when one folder names the party, and is that folder |
| Automation.Ambiguous | automation.py:842-844 | two folders naming the party give no match |
| Automation.CollectMatches | automation.py:805-832 | the folder loop collects every folder naming the party, in listing order |
| Automation.FindCaseByPartyName | automation.py:796-848 | the method returns the unique party match |
| Automation.SubjectCaseNumber | automation.py:1262-1271 | the subject's case number when it is non-empty; an empty one counts as none |
| Automation.SubjectNumberFirst | automation.py:1269-1275 | a found subject case number decides, and nothing else is consulted |
| Automation.PlaintiffBeforeDefendant | automation.py:1283-1296 | a unique surname match decides before the defendant is tried |
| Automation.NewRowOnlyForUnmatchedNumber | automation.py:1298-1319 | a row is created exactly for a subject case number that no lookup found, with the subject's client and style |
| Automation.SyntheticCase | automation.py:1324-1331 | the stand-in case uses the case number as its matter |
| Automation.NewRowIsFoundNextTime | automation.py:1313-1321 | after the row is created, a fresh index load finds the case under its number |
| Automation.SyntheticFolder | automation.py:1324-1331 | documents of a stand-in case are filed under "client\number - style" |
| Automation.Documents | automation.py:1341-1359 | document k is link k+1 for each link after the first, and the attachments follow, in order |
| Automation.Attached | automation.py:1356-1359 | every attachment is a document whose content is at hand |
| Automation.DocumentStepKeeps | automation.py:1386-1394 | a document never replaces a known case; with a subject case number it changes none |
| Automation.OneUploadPerFetched | automation.py:1368-1443 | one upload per document that could be fetched |
| Automation.FixedCase | automation.py:1386-1394 | a case that no step changes stays through all documents |
| Automation.CaseSticks | automation.py:1386-1394 | with a known case or a subject case number, every document is filed under the same case |
| Automation.KnownStays | automation.py:1393-1394 | once known, a case stays for every later document |
| Automation.CaptionCaseReused | automation.py:1393-1394 | a caption case found in one PDF is reused by its later siblings |
| Automation.FileOne | automation.py:1383-1422 | the caption lookup, if due, and the upload of one document |
| Automation.FileDocuments | automation.py:1367-1449 | the loop's uploads, its final case and its count, as the step functions specify |
| Automation.PartiesFallback | automation.py:1282-1296 | the plaintiff's surname, then the defendant |
| Automation.LookupFallbacks | automation.py:1274-1296 | the claim number, then the parties |
| Automation.SubjectLookup | automation.py:1269-1272 | the subject case number's lookup, when there is one |
| Automation.ResolveCase | automation.py:1261-1319 | the subject's fallback chain, up to the row it may create |
| Automation.SettleCase | automation.py:1298-1334 | the resolved case or the stand-in; not ready only when a row is needed and there is no sheet; the new sheet is the old one with the new case's row appended when a row is needed and there is a sheet, and unchanged otherwise |
| Automation.TrialOrdersAutomation.ProcessEmail | automation.py:1240-1457 | an email older than seven days is skipped with nothing changed; otherwise the sheet gains the new case's row when one is needed, false exactly when a needed row cannot be written or there is no document, on success each fetched document is uploaded under the case known at that point, and the email is marked read |

## Left out

- The email client (connecting, listing unread emails, `mark_as_read`) is not modelled. Marking as read is a log of email ids.
- Attachments and PDF links are not parsed from Outlook or from the body; an email carries its links and attachments as values.
- `download_pdf` is not modelled (network, test mode, size and magic-byte checks). A failed download is a document without content.
- `upload_file` is not modelled: stored documents are appended to an uploads log.
- PDF text extraction is not modelled: a PDF is its list of page texts. An unreadable or corrupt PDF is not modelled; a PDF without pages is.
- The caption's party and court patterns (automation.py:776-788) are not modelled. The caption's defendant is an input value, and plaintiff and court are never used.
- Workbook load and save, the workbook's existence check and the exception handlers are not modelled. A missing workbook or sheet is a sheet of `None`.
- Only directories are listed, in iteration order. The `.exists()` check on the client folder follows from the listing.
- `datetime.now()` is not modelled: today's date and the email's age in days are parameters.
- Configuration is not modelled: the defendant-to-client map and the default client are parameters.
- `run`, `main`, `lookup_case_from_excel_OLD`, `process_trial_order`, `process_regular_document`, `gui.py` and the check scripts are not part of this model.
- Printing is not modelled.
- Unicode is not modelled: `\s`, `\d`, `\w` and `upper()` are ASCII, with Latin-1 whitespace.
- Automation.TrialOrdersAutomation.ProcessEmail: the `extract_trial_dates` call for UTO and CMO documents (automation.py:1425-1441) is not modelled, because it only prints. A per-document exception other than a failed download is not modelled. `documents_processed` is computed but only printed.
- SharePoint.RowEntry: the index reads a Style column at index 0 like any other (the corrected reading of automation.py:219, see Findings); the reading as written is `SharePoint.StyleInFirstColumn`.
- Sheet cells are text or empty. `str()` of a numeric cell, and a numeric 0 counting as empty, are not modelled.
- SharePoint.SharePointClient.EnsureCachesLoaded: the folder and party caches are built but never read by the operations modelled here; only their construction is proved.

## Findings

| source | as written | input that shows it | evidently intended | confidence | as-written member | corrected member |
|---|---|---|---|---|---|---|
| automation.py:219 | `style_idx and row[style_idx]` treats a Style column at index 0 as absent | a sheet whose first header is "Style" and whose rows carry a style there | take the style whenever the Style column exists | not executed | SharePoint.StyleInFirstColumn | SharePoint.RowEntryKeepsStyle |

The model's case index is built with the corrected reading, `SharePoint.RowStyle`.
