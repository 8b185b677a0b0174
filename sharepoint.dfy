/** `SharePointClient`: the registry sheet ("Lookup Table 2" of the trial
    tracker workbook), the case folders it files into, the caches it builds
    over both on first use, and the row updates it makes to the sheet.
    Folders are given as the listing of (client folder, matter folder)
    names in iteration order; the sheet as its header cells and data rows. */
module SharePoint {
  import opened Text
  import opened Dates

  /** A cell's value as text (`str(value)`), or `None` when empty. */
  type Cell = Option<string>

  /** Python truthiness of a cell: present and not the empty string. */
  predicate Truthy(c: Cell) { c.Some? && c.value != "" }

  /** The sheet: header row, then data rows (spreadsheet row 2 onwards). */
  datatype Sheet = Sheet(headers: seq<Cell>, rows: seq<seq<Cell>>)

  /** Every row is as wide as the header row, as the workbook library
      presents them. */
  predicate Rectangular(sh: Sheet) {
    forall r :: 0 <= r < |sh.rows| ==> |sh.rows[r]| == |sh.headers|
  }

  function CellAt(row: seq<Cell>, k: nat): Cell {
    if k < |row| then row[k] else None
  }

  /** `headers.index(name)` when `name in headers`: the first such column. */
  function Column(headers: seq<Cell>, name: string): (r: Option<nat>)
    ensures r.Some? ==> r.value < |headers| && headers[r.value] == Some(name)
    ensures r.Some? ==> forall j :: 0 <= j < r.value ==> headers[j] != Some(name)
    ensures r.None? <==> forall j :: 0 <= j < |headers| ==> headers[j] != Some(name)
  {
    if headers == [] then None
    else if headers[0] == Some(name) then Some(0)
    else
      match Column(headers[1..], name)
      case Some(k) => Some(k + 1)
      case None => None
  }

  // ---------------------------------------------------------------------
  // The case index: case number -> client, matter, style
  // ---------------------------------------------------------------------

  datatype CaseRecord = CaseRecord(client: string, matter: string, style: string)

  datatype IndexColumns = IndexColumns(caseNo: nat, client: nat, matter: nat, style: Option<nat>)

  /** The index is built only when "Case No.", "Client" and "Matter" are all headers. */
  function IndexColumnsOf(headers: seq<Cell>): (r: Option<IndexColumns>)
    ensures r.Some? <==> Column(headers, "Case No.").Some? && Column(headers, "Client").Some? && Column(headers, "Matter").Some?
    ensures r.Some? ==> (r.value.caseNo == Column(headers, "Case No.").value && r.value.client == Column(headers, "Client").value
      && r.value.matter == Column(headers, "Matter").value && r.value.style == Column(headers, "Style"))
  {
    match (Column(headers, "Case No."), Column(headers, "Client"), Column(headers, "Matter"))
    case (Some(c), Some(cl), Some(m)) => Some(IndexColumns(c, cl, m, Column(headers, "Style")))
    case _ => None
  }

  /** The style cell as the source reads it, `if style_idx and row[style_idx]`:
      a Style header in the first column has index 0, which is falsy. */
  function RowStyleAsWritten(row: seq<Cell>, style: Option<nat>): string {
    if style.Some? && style.value != 0 && Truthy(CellAt(row, style.value)) then CellAt(row, style.value).value
    else "Unknown"
  }

  /** The style cell as intended: whenever there is a Style column. */
  function RowStyle(row: seq<Cell>, style: Option<nat>): string {
    if style.Some? && Truthy(CellAt(row, style.value)) then CellAt(row, style.value).value
    else "Unknown"
  }

  /** With the Style column first, the source's test discards every style. */
  lemma StyleInFirstColumn(row: seq<Cell>, style: string)
    requires |row| > 0 && row[0] == Some(style) && style != "" && style != "Unknown"
    ensures RowStyleAsWritten(row, Some(0)) == "Unknown"
    ensures RowStyle(row, Some(0)) == style
    ensures RowStyleAsWritten(row, Some(0)) != RowStyle(row, Some(0))
  {
  }

  /** The two readings agree whenever the Style column is not the first. */
  lemma StyleElsewhere(row: seq<Cell>, style: Option<nat>)
    requires style.None? || style.value != 0
    ensures RowStyleAsWritten(row, style) == RowStyle(row, style)
  {
  }

  /** What one data row contributes to the case index: the stripped case
      number as key, when it and the client are present; Matter defaults to
      the case number. */
  function RowEntry(row: seq<Cell>, cols: IndexColumns): (r: Option<(string, CaseRecord)>)
    ensures r.Some? ==> r.value.0 != [] && r.value.1.client != [] && r.value.1.matter != []
    ensures r.Some? ==> Truthy(CellAt(row, cols.caseNo)) && r.value.0 == Strip(CellAt(row, cols.caseNo).value)
    ensures r.Some? ==> Some(r.value.1.client) == CellAt(row, cols.client)
    ensures r.Some? ==> r.value.1.matter == if Truthy(CellAt(row, cols.matter)) then CellAt(row, cols.matter).value else r.value.0
    ensures r.None? <==> !Truthy(CellAt(row, cols.caseNo)) || Strip(CellAt(row, cols.caseNo).value) == [] || !Truthy(CellAt(row, cols.client))
    ensures r.Some? ==>
      r.value.1.style == (if cols.style.Some? && Truthy(CellAt(row, cols.style.value)) then CellAt(row, cols.style.value).value else "Unknown")
  {
    var c := CellAt(row, cols.caseNo);
    var cl := CellAt(row, cols.client);
    var m := CellAt(row, cols.matter);
    if !Truthy(c) then None
    else
      var key := Strip(c.value);
      if key == [] || !Truthy(cl) then None
      else Some((key, CaseRecord(cl.value, if Truthy(m) then m.value else key, RowStyle(row, cols.style))))
  }

  /** An indexed row keeps the style in its Style cell, wherever the Style
      column is, the first column included. */
  lemma RowEntryKeepsStyle(row: seq<Cell>, cols: IndexColumns, k: nat)
    requires RowEntry(row, cols).Some? && cols.style == Some(k) && Truthy(CellAt(row, k))
    ensures RowEntry(row, cols).value.1.style == CellAt(row, k).value
  {
  }

  predicate HasKey(row: seq<Cell>, cols: IndexColumns, k: string) {
    RowEntry(row, cols).Some? && RowEntry(row, cols).value.0 == k
  }

  /** A map built from optional entries in order, a later entry replacing
      an earlier one with the same key. */
  function LastWins<K, V>(entries: seq<Option<(K, V)>>): map<K, V>
    decreases |entries|
  {
    if entries == [] then map[]
    else
      var m := LastWins(entries[..|entries| - 1]);
      match entries[|entries| - 1]
      case Some((k, v)) => m[k := v]
      case None => m
  }

  predicate EntryHas<K(==), V>(e: Option<(K, V)>, k: K) {
    e.Some? && e.value.0 == k
  }

  /** A key is in the map exactly when some entry has it. */
  lemma {:induction false} LastWinsKeys<K, V>(entries: seq<Option<(K, V)>>, k: K)
    decreases |entries|
    ensures k in LastWins(entries) <==> exists r :: 0 <= r < |entries| && EntryHas(entries[r], k)
  {
    if entries != [] {
      var n := |entries| - 1;
      var init := entries[..n];
      LastWinsKeys(init, k);
      if EntryHas(entries[n], k) {
        assert k in LastWins(entries);
      } else {
        assert k in LastWins(entries) <==> k in LastWins(init);
        if r :| 0 <= r < |entries| && EntryHas(entries[r], k) {
          assert init[r] == entries[r];
        }
      }
    }
  }

  /** A key maps to the value of the last entry that has it. */
  lemma {:induction false} LastWinsValue<K, V>(entries: seq<Option<(K, V)>>, k: K)
    requires k in LastWins(entries)
    decreases |entries|
    ensures exists r :: (0 <= r < |entries| && entries[r] == Some((k, LastWins(entries)[k]))
      && forall r' :: r < r' < |entries| ==> !EntryHas(entries[r'], k))
  {
    var n := |entries| - 1;
    var init := entries[..n];
    if EntryHas(entries[n], k) {
      assert entries[n] == Some((k, LastWins(entries)[k]));
    } else {
      assert k in LastWins(init) && LastWins(init)[k] == LastWins(entries)[k];
      LastWinsValue(init, k);
      var r :| 0 <= r < n && init[r] == Some((k, LastWins(init)[k]))
        && forall r' :: r < r' < n ==> !EntryHas(init[r'], k);
      assert entries[r] == init[r];
      assert forall r' :: r < r' < |entries| ==> !EntryHas(entries[r'], k) by {
        forall r' | r < r' < |entries| ensures !EntryHas(entries[r'], k) {
          if r' < n {
            assert entries[r'] == init[r'];
          }
        }
      }
    }
  }

  function RowEntries(rows: seq<seq<Cell>>, cols: IndexColumns): (r: seq<Option<(string, CaseRecord)>>)
    ensures |r| == |rows|
  {
    seq(|rows|, i requires 0 <= i < |rows| => RowEntry(rows[i], cols))
  }

  /** The case index over some rows: each keyed row in turn, a later row
      replacing an earlier one with the same case number. */
  function CaseIndexOfRows(rows: seq<seq<Cell>>, cols: IndexColumns): map<string, CaseRecord> {
    LastWins(RowEntries(rows, cols))
  }

  function CaseIndexOf(sheet: Option<Sheet>): map<string, CaseRecord> {
    match sheet
    case None => map[]
    case Some(sh) =>
      match IndexColumnsOf(sh.headers)
      case None => map[]
      case Some(cols) => CaseIndexOfRows(sh.rows, cols)
  }

  /** A case number is indexed exactly when some row carries it, and then
      with the record of the last such row. */
  lemma CaseIndexLastWins(rows: seq<seq<Cell>>, cols: IndexColumns, k: string)
    ensures k in CaseIndexOfRows(rows, cols) <==> exists r :: 0 <= r < |rows| && HasKey(rows[r], cols, k)
    ensures k in CaseIndexOfRows(rows, cols) ==>
      exists r :: (0 <= r < |rows| && RowEntry(rows[r], cols) == Some((k, CaseIndexOfRows(rows, cols)[k]))
        && forall r' :: r < r' < |rows| ==> !HasKey(rows[r'], cols, k))
  {
    var es := RowEntries(rows, cols);
    LastWinsKeys(es, k);
    if k in CaseIndexOfRows(rows, cols) {
      LastWinsValue(es, k);
    }
    assert forall r :: 0 <= r < |rows| ==> (HasKey(rows[r], cols, k) <==> EntryHas(es[r], k));
  }

  // ---------------------------------------------------------------------
  // Folders: the folder index and the party index
  // ---------------------------------------------------------------------

  /** A matter folder, as the caches and the lookups describe it. */
  datatype FolderInfo = FolderInfo(client: string, matter: string, style: string, relativePath: string)

  /** A matter's style from its folder name: the text after the first " - ",
      or the fallback when the name has none. */
  function NameStyle(name: string, fallback: string): (r: string)
    ensures Contains(name, " - ") ==> exists i :: 0 <= i <= |name| - 3 && StartsWith(name[i..], " - ") && r == name[i + 3..]
    ensures !Contains(name, " - ") ==> r == fallback
    ensures forall i :: 0 <= i <= |name| && StartsWith(name[i..], " - ") && (forall j :: 0 <= j < i ==> !StartsWith(name[j..], " - "))
                        ==> r == name[i + 3..]
  {
    match AfterFirst(name, " - ")
    case Some(t) => t
    case None => fallback
  }

  /** Backslash-joined path of a matter folder, relative to the cases folder. */
  function RelativePath(client: string, matter: string): string {
    client + "\\" + matter
  }

  function FolderInfoOf(client: string, name: string): FolderInfo {
    FolderInfo(client, name, NameStyle(name, "Unknown"), RelativePath(client, name))
  }

  function FolderKey(client: string, name: string): string {
    client + "/" + name
  }

  function FolderIndexOf(listing: seq<(string, string)>): map<string, FolderInfo>
    decreases |listing|
  {
    if listing == [] then map[]
    else
      var (c, n) := listing[|listing| - 1];
      FolderIndexOf(listing[..|listing| - 1])[FolderKey(c, n) := FolderInfoOf(c, n)]
  }

  /** The words a folder is indexed under: the upper-cased words of its
      style, unless the style is "Unknown". */
  function PartyWords(info: FolderInfo): seq<string> {
    if info.style != "Unknown" then Words(UpperStr(info.style)) else []
  }

  /** Appends `info` under each word of three or more characters. */
  function AddWords(m: map<string, seq<FolderInfo>>, words: seq<string>, info: FolderInfo): map<string, seq<FolderInfo>>
    decreases |words|
  {
    if words == [] then m
    else
      var m' := AddWords(m, words[..|words| - 1], info);
      var w := words[|words| - 1];
      if |w| >= 3 then m'[w := (if w in m' then m'[w] else []) + [info]] else m'
  }

  function PartyIndexOf(listing: seq<(string, string)>): map<string, seq<FolderInfo>>
    decreases |listing|
  {
    if listing == [] then map[]
    else
      var (c, n) := listing[|listing| - 1];
      var info := FolderInfoOf(c, n);
      AddWords(PartyIndexOf(listing[..|listing| - 1]), PartyWords(info), info)
  }

  /** A party-index invariant: keys have at least three characters and every
      folder listed under a key has that key among its style's words. */
  predicate PartyIndexSound(m: map<string, seq<FolderInfo>>) {
    forall w :: w in m ==> |w| >= 3 && forall j :: 0 <= j < |m[w]| ==> w in PartyWords(m[w][j])
  }

  lemma {:induction false} AddWordsSound(m: map<string, seq<FolderInfo>>, words: seq<string>, info: FolderInfo)
    requires PartyIndexSound(m)
    requires forall k :: 0 <= k < |words| ==> words[k] in PartyWords(info)
    decreases |words|
    ensures PartyIndexSound(AddWords(m, words, info))
  {
    if words != [] {
      AddWordsSound(m, words[..|words| - 1], info);
      var w := words[|words| - 1];
      assert w in PartyWords(info);
      if |w| >= 3 {
        AppendSound(AddWords(m, words[..|words| - 1], info), w, info);
      }
    }
  }

  lemma AppendSound(m: map<string, seq<FolderInfo>>, w: string, info: FolderInfo)
    requires PartyIndexSound(m) && |w| >= 3 && w in PartyWords(info)
    ensures PartyIndexSound(m[w := (if w in m then m[w] else []) + [info]])
  {
    var l := (if w in m then m[w] else []) + [info];
    assert forall j :: 0 <= j < |l| ==> w in PartyWords(l[j]) by {
      forall j | 0 <= j < |l|
        ensures w in PartyWords(l[j])
      {
        if j < |l| - 1 {
          assert l[j] == m[w][j];
        }
      }
    }
  }

  lemma {:induction false} PartyIndexIsSound(listing: seq<(string, string)>)
    decreases |listing|
    ensures PartyIndexSound(PartyIndexOf(listing))
  {
    if listing != [] {
      var (c, n) := listing[|listing| - 1];
      var info := FolderInfoOf(c, n);
      PartyIndexIsSound(listing[..|listing| - 1]);
      AddWordsSound(PartyIndexOf(listing[..|listing| - 1]), PartyWords(info), info);
    }
  }

  // ---------------------------------------------------------------------
  // Case lookup by number
  // ---------------------------------------------------------------------

  /** A resolved case: the matter folder it is filed under and, when known,
      the case number it was found by. */
  datatype CaseInfo = CaseInfo(client: string, matter: string, style: string, caseNumber: Option<string>, relativePath: string)

  /** The first element satisfying `p`. */
  function FirstWhere<T>(xs: seq<T>, p: T -> bool): (r: Option<nat>)
    ensures r.Some? ==> r.value < |xs| && p(xs[r.value])
    ensures r.Some? ==> forall j :: 0 <= j < r.value ==> !p(xs[j])
    ensures r.None? <==> forall j :: 0 <= j < |xs| ==> !p(xs[j])
  {
    if xs == [] then None
    else if p(xs[0]) then Some(0)
    else
      match FirstWhere(xs[1..], p)
      case Some(k) => Some(k + 1)
      case None =>
        assert forall j :: 1 <= j < |xs| ==> xs[j] == xs[1..][j - 1];
        None
  }

  /** A folder of the registry's client whose name starts with its matter. */
  predicate InMatter(e: (string, string), rec: CaseRecord) {
    e.0 == rec.client && StartsWith(e.1, rec.matter)
  }

  /** A folder whose name contains the case number. */
  predicate NamesCase(e: (string, string), cn: string) {
    Contains(e.1, cn)
  }

  /** The `j`th folder is the first of the registry client's folders whose
      name starts with the matter. */
  predicate FirstInMatter(listing: seq<(string, string)>, rec: CaseRecord, j: nat) {
    j < |listing| && InMatter(listing[j], rec) && forall i :: 0 <= i < j ==> !InMatter(listing[i], rec)
  }

  /** The `j`th folder is the first whose name contains the case number. */
  predicate FirstNamingCase(listing: seq<(string, string)>, cn: string, j: nat) {
    j < |listing| && NamesCase(listing[j], cn) && forall i :: 0 <= i < j ==> !NamesCase(listing[i], cn)
  }

  /** The case found in folder `e`, its style read from the folder name. */
  function FolderCase(e: (string, string), fallback: string, cn: string): CaseInfo {
    CaseInfo(e.0, e.1, NameStyle(e.1, fallback), Some(cn), RelativePath(e.0, e.1))
  }

  /** The folder a case is filed in, given what the registry says about
      it: with a registry hit, the first folder of its client whose name
      starts with its matter; without one, the first folder whose name
      contains the case number. */
  function FolderFor(listing: seq<(string, string)>, hit: Option<CaseRecord>, cn: string): (r: Option<CaseInfo>)
    ensures r.Some? ==> exists j :: 0 <= j < |listing| && listing[j] == (r.value.client, r.value.matter)
    ensures r.Some? ==> r.value.caseNumber == Some(cn) && r.value.relativePath == RelativePath(r.value.client, r.value.matter)
    ensures hit.Some? ==>
      (r.Some? <==> exists j :: 0 <= j < |listing| && InMatter(listing[j], hit.value))
    ensures hit.Some? && r.Some? ==>
      r.value.client == hit.value.client && StartsWith(r.value.matter, hit.value.matter)
      && r.value.style == NameStyle(r.value.matter, hit.value.style)
    ensures hit.None? ==>
      (r.Some? <==> exists j :: 0 <= j < |listing| && NamesCase(listing[j], cn))
    ensures hit.None? && r.Some? ==> Contains(r.value.matter, cn) && r.value.style == NameStyle(r.value.matter, "Unknown")
    ensures hit.Some? ==> forall j: nat :: FirstInMatter(listing, hit.value, j) ==> r == Some(FolderCase(listing[j], hit.value.style, cn))
    ensures hit.None? ==> forall j: nat :: FirstNamingCase(listing, cn, j) ==> r == Some(FolderCase(listing[j], "Unknown", cn))
  {
    match hit
    case Some(rec) =>
      (match FirstWhere(listing, e => InMatter(e, rec))
       case Some(j) =>
         assert forall i: nat :: FirstInMatter(listing, rec, i) ==> i == j;
         Some(FolderCase(listing[j], rec.style, cn))
       case None => None)
    case None =>
      match FirstWhere(listing, e => NamesCase(e, cn))
      case Some(j) =>
        assert forall i: nat :: FirstNamingCase(listing, cn, i) ==> i == j;
        Some(FolderCase(listing[j], "Unknown", cn))
      case None => None
  }

  /** `get_case_by_number` against the case index and the listing. */
  function CaseByNumber(index: map<string, CaseRecord>, listing: seq<(string, string)>, cn: string): (r: Option<CaseInfo>)
    ensures cn in index ==>
      (r.Some? <==> exists j :: 0 <= j < |listing| && InMatter(listing[j], index[cn]))
    ensures cn in index && r.Some? ==>
      r.value.client == index[cn].client && StartsWith(r.value.matter, index[cn].matter)
      && r.value.style == NameStyle(r.value.matter, index[cn].style)
    ensures cn !in index ==>
      (r.Some? <==> exists j :: 0 <= j < |listing| && NamesCase(listing[j], cn))
    ensures cn !in index && r.Some? ==> Contains(r.value.matter, cn) && r.value.style == NameStyle(r.value.matter, "Unknown")
    ensures cn in index ==> forall j: nat :: FirstInMatter(listing, index[cn], j) ==> r == Some(FolderCase(listing[j], index[cn].style, cn))
    ensures cn !in index ==> forall j: nat :: FirstNamingCase(listing, cn, j) ==> r == Some(FolderCase(listing[j], "Unknown", cn))
  {
    FolderFor(listing, if cn in index then Some(index[cn]) else None, cn)
  }

  /** The folder scan of `get_case_by_number`. */
  method ScanFolders(listing: seq<(string, string)>, hit: Option<CaseRecord>, cn: string) returns (r: Option<CaseInfo>)
    ensures r == FolderFor(listing, hit, cn)
  {
    r := None;
    if hit.Some? {
      var rec := hit.value;
      var j := 0;
      while j < |listing|
        invariant 0 <= j <= |listing|
        invariant forall i :: 0 <= i < j ==> !InMatter(listing[i], rec)
      {
        if InMatter(listing[j], rec) {
          var (client, name) := listing[j];
          r := Some(CaseInfo(client, name, NameStyle(name, rec.style), Some(cn), RelativePath(client, name)));
          assert FirstWhere(listing, e => InMatter(e, rec)) == Some(j);
          return;
        }
        j := j + 1;
      }
      assert FirstWhere(listing, e => InMatter(e, rec)).None?;
    } else {
      var j := 0;
      while j < |listing|
        invariant 0 <= j <= |listing|
        invariant forall i :: 0 <= i < j ==> !NamesCase(listing[i], cn)
      {
        if NamesCase(listing[j], cn) {
          var (client, name) := listing[j];
          r := Some(CaseInfo(client, name, NameStyle(name, "Unknown"), Some(cn), RelativePath(client, name)));
          assert FirstWhere(listing, e => NamesCase(e, cn)) == Some(j);
          return;
        }
        j := j + 1;
      }
      assert FirstWhere(listing, e => NamesCase(e, cn)).None?;
    }
  }

  /** A registry hit never falls back to the folder-name search: when the
      client has no folder for the matter, the lookup fails even if another
      folder names the case. */
  lemma HitHasNoFallback(index: map<string, CaseRecord>, listing: seq<(string, string)>, cn: string, j: nat)
    requires cn in index
    requires forall i :: 0 <= i < |listing| ==> !InMatter(listing[i], index[cn])
    requires j < |listing| && NamesCase(listing[j], cn)
    ensures CaseByNumber(index, listing, cn).None?
  {
  }

  // ---------------------------------------------------------------------
  // New rows and row updates
  // ---------------------------------------------------------------------

  /** The values `create_case_row` receives. `attorney` is `None` when the
      caller supplies no Attorney at all. */
  datatype CaseData = CaseData(
    attorney: Option<string>, client: Cell, matter: Cell, style: Cell, claimNo: Cell, caseNo: Cell)

  /** The cell a new row gets in column `k`: each known column is written
      at its first header, Attorney always (defaulting to "EAZ"), the others
      only when the value is truthy. */
  function NewCell(headers: seq<Cell>, data: CaseData, k: nat): Cell {
    if Column(headers, "Case No.") == Some(k) && Truthy(data.caseNo) then data.caseNo
    else if Column(headers, "Claim No.") == Some(k) && Truthy(data.claimNo) then data.claimNo
    else if Column(headers, "Style") == Some(k) && Truthy(data.style) then data.style
    else if Column(headers, "Matter") == Some(k) && Truthy(data.matter) then data.matter
    else if Column(headers, "Client") == Some(k) && Truthy(data.client) then data.client
    else if Column(headers, "Attorney") == Some(k) then Some(if data.attorney.Some? then data.attorney.value else "EAZ")
    else None
  }

  /** Writes `v` in column `col` of the row when `when` holds and the column exists. */
  function Put(row: seq<Cell>, col: Option<nat>, v: Cell, when: bool): (r: seq<Cell>)
    ensures |r| == |row|
    ensures forall k :: 0 <= k < |row| ==> r[k] == if when && col == Some(k) then v else row[k]
  {
    if when && col.Some? && col.value < |row| then row[col.value := v] else row
  }

  /** The row `create_case_row` appends: empty cells, then Attorney, Client,
      Matter, Style, Claim No. and Case No. written in that order. */
  function NewRow(headers: seq<Cell>, data: CaseData): (r: seq<Cell>)
    ensures |r| == |headers|
  {
    var r0 := seq(|headers|, _ => None);
    var r1 := Put(r0, Column(headers, "Attorney"), Some(if data.attorney.Some? then data.attorney.value else "EAZ"), true);
    var r2 := Put(r1, Column(headers, "Client"), data.client, Truthy(data.client));
    var r3 := Put(r2, Column(headers, "Matter"), data.matter, Truthy(data.matter));
    var r4 := Put(r3, Column(headers, "Style"), data.style, Truthy(data.style));
    var r5 := Put(r4, Column(headers, "Claim No."), data.claimNo, Truthy(data.claimNo));
    Put(r5, Column(headers, "Case No."), data.caseNo, Truthy(data.caseNo))
  }

  /** Each cell of the new row is the value meant for its column. */
  lemma NewRowCells(headers: seq<Cell>, data: CaseData)
    ensures forall k :: 0 <= k < |headers| ==> NewRow(headers, data)[k] == NewCell(headers, data, k)
  {
  }

  /** A row appended for a truthy case number and client is what a fresh
      index load finds under the stripped case number. */
  lemma AppendedRowIsIndexed(sh: Sheet, data: CaseData)
    requires IndexColumnsOf(sh.headers).Some?
    requires Truthy(data.caseNo) && Strip(data.caseNo.value) != [] && Truthy(data.client)
    ensures var cols := IndexColumnsOf(sh.headers).value;
      var k := Strip(data.caseNo.value);
      var idx := CaseIndexOf(Some(Sheet(sh.headers, sh.rows + [NewRow(sh.headers, data)])));
      k in idx && idx[k].client == data.client.value
      && idx[k].matter == (if Truthy(data.matter) then data.matter.value else k)
  {
    var cols := IndexColumnsOf(sh.headers).value;
    var row := NewRow(sh.headers, data);
    NewRowKeyed(sh.headers, data);
    LastRowWins(sh, row);
  }

  /** The new row is keyed by its stripped case number, with its client and matter. */
  lemma NewRowKeyed(headers: seq<Cell>, data: CaseData)
    requires IndexColumnsOf(headers).Some?
    requires Truthy(data.caseNo) && Strip(data.caseNo.value) != [] && Truthy(data.client)
    ensures var e := RowEntry(NewRow(headers, data), IndexColumnsOf(headers).value);
      e.Some? && e.value.0 == Strip(data.caseNo.value) && e.value.1.client == data.client.value
      && e.value.1.matter == (if Truthy(data.matter) then data.matter.value else Strip(data.caseNo.value))
  {
    var cols := IndexColumnsOf(headers).value;
    var row := NewRow(headers, data);
    NewRowCells(headers, data);
    assert CellAt(row, cols.caseNo) == data.caseNo;
    assert CellAt(row, cols.client) == data.client;
    assert CellAt(row, cols.matter) == (if Truthy(data.matter) then data.matter else None);
  }

  /** A keyed row appended last is what the index holds under its key. */
  lemma LastRowWins(sh: Sheet, row: seq<Cell>)
    requires IndexColumnsOf(sh.headers).Some? && RowEntry(row, IndexColumnsOf(sh.headers).value).Some?
    ensures var e := RowEntry(row, IndexColumnsOf(sh.headers).value).value;
      var idx := CaseIndexOf(Some(Sheet(sh.headers, sh.rows + [row])));
      e.0 in idx && idx[e.0] == e.1
  {
    var cols := IndexColumnsOf(sh.headers).value;
    var es := RowEntries(sh.rows + [row], cols);
    assert es[|es| - 1] == RowEntry(row, cols);
  }

  /** The trial-order fields `create_trial_order_record` writes. */
  datatype TrialRecord = TrialRecord(caseNumber: string, calendarCall: Cell, trialStart: Cell)

  /** A row whose Case No. cell, stripped, is the stripped target. */
  predicate RowIsCase(row: seq<Cell>, col: nat, cn: string) {
    Truthy(CellAt(row, col)) && Strip(CellAt(row, col).value) == Strip(cn)
  }

  /** `RowIsCase` as a test on rows. */
  function IsCaseRow(col: nat, cn: string): seq<Cell> -> bool {
    row => RowIsCase(row, col, cn)
  }

  /** The first data row of the case, when there is one. */

  function FirstRowOf(rows: seq<seq<Cell>>, col: nat, cn: string): (r: Option<nat>)
    ensures r.Some? ==> r.value < |rows| && RowIsCase(rows[r.value], col, cn)
    ensures r.Some? ==> forall j :: 0 <= j < r.value ==> !RowIsCase(rows[j], col, cn)
    ensures r.None? <==> forall j :: 0 <= j < |rows| ==> !RowIsCase(rows[j], col, cn)
  {
    FirstWhere(rows, IsCaseRow(col, cn))
  }


  /** The case's row after the update: Calendar Call and Trial Date when
      given, Order Date set to the day of processing, nothing else. */
  function UpdatedRow(headers: seq<Cell>, row: seq<Cell>, data: TrialRecord, today: Date): (r: seq<Cell>)
    requires IsValid(today)
    ensures |r| == |row|
  {
    var r1 := Put(row, Column(headers, "Calendar Call"), data.calendarCall, Truthy(data.calendarCall));
    var r2 := Put(r1, Column(headers, "Trial Date"), data.trialStart, Truthy(data.trialStart));
    Put(r2, Column(headers, "Order Date"), Some(DateText(today, '-')), true)
  }

  /** The update touches the three trial columns and nothing else; Order
      Date is always written when the column exists, the other two only
      with a value to write. */
  lemma UpdatedRowCells(headers: seq<Cell>, row: seq<Cell>, data: TrialRecord, today: Date, k: nat)
    requires IsValid(today) && k < |row|
    ensures Column(headers, "Order Date") == Some(k) ==> UpdatedRow(headers, row, data, today)[k] == Some(DateText(today, '-'))
    ensures Column(headers, "Trial Date") == Some(k) && Truthy(data.trialStart) ==>
      UpdatedRow(headers, row, data, today)[k] == data.trialStart
    ensures Column(headers, "Calendar Call") == Some(k) && Truthy(data.calendarCall) ==>
      UpdatedRow(headers, row, data, today)[k] == data.calendarCall
    ensures ((Column(headers, "Calendar Call") != Some(k) || !Truthy(data.calendarCall))
      && (Column(headers, "Trial Date") != Some(k) || !Truthy(data.trialStart))
      && Column(headers, "Order Date") != Some(k)) ==> UpdatedRow(headers, row, data, today)[k] == row[k]
  {
  }

  /** `create_trial_order_record` on the sheet: the updated row, if any,
      and the sheet afterwards. Nothing changes without a sheet, without a
      Case No. column or without a row of the case. */
  function TrialOrderUpdate(sheet: Option<Sheet>, data: TrialRecord, today: Date): (r: (Option<nat>, Option<Sheet>))
    requires IsValid(today)
    ensures r.0.None? ==> r.1 == sheet
    ensures sheet.Some? && Column(sheet.value.headers, "Case No.").Some? ==>
      r.0 == FirstRowOf(sheet.value.rows, Column(sheet.value.headers, "Case No.").value, data.caseNumber)
    ensures r.0.Some? ==> (sheet.Some? && r.0.value < |sheet.value.rows| &&
      r.1 == Some(Sheet(sheet.value.headers,
        sheet.value.rows[r.0.value := UpdatedRow(sheet.value.headers, sheet.value.rows[r.0.value], data, today)])))
  {
    match sheet
    case None => (None, None)
    case Some(sh) =>
      match Column(sh.headers, "Case No.")
      case None => (None, sheet)
      case Some(col) =>
        match FirstRowOf(sh.rows, col, data.caseNumber)
        case None => (None, sheet)
        case Some(i) => (Some(i), Some(Sheet(sh.headers, sh.rows[i := UpdatedRow(sh.headers, sh.rows[i], data, today)])))
  }

  // ---------------------------------------------------------------------
  // `parse_assignment_email`:
  // `Our File no\.\s+(\d+)-(\d+)\s+([^(]+?)\s+vs\s+[^(]+\(([^)]+)\)`
  // ---------------------------------------------------------------------

  datatype Assignment = Assignment(client: string, matter: string, style: string, claimNo: string)

  predicate NotOpen(c: char) { c != '(' }

  predicate NotClose(c: char) { c != ')' }

  /** `\s+vs\s+[^(]+\(([^)]+)\)` at the head of `t`: the claim number.
      When the greedy whitespace after "vs" reaches the parenthesis, `[^(]+`
      can still take its last character, which needs two of them. */
  function ClaimTail(t: string): (r: Option<string>)
    ensures r.Some? ==> r.value != [] && forall k :: 0 <= k < |r.value| ==> r.value[k] != ')'
  {
    var b := SpaceEnd(t, 0);
    if b == 0 || b + 2 > |t| || t[b] != 'v' || t[b + 1] != 's' then None
    else
      var c := SpaceEnd(t, b + 2);
      if c == b + 2 then None
      else
        var f := RunEnd(t, c, NotOpen);
        if f == |t| || (f == c && c - (b + 2) < 2) then None
        else
          var g := RunEnd(t, f + 1, NotClose);
          if g == f + 1 || g == |t| then None else RunEndRun(t, f + 1, NotClose); Some(t[f + 1..g])
  }

  /** The lazy `[^(]+?` from `q`: the shortest end, from `e` on, after which
      the rest of the pattern, `tail`, matches. (The rest of the pattern is
      a parameter so that facts about the search do not depend on it.) */
  function LazyStyle(s: string, q: nat, e: nat, tail: string -> Option<string>): (r: Option<(nat, string)>)
    requires q < e <= |s|
    requires forall k :: q <= k < e - 1 ==> s[k] != '('
    decreases |s| - e
    ensures r.Some? ==> e <= r.value.0 <= |s| && tail(s[r.value.0..]) == Some(r.value.1)
    ensures r.Some? ==> forall k :: q <= k < r.value.0 ==> s[k] != '('
  {
    if s[e - 1] == '(' then None
    else
      match tail(s[e..])
      case Some(c) => Some((e, c))
      case None => if e < |s| then LazyStyle(s, q, e + 1, tail) else None
  }

  /** The style's start `q`, tried from the end of the greedy whitespace
      run back to one character after `lo` (the whitespace backing off). */
  function StyleStart(s: string, lo: nat, q: nat, tail: string -> Option<string>): (r: Option<(nat, nat, string)>)
    requires lo < q <= |s|
    decreases q
    ensures r.Some? ==> lo < r.value.0 < r.value.1 <= |s| && tail(s[r.value.1..]) == Some(r.value.2)
    ensures r.Some? ==> forall k :: r.value.0 <= k < r.value.1 ==> s[k] != '('
  {
    var here := if q < |s| then LazyStyle(s, q, q + 1, tail) else None;
    match here
    case Some((e, c)) => Some((q, e, c))
    case None => if q - 1 > lo then StyleStart(s, lo, q - 1, tail) else None
  }

  /** The style and claim number captured from `w` on, the style starting
      after `lo`. */
  function StyleAndClaim(s: string, lo: nat, w: nat): (r: Option<(string, string)>)
    requires lo < w <= |s|
    ensures r.Some? ==> r.value.0 != [] && (forall k :: 0 <= k < |r.value.0| ==> r.value.0[k] != '(')
    ensures r.Some? ==> r.value.1 != [] && (forall k :: 0 <= k < |r.value.1| ==> r.value.1[k] != ')')
  {
    match StyleStart(s, lo, w, ClaimTail)
    case Some((q, e, c)) =>
      assert forall k :: 0 <= k < e - q ==> s[q..e][k] == s[q + k];
      Some((s[q..e], c))
    case None => None
  }

  /** The pattern at the head of `s`. */
  function AssignmentHead(s: string): (r: Option<Assignment>)
    ensures r.Some? ==> r.value.client != [] && (forall k :: 0 <= k < |r.value.client| ==> IsDigit(r.value.client[k]))
    ensures r.Some? ==> r.value.matter != [] && (forall k :: 0 <= k < |r.value.matter| ==> IsDigit(r.value.matter[k]))
    ensures r.Some? ==> r.value.style != [] && (forall k :: 0 <= k < |r.value.style| ==> r.value.style[k] != '(')
    ensures r.Some? ==> r.value.claimNo != [] && (forall k :: 0 <= k < |r.value.claimNo| ==> r.value.claimNo[k] != ')')
  {
    var key := "Our File no.";
    if !StartsWith(s, key) then None
    else
      var a := SpaceEnd(s, 12);
      var d1 := DigitEnd(s, a);
      if a == 12 || d1 == a || d1 == |s| || s[d1] != '-' then None
      else
        var d2 := DigitEnd(s, d1 + 1);
        var w := SpaceEnd(s, d2);
        if d2 == d1 + 1 || w == d2 then None
        else
          match StyleAndClaim(s, d2, w)
          case Some((style, claim)) => Some(Assignment(s[a..d1], s[d1 + 1..d2], style, claim))
          case None => None
  }

  function StrippedAssignment(a: Assignment): Assignment {
    Assignment(a.client, a.matter, Strip(a.style), Strip(a.claimNo))
  }

  /** `parse_assignment_email`: style and claim number stripped. */
  function ParseAssignmentEmail(subject: string): (r: Option<Assignment>)
    ensures r.None? <==> forall j :: 0 <= j <= |subject| ==> AssignmentHead(subject[j..]).None?
    ensures r.Some? ==> exists j :: (0 <= j <= |subject| && AssignmentHead(subject[j..]).Some?
      && r.value == StrippedAssignment(AssignmentHead(subject[j..]).value))
    ensures forall j: nat :: FirstAt(subject, AssignmentHead, j) ==> r == Some(StrippedAssignment(AssignmentHead(subject[j..]).value))
  {
    match FindFirst(subject, AssignmentHead)
    case Some(h) =>
      assert forall j: nat :: FirstAt(subject, AssignmentHead, j) ==> j == h.pos by {
        forall j: nat | FirstAt(subject, AssignmentHead, j) ensures j == h.pos {
          FindFirstIs(subject, AssignmentHead, j);
        }
      }
      Some(StrippedAssignment(h.cap))
    case None => None
  }

  /** Whitespace at `k` followed by a "v". */
  predicate SpaceThenV(s: string, k: nat)
    requires k + 1 < |s|
  {
    IsSpace(s[k]) && s[k + 1] == 'v'
  }

  /** No word of `name` after the first starts with "v", so that no
      " vs" can end the style early. */
  predicate NoVsInside(name: string) {
    forall k :: 0 <= k < |name| - 1 ==> !SpaceThenV(name, k)
  }

  /** The tail of the pattern on `" vs " + defendant + " (" + claim + ")"`. */
  lemma TailForm(def: string, claim: string, rest: string)
    requires def != [] && !IsSpace(def[0]) && forall k :: 0 <= k < |def| ==> def[k] != '('
    requires claim != [] && forall k :: 0 <= k < |claim| ==> claim[k] != ')'
    ensures ClaimTail(" vs " + def + " (" + claim + ")" + rest) == Some(claim)
  {
    var t := " vs " + def + " (" + claim + ")" + rest;
    var f := 5 + |def|;
    var g := f + 1 + |claim|;
    assert t[..4] == " vs " && t[4] == def[0] by {
      assert t == " vs " + (def + " (" + claim + ")" + rest);
    }
    assert forall k :: 4 <= k < f ==> t[k] != '(' by {
      assert forall k :: 0 <= k < |def| ==> t[4 + k] == def[k];
    }
    assert t[f] == '(' && t[g] == ')';
    assert t[f + 1..g] == claim && forall k :: f < k < g ==> t[k] != ')' by {
      assert forall k :: 0 <= k < |claim| ==> t[f + 1 + k] == claim[k];
    }
    TailAt(t, f, g);
  }

  /** The tail, once the places of its parenthesis and closing bracket are
      known. */
  lemma TailAt(t: string, f: nat, g: nat)
    requires 5 < f && f + 1 < g < |t|
    requires t[..4] == " vs " && !IsSpace(t[4])
    requires (forall k :: 4 <= k < f ==> t[k] != '(') && t[f] == '('
    requires (forall k :: f < k < g ==> t[k] != ')') && t[g] == ')'
    ensures ClaimTail(t) == Some(t[f + 1..g])
  {
    assert t[0] == t[..4][0] && t[1] == t[..4][1] && t[2] == t[..4][2] && t[3] == t[..4][3];
    OneSpace(t, 0);
    assert t[1] == 'v' && t[2] == 's';
    OneSpace(t, 3);
    RunEndAt(t, 4, f, NotOpen);
    RunEndAt(t, f + 1, g, NotClose);
  }

  /** Inside the style no tail can match. */
  lemma InsideNoTail(s: string, q: nat, n: nat, e: nat)
    requires q < e < q + n <= |s|
    requires !IsSpace(s[q + n - 1])
    requires forall k :: q <= k < q + n - 1 ==> !SpaceThenV(s, k)
    ensures ClaimTail(s[e..]).None?
  {
    var t := s[e..];
    var b := SpaceEnd(t, 0);
    if b > 0 {
      SpaceEndRun(t, 0);
      assert !IsSpace(t[q + n - 1 - e]);
      assert e + b <= q + n - 1;
      assert t[b] == s[e + b] && IsSpace(s[e + b - 1]);
      assert !SpaceThenV(s, e + b - 1);
    }
  }

  /** The tail matches at no end in `[lo, hi)`. */
  predicate NoTailBetween(s: string, lo: nat, hi: nat, tail: string -> Option<string>)
    requires hi <= |s|
    decreases hi - lo
  {
    lo >= hi || (tail(s[lo..]).None? && NoTailBetween(s, lo + 1, hi, tail))
  }

  /** The lazy style grows until it reaches the tail at `f`. */
  lemma {:induction false} LazyReaches(s: string, q: nat, f: nat, e: nat, claim: string, tail: string -> Option<string>)
    requires q < e <= f <= |s|
    requires forall k :: q <= k < f ==> s[k] != '('
    requires NoTailBetween(s, e, f, tail)
    requires LazyStyle(s, q, f, tail) == Some((f, claim))
    decreases f - e
    ensures LazyStyle(s, q, e, tail) == Some((f, claim))
  {
    if e < f {
      LazyStep(s, q, e, tail);
      LazyReaches(s, q, f, e + 1, claim, tail);
    }
  }

  lemma LazyStop(s: string, q: nat, e: nat, claim: string, tail: string -> Option<string>)
    requires q < e <= |s| && forall k :: q <= k < e ==> s[k] != '('
    requires tail(s[e..]) == Some(claim)
    ensures LazyStyle(s, q, e, tail) == Some((e, claim))
  {
  }

  lemma LazyStep(s: string, q: nat, e: nat, tail: string -> Option<string>)
    requires q < e < |s| && forall k :: q <= k < e ==> s[k] != '('
    requires tail(s[e..]).None?
    ensures LazyStyle(s, q, e, tail) == LazyStyle(s, q, e + 1, tail)
  {
  }

  /** The lazy group started at `q` ends at the first end where the tail
      matches. */
  lemma LazyFrom(s: string, q: nat, e: nat, claim: string, tail: string -> Option<string>)
    requires q < e <= |s| && forall k :: q <= k < e ==> s[k] != '('
    requires NoTailBetween(s, q + 1, e, tail)
    requires tail(s[e..]) == Some(claim)
    ensures LazyStyle(s, q, q + 1, tail) == Some((e, claim))
  {
    LazyStop(s, q, e, claim, tail);
    LazyReaches(s, q, e, q + 1, claim, tail);
  }

  /** The first start tried is the one the lazy group succeeds from. */
  lemma StartFromLazy(s: string, lo: nat, e: nat, claim: string, tail: string -> Option<string>)
    requires lo + 1 < e <= |s|
    requires LazyStyle(s, lo + 1, lo + 2, tail) == Some((e, claim))
    ensures StyleStart(s, lo, lo + 1, tail) == Some((lo + 1, e, claim))
  {
  }

  /** No tail inside a style that has no " v" in it. */
  lemma {:induction false} NoTailInside(s: string, q: nat, lo: nat, f: nat)
    requires q < lo <= f <= |s| && !IsSpace(s[f - 1])
    requires forall k :: q <= k < f - 1 ==> !SpaceThenV(s, k)
    decreases f - lo
    ensures NoTailBetween(s, lo, f, ClaimTail)
  {
    if lo < f {
      InsideNoTail(s, q, f - q, lo);
      NoTailInside(s, q, lo + 1, f);
    }
  }

  /** A style at `[d2 + 1, e)` followed by the tail is what the lazy group
      captures. */
  lemma StyleAt(s: string, d2: nat, e: nat, claim: string)
    requires d2 + 1 < e <= |s|
    requires !IsSpace(s[e - 1]) && forall k :: d2 < k < e ==> s[k] != '('
    requires forall k :: d2 + 1 <= k < e - 1 ==> !SpaceThenV(s, k)
    requires ClaimTail(s[e..]) == Some(claim)
    ensures StyleAndClaim(s, d2, d2 + 1) == Some((s[d2 + 1..e], claim))
  {
    NoTailInside(s, d2 + 1, d2 + 2, e);
    GroupFrom(s, d2, e, claim, ClaimTail);
    StyleFromStart(s, d2, d2 + 1, e, claim);
  }

  /** With no tail before `e`, the group starts right after `lo` and ends
      at `e`. */
  lemma GroupFrom(s: string, lo: nat, e: nat, claim: string, tail: string -> Option<string>)
    requires lo + 1 < e <= |s| && forall k :: lo < k < e ==> s[k] != '('
    requires NoTailBetween(s, lo + 2, e, tail)
    requires tail(s[e..]) == Some(claim)
    ensures StyleStart(s, lo, lo + 1, tail) == Some((lo + 1, e, claim))
  {
    LazyFrom(s, lo + 1, e, claim, tail);
    StartFromLazy(s, lo, e, claim, tail);
  }

  lemma StyleFromStart(s: string, lo: nat, q: nat, e: nat, claim: string)
    requires lo < q < e <= |s|
    requires StyleStart(s, lo, q, ClaimTail) == Some((q, e, claim))
    ensures StyleAndClaim(s, lo, q) == Some((s[q..e], claim))
  {
  }

  /** The pattern on a subject whose client digits sit at `[13, d1)`, whose
      matter digits sit at `(d1, d2)` and whose style starts at `d2 + 1`. */
  lemma HeadAt(s: string, d1: nat, d2: nat, style: string, claim: string)
    requires 13 < d1 && d1 + 1 < d2 && d2 + 1 < |s|
    requires s[..13] == "Our File no. "
    requires (forall k :: 13 <= k < d1 ==> IsDigit(s[k])) && s[d1] == '-'
    requires (forall k :: d1 < k < d2 ==> IsDigit(s[k])) && s[d2] == ' ' && !IsSpace(s[d2 + 1])
    requires StyleAndClaim(s, d2, d2 + 1) == Some((style, claim))
    ensures AssignmentHead(s) == Some(Assignment(s[13..d1], s[d1 + 1..d2], style, claim))
  {
    assert StartsWith(s, "Our File no.") by {
      assert s[..12] == s[..13][..12];
    }
    assert SpaceEnd(s, 12) == 13 by {
      assert s[12] == s[..13][12];
      LetterNotSpace(s[13]);
      OneSpace(s, 12);
    }
    assert DigitEnd(s, 13) == d1 by {
      DigitEndAt(s, 13, d1);
    }
    assert DigitEnd(s, d1 + 1) == d2 by {
      DigitEndAt(s, d1 + 1, d2);
    }
    OneSpace(s, d2);
    HeadFrom(s, d1, d2, style, claim);
  }

  /** A single blank before a non-whitespace character. */
  lemma OneSpace(s: string, i: nat)
    requires i + 1 < |s| && s[i] == ' ' && !IsSpace(s[i + 1])
    ensures SpaceEnd(s, i) == i + 1
  {
    SpaceEndAt(s, i, i + 1);
  }

  /** The unfolding of the pattern once its runs are known. */
  lemma HeadFrom(s: string, d1: nat, d2: nat, style: string, claim: string)
    requires StartsWith(s, "Our File no.") && 12 < |s| && SpaceEnd(s, 12) == 13
    requires 13 < d1 < |s| && DigitEnd(s, 13) == d1 && s[d1] == '-'
    requires d1 + 1 < d2 < |s| && DigitEnd(s, d1 + 1) == d2 && SpaceEnd(s, d2) == d2 + 1
    requires StyleAndClaim(s, d2, d2 + 1) == Some((style, claim))
    ensures AssignmentHead(s) == Some(Assignment(s[13..d1], s[d1 + 1..d2], style, claim))
  {
  }

  /** The digits of `c`, found at `i` in `s`. */
  lemma DigitsAt(s: string, i: nat, c: string)
    requires i + |c| <= |s| && s[i..i + |c|] == c && AllDigits(c)
    ensures forall k :: i <= k < i + |c| ==> IsDigit(s[k])
  {
    forall k | i <= k < i + |c|
      ensures IsDigit(s[k])
    {
      assert s[k] == c[k - i];
    }
  }

  /** Where the parts of the subject layout sit. */
  lemma Layout(s: string, c: string, m: string, name: string, tail: string)
    requires AllDigits(c) && AllDigits(m)
    requires s == "Our File no. " + c + "-" + m + " " + name + tail
    ensures var d1 := 13 + |c|;
      var d2 := d1 + 1 + |m|;
      s[..13] == "Our File no. " && s[13..d1] == c && s[d1] == '-' && s[d1 + 1..d2] == m && s[d2] == ' '
      && s[d2 + 1..d2 + 1 + |name|] == name && s[d2 + 1 + |name|..] == tail
      && (forall k :: 13 <= k < d1 ==> IsDigit(s[k])) && (forall k :: d1 < k < d2 ==> IsDigit(s[k]))
  {
    var p := "Our File no. " + c + "-" + m + " ";
    var d1 := 13 + |c|;
    var d2 := d1 + 1 + |m|;
    FileNoLayout(c, m);
    assert s == p + name + tail;
    assert s[..|p|] == p;
    assert s[13..d1] == p[13..d1] && s[..13] == p[..13] && s[d1 + 1..d2] == p[d1 + 1..d2];
    assert s[|p|..|p| + |name|] == name;
    DigitsAt(s, 13, c);
    DigitsAt(s, d1 + 1, m);
  }

  /** Where the client and matter numbers sit in the file-number prefix. */
  lemma FileNoLayout(c: string, m: string)
    ensures var p := "Our File no. " + c + "-" + m + " ";
      var d1 := 13 + |c|;
      var d2 := d1 + 1 + |m|;
      |p| == d2 + 1 && p[..13] == "Our File no. " && p[13..d1] == c && p[d1] == '-' && p[d1 + 1..d2] == m && p[d2] == ' '
  {
    var h := "Our File no. ";
    var q := h + c + "-";
    assert q[..13] == h && q[13..13 + |c|] == c;
    var r := q + m;
    assert r[..|q|] == q && r[|q|..] == m;
  }

  /** The pattern on a subject with its parts at known places, stripped. */
  lemma ParseAt(s: string, d1: nat, d2: nat, e: nat, c: string, m: string, name: string, claim: string)
    requires 13 < d1 && d1 + 1 < d2 && d2 + 1 < e <= |s|
    requires s[..13] == "Our File no. " && s[13..d1] == c && s[d1 + 1..d2] == m
    requires (forall k :: 13 <= k < d1 ==> IsDigit(s[k])) && s[d1] == '-'
    requires (forall k :: d1 < k < d2 ==> IsDigit(s[k])) && s[d2] == ' '
    requires s[d2 + 1..e] == name && !IsSpace(name[0]) && !IsSpace(name[|name| - 1]) && NoVsInside(name)
    requires forall k :: 0 <= k < |name| ==> name[k] != '('
    requires ClaimTail(s[e..]) == Some(claim)
    ensures ParseAssignmentEmail(s) == Some(Assignment(c, m, name, Strip(claim)))
  {
    forall k | d2 + 1 <= k < e - 1
      ensures !SpaceThenV(s, k)
    {
      assert s[k] == name[k - d2 - 1] && s[k + 1] == name[k - d2];
      assert !SpaceThenV(name, k - d2 - 1);
    }
    assert s[d2 + 1] == name[0] && s[e - 1] == name[|name| - 1];
    StyleAt(s, d2, e, claim);
    HeadAt(s, d1, d2, name, claim);
    StripNoSpaceAtEnds(name);
    assert s[0..] == s;
  }

  /** The subject layout the assignment emails use,
      `Our File no. <client>-<matter> <style> vs <defendant> (<claim>)...`,
      gives back its client, matter, style and claim number. */
  lemma AssignmentForm(c: string, m: string, name: string, def: string, claim: string, rest: string)
    requires c != [] && AllDigits(c) && m != [] && AllDigits(m)
    requires name != [] && !IsSpace(name[0]) && !IsSpace(name[|name| - 1]) && NoVsInside(name)
    requires forall k :: 0 <= k < |name| ==> name[k] != '('
    requires def != [] && !IsSpace(def[0]) && forall k :: 0 <= k < |def| ==> def[k] != '('
    requires claim != [] && forall k :: 0 <= k < |claim| ==> claim[k] != ')'
    ensures ParseAssignmentEmail("Our File no. " + c + "-" + m + " " + name + " vs " + def + " (" + claim + ")" + rest)
      == Some(Assignment(c, m, name, Strip(claim)))
  {
    var tail := " vs " + def + " (" + claim + ")" + rest;
    var s := "Our File no. " + c + "-" + m + " " + name + " vs " + def + " (" + claim + ")" + rest;
    assert s == "Our File no. " + c + "-" + m + " " + name + tail by {
      var p := "Our File no. " + c + "-" + m + " ";
      Regroup6(p + name, " vs ", def, " (", claim, ")" + rest);
      Regroup4(p + name, " vs " + def, " (" + claim, ")" + rest);
    }
    TailForm(def, claim, rest);
    ParseLaid(s, c, m, name, tail, claim);
  }

  /** The parse of a subject laid out as file number, name and a claim-bearing tail. */
  lemma ParseLaid(s: string, c: string, m: string, name: string, tail: string, claim: string)
    requires c != [] && AllDigits(c) && m != [] && AllDigits(m)
    requires name != [] && !IsSpace(name[0]) && !IsSpace(name[|name| - 1]) && NoVsInside(name)
    requires forall k :: 0 <= k < |name| ==> name[k] != '('
    requires s == "Our File no. " + c + "-" + m + " " + name + tail
    requires ClaimTail(tail) == Some(claim)
    ensures ParseAssignmentEmail(s) == Some(Assignment(c, m, name, Strip(claim)))
  {
    Layout(s, c, m, name, tail);
    var d1 := 13 + |c|;
    var d2 := d1 + 1 + |m|;
    ParseAt(s, d1, d2, d2 + 1 + |name|, c, m, name, claim);
  }

  // ---------------------------------------------------------------------
  // The loops of the client's methods
  // ---------------------------------------------------------------------

  /** The row pass of `_ensure_caches_loaded`. */
  method BuildCaseIndex(sheet: Option<Sheet>) returns (m: map<string, CaseRecord>)
    ensures m == CaseIndexOf(sheet)
  {
    m := map[];
    if sheet.None? {
      return;
    }
    var sh := sheet.value;
    var cols := IndexColumnsOf(sh.headers);
    if cols.None? {
      return;
    }
    var i := 0;
    while i < |sh.rows|
      invariant 0 <= i <= |sh.rows|
      invariant m == CaseIndexOfRows(sh.rows[..i], cols.value)
    {
      CaseIndexStep(sh.rows, cols.value, i);
      var entry := RowEntry(sh.rows[i], cols.value);
      if entry.Some? {
        m := m[entry.value.0 := entry.value.1];
      }
      i := i + 1;
    }
    assert sh.rows[..i] == sh.rows;
  }

  /** One more row: its entry, if any, goes over the index of the rows
      before it. */
  lemma CaseIndexStep(rows: seq<seq<Cell>>, cols: IndexColumns, i: nat)
    requires i < |rows|
    ensures CaseIndexOfRows(rows[..i + 1], cols) ==
      match RowEntry(rows[i], cols)
      case Some(e) => CaseIndexOfRows(rows[..i], cols)[e.0 := e.1]
      case None => CaseIndexOfRows(rows[..i], cols)
  {
    var es := RowEntries(rows[..i + 1], cols);
    assert es[..i] == RowEntries(rows[..i], cols);
    assert es[i] == RowEntry(rows[i], cols);
  }

  /** The inner loop of the folder pass: the folder listed under each of
      the words given. */
  method IndexWords(parties: map<string, seq<FolderInfo>>, words: seq<string>, info: FolderInfo)
    returns (parties': map<string, seq<FolderInfo>>)
    ensures parties' == AddWords(parties, words, info)
  {
    parties' := parties;
    var k := 0;
    while k < |words|
      invariant 0 <= k <= |words|
      invariant parties' == AddWords(parties, words[..k], info)
    {
      assert words[..k + 1][..k] == words[..k];
      var w := words[k];
      if |w| >= 3 {
        var entries := if w in parties' then parties'[w] else [];
        parties' := parties'[w := entries + [info]];
      }
      k := k + 1;
    }
    assert words[..k] == words;
  }

  /** The folder pass of `_ensure_caches_loaded`: both folder caches. */
  method BuildFolderIndexes(listing: seq<(string, string)>)
    returns (folders: map<string, FolderInfo>, parties: map<string, seq<FolderInfo>>)
    ensures folders == FolderIndexOf(listing) && parties == PartyIndexOf(listing)
  {
    folders := map[];
    parties := map[];
    var j := 0;
    while j < |listing|
      invariant 0 <= j <= |listing|
      invariant folders == FolderIndexOf(listing[..j])
      invariant parties == PartyIndexOf(listing[..j])
    {
      assert listing[..j + 1][..j] == listing[..j];
      var info := FolderInfoOf(listing[j].0, listing[j].1);
      folders := folders[FolderKey(listing[j].0, listing[j].1) := info];
      parties := IndexWords(parties, PartyWords(info), info);
      j := j + 1;
    }
    assert listing[..j] == listing;
  }

  /** One guarded write of `create_case_row` into its row buffer. */
  method PutCell(row: seq<Cell>, col: Option<nat>, v: Cell, when: bool) returns (r: seq<Cell>)
    ensures r == Put(row, col, v, when)
  {
    r := row;
    if when && col.Some? && col.value < |row| {
      r := r[col.value := v];
    }
  }

  /** The new row of `create_case_row`: a row of empty cells, then each
      known column written in turn. */
  method BuildNewRow(headers: seq<Cell>, data: CaseData) returns (row: seq<Cell>)
    ensures row == NewRow(headers, data)
  {
    row := seq(|headers|, _ => None);
    row := PutCell(row, Column(headers, "Attorney"), Some(if data.attorney.Some? then data.attorney.value else "EAZ"), true);
    row := PutCell(row, Column(headers, "Client"), data.client, Truthy(data.client));
    row := PutCell(row, Column(headers, "Matter"), data.matter, Truthy(data.matter));
    row := PutCell(row, Column(headers, "Style"), data.style, Truthy(data.style));
    row := PutCell(row, Column(headers, "Claim No."), data.claimNo, Truthy(data.claimNo));
    row := PutCell(row, Column(headers, "Case No."), data.caseNo, Truthy(data.caseNo));
  }

  /** The writes `create_trial_order_record` makes to the case's row. */
  method UpdateRow(headers: seq<Cell>, row: seq<Cell>, data: TrialRecord, today: Date) returns (r: seq<Cell>)
    requires IsValid(today)
    ensures r == UpdatedRow(headers, row, data, today)
  {
    r := PutCell(row, Column(headers, "Calendar Call"), data.calendarCall, Truthy(data.calendarCall));
    r := PutCell(r, Column(headers, "Trial Date"), data.trialStart, Truthy(data.trialStart));
    r := PutCell(r, Column(headers, "Order Date"), Some(DateText(today, '-')), true);
  }

  /** A left-to-right scan for the first element satisfying `p`. */
  method Scan<T>(xs: seq<T>, p: T -> bool) returns (found: Option<nat>)
    ensures found == FirstWhere(xs, p)
  {
    var i := 0;
    while i < |xs|
      invariant 0 <= i <= |xs|
      invariant forall j :: 0 <= j < i ==> !p(xs[j])
    {
      if p(xs[i]) {
        return Some(i);
      }
      i := i + 1;
    }
    return None;
  }

  /** The row scan of `create_trial_order_record`: the first row of the case. */
  method FindCaseRow(rows: seq<seq<Cell>>, caseCol: nat, cn: string) returns (found: Option<nat>)
    ensures found == FirstRowOf(rows, caseCol, cn)
  {
    found := Scan(rows, IsCaseRow(caseCol, cn));
  }

  /** The update keeps every row as wide as the header row. */
  lemma TrialOrderKeepsShape(sheet: Option<Sheet>, data: TrialRecord, today: Date)
    requires IsValid(today) && sheet.Some? && Rectangular(sheet.value)
    ensures var r := TrialOrderUpdate(sheet, data, today).1; r.Some? && Rectangular(r.value)
  {
  }

  /** `create_trial_order_record` on the sheet. */
  method ApplyTrialOrder(sheet: Option<Sheet>, data: TrialRecord, today: Date)
    returns (updated: Option<nat>, sheet': Option<Sheet>)
    requires IsValid(today)
    ensures (updated, sheet') == TrialOrderUpdate(sheet, data, today)
  {
    if sheet.None? {
      return None, sheet;
    }
    var sh := sheet.value;
    var caseCol := Column(sh.headers, "Case No.");
    if caseCol.None? {
      return None, sheet;
    }
    updated := FindCaseRow(sh.rows, caseCol.value, data.caseNumber);
    if updated.None? {
      return None, sheet;
    }
    var row := UpdateRow(sh.headers, sh.rows[updated.value], data, today);
    sheet' := Some(Sheet(sh.headers, sh.rows[updated.value := row]));
  }

  // ---------------------------------------------------------------------
  // The client object
  // ---------------------------------------------------------------------

  class SharePointClient {
    /** The case folders: (client folder, matter folder) names in iteration order. */
    const listing: seq<(string, string)>
    /** The registry sheet, `None` when the workbook or the sheet is missing. */
    var sheet: Option<Sheet>
    var loaded: bool
    var caseIndex: map<string, CaseRecord>
    var folderIndex: map<string, FolderInfo>
    var partyIndex: map<string, seq<FolderInfo>>
    /** The sheet as it was when the caches were loaded. */
    ghost var indexedSheet: Option<Sheet>

    ghost predicate Valid()
      reads this
    {
      && (sheet.Some? ==> Rectangular(sheet.value))
      && (loaded ==> caseIndex == CaseIndexOf(indexedSheet)
                     && folderIndex == FolderIndexOf(listing) && partyIndex == PartyIndexOf(listing))
      && (!loaded ==> caseIndex == map[] && folderIndex == map[] && partyIndex == map[])
    }

    /** The case index a lookup uses: the cached one once loaded, otherwise
        the one the next load builds from the current sheet. */
    ghost function Index(): map<string, CaseRecord>
      reads this
    {
      if loaded then caseIndex else CaseIndexOf(sheet)
    }

    constructor (listing: seq<(string, string)>, sheet: Option<Sheet>)
      requires sheet.Some? ==> Rectangular(sheet.value)
      ensures Valid() && !loaded
      ensures this.listing == listing && this.sheet == sheet
    {
      this.listing := listing;
      this.sheet := sheet;
      loaded := false;
      caseIndex := map[];
      folderIndex := map[];
      partyIndex := map[];
      indexedSheet := None;
    }

    /** `_ensure_caches_loaded`: builds the three caches once. */
    method EnsureCachesLoaded()
      requires Valid()
      modifies this
      ensures Valid() && loaded
      ensures sheet == old(sheet) && Index() == old(Index())
      ensures old(loaded) ==> caseIndex == old(caseIndex) && indexedSheet == old(indexedSheet)
    {
      if loaded {
        return;
      }
      caseIndex := BuildCaseIndex(sheet);
      folderIndex, partyIndex := BuildFolderIndexes(listing);
      loaded := true;
      indexedSheet := sheet;
    }

    /** `lookup_case_from_excel`: an exact-key lookup in the case index. */
    method LookupCaseFromExcel(cn: string) returns (r: Option<CaseRecord>)
      requires Valid()
      modifies this
      ensures Valid() && loaded && sheet == old(sheet) && Index() == old(Index())
      ensures r == if cn in old(Index()) then Some(old(Index())[cn]) else None
    {
      EnsureCachesLoaded();
      if cn in caseIndex {
        r := Some(caseIndex[cn]);
      } else {
        r := None;
      }
    }

    /** `get_case_by_number`: a registry hit names the client folder and the
        matter prefix; a miss falls back to any folder naming the case. */
    method GetCaseByNumber(cn: string) returns (r: Option<CaseInfo>)
      requires Valid()
      modifies this
      ensures Valid() && loaded && sheet == old(sheet) && Index() == old(Index())
      ensures r == CaseByNumber(old(Index()), listing, cn)
    {
      var excel := LookupCaseFromExcel(cn);
      r := ScanFolders(listing, excel, cn);
    }

    /** `create_case_row`: appends the new row. The caches are not
        refreshed, so once loaded, lookups in the same run do not see it. */
    method CreateCaseRow(data: CaseData) returns (ok: bool)
      requires Valid()
      modifies this
      ensures Valid()
      ensures ok <==> old(sheet).Some?
      ensures !ok ==> sheet == old(sheet)
      ensures ok ==> sheet == Some(Sheet(old(sheet).value.headers, old(sheet).value.rows + [NewRow(old(sheet).value.headers, data)]))
      ensures loaded == old(loaded) && caseIndex == old(caseIndex) && indexedSheet == old(indexedSheet)
      ensures folderIndex == old(folderIndex) && partyIndex == old(partyIndex)
      ensures loaded ==> Index() == old(Index())
    {
      if sheet.None? {
        return false;
      }
      var sh := sheet.value;
      var row := BuildNewRow(sh.headers, data);
      sheet := Some(Sheet(sh.headers, sh.rows + [row]));
      ok := true;
    }

    /** `create_trial_order_record`: updates the first row of the case;
        `today` is the day of processing. Returns the updated row. */
    method CreateTrialOrderRecord(data: TrialRecord, today: Date) returns (updated: Option<nat>)
      requires Valid() && IsValid(today)
      modifies this
      ensures Valid()
      ensures (updated, sheet) == TrialOrderUpdate(old(sheet), data, today)
      ensures loaded == old(loaded) && caseIndex == old(caseIndex) && indexedSheet == old(indexedSheet)
      ensures folderIndex == old(folderIndex) && partyIndex == old(partyIndex)
    {
      if sheet.Some? {
        TrialOrderKeepsShape(sheet, data, today);
      }
      updated, sheet := ApplyTrialOrder(sheet, data, today);
    }
  }
}
