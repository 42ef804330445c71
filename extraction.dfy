/**
 * Per-sheet extraction (`processar_arquivo`): three anchored lookups, the
 * technology list read from column B, rows 11 to 20, and the records each
 * sheet contributes; a sheet whose reads fail contributes one log entry and
 * nothing else. The collected records and the error log are the state of a
 * `Collector`.
 */
module Extraction {
  import opened Wrappers
  import opened Text
  import opened Seqs
  import opened Lookup

  const TeamKey := "equipe"
  const CollaboratorKey := "colaborador"
  const RoleKey := "função principal"
  /** What a field becomes when its lookup finds nothing or an empty text. */
  const Unknown := "N/A"
  /** The technology of the single record of a sheet with no technology. */
  const NoTechnology := "Vazio"
  /** The drop-down placeholder the technology cells hold when nothing was chosen. */
  const Placeholder := "selecione"
  /** The technology list is column 1 (B), rows 10 to 19 (11 to 20 on screen). */
  const TechColumn: nat := 1
  const FirstTechRow: nat := 10
  const EndTechRow: nat := 20
  const SpreadsheetSuffix := ".ods"

  /** One line of the output table: Equipe, Colaborador, Função Principal, Tecnologia. */
  datatype Row = Row(team: string, collaborator: string, role: string, technology: string)

  /** Why a sheet was skipped: `sheet_by_name` found no such sheet, or a cell read was out of range. */
  datatype Failure = SheetNotFound | CellOutOfRange

  /** One line of the error log: the sheet's original name, the file, the failure. */
  datatype LogEntry = LogEntry(sheet: string, file: string, reason: Failure)

  /** A row the summary can always handle: no empty field, and a collaborator that is not all whitespace, so it has a first name. */
  predicate WellFormed(row: Row) {
    row.team != [] && row.role != [] && row.technology != [] && !AllSpace(row.collaborator)
  }

  // ---------------------------------------------------------------------------
  // The three looked-up fields

  /** `valor or "N/A"`: a missing or empty lookup result becomes the sentinel. */
  function OrUnknown(v: Option<string>): (r: string)
    ensures r != []
    ensures v.Some? && v.value != [] ==> r == v.value
    ensures v.None? || v.value == [] ==> r == Unknown
  {
    if v.Some? && v.value != [] then v.value else Unknown
  }

  /** The value of the field labelled `key`, defaulted to "N/A". */
  function Field(s: Sheet, key: string): string {
    OrUnknown(Beside(s, key))
  }

  /** A field is never empty and always has a first whitespace-separated token. */
  lemma FieldHasToken(s: Sheet, key: string)
    ensures Field(s, key) != [] && !AllSpace(Field(s, key)) && FirstToken(Field(s, key)).Some?
  {
    var v := Beside(s, key);
    if v.Some? && v.value != [] {
      StrippedHasToken(v.value);
    } else {
      assert !IsSpace(Unknown[0]);
    }
  }

  // ---------------------------------------------------------------------------
  // The technology list

  /** A stripped technology cell is kept iff it is non-empty and is not the placeholder in any letter case. */
  predicate Keep(t: string) {
    t != [] && Lower(t) != Placeholder
  }

  /** All ten technology cells exist. */
  predicate Readable(s: Sheet) {
    EndTechRow <= |s.rows| && TechColumn < s.columns
  }

  /** The stripped texts of the ten technology cells, top to bottom. */
  function Candidates(s: Sheet): (cs: seq<string>)
    requires Readable(s)
    ensures |cs| == EndTechRow - FirstTechRow
  {
    seq(EndTechRow - FirstTechRow, k requires 0 <= k < EndTechRow - FirstTechRow => Strip(s.rows[FirstTechRow + k][TechColumn]))
  }

  /**
   * The technology list: the kept candidates in row order, or a failure when
   * any of the ten cells is out of range.
   */
  function Technologies(s: Sheet): (r: Result<seq<string>, Failure>)
    ensures r.Success? <==> Readable(s)
    ensures r.Failure? ==> r.error == CellOutOfRange
    ensures r.Success? ==> |r.value| <= EndTechRow - FirstTechRow && forall t :: t in r.value ==> Keep(t)
  {
    if Readable(s) then Success(Filter(Keep, Candidates(s))) else Failure(CellOutOfRange)
  }

  /** A value is in the list iff it is kept and is the stripped text of one of cells (10, 1) to (19, 1). */
  lemma TechnologiesFromCells(s: Sheet, t: string)
    requires Readable(s)
    ensures t in Technologies(s).value <==> Keep(t) && exists k :: FirstTechRow <= k < EndTechRow && t == Strip(s.rows[k][TechColumn])
  {
    var cs := Candidates(s);
    if t in cs {
      var k :| 0 <= k < |cs| && cs[k] == t;
      assert t == Strip(s.rows[FirstTechRow + k][TechColumn]);
    }
    if exists k :: FirstTechRow <= k < EndTechRow && t == Strip(s.rows[k][TechColumn]) {
      var k :| FirstTechRow <= k < EndTechRow && t == Strip(s.rows[k][TechColumn]);
      assert cs[k - FirstTechRow] == t;
    }
  }

  /** The loop of `processar_arquivo` over rows 10 to 19 of column 1. */
  method ReadTechnologies(s: Sheet) returns (r: Result<seq<string>, Failure>)
    ensures r == Technologies(s)
  {
    var techs: seq<string> := [];
    ghost var seen: seq<string> := [];
    for i := FirstTechRow to EndTechRow
      invariant |seen| == i - FirstTechRow
      invariant ReadSoFar(s, seen)
      invariant techs == Filter(Keep, seen)
    {
      var cell := CellValue(s, i, TechColumn);
      if cell.None? {
        return Failure(CellOutOfRange);
      }
      var t := Strip(cell.value);
      if Keep(t) {
        techs := techs + [t];
      }
      ReadOneMore(s, seen, t);
      KeepOneMore(seen, t);
      seen := seen + [t];
    }
    SeenAreCandidates(s, seen);
    return Success(techs);
  }

  /** `seen` holds the stripped cells of column 1 read so far, from row 10 on. */
  predicate ReadSoFar(s: Sheet, seen: seq<string>) {
    forall k :: 0 <= k < |seen| ==> FirstTechRow + k < |s.rows| && TechColumn < s.columns
                                    && seen[k] == Strip(s.rows[FirstTechRow + k][TechColumn])
  }

  /** Reading the next cell of column 1 extends what was read. */
  lemma ReadOneMore(s: Sheet, seen: seq<string>, t: string)
    requires ReadSoFar(s, seen)
    requires FirstTechRow + |seen| < |s.rows| && TechColumn < s.columns
    requires t == Strip(s.rows[FirstTechRow + |seen|][TechColumn])
    ensures ReadSoFar(s, seen + [t])
  {
    var next := seen + [t];
    forall k | 0 <= k < |next|
      ensures FirstTechRow + k < |s.rows| && next[k] == Strip(s.rows[FirstTechRow + k][TechColumn])
    {
      if k < |seen| {
        assert next[k] == seen[k];
      }
    }
  }

  /** The kept list grows by the next cell exactly when that cell is kept. */
  lemma KeepOneMore(seen: seq<string>, t: string)
    ensures Filter(Keep, seen + [t]) == Filter(Keep, seen) + (if Keep(t) then [t] else [])
  {
    FilterConcat(Keep, seen, [t]);
    assert [t][1..] == [];
  }

  /** Ten stripped cells read from rows 10 to 19 of column 1 are the candidates, and the sheet is readable. */
  lemma SeenAreCandidates(s: Sheet, seen: seq<string>)
    requires |seen| == EndTechRow - FirstTechRow && ReadSoFar(s, seen)
    ensures Readable(s) && seen == Candidates(s)
  {
    // Mentioning the last read cell instantiates `ReadSoFar` at row 19, which gives `Readable(s)`.
    ghost var lastSeen := seen[EndTechRow - FirstTechRow - 1];
  }

  /** Duplicates are not collapsed: a kept value occurs as often as among the ten cells. */
  lemma TechnologiesKeepDuplicates(s: Sheet, t: string)
    requires Readable(s)
    ensures multiset(Technologies(s).value)[t] == if Keep(t) then multiset(Candidates(s))[t] else 0
  {
    FilterMultiplicity(Keep, Candidates(s), t);
  }

  /** The technology list is the kept cells in row order: row k's value comes after row k - 1's. */
  lemma TechnologiesInRowOrder(s: Sheet, k: nat)
    requires Readable(s) && k <= EndTechRow - FirstTechRow
    ensures Technologies(s).value == Filter(Keep, Candidates(s)[..k]) + Filter(Keep, Candidates(s)[k..])
  {
    var cs := Candidates(s);
    assert cs == cs[..k] + cs[k..];
    FilterConcat(Keep, cs[..k], cs[k..]);
  }

  /** The placeholder is dropped in every letter case. */
  lemma PlaceholderAnyCase()
    ensures !Keep(Strip("Selecione")) && !Keep(Strip("SELECIONE"))
  {
    assert Strip("Selecione") == "Selecione";
    assert Lower("Selecione") == Placeholder;
    assert Strip("SELECIONE") == "SELECIONE";
    assert Lower("SELECIONE") == Placeholder;
  }

  /** The placeholder is dropped with blanks around it. */
  lemma PlaceholderPadded()
    ensures !Keep(Strip(" selecione "))
  {
    assert Strip(" selecione ") == "selecione" by {
      assert " selecione "[1..] == "selecione ";
      assert "selecione "[..9] == "selecione";
    }
    assert Lower("selecione") == Placeholder;
  }

  /** Only the exact word is the placeholder: a longer word that begins with it is kept. */
  lemma LongerWordKept()
    ensures Keep(Strip("Selecionado"))
  {
    assert Strip("Selecionado") == "Selecionado";
    assert |Lower("Selecionado")| != |Placeholder|;
  }

  // ---------------------------------------------------------------------------
  // The records of one sheet

  /**
   * The rows a processed sheet appends: one per technology, in order, or a
   * single "Vazio" row when there is none; all share the three fields.
   */
  function SheetRecords(team: string, collaborator: string, role: string, techs: seq<string>): (rows: seq<Row>)
    ensures |rows| == if techs == [] then 1 else |techs|
    ensures forall i :: 0 <= i < |rows| ==> rows[i].team == team && rows[i].collaborator == collaborator && rows[i].role == role
    ensures forall i :: 0 <= i < |rows| ==> rows[i].technology == if techs == [] then NoTechnology else techs[i]
  {
    if techs == [] then [Row(team, collaborator, role, NoTechnology)]
    else seq(|techs|, i requires 0 <= i < |techs| => Row(team, collaborator, role, techs[i]))
  }

  /** What one sheet yields: its records, or the failure that makes it skipped. */
  function ExtractSheet(s: Sheet): Result<seq<Row>, Failure> {
    Assemble(Field(s, TeamKey), Field(s, CollaboratorKey), Field(s, RoleKey), Technologies(s))
  }

  /** The records for three field values and a technology read, or the read's failure. */
  function Assemble(team: string, collaborator: string, role: string, techs: Result<seq<string>, Failure>): Result<seq<Row>, Failure> {
    match techs
    case Failure(e) => Failure(e)
    case Success(ts) => Success(SheetRecords(team, collaborator, role, ts))
  }

  // ---------------------------------------------------------------------------
  // Workbooks and their sheet names

  /** An opened workbook: `sheet_names()` and the sheets `sheet_by_name` finds. */
  datatype Book = Book(sheetNames: seq<string>, sheets: map<string, Sheet>)

  /** `livro.sheet_by_name(nome)` followed by the extraction of that sheet. */
  function SheetOutcome(book: Book, name: string): Result<seq<Row>, Failure> {
    if name in book.sheets then ExtractSheet(book.sheets[name]) else Failure(SheetNotFound)
  }

  /**
   * A processed sheet yields max(1, |technologies|) records that all carry
   * the sheet's three looked-up fields, each non-empty.
   */
  lemma SheetRecordCount(book: Book, name: string)
    requires SheetOutcome(book, name).Success?
    ensures name in book.sheets && Technologies(book.sheets[name]).Success?
    ensures var s, rows := book.sheets[name], SheetOutcome(book, name).value;
            var techs := Technologies(s).value;
            |rows| == (if techs == [] then 1 else |techs|)
            && forall i :: 0 <= i < |rows| ==> rows[i].team == Field(s, TeamKey) != []
                                               && rows[i].collaborator == Field(s, CollaboratorKey) != []
                                               && rows[i].role == Field(s, RoleKey) != []
  {
  }

  /** The records of a sheet with non-empty fields, a named collaborator and non-empty technologies are well formed. */
  lemma SheetRecordsWellFormed(team: string, collaborator: string, role: string, techs: seq<string>)
    requires team != [] && role != [] && !AllSpace(collaborator)
    requires forall t :: t in techs ==> t != []
    ensures forall row :: row in SheetRecords(team, collaborator, role, techs) ==> WellFormed(row)
  {
    var rows := SheetRecords(team, collaborator, role, techs);
    forall row | row in rows ensures WellFormed(row) {
      var i :| 0 <= i < |rows| && rows[i] == row;
      assert techs != [] ==> techs[i] in techs;
    }
  }

  /** Every extracted row is well formed. */
  lemma ExtractedRowsWellFormed(s: Sheet)
    ensures ExtractSheet(s).Success? ==> forall row :: row in ExtractSheet(s).value ==> WellFormed(row)
  {
    var r := Technologies(s);
    if r.Success? {
      FieldHasToken(s, TeamKey);
      FieldHasToken(s, CollaboratorKey);
      FieldHasToken(s, RoleKey);
      SheetRecordsWellFormed(Field(s, TeamKey), Field(s, CollaboratorKey), Field(s, RoleKey), r.value);
    }
  }

  /** The dictionary key of a sheet name: `nome.strip().lower()`. */
  function Normalize(name: string): string {
    Lower(Strip(name))
  }

  /** One item of the normalised-name dictionary. */
  datatype SheetEntry = SheetEntry(key: string, original: string)

  predicate DistinctKeys(d: seq<SheetEntry>) {
    forall i, j :: 0 <= i < j < |d| ==> d[i].key != d[j].key
  }

  /** `d[e.key] = e.original` on an insertion-ordered dictionary: overwrite the entry of that key in place, or append. */
  function Put(d: seq<SheetEntry>, e: SheetEntry): (d': seq<SheetEntry>)
    ensures |d'| <= |d| + 1 && e in d'
  {
    if d == [] then [e]
    else if d[0].key == e.key then [e] + d[1..]
    else [d[0]] + Put(d[1..], e)
  }

  /** The first entry's key is the key of no later entry. */
  lemma FirstKeyUnique(d: seq<SheetEntry>, x: SheetEntry)
    requires DistinctKeys(d) && d != [] && x in d[1..]
    ensures x.key != d[0].key
  {
    var k :| 0 <= k < |d[1..]| && d[1..][k] == x;
    assert d[k + 1] == x;
  }

  /** Dropping the first entry keeps the keys distinct. */
  lemma TailKeysDistinct(d: seq<SheetEntry>)
    requires DistinctKeys(d) && d != []
    ensures DistinctKeys(d[1..])
  {
    var tail := d[1..];
    forall i, j | 0 <= i < j < |tail| ensures tail[i].key != tail[j].key {
      assert tail[i] == d[i + 1] && tail[j] == d[j + 1];
    }
  }

  /** After the assignment the dictionary holds the new entry and every entry of another key, and nothing else. */
  lemma {:induction false} PutEntries(d: seq<SheetEntry>, e: SheetEntry)
    requires DistinctKeys(d)
    ensures forall x :: x in Put(d, e) <==> x == e || (x in d && x.key != e.key)
  {
    if d != [] {
      var tail := d[1..];
      assert forall x :: x in d <==> x == d[0] || x in tail by {
        assert d == [d[0]] + tail;
      }
      if d[0].key == e.key {
        forall x | x in tail ensures x.key != e.key {
          FirstKeyUnique(d, x);
        }
      } else {
        TailKeysDistinct(d);
        PutEntries(tail, e);
      }
    }
  }

  /** An entry whose key no entry of `d` has can go in front of `d`. */
  lemma ConsKeysDistinct(x: SheetEntry, d: seq<SheetEntry>)
    requires DistinctKeys(d) && forall y :: y in d ==> y.key != x.key
    ensures DistinctKeys([x] + d)
  {
    var r := [x] + d;
    forall i, j | 0 <= i < j < |r| ensures r[i].key != r[j].key {
      assert r[j] == d[j - 1];
      if i != 0 {
        assert r[i] == d[i - 1];
      }
    }
  }

  /** The assignment keeps the keys distinct. */
  lemma {:induction false} PutKeysDistinct(d: seq<SheetEntry>, e: SheetEntry)
    requires DistinctKeys(d)
    ensures DistinctKeys(Put(d, e))
  {
    if d != [] {
      var tail := d[1..];
      TailKeysDistinct(d);
      if d[0].key == e.key {
        forall y | y in tail ensures y.key != e.key {
          FirstKeyUnique(d, y);
        }
        ConsKeysDistinct(e, tail);
      } else {
        var rest := Put(tail, e);
        PutEntries(tail, e);
        PutKeysDistinct(tail, e);
        forall y | y in rest ensures y.key != d[0].key {
          if y != e {
            FirstKeyUnique(d, y);
          }
        }
        ConsKeysDistinct(d[0], rest);
      }
    }
  }

  /**
   * `{nome.strip().lower(): nome for nome in livro.sheet_names()}` as its
   * items in order: one entry per normalised name, distinct keys.
   */
  function SheetIndex(names: seq<string>): (d: seq<SheetEntry>)
    ensures DistinctKeys(d) && |d| <= |names|
  {
    if names == [] then []
    else
      var init := SheetIndex(names[..|names| - 1]);
      var added := SheetEntry(Normalize(names[|names| - 1]), names[|names| - 1]);
      PutKeysDistinct(init, added);
      Put(init, added)
  }

  /** Assigning an existing key overwrites its entry where it stands: the dictionary keeps its order. */
  lemma {:induction false} PutInPlace(d: seq<SheetEntry>, e: SheetEntry, i: nat)
    requires i < |d| && d[i].key == e.key
    requires forall k :: 0 <= k < i ==> d[k].key != e.key
    ensures Put(d, e) == d[i := e]
  {
    if i == 0 {
      assert d[0 := e] == [e] + d[1..];
    } else {
      PutInPlace(d[1..], e, i - 1);
      assert d[i := e] == [d[0]] + d[1..][i - 1 := e];
    }
  }

  /** Assigning a new key appends its entry after all the others. */
  lemma {:induction false} PutAppends(d: seq<SheetEntry>, e: SheetEntry)
    requires forall x :: x in d ==> x.key != e.key
    ensures Put(d, e) == d + [e]
  {
    if d != [] {
      assert d[0] in d;
      PutAppends(d[1..], e);
      assert d + [e] == [d[0]] + (d[1..] + [e]);
    }
  }

  /**
   * One more sheet name: its entry replaces, at the same position, the entry of
   * an earlier name with the same key, or else is appended at the end.
   */
  lemma SheetIndexStep(names: seq<string>, n: string)
    ensures var d, e := SheetIndex(names), SheetEntry(Normalize(n), n);
            && (forall i :: 0 <= i < |d| && d[i].key == e.key ==> SheetIndex(names + [n]) == d[i := e])
            && ((forall x :: x in d ==> x.key != e.key) ==> SheetIndex(names + [n]) == d + [e])
  {
    var d, e := SheetIndex(names), SheetEntry(Normalize(n), n);
    assert (names + [n])[..|names|] == names;
    assert SheetIndex(names + [n]) == Put(d, e);
    forall i | 0 <= i < |d| && d[i].key == e.key
      ensures SheetIndex(names + [n]) == d[i := e]
    {
      PutInPlace(d, e, i);
    }
    if forall x :: x in d ==> x.key != e.key {
      PutAppends(d, e);
    }
  }

  /**
   * Every sheet name's normalised form is a key of the index, and each entry
   * maps its key to a sheet name that normalises to it.
   */
  lemma {:induction false} SheetIndexEntries(names: seq<string>)
    ensures forall e :: e in SheetIndex(names) ==> e.key == Normalize(e.original) && e.original in names
    ensures forall n :: n in names ==> exists e :: e in SheetIndex(names) && e.key == Normalize(n)
  {
    if names != [] {
      var init := names[..|names| - 1];
      var last := names[|names| - 1];
      var added := SheetEntry(Normalize(last), last);
      var d := SheetIndex(names);
      assert names == init + [last];
      SheetIndexEntries(init);
      assert d == Put(SheetIndex(init), added);
      PutEntries(SheetIndex(init), added);
      forall n | n in names ensures exists e :: e in d && e.key == Normalize(n) {
        if n != last {
          assert n in init;
          var e :| e in SheetIndex(init) && e.key == Normalize(n);
          if e.key == Normalize(last) {
            assert added in d;
          } else {
            assert e in d;
          }
        } else {
          assert added in d;
        }
      }
    }
  }

  /** Of several names with the same normalised key, the dictionary keeps the last one. */
  lemma {:induction false} LastNameWins(names: seq<string>, j: nat)
    requires j < |names|
    requires forall k | j < k < |names| :: Normalize(names[k]) != Normalize(names[j])
    ensures SheetEntry(Normalize(names[j]), names[j]) in SheetIndex(names)
  {
    var init := names[..|names| - 1];
    var last := names[|names| - 1];
    var entry := SheetEntry(Normalize(names[j]), names[j]);
    PutEntries(SheetIndex(init), SheetEntry(Normalize(last), last));
    if j < |names| - 1 {
      assert init[j] == names[j];
      LastNameWins(init, j);
      assert entry.key != Normalize(last);
    }
  }

  // ---------------------------------------------------------------------------
  // What a run collects: records and log entries

  datatype Harvest = Harvest(rows: seq<Row>, log: seq<LogEntry>)

  const Nothing := Harvest([], [])

  function Join(a: Harvest, b: Harvest): Harvest {
    Harvest(a.rows + b.rows, a.log + b.log)
  }

  /** One sheet: its records and no log entry, or no record and one log entry naming the sheet and the file. */
  function SheetHarvest(file: string, book: Book, name: string): Harvest {
    Harvested(file, name, SheetOutcome(book, name))
  }

  /** The three `buscar_valor_ao_lado(...) or "N/A"` lookups of `processar_arquivo`. */
  method ReadFields(sheet: Sheet) returns (team: string, collaborator: string, role: string)
    ensures team == Field(sheet, TeamKey) && collaborator == Field(sheet, CollaboratorKey) && role == Field(sheet, RoleKey)
  {
    var t := FindBeside(sheet, TeamKey);
    var c := FindBeside(sheet, CollaboratorKey);
    var f := FindBeside(sheet, RoleKey);
    team, collaborator, role := OrUnknown(t), OrUnknown(c), OrUnknown(f);
  }

  /** The records of a processed sheet, or the log entry of a skipped one. */
  function Harvested(file: string, name: string, outcome: Result<seq<Row>, Failure>): Harvest {
    match outcome
    case Success(rows) => Harvest(rows, [])
    case Failure(e) => Harvest([], [LogEntry(name, file, e)])
  }

  /** What a sequence of steps yields, each step's records and log entries after the previous ones'. */
  function Collect<T>(step: T -> Harvest, xs: seq<T>): Harvest {
    if xs == [] then Nothing
    else Join(Collect(step, xs[..|xs| - 1]), step(xs[|xs| - 1]))
  }

  /** Collecting over two runs of steps is collecting over each, one after the other. */
  lemma {:induction false} CollectSplit<T>(step: T -> Harvest, a: seq<T>, b: seq<T>)
    ensures Collect(step, a + b) == Join(Collect(step, a), Collect(step, b))
  {
    if b == [] {
      assert a + b == a;
    } else {
      var b' := b[..|b| - 1];
      assert (a + b)[..|a + b| - 1] == a + b';
      CollectSplit(step, a, b');
    }
  }

  /** The sheets of one file, in the dictionary's order. */
  function SheetsHarvest(file: string, book: Book, entries: seq<SheetEntry>): Harvest {
    Collect((e: SheetEntry) => SheetHarvest(file, book, e.original), entries)
  }

  /** Processing one more sheet appends what that sheet yields. */
  lemma SheetsHarvestStep(file: string, book: Book, entries: seq<SheetEntry>, i: nat)
    requires i < |entries|
    ensures SheetsHarvest(file, book, entries[..i + 1])
            == Join(SheetsHarvest(file, book, entries[..i]), SheetHarvest(file, book, entries[i].original))
  {
    assert entries[..i + 1][..i] == entries[..i];
  }

  lemma JoinAppends<T>(s0: seq<T>, s1: seq<T>, s2: seq<T>, a: seq<T>, b: seq<T>)
    requires s1 == s0 + a && s2 == s1 + b
    ensures s2 == s0 + (a + b)
  {
  }

  /** A workbook file as the directory listing gives it. */
  datatype Document = Document(name: string, book: Book)

  /** `processar_arquivo(arquivo)`: the sheets of the file's name dictionary, in the dictionary's order. */
  function FileHarvest(doc: Document): Harvest {
    SheetsHarvest(doc.name, doc.book, SheetIndex(doc.book.sheetNames))
  }

  /**
   * Sheets are independent: what a run of sheets yields is what the first
   * part yields followed by what the rest yields, so a failing sheet takes
   * nothing away from the others.
   */
  lemma SheetsHarvestSplit(file: string, book: Book, a: seq<SheetEntry>, b: seq<SheetEntry>)
    ensures SheetsHarvest(file, book, a + b) == Join(SheetsHarvest(file, book, a), SheetsHarvest(file, book, b))
  {
    CollectSplit((e: SheetEntry) => SheetHarvest(file, book, e.original), a, b);
  }

  /** A failing sheet adds exactly one log entry and no record; a processed sheet adds no log entry. */
  lemma SheetHarvestEffect(file: string, book: Book, name: string)
    ensures SheetOutcome(book, name).Failure? ==>
              SheetHarvest(file, book, name) == Harvest([], [LogEntry(name, file, SheetOutcome(book, name).error)])
    ensures SheetOutcome(book, name).Success? ==>
              SheetHarvest(file, book, name).log == [] && |SheetHarvest(file, book, name).rows| >= 1
  {
    if SheetOutcome(book, name).Success? {
      SheetRecordCount(book, name);
    }
  }

  /** A file's log has at most one entry per distinct normalised sheet name. */
  lemma {:induction false} SheetsHarvestLogBound(file: string, book: Book, entries: seq<SheetEntry>)
    ensures |SheetsHarvest(file, book, entries).log| <= |entries|
  {
    if entries != [] {
      var init := entries[..|entries| - 1];
      SheetsHarvestLogBound(file, book, init);
      SheetHarvestEffect(file, book, entries[|entries| - 1].original);
    }
  }

  /** `f.endswith('.ods')`: only these files of the listing are opened, in listing order. */
  function OdsFiles(listing: seq<Document>): (files: seq<Document>)
    ensures forall d :: d in files <==> d in listing && EndsWith(d.name, SpreadsheetSuffix)
  {
    Filter((d: Document) => EndsWith(d.name, SpreadsheetSuffix), listing)
  }

  /** The files of a run, in order. */
  function FilesHarvest(files: seq<Document>): Harvest {
    Collect(FileHarvest, files)
  }

  // ---------------------------------------------------------------------------
  // The collecting state

  /**
   * `dados_coletados` and the error log. Records are only appended, and the
   * log only grows.
   */
  class Collector {
    var rows: seq<Row>
    var log: seq<LogEntry>

    ghost predicate Valid()
      reads this
    {
      forall row :: row in rows ==> WellFormed(row)
    }

    /** An empty record list; the log file may already hold entries from earlier runs. */
    constructor (priorLog: seq<LogEntry>)
      ensures Valid() && rows == [] && log == priorLog
    {
      rows := [];
      log := priorLog;
    }

    /** The body of the `try`/`except` for one sheet of a file. */
    method ProcessSheet(file: string, book: Book, name: string)
      requires Valid()
      modifies this
      ensures Valid()
      ensures rows == old(rows) + SheetHarvest(file, book, name).rows
      ensures log == old(log) + SheetHarvest(file, book, name).log
    {
      if name !in book.sheets {
        log := log + [LogEntry(name, file, SheetNotFound)];
      } else {
        ReadSheet(file, name, book.sheets[name]);
      }
    }

    /** The reads of one sheet found by name, then its records or its log entry. */
    method ReadSheet(file: string, name: string, sheet: Sheet)
      requires Valid()
      modifies this
      ensures Valid()
      ensures rows == old(rows) + Harvested(file, name, ExtractSheet(sheet)).rows
      ensures log == old(log) + Harvested(file, name, ExtractSheet(sheet)).log
    {
      var t, c, f := ReadFields(sheet);
      var techs := ReadTechnologies(sheet);
      FieldHasToken(sheet, TeamKey);
      FieldHasToken(sheet, CollaboratorKey);
      FieldHasToken(sheet, RoleKey);
      Record(file, name, t, c, f, techs);
    }

    /** The rest of the `try` body once the reads are done: append the records, or reach the `except` and log the failed read. */
    method Record(file: string, name: string, team: string, collaborator: string, role: string,
                  techs: Result<seq<string>, Failure>)
      requires Valid()
      requires team != [] && role != [] && !AllSpace(collaborator)
      requires techs.Success? ==> forall t :: t in techs.value ==> t != []
      modifies this
      ensures Valid()
      ensures rows == old(rows) + Harvested(file, name, Assemble(team, collaborator, role, techs)).rows
      ensures log == old(log) + Harvested(file, name, Assemble(team, collaborator, role, techs)).log
    {
      if techs.Failure? {
        log := log + [LogEntry(name, file, techs.error)];
      } else {
        Emit(team, collaborator, role, techs.value);
      }
    }

    /** The `if not tecnologias` / `for tecnologia in tecnologias` appends to `dados_coletados`. */
    method Emit(team: string, collaborator: string, role: string, techs: seq<string>)
      requires Valid()
      requires team != [] && role != [] && !AllSpace(collaborator)
      requires forall t :: t in techs ==> t != []
      modifies this
      ensures Valid()
      ensures rows == old(rows) + SheetRecords(team, collaborator, role, techs) && log == old(log)
    {
      if techs == [] {
        rows := rows + [Row(team, collaborator, role, NoTechnology)];
      } else {
        ghost var all := SheetRecords(team, collaborator, role, techs);
        for i := 0 to |techs|
          invariant rows == old(rows) + all[..i]
          invariant log == old(log)
          invariant Valid()
        {
          assert techs[i] in techs;
          assert all[..i + 1] == all[..i] + [Row(team, collaborator, role, techs[i])];
          rows := rows + [Row(team, collaborator, role, techs[i])];
        }
        assert all[..|techs|] == all;
      }
    }

    /** `processar_arquivo`: every item of the normalised-name dictionary, in order. */
    method ProcessFile(doc: Document)
      requires Valid()
      modifies this
      ensures Valid()
      ensures rows == old(rows) + FileHarvest(doc).rows
      ensures log == old(log) + FileHarvest(doc).log
    {
      var index := SheetIndex(doc.book.sheetNames);
      for i := 0 to |index|
        invariant Valid()
        invariant rows == old(rows) + SheetsHarvest(doc.name, doc.book, index[..i]).rows
        invariant log == old(log) + SheetsHarvest(doc.name, doc.book, index[..i]).log
      {
        ghost var done := SheetsHarvest(doc.name, doc.book, index[..i]);
        ghost var next := SheetHarvest(doc.name, doc.book, index[i].original);
        ghost var rows0, log0 := rows, log;
        ProcessSheet(doc.name, doc.book, index[i].original);
        SheetsHarvestStep(doc.name, doc.book, index, i);
        JoinAppends(old(rows), rows0, rows, done.rows, next.rows);
        JoinAppends(old(log), log0, log, done.log, next.log);
      }
      assert index[..|index|] == index;
    }
  }
}
