# Team technology collector, modelled in Dafny

`tk_compilar_tecnologias_.py` is a small desktop tool. The user picks a directory, and
`processar_planilhas` opens every `.ods` workbook in it. It reads each sheet of each workbook
as one collaborator's form:

- the team, the collaborator and the main role, found to the right of cells labelled
  "equipe", "colaborador" and "função principal";
- the technologies chosen in column B, rows 11 to 20.

It appends one record per technology, or one "Vazio" record when nothing was chosen, to
`dados_coletados`. A sheet that cannot be read is skipped and noted in the error log. Finally
the tool exports the records and shows, per team, how many distinct collaborators it has and
their first names.

This project models that core:

- `text.dfy`: `strip`, `lower`, `in`, `endswith` and `split()[0]` on strings.
- `seqs.dfy`: order-preserving filtering and distinct elements.
- `lookup.dfy`: a sheet is a rectangular grid of cell texts. `buscar_valor_ao_lado` is a
  row-major scan with early return (`FindBeside`). It is proved against a recursive
  specification of the first label (`FirstLabelFrom`, `Beside`).
- `extraction.dfy`:
  - the `"N/A"` default;
  - the technology list (`ReadTechnologies`, a loop proved against `Technologies`);
  - the records of one sheet;
  - the normalised sheet-name dictionary, an insertion-ordered list of entries;
  - the `.ods` filter;
  - the `Collector` class. It holds `dados_coletados` (`rows`) and the error log (`log`), and
    its methods process a sheet (`ProcessSheet`, `ReadSheet`, `Record`, `Emit`) and a file.
    `ProcessSheet` and `ProcessFile` are proved against `SheetHarvest` and `FileHarvest`,
    which state which records and log entries they produce. `ReadSheet`, `Record` and `Emit`
    are proved against `ExtractSheet`, `Assemble` and `SheetRecords`.
- `summary.dfy`: the per-team summary (`Summarize`).
- `pipeline.dfy`: `ProcessDirectory`, the whole run over a directory listing.

## Model

| member | source | states |
|---|---|---|
| `Text.Strip` | tk_compilar_tecnologias_.py:19 | The stripped text neither begins nor ends with whitespace. |
| `Text.StripFrames` | tk_compilar_tecnologias_.py:19 | The stripped text is a piece of the original with only whitespace before and after it. |
| `Text.FirstToken` | tk_compilar_tecnologias_.py:81 | `split()[0]` exists iff the text is not all whitespace. The token is non-empty and has no whitespace. |
| `Text.FirstTokenIsFirstWord` | tk_compilar_tecnologias_.py:81 | The token is preceded only by whitespace and ends at whitespace or at the end of the text. |
| `Text.FirstTokenBeforeBlank` | tk_compilar_tecnologias_.py:81 | The first token of a text that begins with a blank-free word followed by a blank is that word. |
| `Text.Lower` | tk_compilar_tecnologias_.py:19 | Definition of `lower()`: each ASCII capital becomes its small letter, every other character is kept, and the length is unchanged. |
| `Text.Contains` | tk_compilar_tecnologias_.py:20 | Definition of `palavra_chave in valor_celula`: the keyword occurs as a contiguous piece of the cell text. |
| `Text.EndsWith` | tk_compilar_tecnologias_.py:12 | Definition of `endswith`: the last characters of the name are exactly the suffix. |
| `Text.StrippedHasToken` | tk_compilar_tecnologias_.py:81 | A non-empty stripped text always has a first token. |
| `Seqs.Distinct` | tk_compilar_tecnologias_.py:77 | `list(set(x))`: the same elements as the input, with no repeats. |
| `Seqs.DistinctCard` | tk_compilar_tecnologias_.py:77 | The length of the distinct list is the size of the set of the input's elements. |
| `Lookup.CellValue` | tk_compilar_tecnologias_.py:23-25 | A cell read succeeds iff the row and the column are in range; otherwise it is the IndexError path. |
| `Lookup.Beside` | tk_compilar_tecnologias_.py:15-26 | Definition: the stripped right neighbour of the first label in row-major order, or None when there is no label or that label is in the last column. |
| `Lookup.IsLabel` | tk_compilar_tecnologias_.py:19-20 | Definition of the label test: the cell's stripped, lower-cased text contains the keyword. |
| `Lookup.FirstLabelFrom` | tk_compilar_tecnologias_.py:17-20 | Definition: the first label for the keyword at or after cell (r, c) in row-major order, or None when no label is left. |
| `Lookup.FirstLabel` | tk_compilar_tecnologias_.py:17-20 | Definition: the first label for the keyword in the whole sheet in row-major order, the scan started at (0, 0). |
| `Lookup.FindBeside` | tk_compilar_tecnologias_.py:15-26 | The nested row/column scan with early return answers exactly `Beside`. |
| `Lookup.FirstLabelFromIsFirst` | tk_compilar_tecnologias_.py:17-20 | From any cell, a found label comes at or after it in row-major order, with no label in between. Finding nothing means no label is left. |
| `Lookup.FirstLabelIs` | tk_compilar_tecnologias_.py:17-20 | A label with no label before it in row-major order is the one the scan finds. |
| `Lookup.BesideFirstLabel` | tk_compilar_tecnologias_.py:17-25 | The answer is the stripped right neighbour of the first label, or None when that label is in the last column, whatever later labels exist. |
| `Lookup.BesideNoLabel` | tk_compilar_tecnologias_.py:17-26 | With no label in the sheet the answer is None. |
| `Lookup.BesideIsStripped` | tk_compilar_tecnologias_.py:23 | A found value has no leading or trailing whitespace. |
| `Lookup.LastColumnEndsSearch` | tk_compilar_tecnologias_.py:22-25 | Example: the first label is in the last column, so the answer is None although a later label has a neighbour. |
| `Extraction.OrUnknown` | tk_compilar_tecnologias_.py:37-39 | `or "N/A"`: a non-empty found value is kept; None or an empty value becomes "N/A". The result is never empty. |
| `Extraction.Field` | tk_compilar_tecnologias_.py:37-39 | Definition of `buscar_valor_ao_lado(aba, key) or "N/A"`: `Beside` defaulted by `OrUnknown`. |
| `Extraction.FieldHasToken` | tk_compilar_tecnologias_.py:37-39 | Team, collaborator and role are never empty and always have a first token. |
| `Extraction.Readable` | tk_compilar_tecnologias_.py:42-43 | Definition: the ten cells (10..19, 1) exist, so none of the reads raises. |
| `Extraction.Candidates` | tk_compilar_tecnologias_.py:42-43 | Definition: the stripped texts of the ten cells (10..19, 1), top to bottom. |
| `Extraction.Technologies` | tk_compilar_tecnologias_.py:41-45 | The list exists iff all ten cells (10..19, 1) exist; otherwise the sheet fails with an out-of-range read. It has at most ten values, each kept. |
| `Extraction.TechnologiesFromCells` | tk_compilar_tecnologias_.py:41-45 | A value is in the list iff it is non-empty, not the placeholder, and the stripped text of one of cells (10, 1) to (19, 1). |
| `Extraction.ReadTechnologies` | tk_compilar_tecnologias_.py:41-45 | The loop over rows 10 to 19 returns exactly `Technologies`, including the failure. |
| `Extraction.TechnologiesKeepDuplicates` | tk_compilar_tecnologias_.py:41-45 | Duplicates are kept: a kept value occurs as often as among the ten cells. |
| `Extraction.TechnologiesInRowOrder` | tk_compilar_tecnologias_.py:42-45 | The list is the kept cells in increasing row order. |
| `Extraction.ReadOneMore` | tk_compilar_tecnologias_.py:42-43 | Reading the next cell of column 1 extends the cells read so far by that cell's stripped text. |
| `Extraction.KeepOneMore` | tk_compilar_tecnologias_.py:44-45 | The list grows by the next stripped cell exactly when that cell is kept. |
| `Extraction.SeenAreCandidates` | tk_compilar_tecnologias_.py:42-43 | Once all ten rows were read, the sheet is readable and the cells read are its ten candidates. |
| `Extraction.PlaceholderAnyCase` | tk_compilar_tecnologias_.py:44 | "Selecione" and "SELECIONE" are dropped: the comparison ignores letter case. |
| `Extraction.PlaceholderPadded` | tk_compilar_tecnologias_.py:43-44 | " selecione " is dropped: the cell is stripped before the comparison. |
| `Extraction.LongerWordKept` | tk_compilar_tecnologias_.py:44 | "Selecionado" is kept: only the exact word is the placeholder. |
| `Extraction.Keep` | tk_compilar_tecnologias_.py:44 | Definition of the `if` test: a stripped cell is kept iff it is non-empty and its lower-cased text is not "selecione". |
| `Extraction.SheetRecords` | tk_compilar_tecnologias_.py:47-53 | max(1, number of technologies) records, all with the same three fields. Their technologies are the list in order, or the one "Vazio". |
| `Extraction.Assemble` | tk_compilar_tecnologias_.py:41-53 | Definition: a failed technology read passes its failure on. Otherwise the outcome is the `SheetRecords` of the three field values and the technology list. |
| `Extraction.ExtractSheet` | tk_compilar_tecnologias_.py:37-53 | Definition: the sheet fails exactly as its technology read fails. Otherwise it yields the records of its three defaulted fields and its technology list. |
| `Extraction.SheetOutcome` | tk_compilar_tecnologias_.py:35-53 | Definition: a name missing from the workbook fails with `SheetNotFound`. Otherwise the outcome is that sheet's `ExtractSheet`. |
| `Extraction.SheetRecordCount` | tk_compilar_tecnologias_.py:35-53 | A processed sheet exists, its technology read succeeded, and its records number max(1, number of technologies) and carry its three non-empty fields. |
| `Extraction.SheetRecordsWellFormed` | tk_compilar_tecnologias_.py:47-53 | With non-empty fields, a collaborator with a first name and non-empty technologies, every record is well formed. |
| `Extraction.ExtractedRowsWellFormed` | tk_compilar_tecnologias_.py:37-53 | Every record of a sheet has non-empty fields and a collaborator with a first name. |
| `Extraction.Put` | tk_compilar_tecnologias_.py:32 | The assigned entry is in the dictionary afterwards, which grows by at most one entry. |
| `Extraction.PutKeysDistinct` | tk_compilar_tecnologias_.py:32 | Assigning a key keeps the keys distinct: an existing key is overwritten, not repeated. |
| `Extraction.PutInPlace` | tk_compilar_tecnologias_.py:32-34 | Assigning a key that is already present overwrites that entry at its position, so the items keep their order. |
| `Extraction.PutAppends` | tk_compilar_tecnologias_.py:32-34 | Assigning a new key appends its entry after all the others. |
| `Extraction.PutEntries` | tk_compilar_tecnologias_.py:32 | After the assignment the dictionary holds the new entry and every entry of another key, and nothing else. |
| `Extraction.Normalize` | tk_compilar_tecnologias_.py:32 | Definition of the dictionary key `nome.strip().lower()`. |
| `Extraction.SheetIndex` | tk_compilar_tecnologias_.py:32 | The normalised-name dictionary has distinct keys and no more entries than sheet names. |
| `Extraction.SheetIndexStep` | tk_compilar_tecnologias_.py:32-34 | One more sheet name replaces, at the same position, the entry of an earlier name with the same key, or else appends its entry. This fixes the order in which the sheets are processed. |
| `Extraction.SheetIndexEntries` | tk_compilar_tecnologias_.py:32-34 | Every sheet name's `strip().lower()` is a key. Each entry maps its key to a sheet name that normalises to it. |
| `Extraction.LastNameWins` | tk_compilar_tecnologias_.py:32 | Of names that collide after normalisation, the entry keeps the last one. |
| `Extraction.Harvested` | tk_compilar_tecnologias_.py:47-56 | Definition: a successful outcome gives its records and no log entry; a failure gives no record and one `LogEntry(sheet, file, failure)`. |
| `Extraction.SheetHarvest` | tk_compilar_tecnologias_.py:35-56 | Definition: what one entry of the dictionary yields, `Harvested` of the sheet's `SheetOutcome`. |
| `Extraction.SheetsHarvest` | tk_compilar_tecnologias_.py:34-56 | Definition: the harvests of a sequence of dictionary entries, joined in order. |
| `Extraction.FileHarvest` | tk_compilar_tecnologias_.py:29-56 | Definition of `processar_arquivo`: the harvest of the entries of the file's name dictionary, in the dictionary's order. |
| `Extraction.FilesHarvest` | tk_compilar_tecnologias_.py:64-65 | Definition: the files' harvests, joined in listing order. |
| `Extraction.SheetHarvestEffect` | tk_compilar_tecnologias_.py:35-56 | A failing sheet adds one log entry naming the sheet and the file, and no record. A processed sheet adds at least one record and no log entry. |
| `Extraction.SheetsHarvestSplit` | tk_compilar_tecnologias_.py:34-56 | Sheets are independent: a run of sheets yields the first part's records and log entries followed by the rest's. |
| `Extraction.SheetsHarvestLogBound` | tk_compilar_tecnologias_.py:34-56 | A file adds at most one log entry per dictionary entry. |
| `Extraction.OdsFiles` | tk_compilar_tecnologias_.py:12 | A file is processed iff it is in the listing and its name ends with exactly ".ods". |
| `Extraction.Collector.constructor` | tk_compilar_tecnologias_.py:13 | A run starts with no records and the log as earlier runs left it. |
| `Extraction.Collector.ProcessSheet` | tk_compilar_tecnologias_.py:35-56 | One `try` body: a sheet missing from the workbook only adds a log entry; otherwise the sheet is read. In both cases records and log grow by exactly what `SheetHarvest` yields. |
| `Extraction.ReadFields` | tk_compilar_tecnologias_.py:37-39 | The three lookups return the team, collaborator and role fields, each defaulted to "N/A". |
| `Extraction.Collector.ReadSheet` | tk_compilar_tecnologias_.py:36-56 | Reads the fields and the technologies, then appends exactly the sheet's records, or, when a technology cell is out of range, only its log entry. |
| `Extraction.Collector.Record` | tk_compilar_tecnologias_.py:47-56 | After the reads: a failed technology read adds one log entry naming the sheet, the file and the failure; otherwise the sheet's records are appended and the log is unchanged. |
| `Extraction.Collector.Emit` | tk_compilar_tecnologias_.py:47-53 | Appends exactly the sheet's records in order and leaves the log alone. |
| `Extraction.Collector.ProcessFile` | tk_compilar_tecnologias_.py:29-56 | Processes every dictionary entry in order, appending each sheet's records and log entries. |
| `Summary.Teams` | tk_compilar_tecnologias_.py:77 | Definition of the `groupby('Equipe')` groups: the set of teams of the records. |
| `Summary.CollaboratorSet` | tk_compilar_tecnologias_.py:77 | Definition of `set(x)` for one group: the collaborators of the records of that team. |
| `Summary.Collaborators` | tk_compilar_tecnologias_.py:77 | A team's collaborator column holds exactly the collaborators of that team's records. |
| `Summary.CollaboratorsNamed` | tk_compilar_tecnologias_.py:81 | When every record has a first name, so does every collaborator of every team. |
| `Summary.FirstNames` | tk_compilar_tecnologias_.py:81 | One first name per collaborator. |
| `Summary.Summarize` | tk_compilar_tecnologias_.py:71-84 | Definition: no summary for an empty table, `MalformedName` where `split()[0]` would raise, and otherwise a map from each team of the records to its `Line`. |
| `Summary.Line` | tk_compilar_tecnologias_.py:79-82 | Definition of one team's line: its distinct collaborators, their first tokens, and the count of those first names. |
| `Summary.SummaryShape` | tk_compilar_tecnologias_.py:71-84 | No summary iff there are no records. A summary has one line per team of the records. |
| `Summary.LineCount` | tk_compilar_tecnologias_.py:77-82 | A line's count is the number of distinct collaborator strings of its team, with one first name each. |
| `Summary.TeamCount` | tk_compilar_tecnologias_.py:77-82 | Each reported team has a count of at least one, equal to its number of distinct collaborators, and that many first names. |
| `Summary.FirstNamesOfCollaborators` | tk_compilar_tecnologias_.py:79-81 | The i-th first name is the first token of the i-th distinct collaborator, who belongs to that team. |
| `Summary.WellFormedRecordsAreNamed` | tk_compilar_tecnologias_.py:81 | For extracted records `split()[0]` never fails. |
| `Summary.ReportKindIgnoresOrder` | tk_compilar_tecnologias_.py:71-77 | Reordering the records changes neither the kind of outcome nor the set of teams. |
| `Summary.SummaryIgnoresOrder` | tk_compilar_tecnologias_.py:77-82 | Reordering the records changes no team's count. |
| `Summary.TwoCollaboratorsLine` | tk_compilar_tecnologias_.py:77-81 | Two different collaborators "w1 r1" and "w2 r2" of one team: the line lists both in record order, counts 2, and has first names w1 and w2. |
| `Summary.TwoCollaboratorsSummary` | tk_compilar_tecnologias_.py:71-82 | The summary of those two records has exactly one line, for their team, with count 2 and first names w1 and w2 ("John Doe" and "Jane Roe" give John and Jane). |
| `Pipeline.ProcessDirectory` | tk_compilar_tecnologias_.py:11-84 | The table is all the records of the `.ods` files in listing order. The log is the earlier log followed by this run's entries. Every record is well formed, and the summary never fails on a first name. |
| `Pipeline.OtherFilesIgnored` | tk_compilar_tecnologias_.py:12 | A file not ending in ".ods", wherever it stands in the listing, changes neither the files processed nor what the run collects. |
| `Pipeline.FilesHarvestSplit` | tk_compilar_tecnologias_.py:64-65 | Files are independent: the run over two parts of a listing is the run over each, in order. |
| `Pipeline.RunSummary` | tk_compilar_tecnologias_.py:71 | For the run's records, no summary iff there is no record; otherwise one line per team. |

## Left out

- The tkinter/ttkbootstrap window, the progress bar, the result text widget and the directory
  label (lines 58-68, 74, 84, 86 onwards) are user interface. The model returns the summary
  instead of printing it.
- The worker thread (lines 98-99) is left out. The run itself is sequential.
- `os.listdir`, `os.path.join` and `pe.get_book` are file I/O. A directory listing is given
  as a sequence of documents, each a name and an opened workbook (`Book`: its sheet names
  and its sheets). A workbook that cannot be opened makes `get_book` raise outside any
  `try`, which aborts the whole run; the model assumes every listed file opens.
- The pandas export to `dados_coletados.xlsx` is left out. The table is the returned record
  sequence, and the file would be written only when it is non-empty (`Summary.NoRecords`).
- Appending to `log_erros.txt` is modelled as a sequence of entries that only grows. An entry
  names the sheet, the file and the kind of failure, not the exception's text.
- Reading cells as strings via `str()` is left out: cells are already strings.
- `strip`, `lower` and `split` use ASCII whitespace (space and tab to carriage return) and
  ASCII letters. Python also strips other whitespace (`\x1c` to `\x1f` and non-ASCII) and
  lower-cases non-ASCII letters, so an all-capital "FUNÇÃO PRINCIPAL" label is found by the source but not by the
  model.
- The order of pandas `groupby` and of `set` iteration only affects the display. The model
  lists a team's collaborators in first-occurrence order and proves counts and first names
  against the set of collaborators, not against a list order. `Summary.SummaryIgnoresOrder`
  states that counts do not depend on record order.
- `Summary.Summarize` has a `MalformedName` outcome for a collaborator without a first token,
  where the source raises IndexError outside any `try`. `Pipeline.ProcessDirectory` proves
  that this never happens for records the run collected.
- The sentinel for a sheet without technology is "Vazio" (line 49), which is
  `Extraction.NoTechnology`.
