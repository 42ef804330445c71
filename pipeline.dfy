/**
 * One run over a directory: open every `.ods` file of the listing in order,
 * collect the records of all their sheets, append a log entry for each sheet
 * that fails, and summarise the records by team.
 */
module Pipeline {
  import opened Text
  import opened Seqs
  import opened Extraction
  import opened Summary

  /** Processing one more file appends what that file yields. */
  lemma FilesHarvestStep(files: seq<Document>, i: nat)
    requires i < |files|
    ensures FilesHarvest(files[..i + 1]) == Join(FilesHarvest(files[..i]), FileHarvest(files[i]))
  {
    assert files[..i + 1][..i] == files[..i];
  }

  /**
   * `processar_planilhas` without its widgets: the record table handed to the
   * export, the log after the run, and the summary shown to the user.
   */
  method ProcessDirectory(listing: seq<Document>, priorLog: seq<LogEntry>)
      returns (table: seq<Row>, log: seq<LogEntry>, report: Report)
    ensures table == FilesHarvest(OdsFiles(listing)).rows
    ensures log == priorLog + FilesHarvest(OdsFiles(listing)).log
    ensures forall row :: row in table ==> WellFormed(row)
    ensures report == Summarize(table) && report != MalformedName
  {
    var files := OdsFiles(listing);
    var c := new Collector(priorLog);
    for i := 0 to |files|
      invariant c.Valid()
      invariant c.rows == FilesHarvest(files[..i]).rows
      invariant c.log == priorLog + FilesHarvest(files[..i]).log
    {
      ghost var done := FilesHarvest(files[..i]);
      ghost var next := FileHarvest(files[i]);
      ghost var log0 := c.log;
      c.ProcessFile(files[i]);
      FilesHarvestStep(files, i);
      JoinAppends(priorLog, log0, c.log, done.log, next.log);
    }
    assert files[..|files|] == files;
    table, log := c.rows, c.log;
    WellFormedRecordsAreNamed(table);
    report := Summarize(table);
  }

  /** A file whose name does not end in `.ods`, wherever it is in the listing, changes nothing in a run. */
  lemma OtherFilesIgnored(a: seq<Document>, other: Document, b: seq<Document>)
    requires !EndsWith(other.name, SpreadsheetSuffix)
    ensures OdsFiles(a + [other] + b) == OdsFiles(a + b)
    ensures FilesHarvest(OdsFiles(a + [other] + b)) == FilesHarvest(OdsFiles(a + b))
  {
    var keep := (d: Document) => EndsWith(d.name, SpreadsheetSuffix);
    FilterConcat(keep, a + [other], b);
    FilterConcat(keep, a, [other]);
    FilterConcat(keep, a, b);
    assert Filter(keep, [other]) == [] by {
      assert [other][1..] == [];
    }
    assert Filter(keep, a) + [] == Filter(keep, a);
  }

  /** Files are independent: a run over two parts of a listing is the run over the first followed by the run over the second. */
  lemma FilesHarvestSplit(a: seq<Document>, b: seq<Document>)
    ensures FilesHarvest(OdsFiles(a + b)) == Join(FilesHarvest(OdsFiles(a)), FilesHarvest(OdsFiles(b)))
  {
    var keep := (d: Document) => EndsWith(d.name, SpreadsheetSuffix);
    FilterConcat(keep, a, b);
    CollectSplit(FileHarvest, OdsFiles(a), OdsFiles(b));
  }

  /** Nothing is summarised when no record was collected; otherwise every team of the table has its line. */
  lemma RunSummary(table: seq<Row>)
    requires forall row :: row in table ==> WellFormed(row)
    ensures Summarize(table).NoRecords? <==> table == []
    ensures table != [] ==> Summarize(table).Report? && Summarize(table).teams.Keys == Teams(table)
  {
    WellFormedRecordsAreNamed(table);
    SummaryShape(table);
  }
}
