/** A worked document: a two-line report header, the separator, a column
    label and two detail lines, with a toy regex engine that knows exactly
    the two patterns used. */
module Scenarios {
  import opened Wrappers
  import opened Text
  import opened Records
  import opened Patterns
  import opened Lines
  import opened Extract
  import opened Processor

  const ReportLines: seq<string> := ["Report: Daily", "Date: 2024-01-01", "-----", "Column", "foo,1", "bar,2"]

  const NamePattern: string := "(\\w+): (\\w+)"
  const DatePattern: string := "(Date): (\\S+)"

  /** A toy engine that answers only the two queries the scenario makes:
      each pattern on its own header line, with the groups Java's engine
      finds there. Every other query finds no match, which is not what the
      real patterns do (the first would also match inside the date line). */
  function ReportFind(p: string, line: string): Option<Match> {
    if p == NamePattern && line == "Report: Daily" then
      Some(Match([Some(line), Some("Report"), Some("Daily")]))
    else if p == DatePattern && line == "Date: 2024-01-01" then
      Some(Match([Some(line), Some("Date"), Some("2024-01-01")]))
    else None
  }

  function ReportEngine(): Engine<string> {
    Engine(s => s, ReportFind)
  }

  function ReportConfig(cap: Option<int>): Config {
    Config("text", false, "out", "line",
           [ExtractorConfig(1, NamePattern, Some("")), ExtractorConfig(2, DatePattern, Some("date"))],
           cap)
  }

  function ReportRecord(text: string): Field {
    MapField(map["text" := StringField(Some(text))])
  }

  lemma ReportTextIsLines()
    ensures Split(Trim(Join(ReportLines))) == ReportLines
  {
    assert IsLine(ReportLines[0]);
    assert IsLine(ReportLines[1]);
    assert IsLine(ReportLines[2]);
    assert IsLine(ReportLines[3]);
    assert IsLine(ReportLines[4]);
    assert IsLine(ReportLines[5]);
    var doc := Join(ReportLines);
    JoinEnds(ReportLines);
    TrimOfPadded([], doc, []);
    assert [] + doc + [] == doc;
    SplitJoin(ReportLines);
  }

  lemma ReportSections()
    ensures Sections(Some(2), ReportLines)
            == Scan(InDetail, ["Report: Daily", "Date: 2024-01-01"], Some("Column"), ["foo,1", "bar,2"])
  {
    assert !EndsHeader(Some(2), 0, ReportLines[0]);
    assert !EndsHeader(Some(2), 1, ReportLines[1]);
    assert EndsHeader(Some(2), 2, ReportLines[2]);
    assert Boundary(Some(2), ReportLines) == 2;
  }

  lemma ReportEntries()
    ensures Entries(ReportEngine(), ["Report: Daily", "Date: 2024-01-01"], ReportConfig(Some(2)).headerExtractorConfigs)
            == Success([Entry("Report", Some("Daily")), Entry("date", Some("2024-01-01"))])
  {
    var headers := ["Report: Daily", "Date: 2024-01-01"];
    var engine := ReportEngine();
    var cs := ReportConfig(Some(2)).headerExtractorConfigs;
    assert Contribution(engine, headers, cs[0]) == Success(Some(Entry("Report", Some("Daily"))));
    assert Contribution(engine, headers, cs[1]) == Success(Some(Entry("date", Some("2024-01-01"))));
    var e0 := Entry("Report", Some("Daily"));
    var e1 := Entry("date", Some("2024-01-01"));
    assert cs[1..][0] == cs[1];
    assert cs[1..][1..] == [];
    assert Entries(engine, headers, cs[1..][1..]) == Success([]);
    assert [e1] + [] == [e1];
    assert Entries(engine, headers, cs[1..]) == Success([e1]);
    assert [e0] + [e1] == [e0, e1];
  }

  const ReportHeader: Fields := map["Report" := StringField(Some("Daily")), "date" := StringField(Some("2024-01-01"))]

  const ReportEntryList: seq<Entry> := [Entry("Report", Some("Daily")), Entry("date", Some("2024-01-01"))]

  lemma ReportHeaderFields()
    ensures Apply(map[], ReportEntryList) == ReportHeader
  {
    assert ReportEntryList[1..][1..] == [];
  }

  lemma ReportParsed()
    ensures Process(ReportConfig(Some(2)), ReportEngine(), map[], ReportRecord(Join(ReportLines))).records
            == Success(Emit(Apply(map[], ReportEntryList), "line", ["foo,1", "bar,2"]))
  {
    var cfg := ReportConfig(Some(2));
    var doc := Join(ReportLines);
    var root := ReportRecord(doc);
    ReportTextIsLines();
    ReportSections();
    ReportEntries();
    assert FieldAt(root, cfg.fieldPathToParse) == Some(StringField(Some(doc)));
    assert BaseFields(cfg, root) == map[];
    ProcessParsesDocument(cfg, ReportEngine(), map[], root, doc);
  }

  lemma ReportProcessIsEmit()
    ensures Process(ReportConfig(Some(2)), ReportEngine(), map[], ReportRecord(Join(ReportLines))).records
            == Success(Emit(ReportHeader, "line", ["foo,1", "bar,2"]))
  {
    ReportParsed();
    ReportHeaderFields();
  }

  /** With a cap of two header lines the document yields one record per
      detail line, each carrying both header fields. */
  lemma CappedReportYieldsTwoRecords()
    ensures Process(ReportConfig(Some(2)), ReportEngine(), map[], ReportRecord(Join(ReportLines))).records
            == Success([ReportHeader["line" := StringField(Some("foo,1"))],
                        ReportHeader["line" := StringField(Some("bar,2"))]])
  {
    ReportProcessIsEmit();
    var out := Emit(ReportHeader, "line", ["foo,1", "bar,2"]);
    assert out == [ReportHeader["line" := StringField(Some("foo,1"))],
                   ReportHeader["line" := StringField(Some("bar,2"))]];
  }

  /** Without a cap the same document has no header lines, so the first
      extractor aborts the record. */
  lemma UncappedReportFails()
    ensures Process(ReportConfig(None), ReportEngine(), map[], ReportRecord(Join(ReportLines))).records
            == Failure(HeaderLineOutOfRange(1))
  {
    UncappedExtractorFails(ReportConfig(None), ReportEngine(), map[], ReportRecord(Join(ReportLines)), Join(ReportLines));
  }
}
