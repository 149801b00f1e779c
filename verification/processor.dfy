/** `process` and `processOriginal`: the input guards, then trim, split,
    classify, extract and emit one record per detail line. */
module Processor {
  import opened Wrappers
  import opened Text
  import opened Records
  import opened Patterns
  import opened Lines
  import opened Extract

  /** The stage configuration. `outputField` is part of it but the
      processor never reads it. */
  datatype Config = Config(
    fieldPathToParse: string,
    keepOriginalFields: bool,
    outputField: string,
    detailLineField: string,
    headerExtractorConfigs: seq<ExtractorConfig>,
    nofHeaderLines: Option<int>)

  /** The outcome for one input record: the records handed to the batch
      maker, in order, or the exception; and the pattern table afterwards. */
  datatype Processed<P> = Processed(records: Result<seq<Fields>, ProcessError>, patterns: map<string, P>)

  function Regexes(configs: seq<ExtractorConfig>): (r: seq<string>)
    ensures |r| == |configs|
    ensures forall i :: 0 <= i < |configs| ==> r[i] == configs[i].regex
  {
    seq(|configs|, i requires 0 <= i < |configs| => configs[i].regex)
  }

  /** `init`: every configured pattern compiled into a fresh table. */
  function InitPatterns<P>(cfg: Config, engine: Engine<P>): (r: map<string, P>)
    ensures forall i :: 0 <= i < |cfg.headerExtractorConfigs| ==> cfg.headerExtractorConfigs[i].regex in r
    ensures Coherent(engine.compile, r)
  {
    Init(engine.compile, Regexes(cfg.headerExtractorConfigs))
  }

  /** The emission loop: one snapshot of the record per detail line, in
      order, with the detail field set last so that it overrides a header
      field of the same name; every other field is the record's. */
  function Emit(fields: Fields, detailField: string, details: seq<string>): (r: seq<Fields>)
    ensures |r| == |details|
    ensures forall i :: 0 <= i < |r| ==>
              detailField in r[i] && r[i][detailField] == StringField(Some(details[i]))
    ensures forall i, k :: 0 <= i < |r| && k != detailField ==>
              (k in r[i] <==> k in fields) && (k in fields ==> r[i][k] == fields[k])
  {
    seq(|details|, i requires 0 <= i < |details| => fields[detailField := StringField(Some(details[i]))])
  }

  /** One record per detail line, the i-th carrying detail i, all agreeing
      on every field but the detail field. */
  ghost predicate OnePerDetail(records: seq<Fields>, detailField: string, details: seq<string>) {
    && |records| == |details|
    && (forall i :: 0 <= i < |records| ==>
          detailField in records[i] && records[i][detailField] == StringField(Some(details[i])))
    && (forall i, j, k :: 0 <= i < |records| && 0 <= j < |records| && k != detailField ==>
          (k in records[i] <==> k in records[j]) && (k in records[i] ==> records[i][k] == records[j][k]))
  }

  lemma EmitShape(fields: Fields, detailField: string, details: seq<string>)
    ensures OnePerDetail(Emit(fields, detailField, details), detailField, details)
  {
    var r := Emit(fields, detailField, details);
    forall i, j, k | 0 <= i < |r| && 0 <= j < |r| && k != detailField
      ensures (k in r[i] <==> k in r[j]) && (k in r[i] ==> r[i][k] == r[j][k])
    {
      assert k in r[i] <==> k in fields;
      assert k in r[j] <==> k in fields;
    }
  }

  /** The fields the output record starts with: a copy of the input's root
      map, or an empty map. */
  function BaseFields(cfg: Config, root: Field): Fields {
    if cfg.keepOriginalFields && root.IsMapLike() then root.entries else map[]
  }

  /** `processOriginal` for the text of the target field. */
  function ProcessText<P>(cfg: Config, engine: Engine<P>, patterns: map<string, P>, root: Field, text: string): Processed<P> {
    var lines := Split(Trim(text));
    var scan := Classify(cfg.nofHeaderLines, lines);
    var x := ExtractAll(engine, patterns, scan.headers, cfg.headerExtractorConfigs, BaseFields(cfg, root));
    match x.fields
    case Failure(err) => Processed(Failure(err), x.patterns)
    case Success(fields) => Processed(Success(Emit(fields, cfg.detailLineField, scan.details)), x.patterns)
  }

  /** `process`: the three guards in their order, then `processOriginal`. */
  function Process<P>(cfg: Config, engine: Engine<P>, patterns: map<string, P>, root: Field): (r: Processed<P>)
    ensures cfg.keepOriginalFields && !root.IsMapLike() ==>
              r == Processed(Failure(InvalidInputType(root.Type())), patterns)
    ensures !(cfg.keepOriginalFields && !root.IsMapLike()) && FieldAt(root, cfg.fieldPathToParse).None? ==>
              r == Processed(Success([]), patterns)
    ensures !(cfg.keepOriginalFields && !root.IsMapLike()) && FieldAt(root, cfg.fieldPathToParse).Some?
            && !FieldAt(root, cfg.fieldPathToParse).value.StringField? ==>
              r == Processed(Failure(InvalidInputType(FieldAt(root, cfg.fieldPathToParse).value.Type())), patterns)
    ensures FieldAt(root, cfg.fieldPathToParse) == Some(StringField(None)) ==> r.records.Failure?
  {
    if cfg.keepOriginalFields && !root.IsMapLike() then
      Processed(Failure(InvalidInputType(root.Type())), patterns)
    else
      match FieldAt(root, cfg.fieldPathToParse)
      case None => Processed(Success([]), patterns)
      case Some(original) =>
        if !original.StringField? then
          Processed(Failure(InvalidInputType(original.Type())), patterns)
        else if original.text.None? then
          Processed(Failure(NullStringValue), patterns)
        else
          ProcessText(cfg, engine, patterns, root, original.text.value)
  }

  // ----- Properties of a whole record -----

  /** What a record whose target field holds `text` yields, described
      without the loops or the pattern table: the text is trimmed and split
      into lines, the lines are sectioned at the boundary, the extractor
      entries are written over the base fields in config order (or the first
      config's exception aborts the record), and one record per detail line
      follows, in order. */
  lemma ProcessParsesDocument<P>(cfg: Config, engine: Engine<P>, patterns: map<string, P>, root: Field, text: string)
    requires Coherent(engine.compile, patterns)
    requires !cfg.keepOriginalFields || root.IsMapLike()
    requires FieldAt(root, cfg.fieldPathToParse) == Some(StringField(Some(text)))
    ensures var s := Sections(cfg.nofHeaderLines, Split(Trim(text)));
            var r := Process(cfg, engine, patterns, root).records;
            match Entries(engine, s.headers, cfg.headerExtractorConfigs)
            case Failure(err) => r == Failure(err)
            case Success(es) => r == Success(Emit(Apply(BaseFields(cfg, root), es), cfg.detailLineField, s.details))
  {
    assert Process(cfg, engine, patterns, root) == ProcessText(cfg, engine, patterns, root, text);
    var lines := Split(Trim(text));
    ClassifyIsSections(cfg.nofHeaderLines, lines);
    var scan := Classify(cfg.nofHeaderLines, lines);
    var base := BaseFields(cfg, root);
    ExtractAllIsEntries(engine, patterns, scan.headers, cfg.headerExtractorConfigs, base);
    var x := ExtractAll(engine, patterns, scan.headers, cfg.headerExtractorConfigs, base);
    var es := Entries(engine, scan.headers, cfg.headerExtractorConfigs);
    assert x.fields.Success? <==> es.Success?;
  }

  /** Memoisation does not change the output: any two coherent tables give
      the same records (or the same exception). */
  lemma ProcessIgnoresTable<P>(cfg: Config, engine: Engine<P>, p1: map<string, P>, p2: map<string, P>, root: Field)
    requires Coherent(engine.compile, p1) && Coherent(engine.compile, p2)
    ensures Process(cfg, engine, p1, root).records == Process(cfg, engine, p2, root).records
  {
    if !(cfg.keepOriginalFields && !root.IsMapLike()) {
      var target := FieldAt(root, cfg.fieldPathToParse);
      if target.Some? && target.value.StringField? && target.value.text.Some? {
        ProcessParsesDocument(cfg, engine, p1, root, target.value.text.value);
        ProcessParsesDocument(cfg, engine, p2, root, target.value.text.value);
      }
    }
  }

  /** After `init` the table is never written again: processing leaves a
      table holding every configured pattern as it was. */
  lemma ProcessKeepsInitialisedTable<P>(cfg: Config, engine: Engine<P>, patterns: map<string, P>, root: Field)
    requires forall i :: 0 <= i < |cfg.headerExtractorConfigs| ==> cfg.headerExtractorConfigs[i].regex in patterns
    ensures Process(cfg, engine, patterns, root).patterns == patterns
  {
    if !(cfg.keepOriginalFields && !root.IsMapLike()) {
      var target := FieldAt(root, cfg.fieldPathToParse);
      if target.Some? && target.value.StringField? && target.value.text.Some? {
        var lines := Split(Trim(target.value.text.value));
        ExtractAllKeepsTable(engine, patterns, Classify(cfg.nofHeaderLines, lines).headers,
                             cfg.headerExtractorConfigs, BaseFields(cfg, root));
      }
    }
  }

  /** A blank text has no lines, so no header lines: with no extractor it
      yields no records, and otherwise the first extractor aborts the
      record. */
  lemma BlankTextEmitsNothing<P>(cfg: Config, engine: Engine<P>, patterns: map<string, P>, root: Field, text: string)
    requires !cfg.keepOriginalFields || root.IsMapLike()
    requires FieldAt(root, cfg.fieldPathToParse) == Some(StringField(Some(text)))
    requires AllTrimmable(text)
    ensures Process(cfg, engine, patterns, root).records
            == if |cfg.headerExtractorConfigs| == 0 then Success([])
               else Failure(HeaderLineOutOfRange(cfg.headerExtractorConfigs[0].lineNumber))
  {
    assert Split(Trim(text)) == [];
    assert Classify(cfg.nofHeaderLines, []) == Start;
  }

  /** Without a header cap there are never header lines, so any extractor
      aborts every record that reaches the extraction loop. */
  lemma UncappedExtractorFails<P>(cfg: Config, engine: Engine<P>, patterns: map<string, P>, root: Field, text: string)
    requires cfg.nofHeaderLines.None? && |cfg.headerExtractorConfigs| > 0
    requires !cfg.keepOriginalFields || root.IsMapLike()
    requires FieldAt(root, cfg.fieldPathToParse) == Some(StringField(Some(text)))
    ensures Process(cfg, engine, patterns, root).records
            == Failure(HeaderLineOutOfRange(cfg.headerExtractorConfigs[0].lineNumber))
  {
    UncappedHeaderIsEmpty(Split(Trim(text)));
  }

  /** A successful record yields exactly one record per detail line, in
      order: the i-th carries the i-th detail line, and every other field is
      the same in all of them. */
  lemma OneRecordPerDetail<P>(cfg: Config, engine: Engine<P>, patterns: map<string, P>, root: Field, text: string)
    requires Coherent(engine.compile, patterns)
    requires !cfg.keepOriginalFields || root.IsMapLike()
    requires FieldAt(root, cfg.fieldPathToParse) == Some(StringField(Some(text)))
    ensures var r := Process(cfg, engine, patterns, root).records;
            r.Success? ==> OnePerDetail(r.value, cfg.detailLineField, Sections(cfg.nofHeaderLines, Split(Trim(text))).details)
  {
    ProcessParsesDocument(cfg, engine, patterns, root, text);
    var s := Sections(cfg.nofHeaderLines, Split(Trim(text)));
    var es := Entries(engine, s.headers, cfg.headerExtractorConfigs);
    if es.Success? {
      EmitShape(Apply(BaseFields(cfg, root), es.value), cfg.detailLineField, s.details);
    }
  }
}
