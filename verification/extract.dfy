/** The header-field extraction loop of `processOriginal`: each extractor
    config, in order, picks one header line, runs find-first matching on it
    and, on a match, writes one field. */
module Extract {
  import opened Wrappers
  import opened Records
  import opened Patterns

  /** One header extractor: a 1-based header line number, a regular
      expression and an optional output field name. */
  datatype ExtractorConfig = ExtractorConfig(lineNumber: int, regex: string, key: Option<string>)

  /** A configured name is used only when it is non-null and non-empty. */
  predicate HasExplicitKey(c: ExtractorConfig) {
    c.key.Some? && |c.key.value| > 0
  }

  /** One field write. */
  datatype Entry = Entry(key: string, value: Option<string>)

  /** `matcher.group(g)`: the text of group `g`, failing when the pattern
      has fewer groups. */
  function Group(m: Match, g: nat): Result<Option<string>, ProcessError> {
    if g < |m.groups| then Success(m.groups[g]) else Failure(NoSuchGroup(g))
  }

  /** Java renders a null group text as "null" when it builds the field
      path `"/" + key`. */
  function KeyName(g: Option<string>): string {
    if g.Some? then g.value else "null"
  }

  /** The field written for a match: the configured name, else the text of
      group 1; the value is the text of group 2. Group 1 is read first, so a
      pattern with no groups fails on group 1, one with a single group on
      group 2. */
  function MatchedEntry(c: ExtractorConfig, m: Match): (r: Result<Entry, ProcessError>)
    ensures r.Success? <==> 2 < |m.groups|
    ensures r.Success? ==> r.value.value == m.groups[2]
    ensures r.Success? ==> r.value.key == (if HasExplicitKey(c) then c.key.value else KeyName(m.groups[1]))
    ensures r.Failure? ==> r.error == NoSuchGroup(if HasExplicitKey(c) || 1 < |m.groups| then 2 else 1)
  {
    var key :- if HasExplicitKey(c) then Success(c.key.value) else
                 var g :- Group(m, 1);
                 Success(KeyName(g));
    var value :- Group(m, 2);
    Success(Entry(key, value))
  }

  /** What one config contributes when patterns are compiled afresh: an
      error when its line number is not a header line, nothing when its
      pattern does not match, else one entry. */
  function Contribution<P>(engine: Engine<P>, headers: seq<string>, c: ExtractorConfig): Result<Option<Entry>, ProcessError> {
    if !(1 <= c.lineNumber <= |headers|) then Failure(HeaderLineOutOfRange(c.lineNumber))
    else
      match engine.find(engine.compile(c.regex), headers[c.lineNumber - 1])
      case None => Success(None)
      case Some(m) =>
        var e :- MatchedEntry(c, m);
        Success(Some(e))
  }

  /** The entries of all configs in order, or the first error. */
  function Entries<P>(engine: Engine<P>, headers: seq<string>, configs: seq<ExtractorConfig>): Result<seq<Entry>, ProcessError>
    decreases |configs|
  {
    if |configs| == 0 then Success([])
    else
      var first :- Contribution(engine, headers, configs[0]);
      var rest :- Entries(engine, headers, configs[1..]);
      Success((if first.Some? then [first.value] else []) + rest)
  }

  /** The fields after writing the entries in order. */
  function Apply(fields: Fields, es: seq<Entry>): Fields
    decreases |es|
  {
    if |es| == 0 then fields
    else Apply(fields[es[0].key := StringField(es[0].value)], es[1..])
  }

  /** A key no entry writes keeps its value, or stays absent. */
  lemma {:induction false} ApplyUntouched(fields: Fields, es: seq<Entry>, k: string)
    requires forall i :: 0 <= i < |es| ==> es[i].key != k
    ensures k in Apply(fields, es) <==> k in fields
    ensures k in fields ==> Apply(fields, es)[k] == fields[k]
    decreases |es|
  {
    if |es| > 0 {
      ApplyUntouched(fields[es[0].key := StringField(es[0].value)], es[1..], k);
    }
  }

  /** Last write wins: a key ends up with the value of the last entry that
      writes it. */
  lemma {:induction false} ApplyLastWriteWins(fields: Fields, es: seq<Entry>, j: nat)
    requires j < |es|
    requires forall i :: j < i < |es| ==> es[i].key != es[j].key
    ensures es[j].key in Apply(fields, es)
    ensures Apply(fields, es)[es[j].key] == StringField(es[j].value)
    decreases |es|
  {
    var next := fields[es[0].key := StringField(es[0].value)];
    if j == 0 {
      ApplyUntouched(next, es[1..], es[0].key);
    } else {
      ApplyLastWriteWins(next, es[1..], j - 1);
    }
  }

  /** The state the loop carries: the record's fields, or the exception
      that aborted it, and the pattern table, which a lookup may have grown
      even when the record failed later. */
  datatype Extraction<P> = Extraction(fields: Result<Fields, ProcessError>, patterns: map<string, P>)

  /** One iteration: `headers.get(lineNumber - 1)` (which throws before the
      pattern is looked up), `getPattern`, `find`, and on a match one
      `record.set`. */
  function ExtractOne<P>(engine: Engine<P>, patterns: map<string, P>, headers: seq<string>,
                         c: ExtractorConfig, fields: Fields): (r: Extraction<P>)
    ensures !(1 <= c.lineNumber <= |headers|) ==>
              r == Extraction(Failure(HeaderLineOutOfRange(c.lineNumber)), patterns)
    ensures 1 <= c.lineNumber <= |headers| ==> r.patterns == GetPattern(engine.compile, patterns, c.regex).1
    ensures Coherent(engine.compile, patterns) ==>
              var x := Contribution(engine, headers, c);
              && (x.Failure? ==> r.fields == Failure(x.error))
              && (x == Success(None) ==> r.fields == Success(fields))
              && (x.Success? && x.value.Some? ==>
                    r.fields == Success(fields[x.value.value.key := StringField(x.value.value.value)]))
  {
    if !(1 <= c.lineNumber <= |headers|) then
      Extraction(Failure(HeaderLineOutOfRange(c.lineNumber)), patterns)
    else
      var header := headers[c.lineNumber - 1];
      var (p, patterns') := GetPattern(engine.compile, patterns, c.regex);
      match engine.find(p, header)
      case None => Extraction(Success(fields), patterns')
      case Some(m) =>
        match MatchedEntry(c, m)
        case Failure(err) => Extraction(Failure(err), patterns')
        case Success(e) => Extraction(Success(fields[e.key := StringField(e.value)]), patterns')
  }

  /** The loop over the configs, in order, stopping at the first exception. */
  function ExtractAll<P>(engine: Engine<P>, patterns: map<string, P>, headers: seq<string>,
                         configs: seq<ExtractorConfig>, fields: Fields): Extraction<P>
    decreases |configs|
  {
    if |configs| == 0 then Extraction(Success(fields), patterns)
    else
      var step := ExtractOne(engine, patterns, headers, configs[0], fields);
      match step.fields
      case Failure(_) => step
      case Success(next) => ExtractAll(engine, step.patterns, headers, configs[1..], next)
  }

  /** The loop with the pattern table is the cache-free description: it
      fails exactly when some config fails, with the first config's error,
      and otherwise writes the entries in order. The table stays coherent. */
  lemma {:induction false} ExtractAllIsEntries<P>(engine: Engine<P>, patterns: map<string, P>, headers: seq<string>,
                                                   configs: seq<ExtractorConfig>, fields: Fields)
    requires Coherent(engine.compile, patterns)
    ensures var x := ExtractAll(engine, patterns, headers, configs, fields);
            && Coherent(engine.compile, x.patterns)
            && match Entries(engine, headers, configs)
               case Failure(err) => x.fields == Failure(err)
               case Success(es) => x.fields == Success(Apply(fields, es))
    decreases |configs|
  {
    if |configs| > 0 {
      var step := ExtractOne(engine, patterns, headers, configs[0], fields);
      if 1 <= configs[0].lineNumber <= |headers| {
        GetPatternCoherent(engine.compile, patterns, configs[0].regex);
      }
      if step.fields.Success? {
        ExtractAllIsEntries(engine, step.patterns, headers, configs[1..], step.fields.value);
        var first := Contribution(engine, headers, configs[0]);
        var rest := Entries(engine, headers, configs[1..]);
        if first.Success? && rest.Success? {
          if first.value.Some? {
            assert ([first.value.value] + rest.value)[1..] == rest.value;
          } else {
            assert [] + rest.value == rest.value;
          }
        }
      }
    }
  }

  /** A config whose line number is not a header line aborts the record: it
      is never skipped. */
  lemma {:induction false} OutOfRangeLineFails<P>(engine: Engine<P>, patterns: map<string, P>, headers: seq<string>,
                                                  configs: seq<ExtractorConfig>, fields: Fields, j: nat)
    requires j < |configs|
    requires !(1 <= configs[j].lineNumber <= |headers|)
    ensures ExtractAll(engine, patterns, headers, configs, fields).fields.Failure?
    decreases j
  {
    if j > 0 {
      var step := ExtractOne(engine, patterns, headers, configs[0], fields);
      if step.fields.Success? {
        OutOfRangeLineFails(engine, step.patterns, headers, configs[1..], step.fields.value, j - 1);
      }
    }
  }

  /** With every configured text already in the table (as after `init`),
      extraction never grows it. */
  lemma {:induction false} ExtractAllKeepsTable<P>(engine: Engine<P>, patterns: map<string, P>, headers: seq<string>,
                                                   configs: seq<ExtractorConfig>, fields: Fields)
    requires forall i :: 0 <= i < |configs| ==> configs[i].regex in patterns
    ensures ExtractAll(engine, patterns, headers, configs, fields).patterns == patterns
    decreases |configs|
  {
    if |configs| > 0 {
      var step := ExtractOne(engine, patterns, headers, configs[0], fields);
      assert step.patterns == patterns;
      if step.fields.Success? {
        ExtractAllKeepsTable(engine, patterns, headers, configs[1..], step.fields.value);
      }
    }
  }
}
