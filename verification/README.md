# Header/detail parser — a Dafny model

This project models the header/detail splitter of the StreamSets processor
`HeaderDetailParserProcessor`. For each input record the processor does four things:

1. It reads one text field, trims it and splits it into lines on line feeds.
2. It sorts the lines into header lines, one boundary line, a detail
   column-header label and detail lines.
3. It pulls named fields out of chosen header lines with regular expressions.
4. It emits one record per detail line. Each record carries the extracted
   header fields and the detail line.

The processor also keeps a memoising table of compiled patterns, which `init` fills in.

Modules (one file each):

- `Wrappers` (`wrappers.dfy`): `Option` (Java's `null`) and `Result` (an
  exception that aborts the record).
- `Text` (`text.dfy`): `String.trim()` and `StringUtils.split(text, "\n")`,
  each defined directly. Their partners are `Join` and a padding
  characterisation.
- `Records` (`records.dfy`): the record fields and their type tags, plus the
  per-record errors.
- `Patterns` (`patterns.dfy`): the regex engine, left uninterpreted as
  `Engine(compile, find)` over a compiled-pattern type `P`. Also `getPattern` and `init`.
- `Lines` (`lines.dfy`): the classification loop. It appears three ways:
  - as a step function folded over the lines;
  - as the loop written with the source's two flags;
  - as an independent description (`Sections`) that cuts the lines at the
    boundary index.
- `Extract` (`extract.dfy`): the extraction loop. It threads the pattern table
  through, and a cache-free description (`Entries`, `Apply`) serves as its partner.
- `Processor` (`processor.dfy`): `process` (the input guards) and
  `processOriginal`, plus theorems about a whole record.
- `Scenarios` (`scenarios.dfy`): one worked document, a daily report.

## Corner cases of the code

The code behaves in several ways a reader might not expect, and the model
keeps every one of them:

- The line that ends the header is consumed and never looked at again. This
  holds for both the separator `-----` and the line at the header cap. The
  line after it becomes the label (`Lines.LinesAccounted`).
- Without a header cap (`getNofHeaderLines() == null`), the test at line 123
  is true on the first line, so the first line always ends the header. The
  header is therefore always empty (`Lines.UncappedHeaderIsEmpty`). As a
  result, any extractor config aborts every record whose target field is a
  non-null string (`Processor.UncappedExtractorFails`). A record whose target
  field is absent still yields nothing and no error. A record that fails a
  type guard still gets `InvalidInputType`.
- If an extractor's `lineNumber` is not in `1..|headers|`, `headers.get` at
  line 145 throws `IndexOutOfBoundsException`. The extractor is not skipped
  (`Extract.OutOfRangeLineFails`).
- A blank text with at least one extractor config aborts for the same reason.
  It does not produce an empty output (`Processor.BlankTextEmitsNothing`).
- A pattern with fewer than two groups compiles without complaint in `init`.
  It fails only when it matches, at `matcher.group` (lines 154 and 157).
  Group 1 is read first when no key is configured (`Extract.MatchedEntry`).
- A group that takes no part in the match is `null`:
  - as a key it becomes the field name `"null"`, because of `"/" + key`;
  - as a value it becomes a null STRING field.
- A null STRING value in the target field makes `trim()` throw
  (`NullStringValue`).
- The pattern table is mutated on a miss, even when the record later fails. So
  `Process` returns the table alongside the outcome.

## Model

| member | source | states |
|---|---|---|
| Text.Trim | headerdetailparser-lib/src/main/java/com/trivadis/streamsets/stage/processor/headerdetailparser/HeaderDetailParserProcessor.java:99 | the result neither starts nor ends with a char at or below U+0020, and it is empty exactly when the whole text consists of such chars |
| Text.TrimOfPadded | headerdetailparser-lib/src/main/java/com/trivadis/streamsets/stage/processor/headerdetailparser/HeaderDetailParserProcessor.java:99 | trimming a text padded on both sides with chars at or below U+0020 gives back exactly the unpadded text, so `Trim` is fully characterised |
| Text.Split | headerdetailparser-lib/src/main/java/com/trivadis/streamsets/stage/processor/headerdetailparser/HeaderDetailParserProcessor.java:110 | every line is non-empty and free of line feeds, and there are no lines exactly when the text holds nothing but line feeds |
| Text.SplitJoin | headerdetailparser-lib/src/main/java/com/trivadis/streamsets/stage/processor/headerdetailparser/HeaderDetailParserProcessor.java:110 | splitting non-empty LF-free lines joined by single line feeds gives the same lines back, in order |
| Text.SplitAtLF | headerdetailparser-lib/src/main/java/com/trivadis/streamsets/stage/processor/headerdetailparser/HeaderDetailParserProcessor.java:110 | every line feed is a cut: the lines of a, a line feed, then b are the lines of a followed by the lines of b, so a run of line feeds separates lines like one and adds no empty line |
| Text.SplitKeepsText | headerdetailparser-lib/src/main/java/com/trivadis/streamsets/stage/processor/headerdetailparser/HeaderDetailParserProcessor.java:110 | the lines, concatenated in order, are the text with its line feeds deleted: nothing but line feeds is lost and the order is kept |
| Lines.ClassifyLines | headerdetailparser-lib/src/main/java/com/trivadis/streamsets/stage/processor/headerdetailparser/HeaderDetailParserProcessor.java:117-137 | the loop over the two flags, as written, yields the headers, label and details of the independent boundary description |
| Lines.ScanPrefixIsSections | headerdetailparser-lib/src/main/java/com/trivadis/streamsets/stage/processor/headerdetailparser/HeaderDetailParserProcessor.java:119-137 | after every prefix of the lines, the loop state equals the boundary description: headers before the boundary, then the label, then the details |
| Lines.ClassifyIsSections | headerdetailparser-lib/src/main/java/com/trivadis/streamsets/stage/processor/headerdetailparser/HeaderDetailParserProcessor.java:117-137 | the classification of all lines equals the boundary description |
| Lines.PhaseNeverReturns | headerdetailparser-lib/src/main/java/com/trivadis/streamsets/stage/processor/headerdetailparser/HeaderDetailParserProcessor.java:120-136 | once withinHeader is false it never becomes true again, and once the label is taken parseDetailHeader stays false |
| Lines.LinesAccounted | headerdetailparser-lib/src/main/java/com/trivadis/streamsets/stage/processor/headerdetailparser/HeaderDetailParserProcessor.java:119-137 | lines = headers + boundary (0/1) + label (0/1) + details; the headers are a prefix, the label is the line after the boundary, and the details are every later line in order |
| Lines.HeadersHaveNoSeparator | headerdetailparser-lib/src/main/java/com/trivadis/streamsets/stage/processor/headerdetailparser/HeaderDetailParserProcessor.java:121-126 | the separator line never appears among the headers |
| Lines.UncappedHeaderIsEmpty | headerdetailparser-lib/src/main/java/com/trivadis/streamsets/stage/processor/headerdetailparser/HeaderDetailParserProcessor.java:123-124 | with no cap the header is empty whatever the lines are, the second line is the label and the rest are details |
| Lines.CappedHeaders | headerdetailparser-lib/src/main/java/com/trivadis/streamsets/stage/processor/headerdetailparser/HeaderDetailParserProcessor.java:119-127 | with cap n the headers are the lines before the first separator or index n, whichever comes first, so there are at most n of them |
| Patterns.GetPattern | headerdetailparser-lib/src/main/java/com/trivadis/streamsets/stage/processor/headerdetailparser/HeaderDetailParserProcessor.java:173-183 | a hit returns the stored pattern and leaves the table unchanged; a miss stores the compiled pattern under that one key only and returns it |
| Patterns.GetPatternIdempotent | headerdetailparser-lib/src/main/java/com/trivadis/streamsets/stage/processor/headerdetailparser/HeaderDetailParserProcessor.java:173-183 | a repeated lookup of the same text returns the same pattern and changes nothing |
| Patterns.GetPatternCoherent | headerdetailparser-lib/src/main/java/com/trivadis/streamsets/stage/processor/headerdetailparser/HeaderDetailParserProcessor.java:173-183 | from a table holding only compiled forms of its keys, the lookup returns the compiled pattern and keeps that property |
| Patterns.Precompile | headerdetailparser-lib/src/main/java/com/trivadis/streamsets/stage/processor/headerdetailparser/HeaderDetailParserProcessor.java:63-66 | after the loop every configured text is a key holding its compiled form, and other entries are unchanged |
| Patterns.Init | headerdetailparser-lib/src/main/java/com/trivadis/streamsets/stage/processor/headerdetailparser/HeaderDetailParserProcessor.java:56-66 | from the empty table, init leaves exactly the configured texts as keys, each holding its compiled form |
| Processor.InitPatterns | headerdetailparser-lib/src/main/java/com/trivadis/streamsets/stage/processor/headerdetailparser/HeaderDetailParserProcessor.java:59-69 | after init every configured regex is a key of the table, and the table is coherent |
| Extract.MatchedEntry | headerdetailparser-lib/src/main/java/com/trivadis/streamsets/stage/processor/headerdetailparser/HeaderDetailParserProcessor.java:149-159 | a match succeeds exactly when the pattern has a group 2; the key is the configured non-empty key, else group 1; the value is group 2; otherwise the missing group is reported |
| Extract.ExtractOne | headerdetailparser-lib/src/main/java/com/trivadis/streamsets/stage/processor/headerdetailparser/HeaderDetailParserProcessor.java:145-162 | an out-of-range line number aborts before the table is touched; with a coherent table, no match leaves the fields unchanged and a match writes exactly one field |
| Extract.ExtractAllIsEntries | headerdetailparser-lib/src/main/java/com/trivadis/streamsets/stage/processor/headerdetailparser/HeaderDetailParserProcessor.java:142-164 | the loop with the table fails with the first config's error exactly when the cache-free description does, and otherwise writes its entries in config order |
| Extract.ApplyLastWriteWins | headerdetailparser-lib/src/main/java/com/trivadis/streamsets/stage/processor/headerdetailparser/HeaderDetailParserProcessor.java:142-164 | a key ends up with the value of the last entry that writes it |
| Extract.ApplyUntouched | headerdetailparser-lib/src/main/java/com/trivadis/streamsets/stage/processor/headerdetailparser/HeaderDetailParserProcessor.java:159 | a key that no entry writes keeps its earlier value, or stays absent |
| Extract.OutOfRangeLineFails | headerdetailparser-lib/src/main/java/com/trivadis/streamsets/stage/processor/headerdetailparser/HeaderDetailParserProcessor.java:145 | any config whose line number is not a header line number makes the extraction fail; it is never skipped |
| Extract.ExtractAllKeepsTable | headerdetailparser-lib/src/main/java/com/trivadis/streamsets/stage/processor/headerdetailparser/HeaderDetailParserProcessor.java:148 | when every configured regex is already in the table, extraction leaves the table unchanged |
| Processor.Emit | headerdetailparser-lib/src/main/java/com/trivadis/streamsets/stage/processor/headerdetailparser/HeaderDetailParserProcessor.java:166-169 | there is one record per detail line, in order; record i has the detail field set to detail i, overriding a header field of that name; every other field comes from the record |
| Processor.EmitShape | headerdetailparser-lib/src/main/java/com/trivadis/streamsets/stage/processor/headerdetailparser/HeaderDetailParserProcessor.java:166-169 | the emitted list has one record per detail line; record i carries detail i, and all records agree on every other field |
| Processor.Process | headerdetailparser-lib/src/main/java/com/trivadis/streamsets/stage/processor/headerdetailparser/HeaderDetailParserProcessor.java:73-96 | checks in order: a non-map root with keepOriginalFields is an error before the field is read; an absent field yields nothing and no error; a non-STRING field is an error; a null STRING value fails |
| Processor.ProcessParsesDocument | headerdetailparser-lib/src/main/java/com/trivadis/streamsets/stage/processor/headerdetailparser/HeaderDetailParserProcessor.java:98-171 | for a string field, the records are the trimmed and split lines cut at the boundary, with the entries written over the base fields in config order, one record per detail line; or the first config's error |
| Processor.ProcessIgnoresTable | headerdetailparser-lib/src/main/java/com/trivadis/streamsets/stage/processor/headerdetailparser/HeaderDetailParserProcessor.java:148 | any two coherent pattern tables give the same output, so memoisation is invisible |
| Processor.ProcessKeepsInitialisedTable | headerdetailparser-lib/src/main/java/com/trivadis/streamsets/stage/processor/headerdetailparser/HeaderDetailParserProcessor.java:56-66 | once every configured regex is in the table, as after init, processing never writes to the table |
| Processor.BlankTextEmitsNothing | headerdetailparser-lib/src/main/java/com/trivadis/streamsets/stage/processor/headerdetailparser/HeaderDetailParserProcessor.java:99-145 | a blank text emits no record: the output is empty with no extractors, and otherwise the first extractor's line-number error |
| Processor.UncappedExtractorFails | headerdetailparser-lib/src/main/java/com/trivadis/streamsets/stage/processor/headerdetailparser/HeaderDetailParserProcessor.java:119-145 | with no cap and at least one extractor, every string field fails with the first extractor's line-number error |
| Processor.OneRecordPerDetail | headerdetailparser-lib/src/main/java/com/trivadis/streamsets/stage/processor/headerdetailparser/HeaderDetailParserProcessor.java:166-169 | a successful record produces exactly as many records as there are detail lines; the i-th carries detail i, and all of them agree on every other field |
| Scenarios.CappedReportYieldsTwoRecords | headerdetailparser-lib/src/main/java/com/trivadis/streamsets/stage/processor/headerdetailparser/HeaderDetailParserProcessor.java:98-171 | the daily-report document with cap 2 yields two records carrying Report=Daily and date=2024-01-01, with line foo,1 and line bar,2 |
| Scenarios.UncappedReportFails | headerdetailparser-lib/src/main/java/com/trivadis/streamsets/stage/processor/headerdetailparser/HeaderDetailParserProcessor.java:119-145 | the same document with no cap fails on extractor line 1 |

## Left out

- The StreamSets API surface is not modelled: `Record`, `Field`,
  `cloneRecord`/`createRecord` and `SingleLaneBatchMaker`. A record is the map
  of its root entries, and the output is the list of records handed to
  `addRecord`.
- Each emitted record is modelled as a snapshot. The source mutates and
  re-adds one record object, and whether the batch maker copies it is not
  visible in this code.
- Field paths are flat names. The nested meaning of `"/" + key`, the root
  path, and the entry order of a LIST_MAP root are not modelled.
- The `outputField` setting is carried in `Config` but has no effect, because
  the processor never reads it.
- The regular-expression engine (`Pattern`, `Matcher`) is a parameter. Its
  `compile` and `find` are arbitrary deterministic functions.
- `PatternSyntaxException` is not modelled: `compile` is total, so `init`
  cannot fail in the model.
- Logging (`LOG.info`) is not modelled. Neither are the message text and
  value renderings of `HEADERDETAILP_02`; the error carries only the field
  type.
- The `patterns == null` branches of `getPattern` are not modelled. They
  cannot be taken, because the table is created where it is declared.
- Null configuration values (a null regex, a null extractor list) are not
  modelled. Neither is the `null` result of `StringUtils.split`: its input
  is never null here.
- `Field.Type` values other than STRING, MAP, LIST_MAP and LIST are one
  `OtherField` case, named by its type tag.
- `lineNumber - 1` is 32-bit arithmetic in Java. Wrap-around changes nothing
  here: `Integer.MIN_VALUE - 1` wraps to `Integer.MAX_VALUE`, which is also
  out of range. So the model uses unbounded integers.
- `HeaderExtractorConfig` is not part of this model. Its fields are taken to
  be `int lineNumber`, `String regex` and `String key`, as the processor uses them.
- The kind of exception is not modelled. `ProcessError` says which failure
  happened (`InvalidInputType`, `NullStringValue`, `HeaderLineOutOfRange`,
  `NoSuchGroup`). It does not say how the framework handles it.
  `OnRecordErrorException`, thrown by the type guards, sends the record to
  error. The runtime exceptions (`IndexOutOfBoundsException`,
  `NullPointerException`) leave `process` altogether and are handled by the
  framework, which is not part of this model.
- Null values other than a null STRING value cannot be represented, so the
  model does not throw where the code throws `NullPointerException` on them.
  A non-STRING target field with a null value throws at line 90
  (`getValue().toString()`); the model reports `InvalidInputType` instead. A
  null root field throws at line 74, and a LIST root with a null list value
  throws at line 77 when keepOriginalFields is set. The model has no null
  root, and its error value for a LIST root is `InvalidInputType`.
- Concurrency is not modelled: each record is processed on its own.
