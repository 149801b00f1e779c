/** The line classification loop of `processOriginal`: each line becomes a
    header line, the boundary line that ends the header (dropped), the
    detail column-header label, or a detail line. */
module Lines {
  import opened Wrappers

  const Separator: string := "-----"

  /** The two flags of the loop as one state. `withinHeader` is true only in
      `WithinHeader`; `parseDetailHeader` is false only in `InDetail`. The
      fourth combination (`withinHeader` without `parseDetailHeader`) is
      never reached. */
  datatype Phase = WithinHeader | AwaitingLabel | InDetail

  /** The accumulators of the loop: `headers`, `columnHeader`, `details`. */
  datatype Scan = Scan(phase: Phase, headers: seq<string>, columnHeader: Option<string>, details: seq<string>)

  const Start: Scan := Scan(WithinHeader, [], None, [])

  /** Whether line `i` ends the header: it is the separator, or no cap is
      configured, or the cap is reached. */
  predicate EndsHeader(cap: Option<int>, i: int, line: string) {
    line == Separator || cap.None? || i >= cap.value
  }

  /** One iteration of the loop, for line `line` at index `i`. The line that
      ends the header is consumed: it is neither stored nor looked at again. */
  function Step(cap: Option<int>, st: Scan, i: int, line: string): Scan {
    match st.phase
    case WithinHeader =>
      if EndsHeader(cap, i, line) then st.(phase := AwaitingLabel)
      else st.(headers := st.headers + [line])
    case AwaitingLabel =>
      st.(phase := InDetail, columnHeader := Some(line))
    case InDetail =>
      st.(details := st.details + [line])
  }

  /** The state after the first `k` lines. */
  function ScanPrefix(cap: Option<int>, lines: seq<string>, k: nat): Scan
    requires k <= |lines|
    decreases k
  {
    if k == 0 then Start else Step(cap, ScanPrefix(cap, lines, k - 1), k - 1, lines[k - 1])
  }

  /** The state after the whole loop. */
  function Classify(cap: Option<int>, lines: seq<string>): Scan {
    ScanPrefix(cap, lines, |lines|)
  }

  // ----- An independent description of the result -----

  /** The first index at or after `from` whose line ends the header, or
      `|lines|` if there is none. */
  function HeaderEnd(cap: Option<int>, lines: seq<string>, from: nat): (b: nat)
    requires from <= |lines|
    ensures from <= b <= |lines|
    ensures forall i :: from <= i < b ==> !EndsHeader(cap, i, lines[i])
    ensures b < |lines| ==> EndsHeader(cap, b, lines[b])
    decreases |lines| - from
  {
    if from == |lines| || EndsHeader(cap, from, lines[from]) then from
    else HeaderEnd(cap, lines, from + 1)
  }

  /** The index of the boundary line, or `|lines|` when the header runs to
      the end of the text. */
  function Boundary(cap: Option<int>, lines: seq<string>): nat {
    HeaderEnd(cap, lines, 0)
  }

  /** What the first `k` lines yield, described by where the boundary is:
      the lines before it are headers, the line after it is the label and
      every later line is a detail. */
  function SectionsUpTo(cap: Option<int>, lines: seq<string>, k: nat): Scan
    requires k <= |lines|
  {
    var b := Boundary(cap, lines);
    if k <= b then Scan(WithinHeader, lines[..k], None, [])
    else if k == b + 1 then Scan(AwaitingLabel, lines[..b], None, [])
    else Scan(InDetail, lines[..b], Some(lines[b + 1]), lines[b + 2..k])
  }

  function Sections(cap: Option<int>, lines: seq<string>): Scan {
    SectionsUpTo(cap, lines, |lines|)
  }

  /** One step of the loop moves the sectioning from `k - 1` lines to `k`
      while the header is still being read. */
  lemma StepWithinHeader(cap: Option<int>, lines: seq<string>, k: nat)
    requires 0 < k <= Boundary(cap, lines) + 1 && k <= |lines|
    ensures Step(cap, SectionsUpTo(cap, lines, k - 1), k - 1, lines[k - 1]) == SectionsUpTo(cap, lines, k)
  {
    var b := Boundary(cap, lines);
    if k <= b {
      assert !EndsHeader(cap, k - 1, lines[k - 1]);
      assert lines[..k] == lines[..k - 1] + [lines[k - 1]];
    } else {
      assert EndsHeader(cap, b, lines[b]);
    }
  }

  /** One step of the loop after the boundary line. */
  lemma StepAfterHeader(cap: Option<int>, lines: seq<string>, k: nat)
    requires Boundary(cap, lines) + 2 <= k <= |lines|
    ensures Step(cap, SectionsUpTo(cap, lines, k - 1), k - 1, lines[k - 1]) == SectionsUpTo(cap, lines, k)
  {
    var b := Boundary(cap, lines);
    if k == b + 2 {
      assert lines[b + 2..k] == [];
    } else {
      assert lines[b + 2..k] == lines[b + 2..k - 1] + [lines[k - 1]];
    }
  }

  /** The loop computes the sectioning after every prefix. */
  lemma {:induction false} ScanPrefixIsSections(cap: Option<int>, lines: seq<string>, k: nat)
    requires k <= |lines|
    ensures ScanPrefix(cap, lines, k) == SectionsUpTo(cap, lines, k)
    decreases k
  {
    if k > 0 {
      ScanPrefixIsSections(cap, lines, k - 1);
      if k <= Boundary(cap, lines) + 1 {
        StepWithinHeader(cap, lines, k);
      } else {
        StepAfterHeader(cap, lines, k);
      }
    }
  }

  /** The loop agrees with the independent description. */
  lemma ClassifyIsSections(cap: Option<int>, lines: seq<string>)
    ensures Classify(cap, lines) == Sections(cap, lines)
  {
    ScanPrefixIsSections(cap, lines, |lines|);
  }

  /** How far the loop has got: the flags only ever move forward. */
  function Rank(p: Phase): nat {
    match p
    case WithinHeader => 0
    case AwaitingLabel => 1
    case InDetail => 2
  }

  /** Once `withinHeader` is false it never becomes true again, and once the
      label is taken `parseDetailHeader` stays false. */
  lemma {:induction false} PhaseNeverReturns(cap: Option<int>, lines: seq<string>, j: nat, k: nat)
    requires j <= k <= |lines|
    ensures Rank(ScanPrefix(cap, lines, j).phase) <= Rank(ScanPrefix(cap, lines, k).phase)
    decreases k
  {
    if j < k {
      PhaseNeverReturns(cap, lines, j, k - 1);
    }
  }

  /** Every line is accounted for exactly once: the headers are the lines
      before the boundary, in order; the boundary line is consumed; the line
      after it is the label; all later lines are the details, in order. */
  lemma LinesAccounted(cap: Option<int>, lines: seq<string>)
    ensures var s := Classify(cap, lines);
            && |lines| == |s.headers| + (if s.phase == WithinHeader then 0 else 1)
                          + (if s.columnHeader.Some? then 1 else 0) + |s.details|
            && s.headers == lines[..|s.headers|]
            && (s.phase == WithinHeader <==> |s.headers| == |lines|)
            && (s.columnHeader.Some? <==> |s.headers| + 1 < |lines|)
            && (s.columnHeader.Some? ==> s.columnHeader.value == lines[|s.headers| + 1]
                                         && s.details == lines[|s.headers| + 2..])
            && (s.columnHeader.None? ==> s.details == [])
  {
    ClassifyIsSections(cap, lines);
  }

  /** The headers never include the separator. */
  lemma HeadersHaveNoSeparator(cap: Option<int>, lines: seq<string>)
    ensures Separator !in Classify(cap, lines).headers
  {
    ClassifyIsSections(cap, lines);
    var h := Classify(cap, lines).headers;
    assert forall i :: 0 <= i < |h| ==> h[i] == lines[i];
  }

  /** Without a cap the first line ends the header, separator or not, so the
      header is always empty; the second line is the label and the rest are
      details. */
  lemma UncappedHeaderIsEmpty(lines: seq<string>)
    ensures var s := Classify(None, lines);
            && s.headers == []
            && (|lines| > 1 ==> s.columnHeader == Some(lines[1]) && s.details == lines[2..])
  {
    ClassifyIsSections(None, lines);
  }

  /** The index of the first separator line, or `|lines|`. */
  function FirstSeparator(lines: seq<string>): (j: nat)
    ensures j <= |lines|
    ensures forall i :: 0 <= i < j ==> lines[i] != Separator
    ensures j < |lines| ==> lines[j] == Separator
    decreases |lines|
  {
    if |lines| == 0 || lines[0] == Separator then 0
    else 1 + FirstSeparator(lines[1..])
  }

  function Min(a: int, b: int): int { if a <= b then a else b }

  /** With cap `n` the headers are the lines before whichever comes first:
      the first separator or index `n` (the first line when `n` is not
      positive). So there are never more than `n` of them. */
  lemma CappedHeaders(n: int, lines: seq<string>)
    ensures var h := Classify(Some(n), lines).headers;
            var end := Min(FirstSeparator(lines), if n < 0 then 0 else Min(n, |lines|));
            0 <= end <= |lines| && h == lines[..end] && |h| <= (if n < 0 then 0 else n)
  {
    ClassifyIsSections(Some(n), lines);
    var b := Boundary(Some(n), lines);
    var sep := FirstSeparator(lines);
    var cut := if n < 0 then 0 else Min(n, |lines|);
    assert b <= sep;
    assert cut < |lines| ==> EndsHeader(Some(n), cut, lines[cut]);
    assert b <= cut;
    assert b >= Min(sep, cut) by {
      if b < |lines| {
        assert EndsHeader(Some(n), b, lines[b]);
      }
    }
  }

  // ----- The loop as written -----

  /** The loop of `processOriginal` over the two flags, as written. */
  method ClassifyLines(cap: Option<int>, lines: seq<string>)
    returns (headers: seq<string>, columnHeader: Option<string>, details: seq<string>)
    ensures var s := Sections(cap, lines);
            headers == s.headers && columnHeader == s.columnHeader && details == s.details
  {
    headers, columnHeader, details := [], None, [];
    var withinHeader := true;
    var parseDetailHeader := true;
    var i := 0;
    while i < |lines|
      invariant 0 <= i <= |lines|
      invariant withinHeader ==> parseDetailHeader
      invariant ScanPrefix(cap, lines, i)
                == Scan(if withinHeader then WithinHeader
                        else if parseDetailHeader then AwaitingLabel
                        else InDetail,
                        headers, columnHeader, details)
    {
      if withinHeader {
        if lines[i] == Separator {
          withinHeader := false;
        } else if cap.None? || i >= cap.value {
          withinHeader := false;
        } else {
          headers := headers + [lines[i]];
        }
      } else {
        if parseDetailHeader {
          columnHeader := Some(lines[i]);
          parseDetailHeader := false;
        } else {
          details := details + [lines[i]];
        }
      }
      i := i + 1;
    }
    ScanPrefixIsSections(cap, lines, |lines|);
  }
}
