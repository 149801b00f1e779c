/** The two string operations applied to the input text before the lines are
    classified: Java's `String.trim()` and Commons Lang's
    `StringUtils.split(text, "\n")`. */
module Text {

  const LF: char := '\n'

  /** `String.trim()` removes every leading and trailing char whose code is at
      most U+0020: the space and the controls U+0000 to U+001F, line feed
      included. DEL (U+007F) and the controls from U+0080 up are kept. */
  predicate IsTrimmable(c: char) {
    c <= ' '
  }

  predicate AllTrimmable(s: string) {
    forall i :: 0 <= i < |s| ==> IsTrimmable(s[i])
  }

  /** Drops the leading trimmable chars: the result is the longest suffix of
      `s` that does not start with one. */
  function TrimStart(s: string): (r: string)
    ensures |r| <= |s| && r == s[|s| - |r|..]
    ensures AllTrimmable(s[..|s| - |r|])
    ensures r == [] || !IsTrimmable(r[0])
    decreases |s|
  {
    if |s| > 0 && IsTrimmable(s[0]) then
      var r := TrimStart(s[1..]);
      assert s[..|s| - |r|] == [s[0]] + s[1..][..|s| - 1 - |r|];
      r
    else
      s
  }

  /** Drops the trailing trimmable chars: the result is the longest prefix of
      `s` that does not end with one. */
  function TrimEnd(s: string): (r: string)
    ensures |r| <= |s| && r == s[..|r|]
    ensures AllTrimmable(s[|r|..])
    ensures r == [] || !IsTrimmable(r[|r| - 1])
    decreases |s|
  {
    if |s| > 0 && IsTrimmable(s[|s| - 1]) then
      var r := TrimEnd(s[..|s| - 1]);
      assert s[|r|..] == s[..|s| - 1][|r|..] + [s[|s| - 1]];
      r
    else
      s
  }

  /** `String.trim()`. */
  function Trim(s: string): (r: string)
    ensures r == [] || (!IsTrimmable(r[0]) && !IsTrimmable(r[|r| - 1]))
    ensures r == [] <==> AllTrimmable(s)
  {
    var t := TrimStart(s);
    var r := TrimEnd(t);
    assert r != [] ==> r[0] == t[0];
    assert t == [] ==> AllTrimmable(s) by {
      assert t == [] ==> s == s[..|s| - |t|];
    }
    assert AllTrimmable(s) ==> t == [] by {
      assert t != [] ==> t[0] == s[|s| - |t|];
    }
    r
  }

  lemma {:induction false} TrimStartOfPadded(pre: string, rest: string)
    requires AllTrimmable(pre)
    requires rest == [] || !IsTrimmable(rest[0])
    ensures TrimStart(pre + rest) == rest
    decreases |pre|
  {
    if pre != [] {
      assert (pre + rest)[1..] == pre[1..] + rest;
      TrimStartOfPadded(pre[1..], rest);
    } else {
      assert pre + rest == rest;
    }
  }

  lemma {:induction false} TrimEndOfPadded(rest: string, post: string)
    requires AllTrimmable(post)
    requires rest == [] || !IsTrimmable(rest[|rest| - 1])
    ensures TrimEnd(rest + post) == rest
    decreases |post|
  {
    if post != [] {
      var s := rest + post;
      assert s[..|s| - 1] == rest + post[..|post| - 1];
      TrimEndOfPadded(rest, post[..|post| - 1]);
    } else {
      assert rest + post == rest;
    }
  }

  /** Trimming removes exactly the trimmable padding around a text that
      begins and ends with a non-trimmable char, whatever the padding is:
      `Trim` is fully characterised by its ensures clauses. */
  lemma TrimOfPadded(pre: string, mid: string, post: string)
    requires AllTrimmable(pre) && AllTrimmable(post)
    requires mid == [] || (!IsTrimmable(mid[0]) && !IsTrimmable(mid[|mid| - 1]))
    ensures Trim(pre + mid + post) == mid
  {
    var s := pre + mid + post;
    if mid == [] {
      assert s == pre + post;
      assert AllTrimmable(s) by {
        forall i | 0 <= i < |s| ensures IsTrimmable(s[i]) {
          if i < |pre| { assert s[i] == pre[i]; } else { assert s[i] == post[i - |pre|]; }
        }
      }
    } else {
      assert s == pre + (mid + post);
      TrimStartOfPadded(pre, mid + post);
      TrimEndOfPadded(mid, post);
    }
  }

  /** A line of the split result: non-empty and free of line feeds. */
  predicate IsLine(t: string) {
    |t| > 0 && LF !in t
  }

  /** The end of the run of non-LF chars that starts at `i`. */
  function RunEnd(s: string, i: nat): (j: nat)
    requires i <= |s|
    ensures i <= j <= |s|
    ensures LF !in s[i..j]
    ensures j < |s| ==> s[j] == LF
    decreases |s| - i
  {
    if i == |s| || s[i] == LF then i
    else
      var j := RunEnd(s, i + 1);
      assert s[i..j] == [s[i]] + s[i + 1..j];
      j
  }

  /** `StringUtils.split(s, "\n")`: the maximal runs of non-LF chars, in
      order. Adjacent line feeds are one separator, so no run is empty. */
  function Split(s: string): (r: seq<string>)
    ensures forall i :: 0 <= i < |r| ==> IsLine(r[i])
    ensures r == [] <==> forall i :: 0 <= i < |s| ==> s[i] == LF
    decreases |s|
  {
    if |s| == 0 then []
    else if s[0] == LF then
      var r := Split(s[1..]);
      assert forall i :: 1 <= i < |s| ==> s[i] == s[1..][i - 1];
      r
    else
      var j := RunEnd(s, 0);
      assert s[..j][0] == s[0];
      [s[..j]] + Split(s[j..])
  }

  /** The inverse of `Split` on its range: the lines joined by single line
      feeds. */
  function Join(lines: seq<string>): string
    decreases |lines|
  {
    if |lines| == 0 then []
    else if |lines| == 1 then lines[0]
    else lines[0] + [LF] + Join(lines[1..])
  }

  /** Joining keeps the first char of the first line and the last char of
      the last line at the ends. */
  lemma {:induction false} JoinEnds(lines: seq<string>)
    requires |lines| > 0
    requires forall i :: 0 <= i < |lines| ==> IsLine(lines[i])
    ensures IsLine(lines[0]) && IsLine(lines[|lines| - 1])
    ensures |Join(lines)| > 0
    ensures Join(lines)[0] == lines[0][0]
    ensures Join(lines)[|Join(lines)| - 1] == lines[|lines| - 1][|lines[|lines| - 1]| - 1]
    decreases |lines|
  {
    if |lines| > 1 {
      JoinEnds(lines[1..]);
    }
  }

  lemma RunEndOfLine(t: string, rest: string)
    requires LF !in t
    requires rest == [] || rest[0] == LF
    ensures RunEnd(t + rest, 0) == |t|
  {
    var s := t + rest;
    var j := RunEnd(s, 0);
    assert s[..|t|] == t;
  }

  /** Splitting lines that were joined by line feeds gives the lines back. */
  lemma {:induction false} SplitJoin(lines: seq<string>)
    requires forall i :: 0 <= i < |lines| ==> IsLine(lines[i])
    ensures Split(Join(lines)) == lines
    decreases |lines|
  {
    if |lines| == 0 {
    } else if |lines| == 1 {
      var t := lines[0];
      assert t + [] == t;
      RunEndOfLine(t, []);
      assert t[..|t|] == t && t[|t|..] == [];
    } else {
      var t := lines[0];
      var rest := [LF] + Join(lines[1..]);
      var s := Join(lines);
      assert s == t + rest;
      RunEndOfLine(t, rest);
      assert s[..|t|] == t;
      assert s[|t|..] == rest;
      assert rest[1..] == Join(lines[1..]);
      SplitJoin(lines[1..]);
      assert Split(rest) == Split(rest[1..]);
      assert lines == [t] + lines[1..];
    }
  }

  /** A run that starts inside `a` ends where it would in `a` alone when a
      line feed follows `a`. */
  lemma {:induction false} RunEndBeforeLF(a: string, c: string, i: nat)
    requires i <= |a|
    requires |c| > 0 && c[0] == LF
    ensures RunEnd(a + c, i) == RunEnd(a, i)
    decreases |a| - i
  {
    if i < |a| && a[i] != LF {
      assert (a + c)[i] == a[i];
      RunEndBeforeLF(a, c, i + 1);
    }
  }

  /** Every line feed cuts: the lines of `a`, a line feed and `b` are the
      lines of `a` followed by the lines of `b`, whatever the two sides
      hold. So a run of several line feeds (a blank line) separates lines
      like one does and adds no line. */
  lemma {:induction false} SplitAtLF(a: string, b: string)
    ensures Split(a + [LF] + b) == Split(a) + Split(b)
    decreases |a|
  {
    var s := a + [LF] + b;
    if |a| == 0 {
      assert s[1..] == b;
    } else if a[0] == LF {
      assert s[1..] == a[1..] + [LF] + b;
      SplitAtLF(a[1..], b);
    } else {
      assert s == a + ([LF] + b);
      RunEndBeforeLF(a, [LF] + b, 0);
      var j := RunEnd(a, 0);
      assert s[..j] == a[..j];
      assert s[j..] == a[j..] + [LF] + b;
      SplitAtLF(a[j..], b);
    }
  }

  /** The text with every line feed deleted. */
  function DropLF(s: string): string
    decreases |s|
  {
    if |s| == 0 then []
    else if s[0] == LF then DropLF(s[1..])
    else [s[0]] + DropLF(s[1..])
  }

  function Concat(lines: seq<string>): string
    decreases |lines|
  {
    if |lines| == 0 then [] else lines[0] + Concat(lines[1..])
  }

  lemma {:induction false} DropLFAppend(a: string, b: string)
    ensures DropLF(a + b) == DropLF(a) + DropLF(b)
    decreases |a|
  {
    if |a| == 0 {
      assert a + b == b;
    } else {
      assert (a + b)[1..] == a[1..] + b;
      DropLFAppend(a[1..], b);
    }
  }

  lemma {:induction false} DropLFOfLine(t: string)
    requires LF !in t
    ensures DropLF(t) == t
    decreases |t|
  {
    if |t| > 0 {
      assert t[0] in t;
      assert forall k :: 0 <= k < |t| - 1 ==> t[1..][k] == t[k + 1];
      DropLFOfLine(t[1..]);
      assert t == [t[0]] + t[1..];
    }
  }

  /** Splitting loses nothing but line feeds: the lines, concatenated, are
      the text with its line feeds deleted, in the original order. */
  lemma {:induction false} SplitKeepsText(s: string)
    ensures Concat(Split(s)) == DropLF(s)
    decreases |s|
  {
    if |s| == 0 {
    } else if s[0] == LF {
      SplitKeepsText(s[1..]);
    } else {
      var j := RunEnd(s, 0);
      assert s == s[..j] + s[j..];
      DropLFAppend(s[..j], s[j..]);
      DropLFOfLine(s[..j]);
      SplitKeepsText(s[j..]);
      assert Split(s)[1..] == Split(s[j..]);
    }
  }
}
