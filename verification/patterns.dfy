/** The regular-expression engine, left uninterpreted, and the processor's
    memoising table of compiled patterns. */
module Patterns {
  import opened Wrappers

  /** The result of a successful `Matcher.find()`: `groups[0]` is the whole
      match and `groups[g]` is `group(g)`, so `|groups| - 1` is
      `groupCount()`. `None` is a group that took no part in the match. */
  datatype Match = Match(groups: seq<Option<string>>)

  /** `Pattern.compile` and find-first matching, for a compiled-pattern type
      `P`; both are deterministic. */
  datatype Engine<!P> = Engine(compile: string -> P, find: (P, string) -> Option<Match>)

  /** Every stored pattern is what compiling its key gives. */
  ghost predicate Coherent<P>(compile: string -> P, patterns: map<string, P>) {
    forall regex :: regex in patterns ==> patterns[regex] == compile(regex)
  }

  /** `getPattern`: a hit returns the stored pattern and leaves the table as
      it is; a miss compiles, stores the result under that one key and
      returns it. The table is never null here (it is initialised where it
      is declared), so the null branches are not modelled. */
  function GetPattern<P>(compile: string -> P, patterns: map<string, P>, regex: string): (r: (P, map<string, P>))
    ensures regex in r.1 && r.1[regex] == r.0
    ensures r.1.Keys == patterns.Keys + {regex}
    ensures forall k :: k in patterns ==> r.1[k] == patterns[k]
    ensures regex !in patterns ==> r.0 == compile(regex)
  {
    if regex in patterns then
      (patterns[regex], patterns)
    else
      var p := compile(regex);
      (p, patterns[regex := p])
  }

  /** A second lookup of the same text returns the same pattern and changes
      nothing. */
  lemma GetPatternIdempotent<P>(compile: string -> P, patterns: map<string, P>, regex: string)
    ensures var (p, patterns') := GetPattern(compile, patterns, regex);
            GetPattern(compile, patterns', regex) == (p, patterns')
  {
  }

  /** Memoisation is invisible: from a coherent table the lookup returns the
      compiled pattern and the table stays coherent. */
  lemma GetPatternCoherent<P>(compile: string -> P, patterns: map<string, P>, regex: string)
    requires Coherent(compile, patterns)
    ensures GetPattern(compile, patterns, regex).0 == compile(regex)
    ensures Coherent(compile, GetPattern(compile, patterns, regex).1)
  {
  }

  /** The loop of `init`: compiles every text in order and puts it into the
      table, replacing any entry under the same key. */
  function Precompile<P>(compile: string -> P, patterns: map<string, P>, regexes: seq<string>): (r: map<string, P>)
    ensures r.Keys == patterns.Keys + set i | 0 <= i < |regexes| :: regexes[i]
    ensures forall i :: 0 <= i < |regexes| ==> r[regexes[i]] == compile(regexes[i])
    ensures forall k :: k in patterns && k !in regexes ==> r[k] == patterns[k]
    decreases |regexes|
  {
    if |regexes| == 0 then patterns
    else
      var r := Precompile(compile, patterns[regexes[0] := compile(regexes[0])], regexes[1..]);
      assert forall i :: 1 <= i < |regexes| ==> regexes[i] == regexes[1..][i - 1];
      assert (set i | 0 <= i < |regexes| :: regexes[i])
          == {regexes[0]} + set i | 0 <= i < |regexes[1..]| :: regexes[1..][i];
      r
  }

  /** `init` from the empty table the field starts with: afterwards every
      configured text is a key, and the table holds nothing else and nothing
      but compiled forms of its keys. */
  function Init<P>(compile: string -> P, regexes: seq<string>): (r: map<string, P>)
    ensures forall i :: 0 <= i < |regexes| ==> regexes[i] in r
    ensures forall k :: k in r ==> k in regexes
    ensures Coherent(compile, r)
  {
    Precompile(compile, map[], regexes)
  }
}
