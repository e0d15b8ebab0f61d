// Object identifiers as the gateway accepts and normalises them.
module Oid {
  import opened Text

  // ---- what the pattern ^\.?\d+(?:\.\d+)*$ denotes ----------------------

  // The words of (?:\.\d+)*, one "." and one digit run per element of tail.
  function DottedRuns(tail: seq<string>): string {
    if tail == [] then "" else "." + tail[0] + DottedRuns(tail[1..])
  }

  ghost predicate PatternWord(s: string, dot: bool, head: string, tail: seq<string>) {
    && AllDigits(head)
    && (forall t :: t in tail ==> AllDigits(t))
    && s == (if dot then "." else "") + head + DottedRuns(tail)
  }

  ghost predicate MatchesPattern(s: string) {
    exists dot: bool, head: string, tail: seq<string> :: PatternWord(s, dot, head, tail)
  }

  // ---- the recogniser --------------------------------------------------

  // One pass over the text. inRun says that the last character was a digit.
  predicate Runs(s: string, inRun: bool) {
    if s == "" then inRun
    else if IsDigit(s[0]) then Runs(s[1..], true)
    else s[0] == '.' && inRun && Runs(s[1..], false)
  }

  function StripDot(s: string): string {
    if s != "" && s[0] == '.' then s[1..] else s
  }

  predicate ValidOid(s: string) {
    Runs(StripDot(s), false)
  }

  function NormalizeOid(s: string): string {
    if s != "" && s[0] == '.' then s else "." + s
  }

  // The spelling of each number of an identifier, in order.
  function Components(s: string): seq<string> {
    Split(StripDot(s), '.')
  }

  predicate AllNumbers(parts: seq<string>) {
    forall p :: p in parts ==> AllDigits(p)
  }

  // The canonical text of a list of numbers.
  function Print(parts: seq<string>): string {
    "." + Join(parts, '.')
  }

  // ---- the recogniser and the component view agree ----------------------

  lemma HeadAndTailNumbers(parts: seq<string>)
    requires parts != []
    ensures AllNumbers(parts) <==> AllDigits(parts[0]) && AllNumbers(parts[1..])
  {}

  lemma DigitsAfterFirst(c: char, run: string)
    ensures AllDigits([c] + run) <==> IsDigit(c) && (run == "" || AllDigits(run))
  {
    assert ([c] + run)[0] == c;
    assert forall i :: 0 <= i < |run| ==> run[i] == ([c] + run)[i + 1];
  }

  lemma {:induction false} RunsMeansNumbers(s: string, inRun: bool)
    ensures var p := Split(s, '.');
            Runs(s, inRun) <==> ((inRun && p[0] == "") || AllDigits(p[0])) && AllNumbers(p[1..])
  {
    if s == "" {
    } else {
      var p, rest := Split(s, '.'), Split(s[1..], '.');
      HeadAndTailNumbers(rest);
      RunsMeansNumbers(s[1..], s[0] != '.');
      if s[0] == '.' {
        assert p[0] == "" && p[1..] == rest;
      } else {
        assert p[0] == [s[0]] + rest[0] && p[1..] == rest[1..];
        DigitsAfterFirst(s[0], rest[0]);
      }
    }
  }

  lemma ValidMeansNumbers(s: string)
    ensures ValidOid(s) <==> AllNumbers(Components(s))
  {
    RunsMeansNumbers(StripDot(s), false);
    HeadAndTailNumbers(Components(s));
  }

  lemma {:induction false} JoinIsDottedRuns(head: string, tail: seq<string>)
    ensures Join([head] + tail, '.') == head + DottedRuns(tail)
    decreases |tail|
  {
    if tail == [] {
    } else {
      JoinIsDottedRuns(tail[0], tail[1..]);
      assert ([head] + tail)[1..] == [tail[0]] + tail[1..];
      assert Join([head] + tail, '.') == head + (['.'] + (tail[0] + DottedRuns(tail[1..])));
      assert DottedRuns(tail) == ['.'] + (tail[0] + DottedRuns(tail[1..]));
    }
  }

  lemma NumbersHoldNoDot(parts: seq<string>)
    requires AllNumbers(parts)
    ensures forall p :: p in parts ==> '.' !in p
  {}

  lemma ValidMatches(s: string)
    requires ValidOid(s)
    ensures MatchesPattern(s)
  {
    var parts := Components(s);
    ValidMeansNumbers(s);
    JoinAfterSplit(StripDot(s), '.');
    JoinIsDottedRuns(parts[0], parts[1..]);
    assert [parts[0]] + parts[1..] == parts;
    assert PatternWord(s, s != "" && s[0] == '.', parts[0], parts[1..]);
  }

  lemma WordIsValid(s: string, dot: bool, head: string, tail: seq<string>)
    requires PatternWord(s, dot, head, tail)
    ensures ValidOid(s)
  {
    JoinIsDottedRuns(head, tail);
    NumbersHoldNoDot([head] + tail);
    SplitAfterJoin([head] + tail, '.');
    assert StripDot(s) == head + DottedRuns(tail) by {
      if dot {
        assert s[1..] == head + DottedRuns(tail);
      } else {
        assert s[0] == head[0];
      }
    }
    ValidMeansNumbers(s);
  }

  // The recogniser accepts exactly the words of the pattern.
  lemma RecogniserIsThePattern(s: string)
    ensures ValidOid(s) <==> MatchesPattern(s)
  {
    if ValidOid(s) {
      ValidMatches(s);
    }
    forall dot: bool, head: string, tail: seq<string> | PatternWord(s, dot, head, tail)
      ensures ValidOid(s)
    {
      WordIsValid(s, dot, head, tail);
    }
  }

  // ---- normalisation ---------------------------------------------------

  // Normalising prints the parse: a leading dot and the numbers as spelled.
  lemma NormalizePrintsComponents(s: string)
    ensures NormalizeOid(s) == Print(Components(s))
    ensures Components(NormalizeOid(s)) == Components(s)
  {
    JoinAfterSplit(StripDot(s), '.');
    assert s != "" && s[0] == '.' ==> "." + s[1..] == s;
    assert StripDot(NormalizeOid(s)) == StripDot(s);
  }

  lemma NormalizeKeepsValidity(s: string)
    ensures NormalizeOid(NormalizeOid(s)) == NormalizeOid(s)
    ensures ValidOid(NormalizeOid(s)) <==> ValidOid(s)
  {}

  // Two inputs normalise alike exactly when they spell the same numbers.
  lemma NormalizeIdentifies(s: string, t: string)
    ensures NormalizeOid(s) == NormalizeOid(t) <==> Components(s) == Components(t)
  {
    NormalizePrintsComponents(s);
    NormalizePrintsComponents(t);
  }

  lemma PrintThenParse(parts: seq<string>)
    requires parts != [] && AllNumbers(parts)
    ensures Components(Print(parts)) == parts
    ensures ValidOid(Print(parts)) && NormalizeOid(Print(parts)) == Print(parts)
  {
    NumbersHoldNoDot(parts);
    SplitAfterJoin(parts, '.');
    assert StripDot(Print(parts)) == Join(parts, '.');
    ValidMeansNumbers(Print(parts));
  }
}
