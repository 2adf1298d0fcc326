/** Grading a candidate pattern against the fixtures of one level, as the game
    recomputes it on every keystroke. The host regular-expression engine is
    foreign code: it enters the model as a parameter that says which pattern
    texts compile (case-insensitively, non-global) and which texts a compiled
    pattern finds a match in. */
module Evaluation {
  import opened Levels

  /** The host engine: `compiles(p)` holds when `new RegExp(p, "i")` does not
      throw, and `test(p, t)` is the answer of the compiled pattern's `test(t)`.
      A non-global expression keeps no state between calls, so `test` is a
      function. */
  datatype RegexEngine = RegexEngine(compiles: string -> bool, test: (string, string) -> bool)

  /** One graded fixture: the fixture itself with the two verdicts. */
  datatype Outcome = Outcome(text: string, shouldMatch: bool, matches: bool, correct: bool)

  const InvalidPattern: string := "Invalid regular expression"

  /** A fixture reported as not matching and not correct. */
  function Ungraded(f: Fixture): (o: Outcome)
    ensures o.text == f.text && o.shouldMatch == f.shouldMatch
    ensures !o.matches && !o.correct
  {
    Outcome(f.text, f.shouldMatch, false, false)
  }

  /** A fixture run through a compiled pattern. */
  function Graded(f: Fixture, pattern: string, engine: RegexEngine): (o: Outcome)
    ensures o.text == f.text && o.shouldMatch == f.shouldMatch
    ensures o.matches == engine.test(pattern, f.text)
    ensures o.correct <==> (o.matches == f.shouldMatch)
  {
    var m := engine.test(pattern, f.text);
    Outcome(f.text, f.shouldMatch, m, m == f.shouldMatch)
  }

  /** Whether the pattern is run at all: it must be non-empty and compile. */
  predicate IsLive(pattern: string, engine: RegexEngine)
  {
    pattern != "" && engine.compiles(pattern)
  }

  /** The fixtures graded in order: all ungraded for an empty pattern (no
      compilation is attempted) or one that does not compile, each run through
      the engine otherwise. */
  function Results(fixtures: seq<Fixture>, pattern: string, engine: RegexEngine): (r: seq<Outcome>)
    ensures |r| == |fixtures|
    ensures forall i :: 0 <= i < |r| ==>
              r[i].text == fixtures[i].text && r[i].shouldMatch == fixtures[i].shouldMatch
    ensures forall i :: 0 <= i < |r| && !IsLive(pattern, engine) ==> !r[i].matches && !r[i].correct
    ensures forall i :: 0 <= i < |r| && IsLive(pattern, engine) ==>
              r[i].matches == engine.test(pattern, fixtures[i].text) &&
              (r[i].correct <==> r[i].matches == fixtures[i].shouldMatch)
  {
    if fixtures == [] then []
    else
      var head := if IsLive(pattern, engine) then Graded(fixtures[0], pattern, engine)
                  else Ungraded(fixtures[0]);
      [head] + Results(fixtures[1..], pattern, engine)
  }

  /** The error message after an evaluation: an empty pattern leaves it as it
      was, a pattern that compiles clears it, any other sets it. */
  function RegexErrorAfter(pattern: string, engine: RegexEngine, previous: string): (e: string)
    ensures pattern == "" ==> e == previous
    ensures pattern != "" ==> (e == "" <==> engine.compiles(pattern))
    ensures pattern != "" && !engine.compiles(pattern) ==> e == InvalidPattern
  {
    if pattern == "" then previous
    else if engine.compiles(pattern) then ""
    else InvalidPattern
  }

  /** The win condition: at least one result, all correct, non-empty pattern. */
  predicate AllCorrect(results: seq<Outcome>, pattern: string)
  {
    |results| > 0 && (forall i :: 0 <= i < |results| ==> results[i].correct) && pattern != ""
  }

  /** The number of correct results. */
  function CorrectCount(results: seq<Outcome>): (n: nat)
    ensures n <= |results|
    ensures |results| == 1 ==> (n == 1 <==> results[0].correct)
    ensures n == |results| <==> forall i :: 0 <= i < |results| ==> results[i].correct
    ensures n == 0 <==> forall i :: 0 <= i < |results| ==> !results[i].correct
  {
    if results == [] then 0
    else (if results[0].correct then 1 else 0) + CorrectCount(results[1..])
  }

  /** Counting the correct results of two lists joined is adding their
      counts: with the one-result case above, this fixes the count as the
      number of correct results. */
  lemma {:induction false} CorrectCountAppend(a: seq<Outcome>, b: seq<Outcome>)
    ensures CorrectCount(a + b) == CorrectCount(a) + CorrectCount(b)
    decreases |a|
  {
    if a != [] {
      assert (a + b)[0] == a[0];
      assert (a + b)[1..] == a[1..] + b;
      CorrectCountAppend(a[1..], b);
    } else {
      assert a + b == b;
    }
  }

  /** The level is won exactly when there are results, the count of correct
      ones is all of them, and the pattern is not empty. */
  lemma AllCorrectIsFullCount(results: seq<Outcome>, pattern: string)
    ensures AllCorrect(results, pattern) <==>
            |results| > 0 && CorrectCount(results) == |results| && pattern != ""
  {
  }

  /** An empty pattern never wins, and every fixture is reported as failing. */
  lemma EmptyPatternNeverWins(fixtures: seq<Fixture>, engine: RegexEngine)
    ensures !AllCorrect(Results(fixtures, "", engine), "")
    ensures CorrectCount(Results(fixtures, "", engine)) == 0
  {
  }

  /** A pattern that does not compile scores no fixture and cannot win. */
  lemma InvalidPatternNeverWins(fixtures: seq<Fixture>, pattern: string, engine: RegexEngine)
    requires !engine.compiles(pattern)
    ensures !AllCorrect(Results(fixtures, pattern, engine), pattern)
    ensures CorrectCount(Results(fixtures, pattern, engine)) == 0
    ensures RegexErrorAfter(pattern, engine, "") == (if pattern == "" then "" else InvalidPattern)
  {
  }

  /** Winning means the pattern is live and agrees with every fixture. */
  lemma WinMeansAgreement(fixtures: seq<Fixture>, pattern: string, engine: RegexEngine)
    ensures AllCorrect(Results(fixtures, pattern, engine), pattern) <==>
            |fixtures| > 0 && IsLive(pattern, engine) &&
            forall i :: 0 <= i < |fixtures| ==>
              engine.test(pattern, fixtures[i].text) == fixtures[i].shouldMatch
  {
  }

  /** No level of the catalog is won by a pattern that finds a match in every
      text, or in none. */
  lemma {:induction false} UniformPatternNeverWins(k: nat, pattern: string, engine: RegexEngine, verdict: bool)
    requires k < LevelCount
    requires forall t: string :: engine.test(pattern, t) == verdict
    ensures !AllCorrect(Results(Catalog()[k].testStrings, pattern, engine), pattern)
  {
    var fixtures := Catalog()[k].testStrings;
    var r := Results(fixtures, pattern, engine);
    EveryLevelHasBothVerdicts(k);
    var i :| 0 <= i < |fixtures| && fixtures[i].shouldMatch != verdict;
    assert !r[i].correct;
  }
}
