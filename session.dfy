/** The game session: which level is being played, the pattern being typed,
    the score, the failed attempts at the current level, whether the hint is
    shown, whether the game is complete, and the inline pattern error.
    The transitions are first stated as functions on a `Session` value; the
    class `Game` holds the same fields and updates them in place with methods
    proved against those functions. */
module GameSession {
  import opened Levels
  import opened Evaluation

  datatype Session = Session(
    level: nat,
    regex: string,
    score: int,
    attempts: nat,
    showHint: bool,
    complete: bool,
    regexError: string)

  /** The state a game starts in and returns to on reset. */
  function Initial(): (s: Session)
    ensures Consistent(s) && s.level == 0 && s.score == 0 && s.attempts == 0
    ensures s.regex == "" && s.regexError == "" && !s.showHint && !s.complete
  {
    Session(0, "", 0, 0, false, false, "")
  }

  /** What every reachable session satisfies: the level indexes the catalog,
      the score is a non-negative multiple of ten, and a complete game sits at
      the last level. */
  predicate Consistent(s: Session)
  {
    s.level < LevelCount && s.score >= 0 && s.score % 10 == 0 &&
    (s.complete ==> s.level == LastIndex)
  }

  /** The inline error agrees with the typed pattern: a non-empty pattern shows
      no error exactly when it compiles, and the only message is the invalid
      pattern one. */
  predicate ErrorReflectsPattern(s: Session, engine: RegexEngine)
  {
    (s.regexError == "" || s.regexError == InvalidPattern) &&
    (s.regex != "" ==> (s.regexError == "" <==> engine.compiles(s.regex)))
  }

  /** A pattern that solves level `k`. */
  predicate Solves(pattern: string, k: nat, engine: RegexEngine)
    requires k < LevelCount
  {
    AllCorrect(Results(Catalog()[k].testStrings, pattern, engine), pattern)
  }

  /** The win condition for the current level. */
  predicate Wins(s: Session, engine: RegexEngine)
    requires s.level < LevelCount
  {
    Solves(s.regex, s.level, engine)
  }

  /** Points for solving a level after `attempts` failed submissions: ten
      fewer per failure, never below ten. */
  function Points(attempts: nat): (p: nat)
    ensures 10 <= p <= 100 && p % 10 == 0
    ensures attempts <= 9 ==> p + 10 * attempts == 100
    ensures attempts >= 9 ==> p == 10
  {
    var raw := 100 - attempts * 10;
    if raw > 10 then raw else 10
  }

  /** A submission: a win scores the points and moves to the next level (fresh
      pattern, attempts and hint), or completes the game at the last level; a
      loss counts one more attempt. */
  function Submitted(s: Session, engine: RegexEngine): (t: Session)
    requires Consistent(s)
    ensures Consistent(t)
    ensures t.level == s.level || (t.level == s.level + 1 && !t.complete)
    ensures t.score == s.score || (s.score + 10 <= t.score <= s.score + 100)
  {
    if Wins(s, engine) then
      var scored := s.(score := s.score + Points(s.attempts));
      if s.level < LastIndex then
        scored.(level := s.level + 1, regex := "", attempts := 0, showHint := false)
      else
        scored.(complete := true)
    else
      s.(attempts := s.attempts + 1)
  }

  /** Typing a pattern: it replaces the old one and the evaluation that follows
      updates the inline error. */
  function Typed(s: Session, pattern: string, engine: RegexEngine): (t: Session)
    ensures ErrorReflectsPattern(s, engine) ==> ErrorReflectsPattern(t, engine)
    ensures t.regex == pattern && t.regexError == RegexErrorAfter(pattern, engine, s.regexError)
  {
    s.(regex := pattern, regexError := RegexErrorAfter(pattern, engine, s.regexError))
  }

  /** The actions the player can take. */
  datatype Action = Type(pattern: string) | Submit | RevealHint | Reset

  /** The effect of one action on the session, as the handlers implement it. */
  function Apply(s: Session, a: Action, engine: RegexEngine): (t: Session)
    requires Consistent(s)
    ensures Consistent(t)
    ensures ErrorReflectsPattern(s, engine) ==> ErrorReflectsPattern(t, engine)
  {
    match a
    case Type(p) => Typed(s, p, engine)
    case Submit => Submitted(s, engine)
    case RevealHint => s.(showHint := true)
    case Reset => Initial()
  }

  /** The effect of a sequence of actions. */
  function Run(s: Session, actions: seq<Action>, engine: RegexEngine): (t: Session)
    requires Consistent(s)
    ensures Consistent(t)
    ensures ErrorReflectsPattern(s, engine) ==> ErrorReflectsPattern(t, engine)
    decreases |actions|
  {
    if actions == [] then s
    else Run(Apply(s, actions[0], engine), actions[1..], engine)
  }

  /** A winning submission scores `Points(attempts)`; below the last level it
      moves up one level with a cleared pattern, no attempts and the hint
      hidden, at the last level it completes the game in place. */
  lemma WinningSubmit(s: Session, engine: RegexEngine)
    requires Consistent(s) && Wins(s, engine)
    ensures Submitted(s, engine).score == s.score + Points(s.attempts)
    ensures s.level < LastIndex ==>
              Submitted(s, engine) == s.(score := s.score + Points(s.attempts), level := s.level + 1,
                                         regex := "", attempts := 0, showHint := false)
    ensures s.level == LastIndex ==>
              Submitted(s, engine) == s.(score := s.score + Points(s.attempts), complete := true)
  {
  }

  /** A losing submission only counts one more attempt. */
  lemma LosingSubmit(s: Session, engine: RegexEngine)
    requires Consistent(s) && !Wins(s, engine)
    ensures Submitted(s, engine) == s.(attempts := s.attempts + 1)
  {
  }

  /** Submitting with an empty pattern is always a loss. */
  lemma EmptyPatternSubmitLoses(s: Session, engine: RegexEngine)
    requires Consistent(s) && s.regex == ""
    ensures Submitted(s, engine) == s.(attempts := s.attempts + 1)
  {
    EmptyPatternNeverWins(Catalog()[s.level].testStrings, engine);
    assert !Wins(s, engine);
    LosingSubmit(s, engine);
  }

  /** Running two sequences of actions is running the second from where the
      first left off. */
  lemma {:induction false} RunAppend(s: Session, first: seq<Action>, second: seq<Action>, engine: RegexEngine)
    requires Consistent(s)
    ensures Run(s, first + second, engine) == Run(Run(s, first, engine), second, engine)
    decreases |first|
  {
    if first == [] {
      assert first + second == second;
    } else {
      assert (first + second)[0] == first[0];
      assert (first + second)[1..] == first[1..] + second;
      RunAppend(Apply(s, first[0], engine), first[1..], second, engine);
    }
  }

  /** Resetting from any session, complete or not, gives the initial one. */
  lemma ResetFromAnywhere(s: Session, actions: seq<Action>, engine: RegexEngine)
    requires Consistent(s)
    ensures Run(s, actions + [Reset], engine) == Initial()
  {
    RunAppend(s, actions, [Reset], engine);
  }

  /** Typing each level's pattern and submitting it. */
  function PlayAll(patterns: seq<string>): (actions: seq<Action>)
    ensures |actions| == 2 * |patterns|
  {
    if patterns == [] then []
    else PlayAll(patterns[..|patterns| - 1]) + [Type(patterns[|patterns| - 1]), Submit]
  }

  /** Typing a solving pattern and submitting it with no failed attempts
      scores the full 100 points and either moves to the next level with
      everything cleared or completes the game. */
  lemma SolveAtFirstTry(s: Session, pattern: string, engine: RegexEngine)
    requires Consistent(s) && s.attempts == 0 && Solves(pattern, s.level, engine)
    ensures Run(s, [Type(pattern), Submit], engine).score == s.score + 100
    ensures s.level < LastIndex ==>
              Run(s, [Type(pattern), Submit], engine)
              == s.(level := s.level + 1, regex := "", score := s.score + 100, showHint := false, regexError := "")
    ensures s.level == LastIndex ==> Run(s, [Type(pattern), Submit], engine).complete
  {
    var typed := Apply(s, Type(pattern), engine);
    WinMeansAgreement(Catalog()[s.level].testStrings, pattern, engine);
    assert typed == s.(regex := pattern, regexError := "");
    assert Wins(typed, engine);
    assert Run(s, [Type(pattern), Submit], engine) == Run(typed, [Submit], engine);
    assert Run(typed, [Submit], engine) == Submitted(typed, engine);
  }

  /** After solving the first `k` levels at the first try, play is at level
      `k` with 100 points per level solved. */
  lemma {:induction false} PerfectPrefix(patterns: seq<string>, k: nat, engine: RegexEngine)
    requires |patterns| == LevelCount && k < LevelCount
    requires forall j :: 0 <= j < |patterns| ==> Solves(patterns[j], j, engine)
    ensures Run(Initial(), PlayAll(patterns[..k]), engine) == Session(k, "", 100 * k, 0, false, false, "")
  {
    if k > 0 {
      var before := PlayAll(patterns[..k - 1]);
      assert patterns[..k][..k - 1] == patterns[..k - 1];
      assert PlayAll(patterns[..k]) == before + [Type(patterns[k - 1]), Submit];
      PerfectPrefix(patterns, k - 1, engine);
      RunAppend(Initial(), before, [Type(patterns[k - 1]), Submit], engine);
      SolveAtFirstTry(Session(k - 1, "", 100 * (k - 1), 0, false, false, ""), patterns[k - 1], engine);
    }
  }

  /** Solving all ten levels at the first try completes the game with the
      full 1000 points. */
  lemma PerfectGame(patterns: seq<string>, engine: RegexEngine)
    requires |patterns| == LevelCount
    requires forall j :: 0 <= j < |patterns| ==> Solves(patterns[j], j, engine)
    ensures Run(Initial(), PlayAll(patterns), engine).complete
    ensures Run(Initial(), PlayAll(patterns), engine).score == 1000
  {
    var last := LastIndex;
    PerfectPrefix(patterns, last, engine);
    assert patterns[..last + 1] == patterns;
    assert patterns[..last + 1][..last] == patterns[..last];
    var before := PlayAll(patterns[..last]);
    assert PlayAll(patterns) == before + [Type(patterns[last]), Submit];
    RunAppend(Initial(), before, [Type(patterns[last]), Submit], engine);
    SolveAtFirstTry(Session(last, "", 100 * last, 0, false, false, ""), patterns[last], engine);
  }

  /** `n` copies of one action. */
  function Repeat(a: Action, n: nat): (actions: seq<Action>)
    ensures |actions| == n && forall i :: 0 <= i < n ==> actions[i] == a
  {
    if n == 0 then [] else [a] + Repeat(a, n - 1)
  }

  /** Submitting a losing pattern `n` times counts `n` attempts and changes
      nothing else. */
  lemma {:induction false} RepeatedLosses(s: Session, n: nat, engine: RegexEngine)
    requires Consistent(s) && !Wins(s, engine)
    ensures Run(s, Repeat(Submit, n), engine) == s.(attempts := s.attempts + n)
    decreases n
  {
    if n > 0 {
      var t := s.(attempts := s.attempts + 1);
      assert Apply(s, Submit, engine) == t;
      assert Wins(t, engine) == Wins(s, engine);
      RepeatedLosses(t, n - 1, engine);
    }
  }

  /** When the page lets the player submit: as written, only while the level
      is already won with a non-empty pattern; as evidently intended by the
      "Check" label, whenever a pattern is typed. */
  datatype SubmitGate = WinOnly | AnyPattern

  /** The effect of an action as the page offers it: once the game is
      complete only "Play Again" is shown; submitting (the Enter key or the
      button) is possible only when the gate lets it through; the hint button
      is shown only after more than two failed attempts while the hint is
      hidden. */
  function ApplyFromUi(s: Session, a: Action, engine: RegexEngine, gate: SubmitGate): (t: Session)
    requires Consistent(s)
    ensures Consistent(t)
    ensures s.complete ==> t == (if a.Reset? then Initial() else s)
  {
    if s.complete then
      if a.Reset? then Initial() else s
    else
      match a
      case Submit =>
        var open := s.regex != "" && (gate.AnyPattern? || Wins(s, engine));
        if open then Submitted(s, engine) else s
      case RevealHint => if s.attempts > 2 && !s.showHint then s.(showHint := true) else s
      case _ => Apply(s, a, engine)
  }

  function RunFromUi(s: Session, actions: seq<Action>, engine: RegexEngine, gate: SubmitGate): (t: Session)
    requires Consistent(s)
    ensures Consistent(t)
    decreases |actions|
  {
    if actions == [] then s
    else RunFromUi(ApplyFromUi(s, actions[0], engine, gate), actions[1..], engine, gate)
  }

  /** The two gates differ only on a losing submission of a typed pattern
      before the game is complete: the written page ignores it, the intended
      one counts it as a failed attempt. */
  lemma GatesDifferOnlyOnLosingSubmit(s: Session, a: Action, engine: RegexEngine)
    requires Consistent(s)
    ensures ApplyFromUi(s, a, engine, WinOnly) != ApplyFromUi(s, a, engine, AnyPattern) <==>
            a == Submit && !s.complete && s.regex != "" && !Wins(s, engine)
    ensures a == Submit && !s.complete && s.regex != "" && !Wins(s, engine) ==>
              ApplyFromUi(s, a, engine, WinOnly) == s &&
              ApplyFromUi(s, a, engine, AnyPattern) == s.(attempts := s.attempts + 1)
  {
  }

  /** Through the written page, no submission is ever a loss: the attempt
      counter stays at zero, the hint never appears, and every solved level
      scores the full 100 points, whatever the player does. */
  lemma {:induction false} UiNeverCountsAttempts(s: Session, actions: seq<Action>, engine: RegexEngine)
    requires Consistent(s) && s.attempts == 0 && !s.showHint
    ensures RunFromUi(s, actions, engine, WinOnly).attempts == 0
    ensures !RunFromUi(s, actions, engine, WinOnly).showHint
    decreases |actions|
  {
    if actions != [] {
      var t := ApplyFromUi(s, actions[0], engine, WinOnly);
      UiWinScoresHundred(s, actions[0], engine);
      UiNeverCountsAttempts(t, actions[1..], engine);
    }
  }

  /** One action through the written page from a session with no failed
      attempts: the counter and the hint stay off, and the score only resets,
      stays, or grows by exactly 100. */
  lemma UiWinScoresHundred(s: Session, a: Action, engine: RegexEngine)
    requires Consistent(s) && s.attempts == 0 && !s.showHint
    ensures ApplyFromUi(s, a, engine, WinOnly).attempts == 0
    ensures !ApplyFromUi(s, a, engine, WinOnly).showHint
    ensures var t := ApplyFromUi(s, a, engine, WinOnly);
            t.score == 0 || t.score == s.score || t.score == s.score + 100
  {
  }

  /** Running two sequences of actions through the page is running the
      second from where the first left off. */
  lemma {:induction false} RunFromUiAppend(s: Session, first: seq<Action>, second: seq<Action>,
                                           engine: RegexEngine, gate: SubmitGate)
    requires Consistent(s)
    ensures RunFromUi(s, first + second, engine, gate)
            == RunFromUi(RunFromUi(s, first, engine, gate), second, engine, gate)
    decreases |first|
  {
    if first == [] {
      assert first + second == second;
    } else {
      assert (first + second)[0] == first[0];
      assert (first + second)[1..] == first[1..] + second;
      RunFromUiAppend(ApplyFromUi(s, first[0], engine, gate), first[1..], second, engine, gate);
    }
  }

  /** Through the intended page, checking a typed pattern that does not win
      `n` times counts `n` failed attempts and changes nothing else. */
  lemma {:induction false} FailedChecks(s: Session, n: nat, engine: RegexEngine)
    requires Consistent(s) && !s.complete && s.regex != "" && !Wins(s, engine)
    ensures RunFromUi(s, Repeat(Submit, n), engine, AnyPattern) == s.(attempts := s.attempts + n)
    decreases n
  {
    if n > 0 {
      var t := s.(attempts := s.attempts + 1);
      assert ApplyFromUi(s, Submit, engine, AnyPattern) == t;
      assert Wins(t, engine) == Wins(s, engine);
      FailedChecks(t, n - 1, engine);
    }
  }

  /** Through the intended page, every failed check lowers the reward of the
      eventual solution: after `n` failed checks, typing and checking a
      solving pattern earns `Points(attempts + n)`, ten less per failure down
      to the floor of ten. */
  lemma RetriesCostPoints(s: Session, n: nat, pattern: string, engine: RegexEngine)
    requires Consistent(s) && !s.complete && s.regex != "" && !Wins(s, engine)
    requires Solves(pattern, s.level, engine)
    ensures RunFromUi(s, Repeat(Submit, n) + [Type(pattern), Submit], engine, AnyPattern).score
            == s.score + Points(s.attempts + n)
    ensures Points(s.attempts + n) <= Points(s.attempts)
    ensures s.attempts + n <= 9 ==> Points(s.attempts + n) + 10 * n == Points(s.attempts)
  {
    FailedChecks(s, n, engine);
    RunFromUiAppend(s, Repeat(Submit, n), [Type(pattern), Submit], engine, AnyPattern);
    var t := s.(attempts := s.attempts + n);
    var typed := ApplyFromUi(t, Type(pattern), engine, AnyPattern);
    assert typed == Typed(t, pattern, engine);
    assert Wins(typed, engine);
    assert RunFromUi(t, [Type(pattern), Submit], engine, AnyPattern)
           == RunFromUi(typed, [Submit], engine, AnyPattern);
    assert RunFromUi(typed, [Submit], engine, AnyPattern) == Submitted(typed, engine);
  }

  /** Through the intended page, the hint button works once three checks of a
      typed pattern have failed, and not before. */
  lemma HintAfterThreeFailures(s: Session, n: nat, engine: RegexEngine)
    requires Consistent(s) && !s.complete && s.regex != "" && !Wins(s, engine)
    requires s.attempts == 0 && !s.showHint
    ensures RunFromUi(s, Repeat(Submit, n) + [RevealHint], engine, AnyPattern).showHint <==> n >= 3
  {
    FailedChecks(s, n, engine);
    RunFromUiAppend(s, Repeat(Submit, n), [RevealHint], engine, AnyPattern);
  }

  /** The session fields of the game component, updated in place. */
  class Game {
    var currentLevel: nat
    var regex: string
    var score: int
    var attempts: nat
    var showHint: bool
    var gameComplete: bool
    var regexError: string

    function State(): Session
      reads this
    {
      Session(currentLevel, regex, score, attempts, showHint, gameComplete, regexError)
    }

    ghost predicate Valid()
      reads this
    {
      Consistent(State())
    }

    constructor ()
      ensures Valid() && State() == Initial()
    {
      currentLevel, regex, score, attempts := 0, "", 0, 0;
      showHint, gameComplete, regexError := false, false, "";
    }

    /** Typing into the pattern field; the evaluation that follows sets or
        clears the inline error. */
    method SetRegex(pattern: string, engine: RegexEngine)
      requires Valid()
      modifies this
      ensures Valid() && State() == Typed(old(State()), pattern, engine)
    {
      regex := pattern;
      if pattern != "" {
        if engine.compiles(pattern) {
          regexError := "";
        } else {
          regexError := InvalidPattern;
        }
      }
    }

    /** The win condition as the component computes it on each render: the
        current level's fixtures graded against the typed pattern. */
    method AllCorrectNow(engine: RegexEngine) returns (won: bool)
      requires Valid()
      ensures won == Wins(State(), engine)
    {
      var results := Results(Catalog()[currentLevel].testStrings, regex, engine);
      won := |results| > 0 && CorrectCount(results) == |results| && regex != "";
      AllCorrectIsFullCount(results, regex);
    }

    method HandleSubmit(engine: RegexEngine)
      requires Valid()
      modifies this
      ensures State() == Submitted(old(State()), engine)
      ensures Valid()
    {
      var won := AllCorrectNow(engine);
      if won {
        var points := Points(attempts);
        score := score + points;
        if currentLevel < LevelCount - 1 {
          currentLevel := currentLevel + 1;
          regex := "";
          attempts := 0;
          showHint := false;
        } else {
          gameComplete := true;
        }
      } else {
        attempts := attempts + 1;
      }
    }

    method ShowHint()
      requires Valid()
      modifies this
      ensures Valid() && State() == old(State()).(showHint := true)
    {
      showHint := true;
    }

    method ResetGame()
      modifies this
      ensures Valid() && State() == Initial()
    {
      currentLevel := 0;
      regex := "";
      score := 0;
      attempts := 0;
      showHint := false;
      gameComplete := false;
      regexError := "";
    }
  }
}
