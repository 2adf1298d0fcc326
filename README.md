# Regex Quest: the grading, scoring and display logic, in Dafny

Regex Quest is a browser game that teaches regular expressions. Each level shows five sample
strings. For each one, the level says whether a good pattern should match it. The player types
a pattern and sees it graded on every keystroke. A level is won when every sample is graded
correctly, and a won level earns points that shrink with failed attempts. This project models
the logic beneath the interface:

- `levels.dfy` (module `Levels`): the catalog of ten levels, each with its five fixtures
  (`{text, shouldMatch}`). Titles, descriptions and hints are display text and are dropped.
- `evaluation.dfy` (module `Evaluation`): grading the fixtures of a level against a pattern,
  the inline error message, and the two aggregates: the win condition (`allCorrect`) and the
  number of correct fixtures (`correctCount`). The host regular-expression engine is a
  parameter, `RegexEngine(compiles, test)`. It says which pattern texts compile under
  `new RegExp(p, "i")` and which texts the compiled pattern finds a match in. A non-global
  expression keeps no state between `test` calls, so `test` is a function.
- `session.dfy` (module `GameSession`): the session state of the game component (level,
  pattern, score, attempts, hint, completion, error). The transitions are first stated as
  functions on a `Session` value (`Submitted`, `Typed`, `Apply`, `Run`). The class
  `GameSession.Game` then holds the same seven fields and updates them in place with
  `HandleSubmit`, `ResetGame`, `SetRegex` and `ShowHint`. Each of those methods is proved
  against the matching function. The module also models the page's gates on the actions
  (`ApplyFromUi`). Those gates are the subject of the finding below.
- `highlight.dfy` (module `Highlight`): how the highlighting component splits a text into
  plain and highlighted pieces. The loop keeps a `lastIndex` cursor over the match positions
  returned by `matchAll`, which arrive here as an input sequence of (index, length) pairs.
- `timer.dfy` (module `CountUpTimer`): `formatTime`, which turns whole seconds into
  `HH:MM:SS`. It comes with a reader (`ParseTime`) that proves the clock text determines
  the count.

## Model

| member | source | states |
|---|---|---|
| `Levels.Catalog` | src/components/game.tsx:12-143 | there are ten levels with ids 1..10 in order, each with five fixtures; in every level the first fixture should match and the fourth should not |
| `Levels.EveryLevelHasBothVerdicts` | src/components/game.tsx:12-143 | every level has a fixture that should match and one that should not |
| `Evaluation.Results` | src/components/game.tsx:156-182 | one result per fixture, in order, carrying the fixture's text and expectation unchanged; for an empty pattern or one that does not compile every result is not matching and not correct; otherwise `matches` is the engine's answer and `correct` is whether it agrees with `shouldMatch` |
| `Evaluation.RegexErrorAfter` | src/components/game.tsx:157-175 | an empty pattern leaves the error as it was; a non-empty pattern clears it exactly when it compiles and otherwise sets "Invalid regular expression" |
| `Evaluation.AllCorrect` | src/components/game.tsx:184 | the win condition; its meaning is proved in `AllCorrectIsFullCount` (the full correct count with a non-empty pattern) and `WinMeansAgreement` (a live pattern that agrees with every fixture) |
| `Evaluation.CorrectCount` | src/components/game.tsx:185 | the count lies in 0..number of results; it equals the number of results exactly when all are correct, is 0 exactly when none is, and for one result is 1 exactly when it is correct |
| `Evaluation.CorrectCountAppend` | src/components/game.tsx:185 | the count of two lists joined is the sum of their counts; with the one-result case this makes it the number of correct results |
| `Evaluation.AllCorrectIsFullCount` | src/components/game.tsx:184-185 | the level is won exactly when there are results, the correct count is all of them, and the pattern is non-empty |
| `Evaluation.EmptyPatternNeverWins` | src/components/game.tsx:157-163 | an empty pattern never wins and has no correct fixture |
| `Evaluation.InvalidPatternNeverWins` | src/components/game.tsx:174-181 | a pattern that does not compile never wins, has no correct fixture, and sets the invalid-pattern message |
| `Evaluation.WinMeansAgreement` | src/components/game.tsx:165-184 | a level is won exactly when it has fixtures, the pattern is non-empty and compiles, and the engine's answer agrees with `shouldMatch` on every fixture |
| `Evaluation.UniformPatternNeverWins` | src/components/game.tsx:12-184 | no level of the catalog can be won by a pattern that matches every text, or none |
| `GameSession.Initial` | src/components/game.tsx:146-152 | the initial session: level 0, empty pattern, score 0, no attempts, hint hidden, not complete, no error; it is consistent |
| `GameSession.Points` | src/components/game.tsx:189 | the reward is a multiple of ten in [10, 100]: 100 minus 10 per failed attempt up to nine attempts, 10 from nine on |
| `GameSession.Submitted` | src/components/game.tsx:187-203 | a submission keeps the level inside the catalog, keeps the score a non-negative multiple of ten, keeps a complete game at the last level, moves the level by 0 or +1, and adds nothing or between 10 and 100 points |
| `GameSession.Typed` | src/components/game.tsx:280 | typing replaces the pattern and updates the error as the evaluation does; the error keeps agreeing with the pattern |
| `GameSession.Apply` | src/components/game.tsx:187-213 | the handlers with every page gate removed: each keeps the session consistent and keeps the error agreeing with the pattern |
| `GameSession.Run` | src/components/game.tsx:146-213 | any sequence of actions keeps the session consistent and the error agreeing with the pattern |
| `GameSession.WinningSubmit` | src/components/game.tsx:188-199 | a win adds `Points(attempts)`; below the last level it moves up one level with the pattern cleared, attempts 0 and the hint hidden; at the last level it sets completion and keeps the level |
| `GameSession.LosingSubmit` | src/components/game.tsx:200-202 | a loss only increments the attempts |
| `GameSession.EmptyPatternSubmitLoses` | src/components/game.tsx:184-202 | submitting an empty pattern is always a loss |
| `GameSession.ResetFromAnywhere` | src/components/game.tsx:205-213 | a reset after any actions, complete game or not, restores the initial session |
| `GameSession.SolveAtFirstTry` | src/components/game.tsx:187-199 | typing a solving pattern and submitting it with no failed attempts scores 100 and moves on with everything cleared, or completes the game at the last level |
| `GameSession.PerfectPrefix` | src/components/game.tsx:187-199 | after solving the first k levels at the first try, play is at level k with 100·k points |
| `GameSession.PerfectGame` | src/components/game.tsx:187-199 | solving all ten levels at the first try completes the game with 1000 points |
| `GameSession.RepeatedLosses` | src/components/game.tsx:200-202 | n losing submissions add n attempts and change nothing else |
| `GameSession.RetriesCostPoints` | src/components/game.tsx:187-202 | on the page with the submit gate relaxed to "a pattern is typed", after n failed checks the solution earns `Points(attempts + n)`: never more than without them, and exactly 10·n less while attempts stay at most nine |
| `GameSession.FailedChecks` | src/components/game.tsx:200-202 | on the relaxed page, n checks of a losing typed pattern add n attempts and change nothing else |
| `GameSession.HintAfterThreeFailures` | src/components/game.tsx:336-337 | on the relaxed page, starting from no attempts, the hint button shows the hint exactly when at least three checks have failed |
| `GameSession.ApplyFromUi` | src/components/game.tsx:215-291 | the actions as the page offers them (submit behind its gate, the hint button after more than two attempts) keep the session consistent, under the written gate and the relaxed one; once the game is complete only "Play Again" has an effect, back to the initial session, and every other action leaves the session unchanged |
| `GameSession.GatesDifferOnlyOnLosingSubmit` | src/components/game.tsx:281-291 | the written and the relaxed gate give different results exactly for a losing submission of a typed pattern before completion, which the written page ignores and the relaxed one counts as an attempt |
| `GameSession.UiNeverCountsAttempts` | src/components/game.tsx:281-291 | through the page, attempts stay 0 and the hint stays hidden whatever the player does |
| `GameSession.UiWinScoresHundred` | src/components/game.tsx:281-291 | through the page, one action either resets the score, leaves it, or adds exactly 100 |
| `GameSession.Game.constructor` | src/components/game.tsx:146-152 | a new game is in the initial session |
| `GameSession.Game.SetRegex` | src/components/game.tsx:280 | the fields after typing are `Typed` of the fields before |
| `GameSession.Game.AllCorrectNow` | src/components/game.tsx:184 | the win flag computed from the fields is `Wins` of the current session |
| `GameSession.Game.HandleSubmit` | src/components/game.tsx:187-203 | the fields after a submission are `Submitted` of the fields before, and stay consistent |
| `GameSession.Game.ShowHint` | src/components/game.tsx:337 | only the hint flag changes, to shown |
| `GameSession.Game.ResetGame` | src/components/game.tsx:205-213 | every field is back at its initial value |
| `Highlight.Slice` | src/components/highlighted-regex-text.tsx:31 | inside the text a slice is the substring between its bounds; it is non-empty when it starts inside the text before its end |
| `Highlight.MatchedTexts` | src/components/highlighted-regex-text.tsx:25-36 | one slice per match, in match order, from the match's start to its end |
| `Highlight.MatchedTextsWithin` | src/components/highlighted-regex-text.tsx:25-36 | for matches inside the text, each highlighted slice is exactly `text[start, start+len)` |
| `Highlight.Segment` | src/components/highlighted-regex-text.tsx:14-46 | no expression, disabled, or no match gives the whole text as one plain piece; otherwise there is exactly one highlighted piece per match, with the match's text, in order; for matches inside the text no plain piece is empty; for ordered matches the pieces joined give back the text and the k-th highlighted piece starts at the k-th match's index |
| `Highlight.SplitAtMatches` | src/components/highlighted-regex-text.tsx:21-46 | the loop's output has the highlighted pieces of all matches in order, no empty plain piece for matches inside the text, and for ordered matches joins back to the text with each highlighted piece starting at its match's index |
| `Highlight.ProgressStep` | src/components/highlighted-regex-text.tsx:24-39 | one turn of the loop keeps what has been built equal to the text up to the cursor, with every highlighted piece so far at its match's index; it sets the cursor to the match's end and for ordered matches never moves it back |
| `Highlight.PushTurn` | src/components/highlighted-regex-text.tsx:25-36 | one turn pushes the gap piece when the match starts after the cursor, then the highlighted match: exactly `Turn` |
| `Highlight.TurnMarks` | src/components/highlighted-regex-text.tsx:36 | a turn adds exactly the match's slice to the highlighted texts |
| `Highlight.TurnPlain` | src/components/highlighted-regex-text.tsx:29-33 | the gap piece, pushed only when the match starts after the cursor, is not empty |
| `Highlight.TurnJoin` | src/components/highlighted-regex-text.tsx:28-38 | for a match at or after the cursor, gap and match extend the joined text to the match's end, and the highlighted piece starts at the match's index |
| `Highlight.PushTail` | src/components/highlighted-regex-text.tsx:41-44 | the trailing plain piece is pushed exactly when the cursor is before the end of the text |
| `Highlight.FinishMarks` | src/components/highlighted-regex-text.tsx:41-44 | the trailing piece adds no highlighted piece and moves none |
| `Highlight.FinishPlain` | src/components/highlighted-regex-text.tsx:41-44 | the trailing piece is not empty |
| `Highlight.FinishConcat` | src/components/highlighted-regex-text.tsx:41-44 | the trailing piece completes the joined text |
| `Highlight.Finish` | src/components/highlighted-regex-text.tsx:41-44 | the trailing piece, pushed only when the cursor is before the end, is non-empty and completes the text |
| `CountUpTimer.Fields` | src/components/CountUpTimer.tsx:10-12 | minutes and seconds lie in 0..59, and hours·3600 + minutes·60 + seconds equals the count |
| `CountUpTimer.Decimal` | src/components/CountUpTimer.tsx:10-12 | the numeral is non-empty digits, one digit below 10 and two below 100, and has no leading zero: its first digit is 0 only for 0 |
| `CountUpTimer.DecimalRoundTrip` | src/components/CountUpTimer.tsx:10-12 | reading the numeral of n back gives n |
| `CountUpTimer.PadStart2` | src/components/CountUpTimer.tsx:10-12 | padding gives at least two characters and keeps the whole text behind the zeros it adds, so it never truncates |
| `CountUpTimer.PaddedValue` | src/components/CountUpTimer.tsx:10-12 | a padded numeral is still digits and denotes the same number |
| `CountUpTimer.PaddedIsTwoDigits` | src/components/CountUpTimer.tsx:11-12 | below 100 the padded numeral is exactly the two digits |
| `CountUpTimer.FormatTime` | src/components/CountUpTimer.tsx:9-14 | the clock text; its shape is proved in `FormatTimeShape` and that it determines the count in `FormatParseRoundTrip` |
| `CountUpTimer.FormatTimeShape` | src/components/CountUpTimer.tsx:9-14 | the colons sit third and sixth from the end, minutes and seconds are exactly their two digits, and the text is 8 characters long below 360000 seconds |
| `CountUpTimer.JoinedRoundTrip` | src/components/CountUpTimer.tsx:13 | `h:m:s` for three numerals reads back as h·3600 + m·60 + s |
| `CountUpTimer.FormatParseRoundTrip` | src/components/CountUpTimer.tsx:9-14 | reading the clock text back gives the count it was made from |
| `CountUpTimer.Midnight` | src/components/CountUpTimer.tsx:9-14 | 0 seconds is "00:00:00" |
| `CountUpTimer.OneHourOneMinuteOneSecond` | src/components/CountUpTimer.tsx:9-14 | 3661 seconds is "01:01:01" |

## Findings

| source | as written | input that shows it | evidently intended | confidence | as-written member | corrected member |
|---|---|---|---|---|---|---|
| src/components/game.tsx:281-291 | Enter calls `handleSubmit` only when `allCorrect && regex`. The button is disabled when `!allCorrect \|\| !regex`, yet it is labelled "Check" in that state. So the losing branch of `handleSubmit` (lines 200-202) can never run. Attempts stay 0, the hint button (line 336, shown only after more than two attempts) never appears, and every level scores 100. | Level 1, type `q` (it occurs in none of the five texts), then press Enter or click "Check": nothing happens and attempts stay 0 | A failed "Check" counts an attempt. The eventual solution then earns 10 fewer points per failure, down to 10, and the hint is offered after three failures. | not executed; high | `GameSession.ApplyFromUi` with `WinOnly`, `GameSession.UiNeverCountsAttempts` | `GameSession.ApplyFromUi` with `AnyPattern`, `GameSession.RetriesCostPoints`, `GameSession.HintAfterThreeFailures` |

`GameSession.ApplyFromUi` takes the submit gate as a parameter. `WinOnly` is the page as
written. `AnyPattern` is the corrected page, where "Check" is enabled whenever a pattern is
typed. The completion screen and the hint-button rule are the same under both, and
`GatesDifferOnlyOnLosingSubmit` proves that the two pages differ only on a losing submission.
The session class `GameSession.Game` and the functions `Apply` and `Run` model the handlers
themselves, with every page gate removed.

## Left out

- The regular-expression engine (`new RegExp`, `test`, `matchAll`) is foreign code. It is the
  `RegexEngine` parameter in grading and the match list given as input in highlighting. The
  `TypeError` that `matchAll` throws on a non-global expression is not modelled.
- Anchoring and required-word grading are not modelled: neither exists in the game component's
  code, which grades with an unanchored `test` and `correct = (matches == shouldMatch)` only.
- Level titles, descriptions and hints are display text and are dropped from the catalog.
- All rendering is out: CSS classes, icons, badges, images, theme toggle, the copyright year,
  React fragments and keys. So is the start menu and routing of src/app/page.tsx, and the
  random praise messages of src/lib/praiseMessages.ts, which use `Math.random`.
- The one-second `setInterval` tick of the timer (src/components/CountUpTimer.tsx:18-24) is
  timer plumbing and is left out.
- `CountUpTimer.FormatTime`: only whole, non-negative counts are modelled (`nat`). The counter
  only ever adds 1 to its start, so negative or fractional seconds, where `Math.floor` and `%`
  differ, are not modelled.
- Scores and counters are unbounded integers. JavaScript numbers stay exact far beyond any
  score the game can reach.
- `GameSession.Typed` and `GameSession.Game.SetRegex`: the error is updated as part of typing.
  In the source it is set during the next memoised evaluation, and React batches state updates.
  That render timing is not modelled.
- The hint button's visibility rule (src/components/game.tsx:336) appears only in
  `ApplyFromUi`. `Game.ShowHint` models just the click.
- `Highlight.Segment` takes "an expression is present" as a boolean. Its match list is what
  `matchAll` would return; the engine that produces it is not modelled. Slicing is
  `String.prototype.slice` with non-negative bounds, clamped to the text.
- `Highlight.Segment`: match positions are read as indices into the Dafny string, which counts
  Unicode scalar values. `matchAll` indexes and `slice` count UTF-16 code units, so for text
  outside the Basic Multilingual Plane the two differ. UTF-16 code-unit offsets are not
  modelled.
