# ChessHub move-quality pipeline, modelled in Dafny

ChessHub's analysis scripts replay a recorded chess game against a UCI
engine (Stockfish) and judge the moves of one side. Two near-identical
scripts do this: `Analysis/chess_analysis.py` and `main.py`. Each script:

- averages several engine samples of every position reached in the game;
- prints a table with one row per move pair (white move and evaluation,
  black move and evaluation) and collects a (ply, evaluation) trend series
  for a plot;
- walks the game once more, and at each ply where the tracked side is to
  move compares the engine's best line with the move actually played,
  averaged over several trials;
- flags the moves whose average error reaches a margin and, in
  `chess_analysis.py` only, reports an accuracy percentage.

The model replaces the engine by a scripted oracle. A position is known by
the number of plies pushed since the start of the game, so the engine is a
triple of functions from a position and a sample or trial number, one per
place where the analysers query it: `analyse` gives the i-th sample of the
table's average, `bestLine` the `multipv=1` query of trial i, and
`playedScore` the score of the position after the played move in trial i.
Separate queries of one position are therefore independent of each other,
as the results of a time-bounded search are. A move is opaque apart from its standard algebraic notation,
and the replay board keeps only the side to move and the stack of pushed
moves. Python's float quotients are kept as exact fractions (`Ratio`),
thresholds are compared by cross-multiplication, and `int(...)` is
truncation toward zero.

Modules:

- `Wrappers`: `Option`.
- `Numbers`: exact fractions, truncation, the decimal text of an integer
  and a parser that reads it back.
- `Chess`: colours, moves, engine scores, the engine oracle, and the
  `Board` class that is pushed and copied.
- `Evaluation`: the code both scripts share line for line.
  `main.py:21-95` repeats `Analysis/chess_analysis.py:34-139` statement by
  statement, so `get_evaluation_str`, `average_evaluation`,
  `format_eval_value` and the table loop are modelled once. So is the walk
  over the tracked side's plies that both error analysers perform.
- `ChessAnalysis`: `Analysis/chess_analysis.py`'s colour prompt and
  four-mode menu. Also its error analyser: absolute error, a `threshold`
  parameter, an accuracy percentage.
- `MainScript`: `main.py`'s three-mode menu and its error analyser:
  signed error, a fixed margin of 50, no accuracy, colour fixed to White.
- `Variants`: how the two analysers relate when `chess_analysis.py` uses
  its threshold of 50.

Where Python raises, the model returns a value instead. A missing score in
a move-error trial (`None - int`) or zero trials (`sum([]) / 0`) ends the
analysis with `Aborted`, which carries the flagged moves already printed
before the raise. Every menu answer gives at least two samples,
but the analysers themselves accept any `times`, so the model keeps their
zero-trial path.

## Model

| member | source | states |
|---|---|---|
| Evaluation.EvaluationString | Analysis/chess_analysis.py:44-51 | "Mate" exactly when the side's score is missing; otherwise the text reads back as that score, and starts with "+" exactly when the score is not negative |
| Evaluation.FormatEvalValue | Analysis/chess_analysis.py:78-86 | the text is never empty, starts with "+" exactly when the value is not negative and with "-" exactly when its integer part is negative |
| Evaluation.SampleValue | Analysis/chess_analysis.py:70-74 | one sample: the side's score, or 10000 when the score is missing |
| Evaluation.SampleSum | Analysis/chess_analysis.py:64-76 | the total of the first n samples of a position |
| Evaluation.PairRow | Analysis/chess_analysis.py:110-138 | the row printed for a pair: its number, both moves and both formatted evaluations, with empty black cells when the game ends on White's move |
| Evaluation.FormatEvalValueReadsBack | Analysis/chess_analysis.py:85-86 | the formatted text is a sign and decimal digits without a leading zero that read back as the value truncated toward zero |
| Numbers.Below | Analysis/chess_analysis.py:209-212 | `avg_error < threshold` on the exact quotient, decided by cross-multiplication; its negation is the `>=` test of the flag |
| Numbers.TruncTowardZero | Analysis/chess_analysis.py:86 | `int(x)` drops the fraction toward zero: its magnitude is the largest whole number of denominators in the numerator's magnitude, and it keeps the numerator's sign |
| Numbers.SignedText | Analysis/chess_analysis.py:50-51 | the f-string of an optional "+" and the number is never empty, starts with "+" exactly when the sign was requested, and with "-" exactly for a negative value |
| Numbers.SignedTextReadsBack | Analysis/chess_analysis.py:50-51 | when the "+" is only requested for a value that is not negative, the text is a sign and decimal digits without a leading zero that read back as the value |
| Numbers.NatToStringRoundTrip | Analysis/chess_analysis.py:51 | the decimal text of a natural number is a non-empty string of digits with no leading zero (it starts with "0" exactly for 0) that reads back as that number |
| Numbers.Trunc | Analysis/chess_analysis.py:86 | `int(num / den)`: the quotient truncated toward zero |
| Numbers.NatToString | Analysis/chess_analysis.py:51 | `str(n)` for a natural number: its decimal digits |
| Numbers.DigitChar | Analysis/chess_analysis.py:51 | each digit value below ten is written as the digit character of that value |
| Evaluation.AverageEvaluation | Analysis/chess_analysis.py:53-76 | the result is the sum of the `times` samples of the current position over `times`, each sample taken on a copy of the board |
| Evaluation.IdenticalSamplesAverage | Analysis/chess_analysis.py:64-76 | when every sample equals v, the samples add up to `times * v`, so the average is v |
| Evaluation.MissingSamplesCountAsMate | Analysis/chess_analysis.py:71-74 | the sample sum is the sum of the present scores plus 10000 for every missing one |
| Evaluation.PushAndEvaluate | Analysis/chess_analysis.py:115-119 | one ply of the table: the board gains the move and hands the turn to the other side, and the evaluation is the average of the samples of the new position |
| Evaluation.AnalyzePair | Analysis/chess_analysis.py:110-139 | one pass of the pair loop: the board gains the pair's moves, and the side to move is back to the first one after two moves or the other side after one; two points (one when the game ends on a white move) with consecutive ply numbers and the evaluations of the positions after each move; the row carries the move number, both notations and the formatted evaluations, or empty black cells |
| Evaluation.AnalyzeGameTable | Analysis/chess_analysis.py:102-139 | for n moves: ceil(n/2) rows numbered 1, 2, ...; ply numbers exactly 1..n; one evaluation per ply, the average for the position after that ply; each row is the row of its move pair; an odd n leaves the last row's black cells empty |
| Evaluation.SeriesStep | Analysis/chess_analysis.py:119-132 | appending consecutive ply numbers and the averages of those plies keeps the series one point per ply, numbered from 1 |
| Evaluation.PairRowOfPoints | Analysis/chess_analysis.py:112-138 | the row printed for a pair is the row of the pair read back from the evaluations collected so far |
| Evaluation.PairRowStable | Analysis/chess_analysis.py:119-130 | evaluations collected later do not change the row of an earlier pair |
| Evaluation.TableStep | Analysis/chess_analysis.py:110-139 | one pass of the pair loop keeps the table, the series and the ply count in step with the moves consumed |
| Evaluation.TableDone | Analysis/chess_analysis.py:110-139 | when the pair loop ends, the rows, the ply numbers and the evaluations are those of the whole game, with empty black cells after an odd last move |
| Evaluation.RowsMatchStep | Analysis/chess_analysis.py:110-139 | appending the next pair's evaluations and row keeps every earlier row the row of its pair |
| Evaluation.TrackedPlies | Analysis/chess_analysis.py:177-179 | every ply listed has the tracked side to move |
| Evaluation.TrackedPliesComplete | Analysis/chess_analysis.py:177-179 | every ply at which the tracked side is to move is listed |
| Evaluation.TrackedPliesCount | Analysis/chess_analysis.py:177-179 | there are ceil(n/2) tracked plies when the tracked side starts and floor(n/2) otherwise |
| Evaluation.TrackedPliesAscending | Analysis/chess_analysis.py:177-179 | the tracked plies are listed in game order |
| Evaluation.WalkVisitsTrackedPlies | Analysis/chess_analysis.py:177-218 | a completed walk holds one record per tracked ply, in order: record j is the examination of the j-th tracked move with index j + 1 |
| Evaluation.WalkCompletes | Analysis/chess_analysis.py:177-218 | the walk completes exactly when the examination of every tracked move does |
| Evaluation.WalkCompletesStep | Analysis/chess_analysis.py:177-218 | the step of WalkCompletes: if the equivalence holds before a ply, it holds after it |
| Evaluation.WalkTracked | Analysis/chess_analysis.py:179-213 | at a ply of the tracked side the walk goes on exactly when it got there and the examination of that ply, numbered one past the tracked plies before it, succeeds |
| Evaluation.WalkLength | Analysis/chess_analysis.py:177-216 | a completed walk holds one record per tracked ply |
| Evaluation.AllExaminedTracked | Analysis/chess_analysis.py:177-179 | at a ply of the tracked side, all tracked plies are examined exactly when the earlier ones and that ply are |
| Evaluation.AllExaminedAppend | Analysis/chess_analysis.py:177-179 | listing one more ply adds exactly that ply's examination to the condition |
| Evaluation.WalkStep | Analysis/chess_analysis.py:177-218 | one more ply: unchanged on a ply of the other side; on a tracked ply, one more record, or an abort when the examination raises |
| Evaluation.WalkStaysAborted | Analysis/chess_analysis.py:177-218 | once an examination has raised, the walk stays aborted |
| Evaluation.Walk | Analysis/chess_analysis.py:177-218 | the records of the first n plies, one per tracked ply, or None once an examination raises |
| Evaluation.Collected | Analysis/chess_analysis.py:177-218 | the records collected before the first examination that raises, or all of them when none raises |
| Evaluation.CollectedAfterRaise | Analysis/chess_analysis.py:177-213 | once an examination raises, the collected records stay those gathered before it, however many plies follow |
| Evaluation.Flagged | Analysis/chess_analysis.py:212-213 | the records a predicate selects, in game order |
| Evaluation.FlaggedStep | Analysis/chess_analysis.py:212-213 | one more record joins the reported moves exactly when it is flagged |
| Evaluation.FlaggedKeepsFlagged | Analysis/chess_analysis.py:212-213 | the reported moves are exactly the flagged records |
| Evaluation.TrialDifference | Analysis/chess_analysis.py:188-204 | the best line's score minus the played move's score in one trial, from the tracked side's view; None when either is missing |
| Evaluation.SkipMove | Analysis/chess_analysis.py:217-218 | a ply of the other side is only pushed on the main board and leaves the walk unchanged |
| Evaluation.RunTrial | Analysis/chess_analysis.py:188-204 | one trial on a copy of the board: the difference of the best line's and the played move's scores, None when either is missing, and the notation of the trial's best move; the main board is untouched |
| Chess.ScoreFor | Analysis/chess_analysis.py:193-202 | the score of the tracked side's view: White's view for White, Black's for Black, None where the library gives no number |
| Chess.TurnAt | Analysis/chess_analysis.py:179 | after an even number of pushes the starting side is to move again, and after an odd number the other side |
| Chess.TurnAtNext | Analysis/chess_analysis.py:215-218 | each push hands the move to the other side |
| Chess.Board.constructor | Analysis/chess_analysis.py:172 | a new game board has the given side to move and no moves pushed |
| Chess.Board.Push | Analysis/chess_analysis.py:215-218 | the move is appended to the stack and the side to move changes |
| Chess.Board.Copy | Analysis/chess_analysis.py:188 | a fresh board with the same side to move and move stack |
| ChessAnalysis.Lower | Analysis/chess_analysis.py:26 | lower-casing keeps the length and lower-cases each character |
| ChessAnalysis.ParseColor | Analysis/chess_analysis.py:25-32 | Black exactly for the answers "b" and "B"; White for an empty answer, "w", "W" and anything else |
| ChessAnalysis.ChooseAnalysisMode | Analysis/chess_analysis.py:227-254 | at least two samples for every answer; a time budget is at least 0.5 s; an answer other than "1", "2" or "3" gives (2, 0.5 s); a depth budget exactly for "3" |
| ChessAnalysis.AbsErrorSum | Analysis/chess_analysis.py:187-204 | the sum of absolute errors is never negative |
| ChessAnalysis.AbsErrorSumDefined | Analysis/chess_analysis.py:187-204 | the sum is defined exactly when every trial has both scores |
| ChessAnalysis.AbsErrorsStep | Analysis/chess_analysis.py:204 | appending the absolute difference of the next trial keeps the collected errors adding up to the sum over the trials so far |
| ChessAnalysis.Examine | Analysis/chess_analysis.py:181-213 | None exactly when there are no trials or a trial lacks a score; otherwise the record holds the ply, the index, the played notation, trial 0's best notation, and the mean absolute error, which is not negative; the move is accurate exactly when the error is below the threshold, and flagged exactly when its notation differs from the best and the error is not below it; so never both, and a move equal to the best is never flagged |
| ChessAnalysis.CountAccurate | Analysis/chess_analysis.py:209-210 | at most as many accurate moves as examined moves |
| ChessAnalysis.TallyStep | Analysis/chess_analysis.py:209-213 | one more record adds one accurate move exactly when it is accurate, and joins the flagged list exactly when it is flagged |
| ChessAnalysis.Records | Analysis/chess_analysis.py:177-218 | the records the analysis of a game collects, or None when it raises |
| ChessAnalysis.Summary | Analysis/chess_analysis.py:173-224 | the report of a finished analysis: counted moves, accurate moves, flagged moves and accuracy of its records |
| ChessAnalysis.Accuracy | Analysis/chess_analysis.py:221-224 | 0 when no move was examined; between 0 and 100 when the accurate moves do not outnumber the examined ones; 100 when all of them are accurate |
| ChessAnalysis.RunTrials | Analysis/chess_analysis.py:187-204 | one error per trial, each the absolute value of that trial's difference, adding up to the absolute error sum; none when a score is missing; the best notation comes from trial 0 |
| ChessAnalysis.ExamineMove | Analysis/chess_analysis.py:181-213 | the examination of the move played from the current board agrees with `Examine` at that ply |
| ChessAnalysis.TallyMove | Analysis/chess_analysis.py:179-216 | a ply of the tracked side: the examination agrees with `Examine`; on success the walk gains that record, the counters stay those of the records, and the move is pushed; otherwise the walk aborts and the printed moves are unchanged |
| ChessAnalysis.AnalyzePly | Analysis/chess_analysis.py:177-218 | one pass of the loop: either the walk aborts with the records and printed moves unchanged, or it reaches one more ply with the counters those of its records and the board one move further |
| ChessAnalysis.TalliedSummary | Analysis/chess_analysis.py:221-224 | counters that agree with the records give the summary of those records, accuracy included |
| ChessAnalysis.AnalyzeMoveErrors | Analysis/chess_analysis.py:172-224 | the analysis finishes exactly when the walk of the game completes; its counters, its flagged list and its accuracy are those of the walk's records; when it raises, it carries the flagged records collected before the raise; the board has replayed every move of the game |
| ChessAnalysis.RunScript | Analysis/chess_analysis.py:256-272 | for any answers, the table has ceil(n/2) rows and one point per ply; the move-error analysis raises exactly when a tracked ply has a trial with a missing score, never for want of trials, having printed the flagged moves before that ply; otherwise it reports the summary of the game's records at threshold 50 |
| ChessAnalysis.RecordsDescribeTrackedMoves | Analysis/chess_analysis.py:177-213 | a finished analysis has one record per tracked ply, in order, each with index j + 1, the played and best notations, and the error over `times` trials; accurate exactly below the threshold; flagged exactly when different from the best and not below it; never both |
| ChessAnalysis.RecordsFinishExactlyWhenScored | Analysis/chess_analysis.py:177-207 | the analysis finishes exactly when every tracked ply has at least one trial and every trial has both scores |
| ChessAnalysis.ReportBounds | Analysis/chess_analysis.py:173-224 | `total_moves` is the number of the tracked side's plies (ceil or floor of n/2); `player_move_index` ends at `total_moves + 1`; the accurate moves do not outnumber them; the accuracy lies in [0, 100] and is 0 without moves; no reported move is accurate or equal to the best move |
| ChessAnalysis.AllAccurateScoresFull | Analysis/chess_analysis.py:221-224 | when every examined move is accurate, all of them are counted and the accuracy is exactly 100 |
| MainScript.ChooseAnalysisMode | main.py:154-175 | at least two samples for every answer; a time budget is at least 2 s; an answer other than "1", "2" or "3" gives (3, 5 s); a depth budget exactly for "3"; two samples exactly for "1" |
| MainScript.ErrorSumDefined | main.py:126-143 | the signed error sum is defined exactly when every trial has both scores |
| MainScript.ErrorSumTotals | main.py:142-145 | the signed error sum is the plain total of the trial differences, whatever their signs |
| MainScript.ErrorSum | main.py:126-145 | the sum of the signed trial differences, or None when a score is missing |
| MainScript.Records | main.py:120-152 | the records the analysis of a game collects, or None when it raises |
| MainScript.Examine | main.py:121-147 | None exactly when there are no trials or a trial lacks a score; otherwise the record holds the ply, the index, the played notation, trial 0's best notation and the mean signed error; the move is flagged exactly when its notation differs from the best and the error is at least 50 |
| MainScript.RunTrials | main.py:126-143 | one error per trial, each the signed difference of that trial, adding up to the signed error sum; none when a score is missing; the best notation comes from trial 0 |
| MainScript.ErrorsStep | main.py:142-143 | appending the signed difference of the next trial keeps the collected errors those of the trials so far |
| MainScript.ExamineMove | main.py:121-147 | the examination of the move played from the current board agrees with `Examine` at that ply |
| MainScript.ReportMove | main.py:121-150 | a ply of the tracked side: the examination agrees with `Examine`; on success the walk gains that record, `player_move_index` stays one past the records, the reported moves are the flagged records, and the move is pushed; otherwise the walk aborts and the reported moves are unchanged |
| MainScript.AnalyzeMoveErrors | main.py:107-152 | the analysis finishes exactly when the walk of the game completes; `player_move_index` ends one past the number of records; the reported moves are the flagged records; when it raises, it carries the flagged records collected before the raise; the board has replayed every move |
| MainScript.RunScript | main.py:177-190 | for any menu answer, and with White as the tracked side: the table has ceil(n/2) rows and one point per ply; the move-error analysis raises exactly when a tracked ply has a trial with a missing score, having reported the flagged moves before that ply; otherwise it ends with the reported moves of the game's records |
| MainScript.RecordsDescribeTrackedMoves | main.py:118-150 | a finished analysis has one record per tracked ply, in order, with index j + 1, the played and best notations and the signed mean error; flagged exactly when different from the best and the error is at least 50; a move equal to the best is never flagged |
| MainScript.RecordsFinishExactlyWhenScored | main.py:120-145 | the analysis finishes exactly when every tracked ply has at least one trial and every trial has both scores |
| MainScript.ReportedMoves | main.py:118-152 | `player_move_index` ends one past the number of the tracked side's plies; every reported move differs from the best and has an error of at least 50 |
| MainScript.ImprovementIsNeverFlagged | main.py:142-147 | when every trial's played score beats the best line's, the mean error is negative and the move is not reported |
| Variants.SignedErrorBoundedByAbsolute | main.py:142-145 | the signed error sum is defined on the same trials as the absolute one and never exceeds it in magnitude |
| Variants.ScoredPliesAgree | main.py:126-145 | the two analysers find the same plies fully scored |
| Variants.MainFlagImpliesAnalysisFlag | main.py:146 | a move `main.py` reports is also reported, and judged inaccurate, by `chess_analysis.py` with threshold 50 |
| Variants.AnalysersAgreeOnGames | main.py:107-152 | over a whole game both analysers raise on the same games, examine the same plies, and every move `main.py` reports is reported by `chess_analysis.py` at threshold 50 |
| Variants.AbsoluteErrorFlagsAnImprovement | Analysis/chess_analysis.py:204 | the converse fails: a move scoring 100 above the engine's best line is reported by `chess_analysis.py` (its absolute error is 100) but not by `main.py` (its signed error is -100) |

## Left out

- The engine process (`popen_uci`, `analyse`, `quit`) is a scripted oracle. Its search is not modelled.
- The search budget (`Limit`) is chosen by the menus but not passed to the oracle. One oracle stands for one run at one budget.
- python-chess internals are not modelled. This covers the board representation, move legality, and the starting side of `game.board()`, which is a parameter.
- SAN rendering (`board.san`) is not modelled. A move carries its own notation.
- The mate-to-centipawn conversion of `score(mate_score=10000)` is not modelled. A score is given per side as an optional integer.
- PGN loading and `input()` are I/O. Answers are string parameters, and the game is a sequence of moves.
- Printing is left out. This covers the table line layout, the flagged-move lines, the "Invalid input" messages and the `.2f` accuracy format. The model keeps the values printed, also those printed before an analysis raises.
- matplotlib plotting is left out. The model keeps the plotted series.
- Floats are kept as exact fractions, so rounding of the quotients is not modelled.
- ChessAnalysis.Lower: lower-cases ASCII letters only, where Python's `str.lower()` also folds other alphabets. This does not affect which answers select a colour.
- Evaluation.AverageEvaluation: requires `times > 0`. With zero samples Python raises ZeroDivisionError, which no menu answer can cause.
- Evaluation.AnalyzeGameTable: requires `times > 0`, for the same reason.
