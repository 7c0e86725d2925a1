/**
 * Analysis/chess_analysis.py: the colour prompt, the four-mode menu, and
 * the move-error analyser that averages the ABSOLUTE difference between
 * the engine's best line and the played move, compares it with a
 * `threshold` parameter and reports an overall accuracy.
 */
module ChessAnalysis {
  import opened Wrappers
  import opened Numbers
  import opened Chess
  import opened Evaluation

  // ---------------------------------------------------------------------
  // The colour prompt

  /** Python's `str.lower()` on one character, for the ASCII letters. */
  function LowerChar(ch: char): char {
    if 'A' <= ch <= 'Z' then (ch as int + 32) as char else ch
  }

  function Lower(s: string): (r: string)
    ensures |r| == |s|
    ensures forall i :: 0 <= i < |s| ==> r[i] == LowerChar(s[i])
  {
    if s == [] then [] else [LowerChar(s[0])] + Lower(s[1..])
  }

  /**
   * The colour question: an empty answer counts as "w" (`input(...) or "w"`);
   * after lower-casing, "w" picks White, "b" picks Black, and anything else
   * falls back to White.
   */
  function ParseColor(answer: string): (c: Color)
    ensures c == Black <==> answer == "b" || answer == "B"
  {
    var a := if answer == "" then "w" else answer;
    if Lower(a) == "w" then White
    else if Lower(a) == "b" then Black
    else White
  }

  // ---------------------------------------------------------------------
  // The analysis menu

  /**
   * choose_analysis_mode: "1" fast (2 samples, 2 s), "2" in-depth
   * (3 samples, 5 s), "3" very in-depth (3 samples, depth 20), "4" very
   * fast (2 samples, 0.5 s); any other answer is treated as "4".
   */
  function ChooseAnalysisMode(answer: string): (m: Mode)
    ensures m.times >= 2
    ensures m.limit.Time? ==> m.limit.millis >= 500
    ensures answer !in {"1", "2", "3"} ==> m == Mode(2, Time(500))
    ensures answer == "3" <==> m.limit.Depth?
  {
    if answer == "1" then Mode(2, Time(2000))
    else if answer == "2" then Mode(3, Time(5000))
    else if answer == "3" then Mode(3, Depth(20))
    else if answer == "4" then Mode(2, Time(500))
    else Mode(2, Time(500))
  }

  // ---------------------------------------------------------------------
  // The move-error analyser

  /**
   * The sum of `abs(best_eval_value - played_eval_value)` over trials
   * 0 .. n-1 of the ply played from position `pos`; None when a trial
   * has a missing score.
   */
  function AbsErrorSum(engine: Engine, pos: nat, c: Color, n: nat): (r: Option<int>)
    ensures r.Some? ==> r.value >= 0
  {
    if n == 0 then Some(0)
    else
      var prev := AbsErrorSum(engine, pos, c, n - 1);
      var d := TrialDifference(engine, pos, c, n - 1);
      if prev.Some? && d.Some? then Some(prev.value + Abs(d.value)) else None
  }

  /** The absolute error sum is defined exactly when every trial has both scores. */
  lemma {:induction false} AbsErrorSumDefined(engine: Engine, pos: nat, c: Color, n: nat)
    ensures AbsErrorSum(engine, pos, c, n).Some? <==> forall i :: 0 <= i < n ==> TrialDifference(engine, pos, c, i).Some?
  {
    if n > 0 {
      AbsErrorSumDefined(engine, pos, c, n - 1);
    }
  }

  /**
   * What the analyser decides about one move of the tracked side: where it
   * was played, its 1-based `player_move_index`, its notation, the
   * notation of the engine's best move in trial 0, the average error, and
   * the two verdicts.
   */
  datatype MoveRecord = MoveRecord(ply: nat, index: nat, played: string, best: string,
                                   error: Ratio, accurate: bool, flagged: bool)

  /**
   * The examination of the move played at `ply`: `times` trials, the
   * average absolute error, accurate when it is below `threshold`, flagged
   * when the notation differs from trial 0's best move and the error is
   * not below the threshold. None where Python raises: a missing score in
   * some trial, or no trials at all (the average divides by zero).
   */
  function Examine(engine: Engine, c: Color, times: nat, threshold: int, ply: nat, move: Move, index: nat): (r: Option<MoveRecord>)
    ensures r.None? <==> times == 0 || AbsErrorSum(engine, ply, c, times).None?
    ensures r.Some? ==> r.value.ply == ply && r.value.index == index && r.value.played == move.san
    ensures r.Some? ==> r.value.best == engine.bestLine(ply, 0).firstMove.san
    ensures r.Some? ==> r.value.error == Ratio(AbsErrorSum(engine, ply, c, times).value, times)
    ensures r.Some? ==> r.value.error.den == times > 0 && r.value.error.num >= 0
    ensures r.Some? ==> (r.value.accurate <==> Below(r.value.error, threshold))
    ensures r.Some? ==> (r.value.flagged <==> r.value.played != r.value.best && !Below(r.value.error, threshold))
    ensures r.Some? ==> !(r.value.accurate && r.value.flagged)
    ensures r.Some? ==> (r.value.played == r.value.best ==> !r.value.flagged)
  {
    var total := AbsErrorSum(engine, ply, c, times);
    if times == 0 || total.None? then None
    else
      var error := Ratio(total.value, times);
      var best := engine.bestLine(ply, 0).firstMove.san;
      var accurate := Below(error, threshold);
      Some(MoveRecord(ply, index, move.san, best, error, accurate, move.san != best && !accurate))
  }

  function Examiner(engine: Engine, c: Color, times: nat, threshold: int): (nat, Move, nat) -> Option<MoveRecord> {
    (ply: nat, move: Move, index: nat) => Examine(engine, c, times, threshold, ply, move, index)
  }

  /** The records of a whole game, or None when the analysis raises. */
  function Records(moves: seq<Move>, start: Color, c: Color, times: nat, threshold: int, engine: Engine): Option<seq<MoveRecord>> {
    Walk(moves, start, c, Examiner(engine, c, times, threshold), |moves|)
  }

  /** The number of records judged accurate. */
  function CountAccurate(rs: seq<MoveRecord>): (k: nat)
    ensures k <= |rs|
  {
    if rs == [] then 0 else CountAccurate(rs[..|rs| - 1]) + (if rs[|rs| - 1].accurate then 1 else 0)
  }

  /** Whether the analyser prints the record's move. */
  predicate IsFlagged(r: MoveRecord) {
    r.flagged
  }

  /** The tallies of one more record. */
  lemma TallyStep(rs: seq<MoveRecord>, r: MoveRecord)
    ensures CountAccurate(rs + [r]) == CountAccurate(rs) + (if r.accurate then 1 else 0)
    ensures Flagged(rs + [r], IsFlagged) == Flagged(rs, IsFlagged) + (if r.flagged then [r] else [])
  {
    assert (rs + [r])[..|rs|] == rs;
    FlaggedStep(rs, r, IsFlagged);
  }

  /**
   * The accuracy percentage `accurate / total * 100`, and 0 when no move
   * was examined.
   */
  function Accuracy(accurate: nat, total: nat): (r: Ratio)
    ensures r.den > 0
    ensures total == 0 ==> r.num == 0
    ensures accurate <= total ==> 0 <= r.num <= 100 * r.den
    ensures 0 < total == accurate ==> r.num == 100 * r.den
  {
    if total > 0 then Ratio(100 * accurate, total) else Ratio(0, 1)
  }

  /** What the analyser ends with: its counters, the flagged moves and the accuracy. */
  datatype Report = Report(totalMoves: nat, accurateMoves: nat, playerMoveIndex: nat,
                           flagged: seq<MoveRecord>, accuracy: Ratio)

  /**
   * A finished analysis, or one ended by an exception together with the
   * flagged moves it had printed before raising.
   */
  datatype Outcome = Finished(report: Report) | Aborted(printed: seq<MoveRecord>)

  /**
   * The report of a finished analysis of the records `rs`: one counted
   * move per record, `player_move_index` one past them, the accurate ones,
   * the printed ones and the accuracy percentage.
   */
  function Summary(rs: seq<MoveRecord>): Report {
    Report(|rs|, CountAccurate(rs), |rs| + 1, Flagged(rs, IsFlagged), Accuracy(CountAccurate(rs), |rs|))
  }

  /**
   * The absolute errors of the first `i` trials, collected in order: each
   * is the absolute difference of its trial, and they sum to the absolute
   * error sum.
   */
  predicate AbsErrorsSoFar(engine: Engine, pos: nat, c: Color, i: nat, errors: seq<int>) {
    |errors| == i && AbsErrorSum(engine, pos, c, i) == Some(Sum(errors)) &&
    forall j :: 0 <= j < i ==>
      TrialDifference(engine, pos, c, j).Some? && errors[j] == Abs(TrialDifference(engine, pos, c, j).value)
  }

  /** Appending the absolute difference of trial `i` collects the first `i + 1` trials. */
  lemma AbsErrorsStep(engine: Engine, pos: nat, c: Color, i: nat, errors: seq<int>, d: int)
    requires AbsErrorsSoFar(engine, pos, c, i, errors)
    requires TrialDifference(engine, pos, c, i) == Some(d)
    ensures AbsErrorsSoFar(engine, pos, c, i + 1, errors + [Abs(d)])
  {
    SumAppend(errors, Abs(d));
  }

  /**
   * The trials for one move: on a fresh copy of the board each time, the
   * best line's score, the best move's notation in trial 0 only, then the
   * score after the played move; collects the absolute differences.
   * None as `errors` where a missing score makes the subtraction raise.
   */
  method RunTrials(board: Board, move: Move, c: Color, times: nat, engine: Engine)
    returns (errors: Option<seq<int>>, bestSan: Option<string>)
    ensures errors.Some? <==> AbsErrorSum(engine, |board.stack|, c, times).Some?
    ensures errors.Some? ==> |errors.value| == times
    ensures errors.Some? ==> Sum(errors.value) == AbsErrorSum(engine, |board.stack|, c, times).value
    ensures errors.Some? ==> forall i :: 0 <= i < times ==>
      TrialDifference(engine, |board.stack|, c, i).Some? &&
      errors.value[i] == Abs(TrialDifference(engine, |board.stack|, c, i).value)
    ensures times > 0 && errors.Some? ==> bestSan == Some(engine.bestLine(|board.stack|, 0).firstMove.san)
  {
    var pos := |board.stack|;
    var list: seq<int> := [];
    bestSan := None;
    var i := 0;
    while i < times
      invariant i <= times && AbsErrorsSoFar(engine, pos, c, i, list)
      invariant i > 0 ==> bestSan == Some(engine.bestLine(pos, 0).firstMove.san)
    {
      var difference, trialSan := RunTrial(board, move, c, i, engine);
      if i == 0 {
        bestSan := Some(trialSan);
      }
      if difference.None? {
        AbsErrorSumDefined(engine, pos, c, times);
        errors := None;
        return;
      }
      var error := Abs(difference.value);
      AbsErrorsStep(engine, pos, c, i, list, difference.value);
      list := list + [error];
      i := i + 1;
    }
    errors := Some(list);
  }

  /**
   * The body of analyze_move_errors for a ply of the tracked side, before
   * its counters are updated: the trials, the average error and the two
   * verdicts on the move played from `board`.
   */
  method ExamineMove(board: Board, move: Move, index: nat, c: Color, times: nat, threshold: int, engine: Engine)
    returns (r: Option<MoveRecord>)
    ensures r == Examine(engine, c, times, threshold, |board.stack|, move, index)
  {
    var playedSan := move.san;
    var errors, bestSan := RunTrials(board, move, c, times, engine);
    if errors.None? || |errors.value| == 0 {
      return None;
    }
    var avgError := Ratio(Sum(errors.value), |errors.value|);
    var accurate := Below(avgError, threshold);
    var flag := Some(playedSan) != bestSan && !Below(avgError, threshold);
    r := Some(MoveRecord(|board.stack|, index, playedSan, bestSan.value, avgError, accurate, flag));
  }

  /** The counters of analyze_move_errors agree with the records examined so far. */
  predicate Tallied(rs: seq<MoveRecord>, totalMoves: nat, accurateMoves: nat, playerMoveIndex: nat, flagged: seq<MoveRecord>) {
    totalMoves == |rs| && playerMoveIndex == |rs| + 1 && accurateMoves == CountAccurate(rs) && flagged == Flagged(rs, IsFlagged)
  }

  /** Counters that agree with the records make up the summary of those records. */
  lemma TalliedSummary(rs: seq<MoveRecord>, totalMoves: nat, accurateMoves: nat, playerMoveIndex: nat, flagged: seq<MoveRecord>)
    requires Tallied(rs, totalMoves, accurateMoves, playerMoveIndex, flagged)
    ensures Report(totalMoves, accurateMoves, playerMoveIndex, flagged, Accuracy(accurateMoves, totalMoves)) == Summary(rs)
  {
  }

  /**
   * One ply of the tracked side in analyze_move_errors, the k-th of the
   * game: counts the move, examines it, counts it accurate or flags it,
   * then pushes it on the main board and advances `player_move_index`.
   * It extends the walk of the game by that ply.
   */
  method TallyMove(board: Board, moves: seq<Move>, k: nat, start: Color, c: Color, times: nat, threshold: int,
                   engine: Engine, ghost records: seq<MoveRecord>,
                   totalMoves: nat, accurateMoves: nat, playerMoveIndex: nat, flagged: seq<MoveRecord>)
    returns (examined: Option<MoveRecord>, newTotal: nat, newAccurate: nat, newIndex: nat, newFlagged: seq<MoveRecord>)
    requires k < |moves| && board.stack == moves[..k] && board.turn == TurnAt(start, k) == c
    requires Walk(moves, start, c, Examiner(engine, c, times, threshold), k) == Some(records)
    requires Tallied(records, totalMoves, accurateMoves, playerMoveIndex, flagged)
    modifies board
    ensures examined == Examine(engine, c, times, threshold, k, moves[k], |records| + 1)
    ensures examined.None? ==> Walk(moves, start, c, Examiner(engine, c, times, threshold), k + 1).None? && newFlagged == flagged
    ensures examined.Some? ==>
      && Walk(moves, start, c, Examiner(engine, c, times, threshold), k + 1) == Some(records + [examined.value])
      && Tallied(records + [examined.value], newTotal, newAccurate, newIndex, newFlagged)
      && board.stack == moves[..k + 1] && board.turn == TurnAt(start, k + 1)
  {
    ghost var examine := Examiner(engine, c, times, threshold);
    WalkStep(moves, start, c, examine, k, records);
    TurnAtNext(start, k);
    var move := moves[k];
    newTotal := totalMoves + 1;
    newAccurate, newIndex, newFlagged := accurateMoves, playerMoveIndex, flagged;
    examined := ExamineMove(board, move, playerMoveIndex, c, times, threshold, engine);
    assert examine(k, move, |records| + 1) == examined;
    if examined.None? {
      return;
    }
    var record := examined.value;
    TallyStep(records, record);
    if record.accurate {
      newAccurate := newAccurate + 1;
    }
    if record.flagged {
      newFlagged := newFlagged + [record];
    }
    ReplayNext(moves, k);
    board.Push(move);
    newIndex := newIndex + 1;
  }

  /**
   * The body of the loop of analyze_move_errors for the k-th ply: a ply
   * of the tracked side is examined and tallied, any other ply is only
   * pushed. `aborted` when the examination raises.
   */
  method AnalyzePly(board: Board, moves: seq<Move>, k: nat, start: Color, c: Color, times: nat, threshold: int,
                    engine: Engine, ghost records: seq<MoveRecord>,
                    totalMoves: nat, accurateMoves: nat, playerMoveIndex: nat, flagged: seq<MoveRecord>)
    returns (aborted: bool, ghost newRecords: seq<MoveRecord>,
             newTotal: nat, newAccurate: nat, newIndex: nat, newFlagged: seq<MoveRecord>)
    requires k < |moves| && board.stack == moves[..k] && board.turn == TurnAt(start, k)
    requires Walk(moves, start, c, Examiner(engine, c, times, threshold), k) == Some(records)
    requires Tallied(records, totalMoves, accurateMoves, playerMoveIndex, flagged)
    modifies board
    ensures aborted ==> Walk(moves, start, c, Examiner(engine, c, times, threshold), k + 1).None?
    ensures aborted ==> newRecords == records && newFlagged == flagged
    ensures !aborted ==>
      && Walk(moves, start, c, Examiner(engine, c, times, threshold), k + 1) == Some(newRecords)
      && Tallied(newRecords, newTotal, newAccurate, newIndex, newFlagged)
      && board.stack == moves[..k + 1] && board.turn == TurnAt(start, k + 1)
  {
    newRecords, newTotal, newAccurate, newIndex, newFlagged := records, totalMoves, accurateMoves, playerMoveIndex, flagged;
    if board.turn == c {
      var examined;
      examined, newTotal, newAccurate, newIndex, newFlagged :=
        TallyMove(board, moves, k, start, c, times, threshold, engine, records,
                  totalMoves, accurateMoves, playerMoveIndex, flagged);
      aborted := examined.None?;
      if !aborted {
        newRecords := records + [examined.value];
      }
    } else {
      aborted := false;
      SkipMove(board, moves, k, start, c, Examiner(engine, c, times, threshold), records);
    }
  }

  /**
   * analyze_move_errors: replays the game on one board; at each ply where
   * the tracked side is to move it examines the move, counts it, and
   * counts it accurate or flags it, then pushes the played move; other
   * plies are only pushed. `replay` is the move stack of that board at
   * the end.
   */
  method AnalyzeMoveErrors(moves: seq<Move>, start: Color, c: Color, times: nat, engine: Engine, threshold: int)
    returns (outcome: Outcome, replay: seq<Move>)
    ensures outcome.Finished? <==> Records(moves, start, c, times, threshold, engine).Some?
    ensures outcome.Finished? ==> outcome.report == Summary(Records(moves, start, c, times, threshold, engine).value)
    ensures outcome.Finished? ==> replay == moves
    ensures outcome.Aborted? ==> outcome.printed == Flagged(Collected(moves, start, c, Examiner(engine, c, times, threshold), |moves|), IsFlagged)
  {
    var board := new Board(start);
    var playerMoveIndex := 1;
    var totalMoves := 0;
    var accurateMoves := 0;
    var flagged: seq<MoveRecord> := [];
    ghost var records: seq<MoveRecord> := [];
    var k := 0;
    while k < |moves|
      invariant 0 <= k <= |moves|
      invariant board.stack == moves[..k] && board.turn == TurnAt(start, k)
      invariant Walk(moves, start, c, Examiner(engine, c, times, threshold), k) == Some(records)
      invariant Tallied(records, totalMoves, accurateMoves, playerMoveIndex, flagged)
    {
      var aborted;
      aborted, records, totalMoves, accurateMoves, playerMoveIndex, flagged :=
        AnalyzePly(board, moves, k, start, c, times, threshold, engine, records,
                   totalMoves, accurateMoves, playerMoveIndex, flagged);
      if aborted {
        WalkStaysAborted(moves, start, c, Examiner(engine, c, times, threshold), k + 1, |moves|);
        CollectedAfterRaise(moves, start, c, Examiner(engine, c, times, threshold), k, records, |moves|);
        return Aborted(flagged), board.stack;
      }
      k := k + 1;
    }
    assert moves[..k] == moves;
    assert Records(moves, start, c, times, threshold, engine) == Some(records);
    TalliedSummary(records, totalMoves, accurateMoves, playerMoveIndex, flagged);
    outcome := Finished(Report(totalMoves, accurateMoves, playerMoveIndex, flagged, Accuracy(accurateMoves, totalMoves)));
    replay := board.stack;
  }

  // ---------------------------------------------------------------------
  // The script

  /** The threshold the script passes to analyze_move_errors. */
  const ScriptThreshold := 50

  /**
   * The script's flow after loading the game: the colour question, the
   * menu, the evaluation table over a fresh board, then the move-error
   * analysis over another fresh board. Every menu answer yields at least
   * two samples, so the table is always defined and the analysis raises
   * only on a missing score at a tracked ply, never for want of trials.
   */
  method RunScript(colorAnswer: string, modeAnswer: string, moves: seq<Move>, start: Color, engine: Engine)
    returns (rows: seq<Row>, plyNumbers: seq<nat>, evaluations: seq<Ratio>, outcome: Outcome)
    ensures |rows| == (|moves| + 1) / 2 && |plyNumbers| == |moves| && |evaluations| == |moves|
    ensures var c, times := ParseColor(colorAnswer), ChooseAnalysisMode(modeAnswer).times;
      forall k :: 0 <= k < |moves| ==> evaluations[k] == Ratio(SampleSum(engine, k + 1, c, times), times)
    ensures var c, times, ps := ParseColor(colorAnswer), ChooseAnalysisMode(modeAnswer).times, TrackedPlies(start, ParseColor(colorAnswer), |moves|);
      outcome.Finished? <==> forall j :: 0 <= j < |ps| ==> AbsErrorSum(engine, ps[j], c, times).Some?
    ensures var rs := Records(moves, start, ParseColor(colorAnswer), ChooseAnalysisMode(modeAnswer).times, ScriptThreshold, engine);
      outcome == if rs.Some? then Finished(Summary(rs.value))
                 else Aborted(Flagged(Collected(moves, start, ParseColor(colorAnswer),
                   Examiner(engine, ParseColor(colorAnswer), ChooseAnalysisMode(modeAnswer).times, ScriptThreshold), |moves|), IsFlagged))
  {
    var c := ParseColor(colorAnswer);
    var mode := ChooseAnalysisMode(modeAnswer);
    rows, plyNumbers, evaluations := AnalyzeGameTable(moves, start, c, mode.times, engine);
    var replay;
    outcome, replay := AnalyzeMoveErrors(moves, start, c, mode.times, engine, ScriptThreshold);
    RecordsFinishExactlyWhenScored(moves, start, c, mode.times, ScriptThreshold, engine);
  }

  // ---------------------------------------------------------------------
  // What the analysis promises

  /**
   * A finished analysis examines exactly the plies where the tracked side
   * is to move, in order: record j is the move at the j-th such ply, with
   * `player_move_index` j + 1, the best-move notation of trial 0, a
   * non-negative average error over `times` trials, and never both
   * accurate and flagged.
   */
  lemma RecordsDescribeTrackedMoves(moves: seq<Move>, start: Color, c: Color, times: nat, threshold: int, engine: Engine)
    requires Records(moves, start, c, times, threshold, engine).Some?
    ensures var rs, ps := Records(moves, start, c, times, threshold, engine).value, TrackedPlies(start, c, |moves|);
      |rs| == |ps| &&
      forall j :: 0 <= j < |rs| ==>
        rs[j].ply == ps[j] && rs[j].index == j + 1 && rs[j].played == moves[ps[j]].san &&
        rs[j].best == engine.bestLine(ps[j], 0).firstMove.san &&
        times > 0 && AbsErrorSum(engine, ps[j], c, times).Some? &&
        rs[j].error == Ratio(AbsErrorSum(engine, ps[j], c, times).value, times) && rs[j].error.num >= 0 &&
        (rs[j].accurate <==> Below(rs[j].error, threshold)) &&
        (rs[j].flagged <==> rs[j].played != rs[j].best && !Below(rs[j].error, threshold)) &&
        !(rs[j].accurate && rs[j].flagged) && (rs[j].played == rs[j].best ==> !rs[j].flagged)
  {
    var examine := Examiner(engine, c, times, threshold);
    WalkVisitsTrackedPlies(moves, start, c, examine, |moves|);
    var rs, ps := Records(moves, start, c, times, threshold, engine).value, TrackedPlies(start, c, |moves|);
    forall j | 0 <= j < |rs|
      ensures Examine(engine, c, times, threshold, ps[j], moves[ps[j]], j + 1) == Some(rs[j])
    {
      assert examine(ps[j], moves[ps[j]], j + 1) == Some(rs[j]);
    }
  }

  /** The move played from position `pos` has trials, and every trial both of its scores. */
  predicate Scored(engine: Engine, c: Color, times: nat, pos: nat) {
    times > 0 && AbsErrorSum(engine, pos, c, times).Some?
  }

  /** Every ply in `ps` is scored, so its absolute error sum is defined. */
  predicate ScoredPlies(engine: Engine, c: Color, times: nat, ps: seq<nat>) {
    forall j :: 0 <= j < |ps| ==> Scored(engine, c, times, ps[j])
  }

  /** The analysis finishes exactly when every tracked ply has trials and all of their scores. */
  lemma RecordsFinishExactlyWhenScored(moves: seq<Move>, start: Color, c: Color, times: nat, threshold: int, engine: Engine)
    ensures Records(moves, start, c, times, threshold, engine).Some? <==> ScoredPlies(engine, c, times, TrackedPlies(start, c, |moves|))
  {
    var examine := Examiner(engine, c, times, threshold);
    WalkCompletes(moves, start, c, examine, |moves|);
    var ps := TrackedPlies(start, c, |moves|);
    assert AllExamined(moves, examine, ps) <==> ScoredPlies(engine, c, times, ps);
  }

  /**
   * The report of a finished analysis: `total_moves` is the number of
   * plies where the tracked side moved, `player_move_index` ends one
   * past it, at most that many moves are accurate, the accuracy lies in
   * [0, 100] and is 0 when nothing was examined, and no flagged move is
   * accurate or equal to the engine's best move.
   */
  lemma ReportBounds(moves: seq<Move>, start: Color, c: Color, times: nat, threshold: int, engine: Engine)
    requires Records(moves, start, c, times, threshold, engine).Some?
    ensures var report := Summary(Records(moves, start, c, times, threshold, engine).value);
      && report.totalMoves == (if start == c then (|moves| + 1) / 2 else |moves| / 2)
      && report.playerMoveIndex == report.totalMoves + 1
      && report.accurateMoves <= report.totalMoves
      && 0 <= report.accuracy.num <= 100 * report.accuracy.den
      && (report.totalMoves == 0 ==> report.accuracy.num == 0)
      && forall f :: f in report.flagged ==> !f.accurate && f.played != f.best
  {
    var rs := Records(moves, start, c, times, threshold, engine).value;
    RecordsDescribeTrackedMoves(moves, start, c, times, threshold, engine);
    TrackedPliesCount(start, c, |moves|);
    FlaggedKeepsFlagged(rs, IsFlagged);
    forall f | f in Flagged(rs, IsFlagged)
      ensures !f.accurate && f.played != f.best
    {
      var j :| 0 <= j < |rs| && rs[j] == f;
    }
  }

  /** When every tracked move is accurate, the accuracy is exactly 100 per cent (given at least one move). */
  lemma {:induction false} AllAccurateScoresFull(rs: seq<MoveRecord>)
    requires forall j :: 0 <= j < |rs| ==> rs[j].accurate
    ensures CountAccurate(rs) == |rs|
    ensures |rs| > 0 ==> Accuracy(CountAccurate(rs), |rs|).num == 100 * Accuracy(CountAccurate(rs), |rs|).den
  {
    if rs != [] {
      AllAccurateScoresFull(rs[..|rs| - 1]);
    }
  }
}
