/**
 * main.py: the three-mode menu and the move-error analyser that averages
 * the SIGNED difference between the engine's best line and the played
 * move and flags a move against the fixed margin of 50 centipawns. It
 * computes no accuracy. The tracked colour is fixed to White.
 */
module MainScript {
  import opened Wrappers
  import opened Numbers
  import opened Chess
  import opened Evaluation

  /** `my_color = chess.WHITE`: the side whose moves are examined and whose view scores take. */
  const MyColor: Color := White

  /** The margin, in centipawns, from which a different move is reported. */
  const FlagMargin := 50

  // ---------------------------------------------------------------------
  // The analysis menu

  /**
   * choose_analysis_mode: "1" fast (2 samples, 2 s), "2" in-depth
   * (3 samples, 5 s), "3" very in-depth (3 samples, depth 20); any other
   * answer falls back to the in-depth mode.
   */
  function ChooseAnalysisMode(answer: string): (m: Mode)
    ensures m.times >= 2
    ensures m.limit.Time? ==> m.limit.millis >= 2000
    ensures answer !in {"1", "2", "3"} ==> m == Mode(3, Time(5000))
    ensures answer == "3" <==> m.limit.Depth?
    ensures m.times == 2 <==> answer == "1"
  {
    if answer == "1" then Mode(2, Time(2000))
    else if answer == "2" then Mode(3, Time(5000))
    else if answer == "3" then Mode(3, Depth(20))
    else Mode(3, Time(5000))
  }

  // ---------------------------------------------------------------------
  // The move-error analyser

  /**
   * The sum of `best_eval_value - played_eval_value` over trials 0 .. n-1
   * of the ply played from position `pos`; None when a trial has a
   * missing score.
   */
  function ErrorSum(engine: Engine, pos: nat, c: Color, n: nat): (r: Option<int>)
  {
    if n == 0 then Some(0)
    else
      var prev := ErrorSum(engine, pos, c, n - 1);
      var d := TrialDifference(engine, pos, c, n - 1);
      if prev.Some? && d.Some? then Some(prev.value + d.value) else None
  }

  /** The signed error sum is defined exactly when every trial has both scores. */
  lemma {:induction false} ErrorSumDefined(engine: Engine, pos: nat, c: Color, n: nat)
    ensures ErrorSum(engine, pos, c, n).Some? <==> forall i :: 0 <= i < n ==> TrialDifference(engine, pos, c, i).Some?
  {
    if n > 0 {
      ErrorSumDefined(engine, pos, c, n - 1);
    }
  }

  /**
   * The signed error sums the trial differences: when every trial has its
   * scores, the sum is the total of the differences, whatever their signs.
   */
  lemma {:induction false} ErrorSumTotals(engine: Engine, pos: nat, c: Color, n: nat, ds: seq<int>)
    requires |ds| == n
    requires forall i :: 0 <= i < n ==> TrialDifference(engine, pos, c, i) == Some(ds[i])
    ensures ErrorSum(engine, pos, c, n) == Some(Sum(ds))
  {
    if n > 0 {
      var prefix := ds[..n - 1];
      assert forall i :: 0 <= i < n - 1 ==> prefix[i] == ds[i];
      ErrorSumTotals(engine, pos, c, n - 1, prefix);
      assert TrialDifference(engine, pos, c, n - 1) == Some(ds[n - 1]);
    }
  }

  /**
   * What the analyser decides about one move of the tracked side: where it
   * was played, its 1-based `player_move_index`, its notation, the
   * notation of the engine's best move in trial 0, the average signed
   * error, and whether it is reported.
   */
  datatype MoveRecord = MoveRecord(ply: nat, index: nat, played: string, best: string,
                                   error: Ratio, flagged: bool)

  /**
   * The examination of the move played at `ply`: `times` trials, the
   * average signed error, flagged when the notation differs from trial 0's
   * best move and the error is at least the margin. None where Python
   * raises: a missing score, or no trials at all.
   */
  function Examine(engine: Engine, c: Color, times: nat, ply: nat, move: Move, index: nat): (r: Option<MoveRecord>)
    ensures r.None? <==> times == 0 || ErrorSum(engine, ply, c, times).None?
    ensures r.Some? ==> r.value.ply == ply && r.value.index == index && r.value.played == move.san
    ensures r.Some? ==> r.value.best == engine.bestLine(ply, 0).firstMove.san
    ensures r.Some? ==> r.value.error == Ratio(ErrorSum(engine, ply, c, times).value, times)
    ensures r.Some? ==> (r.value.flagged <==> r.value.played != r.value.best && !Below(r.value.error, FlagMargin))
  {
    var total := ErrorSum(engine, ply, c, times);
    if times == 0 || total.None? then None
    else
      var error := Ratio(total.value, times);
      var best := engine.bestLine(ply, 0).firstMove.san;
      Some(MoveRecord(ply, index, move.san, best, error, move.san != best && !Below(error, FlagMargin)))
  }

  function Examiner(engine: Engine, c: Color, times: nat): (nat, Move, nat) -> Option<MoveRecord> {
    (ply: nat, move: Move, index: nat) => Examine(engine, c, times, ply, move, index)
  }

  /** The records of a whole game, or None when the analysis raises. */
  function Records(moves: seq<Move>, start: Color, c: Color, times: nat, engine: Engine): Option<seq<MoveRecord>> {
    Walk(moves, start, c, Examiner(engine, c, times), |moves|)
  }

  /** Whether the analyser prints the record's move. */
  predicate IsFlagged(r: MoveRecord) {
    r.flagged
  }

  /** What the analyser leaves behind: its final `player_move_index` and the reported moves. */
  datatype Outcome = Finished(playerMoveIndex: nat, flagged: seq<MoveRecord>) | Aborted(printed: seq<MoveRecord>)

  /** The signed errors of the first `i` trials, in order: each is its trial's difference and they sum to the error sum. */
  predicate ErrorsSoFar(engine: Engine, pos: nat, c: Color, i: nat, errors: seq<int>) {
    |errors| == i && ErrorSum(engine, pos, c, i) == Some(Sum(errors)) &&
    forall j :: 0 <= j < i ==> TrialDifference(engine, pos, c, j) == Some(errors[j])
  }

  /** Appending the difference of trial `i` collects the first `i + 1` trials. */
  lemma ErrorsStep(engine: Engine, pos: nat, c: Color, i: nat, errors: seq<int>, d: int)
    requires ErrorsSoFar(engine, pos, c, i, errors)
    requires TrialDifference(engine, pos, c, i) == Some(d)
    ensures ErrorsSoFar(engine, pos, c, i + 1, errors + [d])
  {
    SumAppend(errors, d);
  }

  /**
   * The trials for one move: on a fresh copy of the board each time, the
   * best line's score, the best move's notation in trial 0 only, then the
   * score after the played move; collects the signed differences. None as
   * `errors` where a missing score makes the subtraction raise.
   */
  method RunTrials(board: Board, move: Move, c: Color, times: nat, engine: Engine)
    returns (errors: Option<seq<int>>, bestSan: Option<string>)
    ensures errors.Some? <==> ErrorSum(engine, |board.stack|, c, times).Some?
    ensures errors.Some? ==> |errors.value| == times
    ensures errors.Some? ==> forall i :: 0 <= i < times ==> TrialDifference(engine, |board.stack|, c, i) == Some(errors.value[i])
    ensures errors.Some? ==> Sum(errors.value) == ErrorSum(engine, |board.stack|, c, times).value
    ensures times > 0 && errors.Some? ==> bestSan == Some(engine.bestLine(|board.stack|, 0).firstMove.san)
  {
    var pos := |board.stack|;
    var list: seq<int> := [];
    bestSan := None;
    var i := 0;
    while i < times
      invariant i <= times && ErrorsSoFar(engine, pos, c, i, list)
      invariant i > 0 ==> bestSan == Some(engine.bestLine(pos, 0).firstMove.san)
    {
      var difference, trialSan := RunTrial(board, move, c, i, engine);
      if i == 0 {
        bestSan := Some(trialSan);
      }
      if difference.None? {
        ErrorSumDefined(engine, pos, c, times);
        errors := None;
        return;
      }
      var error := difference.value;
      ErrorsStep(engine, pos, c, i, list, error);
      list := list + [error];
      i := i + 1;
    }
    errors := Some(list);
  }

  /**
   * The body of analyze_move_errors for a ply of the tracked side: the
   * trials, the average error and the verdict on the move played from
   * `board`.
   */
  method ExamineMove(board: Board, move: Move, index: nat, c: Color, times: nat, engine: Engine)
    returns (r: Option<MoveRecord>)
    ensures r == Examine(engine, c, times, |board.stack|, move, index)
  {
    var playedSan := move.san;
    var errors, bestSan := RunTrials(board, move, c, times, engine);
    if errors.None? || |errors.value| == 0 {
      return None;
    }
    var avgError := Ratio(Sum(errors.value), |errors.value|);
    var flag := Some(playedSan) != bestSan && !Below(avgError, FlagMargin);
    r := Some(MoveRecord(|board.stack|, index, playedSan, bestSan.value, avgError, flag));
  }

  /**
   * One ply of the tracked side in analyze_move_errors, the k-th of the
   * game: examines the move, reports it when flagged, then pushes it on
   * the main board and advances `player_move_index`. It extends the walk
   * of the game by that ply.
   */
  method ReportMove(board: Board, moves: seq<Move>, k: nat, start: Color, c: Color, times: nat, engine: Engine,
                    ghost records: seq<MoveRecord>, playerMoveIndex: nat, flagged: seq<MoveRecord>)
    returns (examined: Option<MoveRecord>, newIndex: nat, newFlagged: seq<MoveRecord>)
    requires k < |moves| && board.stack == moves[..k] && board.turn == TurnAt(start, k) == c
    requires Walk(moves, start, c, Examiner(engine, c, times), k) == Some(records)
    requires playerMoveIndex == |records| + 1 && flagged == Flagged(records, IsFlagged)
    modifies board
    ensures examined == Examine(engine, c, times, k, moves[k], |records| + 1)
    ensures examined.None? ==> Walk(moves, start, c, Examiner(engine, c, times), k + 1).None? && newFlagged == flagged
    ensures examined.Some? ==>
      && Walk(moves, start, c, Examiner(engine, c, times), k + 1) == Some(records + [examined.value])
      && newIndex == |records + [examined.value]| + 1 && newFlagged == Flagged(records + [examined.value], IsFlagged)
      && board.stack == moves[..k + 1] && board.turn == TurnAt(start, k + 1)
  {
    ghost var examine := Examiner(engine, c, times);
    WalkStep(moves, start, c, examine, k, records);
    TurnAtNext(start, k);
    var move := moves[k];
    newIndex, newFlagged := playerMoveIndex, flagged;
    examined := ExamineMove(board, move, playerMoveIndex, c, times, engine);
    assert examine(k, move, |records| + 1) == examined;
    if examined.None? {
      return;
    }
    var record := examined.value;
    FlaggedStep(records, record, IsFlagged);
    if record.flagged {
      newFlagged := newFlagged + [record];
    }
    ReplayNext(moves, k);
    board.Push(move);
    newIndex := newIndex + 1;
  }

  /**
   * analyze_move_errors in main.py: replays the game on one board; at
   * each ply where the tracked side is to move it examines the move and
   * reports it when flagged, then pushes the played move and advances
   * `player_move_index`; other plies are only pushed. `replay` is the
   * move stack of that board at the end.
   */
  method AnalyzeMoveErrors(moves: seq<Move>, start: Color, c: Color, times: nat, engine: Engine)
    returns (outcome: Outcome, replay: seq<Move>)
    ensures outcome.Finished? <==> Records(moves, start, c, times, engine).Some?
    ensures outcome.Finished? ==> outcome.playerMoveIndex == |Records(moves, start, c, times, engine).value| + 1
    ensures outcome.Finished? ==> outcome.flagged == Flagged(Records(moves, start, c, times, engine).value, IsFlagged)
    ensures outcome.Finished? ==> replay == moves
    ensures outcome.Aborted? ==> outcome.printed == Flagged(Collected(moves, start, c, Examiner(engine, c, times), |moves|), IsFlagged)
  {
    var board := new Board(start);
    var playerMoveIndex := 1;
    var flagged: seq<MoveRecord> := [];
    ghost var records: seq<MoveRecord> := [];
    var k := 0;
    while k < |moves|
      invariant 0 <= k <= |moves|
      invariant board.stack == moves[..k] && board.turn == TurnAt(start, k)
      invariant Walk(moves, start, c, Examiner(engine, c, times), k) == Some(records)
      invariant playerMoveIndex == |records| + 1 && flagged == Flagged(records, IsFlagged)
    {
      if board.turn == c {
        var examined;
        examined, playerMoveIndex, flagged :=
          ReportMove(board, moves, k, start, c, times, engine, records, playerMoveIndex, flagged);
        if examined.None? {
          WalkStaysAborted(moves, start, c, Examiner(engine, c, times), k + 1, |moves|);
          CollectedAfterRaise(moves, start, c, Examiner(engine, c, times), k, records, |moves|);
          return Aborted(flagged), board.stack;
        }
        records := records + [examined.value];
      } else {
        SkipMove(board, moves, k, start, c, Examiner(engine, c, times), records);
      }
      k := k + 1;
    }
    outcome := Finished(playerMoveIndex, flagged);
    assert moves[..k] == moves;
    replay := board.stack;
  }

  // ---------------------------------------------------------------------
  // The script

  /**
   * The script's flow after loading the game: the menu, the evaluation
   * table over a fresh board, then the move-error analysis over another
   * fresh board, both for White. Every menu answer yields at least two
   * samples, so the table is always defined and the analysis raises only
   * on a missing score at a tracked ply, never for want of trials.
   */
  method RunScript(modeAnswer: string, moves: seq<Move>, start: Color, engine: Engine)
    returns (rows: seq<Row>, plyNumbers: seq<nat>, evaluations: seq<Ratio>, outcome: Outcome)
    ensures |rows| == (|moves| + 1) / 2 && |plyNumbers| == |moves| && |evaluations| == |moves|
    ensures var times := ChooseAnalysisMode(modeAnswer).times;
      forall k :: 0 <= k < |moves| ==> evaluations[k] == Ratio(SampleSum(engine, k + 1, MyColor, times), times)
    ensures var times, ps := ChooseAnalysisMode(modeAnswer).times, TrackedPlies(start, MyColor, |moves|);
      outcome.Finished? <==> forall j :: 0 <= j < |ps| ==> ErrorSum(engine, ps[j], MyColor, times).Some?
    ensures var rs := Records(moves, start, MyColor, ChooseAnalysisMode(modeAnswer).times, engine);
      outcome == if rs.Some? then Finished(|rs.value| + 1, Flagged(rs.value, IsFlagged))
                 else Aborted(Flagged(Collected(moves, start, MyColor, Examiner(engine, MyColor, ChooseAnalysisMode(modeAnswer).times), |moves|), IsFlagged))
  {
    var mode := ChooseAnalysisMode(modeAnswer);
    rows, plyNumbers, evaluations := AnalyzeGameTable(moves, start, MyColor, mode.times, engine);
    var replay;
    outcome, replay := AnalyzeMoveErrors(moves, start, MyColor, mode.times, engine);
    RecordsFinishExactlyWhenScored(moves, start, MyColor, mode.times, engine);
  }

  // ---------------------------------------------------------------------
  // What the analysis promises

  /**
   * A finished analysis examines exactly the plies where the tracked side
   * is to move, in order: record j is the move at the j-th such ply, with
   * `player_move_index` j + 1, the best-move notation of trial 0 and the
   * mean of its signed trial differences; it is flagged exactly when its
   * notation differs from the best move's and the mean is at least 50, so
   * a move equal to the best one is never flagged.
   */
  lemma RecordsDescribeTrackedMoves(moves: seq<Move>, start: Color, c: Color, times: nat, engine: Engine)
    requires Records(moves, start, c, times, engine).Some?
    ensures var rs, ps := Records(moves, start, c, times, engine).value, TrackedPlies(start, c, |moves|);
      |rs| == |ps| &&
      forall j :: 0 <= j < |rs| ==>
        rs[j].ply == ps[j] && rs[j].index == j + 1 && rs[j].played == moves[ps[j]].san &&
        rs[j].best == engine.bestLine(ps[j], 0).firstMove.san &&
        times > 0 && ErrorSum(engine, ps[j], c, times).Some? &&
        rs[j].error == Ratio(ErrorSum(engine, ps[j], c, times).value, times) &&
        (rs[j].flagged <==> rs[j].played != rs[j].best && rs[j].error.num >= FlagMargin * times) &&
        (rs[j].played == rs[j].best ==> !rs[j].flagged)
  {
    var examine := Examiner(engine, c, times);
    WalkVisitsTrackedPlies(moves, start, c, examine, |moves|);
    var rs, ps := Records(moves, start, c, times, engine).value, TrackedPlies(start, c, |moves|);
    forall j | 0 <= j < |rs|
      ensures Examine(engine, c, times, ps[j], moves[ps[j]], j + 1) == Some(rs[j])
    {
      assert examine(ps[j], moves[ps[j]], j + 1) == Some(rs[j]);
    }
  }

  /** The move played from position `pos` has trials, and every trial both of its scores. */
  predicate Scored(engine: Engine, c: Color, times: nat, pos: nat) {
    times > 0 && ErrorSum(engine, pos, c, times).Some?
  }

  /** Every ply in `ps` is scored, so its signed error sum is defined. */
  predicate ScoredPlies(engine: Engine, c: Color, times: nat, ps: seq<nat>) {
    forall j :: 0 <= j < |ps| ==> Scored(engine, c, times, ps[j])
  }

  /** The analysis finishes exactly when every tracked ply has trials and all of their scores. */
  lemma RecordsFinishExactlyWhenScored(moves: seq<Move>, start: Color, c: Color, times: nat, engine: Engine)
    ensures Records(moves, start, c, times, engine).Some? <==> ScoredPlies(engine, c, times, TrackedPlies(start, c, |moves|))
  {
    var examine := Examiner(engine, c, times);
    WalkCompletes(moves, start, c, examine, |moves|);
    var ps := TrackedPlies(start, c, |moves|);
    assert AllExamined(moves, examine, ps) <==> ScoredPlies(engine, c, times, ps);
  }

  /**
   * `player_move_index` ends one past the number of plies where the
   * tracked side moved, and every reported move differs from the engine's
   * best one by at least the margin.
   */
  lemma ReportedMoves(moves: seq<Move>, start: Color, c: Color, times: nat, engine: Engine)
    requires Records(moves, start, c, times, engine).Some?
    ensures var rs := Records(moves, start, c, times, engine).value;
      && |rs| + 1 == (if start == c then (|moves| + 1) / 2 else |moves| / 2) + 1
      && forall f :: f in Flagged(rs, IsFlagged) ==> f.played != f.best && !Below(f.error, FlagMargin)
  {
    var rs := Records(moves, start, c, times, engine).value;
    RecordsDescribeTrackedMoves(moves, start, c, times, engine);
    TrackedPliesCount(start, c, |moves|);
    FlaggedKeepsFlagged(rs, IsFlagged);
    forall f | f in Flagged(rs, IsFlagged)
      ensures f.played != f.best && !Below(f.error, FlagMargin)
    {
      var j :| 0 <= j < |rs| && rs[j] == f;
    }
  }

  /**
   * The signed error can be negative: when the played move leads to a
   * better score than the engine's best line reported, the average error
   * is below zero and the move is not reported, however far apart the two
   * scores are.
   */
  lemma ImprovementIsNeverFlagged(engine: Engine, c: Color, times: nat, ply: nat, move: Move, index: nat)
    requires times > 0
    requires forall i :: 0 <= i < times ==>
      var d := TrialDifference(engine, ply, c, i); d.Some? && d.value < 0
    ensures Examine(engine, c, times, ply, move, index).Some?
    ensures Examine(engine, c, times, ply, move, index).value.error.num < 0
    ensures !Examine(engine, c, times, ply, move, index).value.flagged
  {
    var ds := seq(times, i requires 0 <= i < times => TrialDifference(engine, ply, c, i).value);
    ErrorSumTotals(engine, ply, c, times, ds);
    NegativeSum(ds);
  }

  /** A non-empty list of negative numbers has a negative total. */
  lemma {:induction false} NegativeSum(ds: seq<int>)
    requires |ds| > 0 && forall i :: 0 <= i < |ds| ==> ds[i] < 0
    ensures Sum(ds) < 0
  {
    if |ds| > 1 {
      NegativeSum(ds[..|ds| - 1]);
    }
  }
}
