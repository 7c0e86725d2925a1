/**
 * The part of the evaluation pipeline that Analysis/chess_analysis.py and
 * main.py share line for line: score formatting, the averaging of repeated
 * engine samples, the evaluation table with its trend series, the signed
 * best-versus-played difference of one trial, and the walk over the plies
 * of the tracked side that both move-error analysers perform.
 */
module Evaluation {
  import opened Wrappers
  import opened Numbers
  import opened Chess

  /** The value `score(mate_score=10000)` uses for a mate, and the substitute for a missing sample. */
  const MateScore := 10000

  /** What an analysis menu returns: the number of engine samples per query and the search budget. */
  datatype Mode = Mode(times: nat, limit: Limit)

  // ---------------------------------------------------------------------
  // Formatting

  /**
   * get_evaluation_str: the score from the side's point of view, "Mate"
   * when the library gives no number, otherwise the number with "+" before
   * a value that is not negative.
   */
  function EvaluationString(s: PovScore, c: Color): (r: string)
    ensures r == "Mate" <==> ScoreFor(s, c).None?
    ensures ScoreFor(s, c).Some? ==> ParseSigned(r) == ScoreFor(s, c)
    ensures ScoreFor(s, c).Some? ==> (r[0] == '+' <==> ScoreFor(s, c).value >= 0)
  {
    match ScoreFor(s, c)
    case None => "Mate"
    case Some(cp) =>
      SignedTextReadsBack(cp >= 0, cp);
      assert ParseSigned("Mate") == None by { assert !IsDigit("Mate"[0]); }
      SignedText(cp >= 0, cp)
  }

  /**
   * format_eval_value: "+" when the (float) value is not negative, then
   * `int(value)`. A value strictly between -1 and 0 therefore prints as
   * "0", with neither sign.
   */
  function FormatEvalValue(v: Ratio): (r: string)
    requires v.den > 0
    ensures |r| > 0
    ensures r[0] == '+' <==> v.num >= 0
    ensures r[0] == '-' <==> Trunc(v) < 0
  {
    TruncTowardZero(v);
    SignedText(v.num >= 0, Trunc(v))
  }

  /** The printed evaluation reads back as the value truncated toward zero, Python's `int(value)`. */
  lemma FormatEvalValueReadsBack(v: Ratio)
    requires v.den > 0
    ensures ParseSigned(FormatEvalValue(v)) == Some(Trunc(v))
  {
    TruncTowardZero(v);
    SignedTextReadsBack(v.num >= 0, Trunc(v));
  }

  // ---------------------------------------------------------------------
  // Averaging repeated samples

  /** One sample of average_evaluation: the side's score, or the mate value when it is missing. */
  function SampleValue(s: PovScore, c: Color): int {
    if ScoreFor(s, c).None? then MateScore else ScoreFor(s, c).value
  }

  /** The sum of the first `n` samples of the position reached after `pos` plies. */
  function SampleSum(engine: Engine, pos: nat, c: Color, n: nat): int {
    if n == 0 then 0 else SampleSum(engine, pos, c, n - 1) + SampleValue(engine.analyse(pos, n - 1), c)
  }

  /** The samples among the first `n` that carry a score, added up. */
  function PresentSum(engine: Engine, pos: nat, c: Color, n: nat): int {
    if n == 0 then 0
    else
      var s := ScoreFor(engine.analyse(pos, n - 1), c);
      PresentSum(engine, pos, c, n - 1) + (if s.Some? then s.value else 0)
  }

  /** How many of the first `n` samples carry no score. */
  function MissingCount(engine: Engine, pos: nat, c: Color, n: nat): nat {
    if n == 0 then 0
    else MissingCount(engine, pos, c, n - 1) + (if ScoreFor(engine.analyse(pos, n - 1), c).None? then 1 else 0)
  }

  /**
   * average_evaluation: queries a copy of the board `times` times and
   * returns the mean of the samples, as the exact quotient sum / times.
   */
  method AverageEvaluation(board: Board, c: Color, times: nat, engine: Engine) returns (avg: Ratio)
    requires times > 0
    ensures avg.den == times
    ensures avg.num == SampleSum(engine, |board.stack|, c, times)
  {
    var evaluations: seq<int> := [];
    var i := 0;
    while i < times
      invariant 0 <= i <= times && |evaluations| == i
      invariant Sum(evaluations) == SampleSum(engine, |board.stack|, c, i)
    {
      var b := board.Copy();
      var result := engine.analyse(|b.stack|, i);
      var cpValue := ScoreFor(result, c);
      var value := if cpValue.None? then MateScore else cpValue.value;
      SumAppend(evaluations, value);
      evaluations := evaluations + [value];
      i := i + 1;
    }
    avg := Ratio(Sum(evaluations), times);
  }

  /** Identical samples average to themselves: n samples equal to v add up to n * v. */
  lemma {:induction false} IdenticalSamplesAverage(engine: Engine, pos: nat, c: Color, n: nat, v: int)
    requires forall i :: 0 <= i < n ==> SampleValue(engine.analyse(pos, i), c) == v
    ensures SampleSum(engine, pos, c, n) == n * v
  {
    if n > 0 {
      IdenticalSamplesAverage(engine, pos, c, n - 1, v);
      assert SampleValue(engine.analyse(pos, n - 1), c) == v;
    }
  }

  /** Each missing sample contributes exactly the mate value, and the others their own score. */
  lemma {:induction false} MissingSamplesCountAsMate(engine: Engine, pos: nat, c: Color, n: nat)
    ensures SampleSum(engine, pos, c, n) == PresentSum(engine, pos, c, n) + MateScore * MissingCount(engine, pos, c, n)
  {
    if n > 0 {
      MissingSamplesCountAsMate(engine, pos, c, n - 1);
    }
  }

  // ---------------------------------------------------------------------
  // The evaluation table and the trend series

  /** One printed line of the table: move number, white notation and evaluation, black notation and evaluation. */
  datatype Row = Row(number: nat, whiteSan: string, whiteEval: string, blackSan: string, blackEval: string)

  /**
   * The row for move pair `j`: the moves at plies 2j and 2j+1 with the
   * evaluations after them; empty black cells when the game ends on a
   * white move.
   */
  function PairRow(moves: seq<Move>, evaluations: seq<Ratio>, j: nat): Row
    requires PairEvaluated(moves, evaluations, j)
  {
    if 2 * j + 1 < |moves| then
      Row(j + 1, moves[2 * j].san, FormatEvalValue(evaluations[2 * j]),
          moves[2 * j + 1].san, FormatEvalValue(evaluations[2 * j + 1]))
    else
      Row(j + 1, moves[2 * j].san, FormatEvalValue(evaluations[2 * j]), "", "")
  }

  /** Pair `j` exists and both of its plies (or its single ply, at the end of the game) have an evaluation. */
  predicate PairEvaluated(moves: seq<Move>, evaluations: seq<Ratio>, j: nat) {
    2 * j < |moves| && 2 * j < |evaluations| && evaluations[2 * j].den > 0 &&
    (2 * j + 1 < |moves| ==> 2 * j + 1 < |evaluations| && evaluations[2 * j + 1].den > 0)
  }

  /** Every row so far is the row of its pair. */
  predicate RowsMatch(moves: seq<Move>, evaluations: seq<Ratio>, rows: seq<Row>) {
    forall j :: 0 <= j < |rows| ==> PairEvaluated(moves, evaluations, j) && rows[j] == PairRow(moves, evaluations, j)
  }

  /** Appending the evaluations of the next pair keeps the earlier rows and admits the row of that pair. */
  lemma RowsMatchStep(moves: seq<Move>, evaluations: seq<Ratio>, rows: seq<Row>, points: seq<Ratio>, row: Row)
    requires RowsMatch(moves, evaluations, rows)
    requires PairEvaluated(moves, evaluations + points, |rows|) && row == PairRow(moves, evaluations + points, |rows|)
    ensures RowsMatch(moves, evaluations + points, rows + [row])
  {
    forall j | 0 <= j < |rows| + 1
      ensures PairEvaluated(moves, evaluations + points, j) && (rows + [row])[j] == PairRow(moves, evaluations + points, j)
    {
      if j < |rows| {
        PairRowStable(moves, evaluations, points, j);
      }
    }
  }

  lemma PairRowStable(moves: seq<Move>, evaluations: seq<Ratio>, more: seq<Ratio>, j: nat)
    requires PairEvaluated(moves, evaluations, j)
    ensures PairEvaluated(moves, evaluations + more, j)
    ensures PairRow(moves, evaluations + more, j) == PairRow(moves, evaluations, j)
  {
    assert (evaluations + more)[2 * j] == evaluations[2 * j];
    if 2 * j + 1 < |moves| {
      assert (evaluations + more)[2 * j + 1] == evaluations[2 * j + 1];
    }
  }

  /** One ply of the table loop: push the move, then average the evaluation of the new position. */
  method PushAndEvaluate(board: Board, move: Move, c: Color, times: nat, engine: Engine) returns (avg: Ratio)
    requires times > 0
    modifies board
    ensures board.stack == old(board.stack) + [move] && board.turn == Opponent(old(board.turn))
    ensures avg == Ratio(SampleSum(engine, |board.stack|, c, times), times)
  {
    board.Push(move);
    avg := AverageEvaluation(board, c, times, engine);
  }

  /**
   * One pass of the table loop, for the pair starting at ply `i`: the white
   * move, then the black move if the game has one. It returns the printed
   * row and the (ply number, evaluation) points of the pair.
   */
  method AnalyzePair(board: Board, moves: seq<Move>, i: nat, moveNumber: nat, ply: nat,
                     c: Color, times: nat, engine: Engine)
    returns (row: Row, plies: seq<nat>, points: seq<Ratio>)
    requires i < |moves| && board.stack == moves[..i] && times > 0
    modifies board
    ensures |plies| == |points| == (if i + 1 < |moves| then 2 else 1)
    ensures board.stack == moves[..i + |points|]
    ensures board.turn == if |points| == 2 then old(board.turn) else Opponent(old(board.turn))
    ensures forall k :: 0 <= k < |points| ==>
      plies[k] == ply + k && points[k] == Ratio(SampleSum(engine, i + k + 1, c, times), times)
    ensures row == if i + 1 < |moves| then
        Row(moveNumber, moves[i].san, FormatEvalValue(points[0]), moves[i + 1].san, FormatEvalValue(points[1]))
      else
        Row(moveNumber, moves[i].san, FormatEvalValue(points[0]), "", "")
  {
    var whiteMove := moves[i];
    var whiteNotation := whiteMove.san;
    var avgEvalWhite := PushAndEvaluate(board, whiteMove, c, times, engine);
    var evalWhite := FormatEvalValue(avgEvalWhite);
    points := [avgEvalWhite];
    plies := [ply];
    if i + 1 < |moves| {
      var blackMove := moves[i + 1];
      var blackNotation := blackMove.san;
      assert moves[..i] + [whiteMove] == moves[..i + 1];
      var avgEvalBlack := PushAndEvaluate(board, blackMove, c, times, engine);
      var evalBlack := FormatEvalValue(avgEvalBlack);
      points := points + [avgEvalBlack];
      plies := plies + [ply + 1];
      assert moves[..i + 1] + [blackMove] == moves[..i + 2];
      row := Row(moveNumber, whiteNotation, evalWhite, blackNotation, evalBlack);
    } else {
      assert moves[..i] + [whiteMove] == moves[..i + 1];
      row := Row(moveNumber, whiteNotation, evalWhite, "", "");
    }
  }

  /** The trend series so far: ply numbers 1, 2, ... and, for each, the average after that ply. */
  predicate SeriesMatch(engine: Engine, c: Color, times: nat, plyNumbers: seq<nat>, evaluations: seq<Ratio>) {
    |plyNumbers| == |evaluations| &&
    forall k :: 0 <= k < |evaluations| ==>
      plyNumbers[k] == k + 1 && evaluations[k] == Ratio(SampleSum(engine, k + 1, c, times), times)
  }

  /** Appending the points of the next plies, numbered on from the series, keeps it matching. */
  lemma SeriesStep(engine: Engine, c: Color, times: nat, plyNumbers: seq<nat>, evaluations: seq<Ratio>,
                   plies: seq<nat>, points: seq<Ratio>)
    requires SeriesMatch(engine, c, times, plyNumbers, evaluations)
    requires |plies| == |points|
    requires forall k :: 0 <= k < |points| ==>
      plies[k] == |evaluations| + 1 + k && points[k] == Ratio(SampleSum(engine, |evaluations| + k + 1, c, times), times)
    ensures SeriesMatch(engine, c, times, plyNumbers + plies, evaluations + points)
  {
    forall k | 0 <= k < |evaluations| + |points|
      ensures (plyNumbers + plies)[k] == k + 1
      ensures (evaluations + points)[k] == Ratio(SampleSum(engine, k + 1, c, times), times)
    {
      if k >= |evaluations| {
        assert (evaluations + points)[k] == points[k - |evaluations|];
        assert (plyNumbers + plies)[k] == plies[k - |evaluations|];
      }
    }
  }

  /** The row AnalyzePair prints for the pair at plies 2j and 2j+1 is the row of pair j. */
  lemma PairRowOfPoints(moves: seq<Move>, evaluations: seq<Ratio>, points: seq<Ratio>, row: Row, j: nat)
    requires 2 * j == |evaluations| < |moves|
    requires |points| == (if 2 * j + 1 < |moves| then 2 else 1)
    requires forall k :: 0 <= k < |points| ==> points[k].den > 0
    requires row == if 2 * j + 1 < |moves| then
        Row(j + 1, moves[2 * j].san, FormatEvalValue(points[0]), moves[2 * j + 1].san, FormatEvalValue(points[1]))
      else
        Row(j + 1, moves[2 * j].san, FormatEvalValue(points[0]), "", "")
    ensures PairEvaluated(moves, evaluations + points, j)
    ensures row == PairRow(moves, evaluations + points, j)
  {
    assert (evaluations + points)[2 * j] == points[0];
    if 2 * j + 1 < |moves| {
      assert (evaluations + points)[2 * j + 1] == points[1];
    }
  }

  /**
   * The state of the table loop before the pair starting at ply `i`: one
   * row per pair done, and the trend series of every ply done.
   */
  predicate TableSoFar(moves: seq<Move>, engine: Engine, c: Color, times: nat, i: nat,
                       rows: seq<Row>, plyNumbers: seq<nat>, evaluations: seq<Ratio>) {
    i == 2 * |rows| <= |moves| + 1 &&
    |evaluations| == (if i < |moves| then i else |moves|) &&
    SeriesMatch(engine, c, times, plyNumbers, evaluations) &&
    RowsMatch(moves, evaluations, rows)
  }

  /** The pair at ply `i`, as AnalyzePair returns it, extends the table by one row and its points. */
  lemma TableStep(moves: seq<Move>, engine: Engine, c: Color, times: nat, i: nat,
                  rows: seq<Row>, plyNumbers: seq<nat>, evaluations: seq<Ratio>,
                  row: Row, plies: seq<nat>, points: seq<Ratio>)
    requires TableSoFar(moves, engine, c, times, i, rows, plyNumbers, evaluations) && i < |moves| && times > 0
    requires |plies| == |points| == (if i + 1 < |moves| then 2 else 1)
    requires forall k :: 0 <= k < |points| ==>
      plies[k] == |evaluations| + 1 + k && points[k] == Ratio(SampleSum(engine, i + k + 1, c, times), times)
    requires row == if i + 1 < |moves| then
        Row(|rows| + 1, moves[i].san, FormatEvalValue(points[0]), moves[i + 1].san, FormatEvalValue(points[1]))
      else
        Row(|rows| + 1, moves[i].san, FormatEvalValue(points[0]), "", "")
    ensures TableSoFar(moves, engine, c, times, i + 2, rows + [row], plyNumbers + plies, evaluations + points)
  {
    PairRowOfPoints(moves, evaluations, points, row, |rows|);
    RowsMatchStep(moves, evaluations, rows, points, row);
    SeriesStep(engine, c, times, plyNumbers, evaluations, plies, points);
  }

  /** Once every pair is done, the table holds what analyze_game_table_and_plot promises. */
  lemma TableDone(moves: seq<Move>, engine: Engine, c: Color, times: nat, i: nat,
                  rows: seq<Row>, plyNumbers: seq<nat>, evaluations: seq<Ratio>)
    requires TableSoFar(moves, engine, c, times, i, rows, plyNumbers, evaluations) && i >= |moves|
    ensures |rows| == (|moves| + 1) / 2
    ensures |plyNumbers| == |moves| && |evaluations| == |moves|
    ensures forall k :: 0 <= k < |moves| ==> plyNumbers[k] == k + 1
    ensures forall k :: 0 <= k < |moves| ==>
      evaluations[k] == Ratio(SampleSum(engine, k + 1, c, times), times)
    ensures forall j :: 0 <= j < |rows| ==> rows[j].number == j + 1
    ensures forall j :: 0 <= j < |rows| ==>
      PairEvaluated(moves, evaluations, j) && rows[j] == PairRow(moves, evaluations, j)
    ensures |moves| % 2 == 1 ==> rows[|rows| - 1].blackSan == "" && rows[|rows| - 1].blackEval == ""
  {
    if |moves| % 2 == 1 {
      var j := |rows| - 1;
      assert PairEvaluated(moves, evaluations, j) && rows[j] == PairRow(moves, evaluations, j);
      assert 2 * j + 1 == |moves|;
    }
  }

  /**
   * analyze_game_table_and_plot without its printing and plotting: walks
   * the game in move pairs, pushing each move on the board and averaging
   * the engine's evaluation of the position after it. It yields one row
   * per pair and one (ply number, evaluation) point per ply.
   */
  method AnalyzeGameTable(moves: seq<Move>, start: Color, c: Color, times: nat, engine: Engine)
    returns (rows: seq<Row>, plyNumbers: seq<nat>, evaluations: seq<Ratio>)
    requires times > 0
    ensures |rows| == (|moves| + 1) / 2
    ensures |plyNumbers| == |moves| && |evaluations| == |moves|
    ensures forall k :: 0 <= k < |moves| ==> plyNumbers[k] == k + 1
    ensures forall k :: 0 <= k < |moves| ==>
      evaluations[k] == Ratio(SampleSum(engine, k + 1, c, times), times)
    ensures forall j :: 0 <= j < |rows| ==> rows[j].number == j + 1
    ensures forall j :: 0 <= j < |rows| ==>
      PairEvaluated(moves, evaluations, j) && rows[j] == PairRow(moves, evaluations, j)
    ensures |moves| % 2 == 1 ==> rows[|rows| - 1].blackSan == "" && rows[|rows| - 1].blackEval == ""
  {
    var board := new Board(start);
    var moveNumber := 1;
    plyNumbers := [];
    evaluations := [];
    rows := [];
    var ply := 1;
    var i := 0;
    while i < |moves|
      invariant TableSoFar(moves, engine, c, times, i, rows, plyNumbers, evaluations)
      invariant moveNumber == |rows| + 1 && ply == |evaluations| + 1
      invariant board.stack == moves[..|evaluations|]
    {
      var row, plies, points := AnalyzePair(board, moves, i, moveNumber, ply, c, times, engine);
      TableStep(moves, engine, c, times, i, rows, plyNumbers, evaluations, row, plies, points);
      evaluations := evaluations + points;
      plyNumbers := plyNumbers + plies;
      ply := ply + |plies|;
      rows := rows + [row];
      moveNumber := moveNumber + 1;
      i := i + 2;
    }
    TableDone(moves, engine, c, times, i, rows, plyNumbers, evaluations);
  }

  // ---------------------------------------------------------------------
  // The trials of the move-error analysers

  /**
   * `best_eval_value - played_eval_value` in trial `i` for the ply played
   * from the position after `pos` plies: the score of the engine's best
   * line there against the score of the position after the played move.
   * None when either score is missing, where the subtraction raises.
   */
  function TrialDifference(engine: Engine, pos: nat, c: Color, i: nat): Option<int> {
    var best := ScoreFor(engine.bestLine(pos, i).score, c);
    var played := ScoreFor(engine.playedScore(pos + 1, i), c);
    if best.Some? && played.Some? then Some(best.value - played.value) else None
  }

  /**
   * The body of the trial loop of either move-error analyser: on a fresh
   * copy of `board`, the engine's best line and its score, then the score
   * after the played move is pushed on the copy. `trialSan` is the best
   * move's notation (the analysers keep it from trial 0 only).
   */
  method RunTrial(board: Board, move: Move, c: Color, i: nat, engine: Engine)
    returns (difference: Option<int>, trialSan: string)
    ensures difference == TrialDifference(engine, |board.stack|, c, i)
    ensures trialSan == engine.bestLine(|board.stack|, i).firstMove.san
  {
    var b := board.Copy();
    var bestLine := engine.bestLine(|b.stack|, i);
    var bestEvalValue := ScoreFor(bestLine.score, c);
    trialSan := bestLine.firstMove.san;
    b.Push(move);
    var playedEvalValue := ScoreFor(engine.playedScore(|b.stack|, i), c);
    if bestEvalValue.None? || playedEvalValue.None? {
      difference := None;
    } else {
      difference := Some(bestEvalValue.value - playedEvalValue.value);
    }
  }

  // ---------------------------------------------------------------------
  // The walk over the tracked side's plies

  /** The plies (0-based) among the first `n` at which side `c` is to move. */
  function TrackedPlies(start: Color, c: Color, n: nat): (ps: seq<nat>)
    ensures forall j :: 0 <= j < |ps| ==> ps[j] < n && TurnAt(start, ps[j]) == c
  {
    if n == 0 then []
    else TrackedPlies(start, c, n - 1) + (if TurnAt(start, n - 1) == c then [n - 1] else [])
  }

  /** Every ply at which `c` is to move is tracked. */
  lemma {:induction false} TrackedPliesComplete(start: Color, c: Color, n: nat)
    ensures forall k :: 0 <= k < n && TurnAt(start, k) == c ==> k in TrackedPlies(start, c, n)
  {
    if n > 0 {
      TrackedPliesComplete(start, c, n - 1);
      var prev := TrackedPlies(start, c, n - 1);
      if TurnAt(start, n - 1) == c {
        assert TrackedPlies(start, c, n) == prev + [n - 1];
      } else {
        assert TrackedPlies(start, c, n) == prev;
      }
    }
  }

  /** The tracked side moves in half the plies, rounded up when it starts and down otherwise. */
  lemma {:induction false} TrackedPliesCount(start: Color, c: Color, n: nat)
    ensures |TrackedPlies(start, c, n)| == if start == c then (n + 1) / 2 else n / 2
  {
    if n > 0 {
      TrackedPliesCount(start, c, n - 1);
      if TurnAt(start, n - 1) == c {
        assert |TrackedPlies(start, c, n)| == |TrackedPlies(start, c, n - 1)| + 1;
      } else {
        assert |TrackedPlies(start, c, n)| == |TrackedPlies(start, c, n - 1)|;
      }
    }
  }

  /** The tracked plies come in game order. */
  lemma {:induction false} TrackedPliesAscending(start: Color, c: Color, n: nat, j: nat, k: nat)
    requires j < k < |TrackedPlies(start, c, n)|
    ensures TrackedPlies(start, c, n)[j] < TrackedPlies(start, c, n)[k]
  {
    var prev := TrackedPlies(start, c, n - 1);
    if TurnAt(start, n - 1) == c {
      assert TrackedPlies(start, c, n) == prev + [n - 1];
      if k < |prev| {
        TrackedPliesAscending(start, c, n - 1, j, k);
      }
    } else {
      assert TrackedPlies(start, c, n) == prev;
      TrackedPliesAscending(start, c, n - 1, j, k);
    }
  }

  /**
   * The loop both move-error analysers run over the first `n` plies: at a
   * ply where `c` is to move it examines the move with the 1-based count
   * `player_move_index` and keeps the record; other plies are only
   * replayed. None when an examination raises, which ends the run.
   */
  function Walk<R>(moves: seq<Move>, start: Color, c: Color, examine: (nat, Move, nat) -> Option<R>, n: nat): Option<seq<R>>
    requires n <= |moves|
  {
    if n == 0 then Some([])
    else
      match Walk(moves, start, c, examine, n - 1)
      case None => None
      case Some(rs) =>
        if TurnAt(start, n - 1) != c then Some(rs)
        else
          match examine(n - 1, moves[n - 1], |rs| + 1)
          case None => None
          case Some(r) => Some(rs + [r])
  }

  /**
   * The walk examines exactly the tracked plies, in order, numbering them
   * 1, 2, ...: a completed walk holds one record per tracked ply, the one
   * its examination returned.
   */
  lemma {:induction false} WalkVisitsTrackedPlies<R>(moves: seq<Move>, start: Color, c: Color,
                                                     examine: (nat, Move, nat) -> Option<R>, n: nat)
    requires n <= |moves|
    requires Walk(moves, start, c, examine, n).Some?
    ensures var ps, rs := TrackedPlies(start, c, n), Walk(moves, start, c, examine, n).value;
      |rs| == |ps| && forall j :: 0 <= j < |ps| ==> examine(ps[j], moves[ps[j]], j + 1) == Some(rs[j])
  {
    if n > 0 {
      var rs := Walk(moves, start, c, examine, n - 1).value;
      WalkVisitsTrackedPlies(moves, start, c, examine, n - 1);
      var prev := TrackedPlies(start, c, n - 1);
      if TurnAt(start, n - 1) == c {
        var r := examine(n - 1, moves[n - 1], |rs| + 1).value;
        assert TrackedPlies(start, c, n) == prev + [n - 1];
        assert Walk(moves, start, c, examine, n).value == rs + [r];
      } else {
        assert TrackedPlies(start, c, n) == prev;
      }
    }
  }

  /** Every ply listed in `ps` is a ply of the game whose examination, as the `j + 1`-th, succeeds. */
  predicate AllExamined<R>(moves: seq<Move>, examine: (nat, Move, nat) -> Option<R>, ps: seq<nat>) {
    forall j :: 0 <= j < |ps| ==> ps[j] < |moves| && examine(ps[j], moves[ps[j]], j + 1).Some?
  }

  /** The walk completes exactly when the examination of every tracked ply does. */
  lemma {:induction false} WalkCompletes<R>(moves: seq<Move>, start: Color, c: Color,
                                            examine: (nat, Move, nat) -> Option<R>, n: nat)
    requires n <= |moves|
    ensures Walk(moves, start, c, examine, n).Some? <==> AllExamined(moves, examine, TrackedPlies(start, c, n))
  {
    if n > 0 {
      WalkCompletes(moves, start, c, examine, n - 1);
      WalkCompletesStep(moves, start, c, examine, n);
    }
  }

  /** The induction step of WalkCompletes, over ply `n - 1`. */
  lemma WalkCompletesStep<R>(moves: seq<Move>, start: Color, c: Color,
                             examine: (nat, Move, nat) -> Option<R>, n: nat)
    requires 0 < n <= |moves|
    requires Walk(moves, start, c, examine, n - 1).Some? <==> AllExamined(moves, examine, TrackedPlies(start, c, n - 1))
    ensures Walk(moves, start, c, examine, n).Some? <==> AllExamined(moves, examine, TrackedPlies(start, c, n))
  {
    if TurnAt(start, n - 1) != c {
      assert TrackedPlies(start, c, n) == TrackedPlies(start, c, n - 1);
    } else {
      AllExaminedTracked(moves, start, c, examine, n);
      WalkTracked(moves, start, c, examine, n);
    }
  }

  /** At a ply of the tracked side, all tracked plies are examined exactly when the earlier ones and that ply are. */
  lemma AllExaminedTracked<R>(moves: seq<Move>, start: Color, c: Color,
                              examine: (nat, Move, nat) -> Option<R>, n: nat)
    requires 0 < n <= |moves| && TurnAt(start, n - 1) == c
    ensures AllExamined(moves, examine, TrackedPlies(start, c, n)) <==>
      AllExamined(moves, examine, TrackedPlies(start, c, n - 1)) &&
      examine(n - 1, moves[n - 1], |TrackedPlies(start, c, n - 1)| + 1).Some?
  {
    var prev := TrackedPlies(start, c, n - 1);
    assert TrackedPlies(start, c, n) == prev + [n - 1];
    AllExaminedAppend(moves, examine, prev, n - 1);
  }

  /** At a ply of the tracked side the walk goes on exactly when it got there and that ply's examination succeeds. */
  lemma WalkTracked<R>(moves: seq<Move>, start: Color, c: Color,
                       examine: (nat, Move, nat) -> Option<R>, n: nat)
    requires 0 < n <= |moves| && TurnAt(start, n - 1) == c
    ensures Walk(moves, start, c, examine, n).Some? <==>
      Walk(moves, start, c, examine, n - 1).Some? &&
      examine(n - 1, moves[n - 1], |TrackedPlies(start, c, n - 1)| + 1).Some?
  {
    if Walk(moves, start, c, examine, n - 1).Some? {
      WalkLength(moves, start, c, examine, n - 1);
    }
  }

  /** A completed walk holds one record per tracked ply. */
  lemma {:induction false} WalkLength<R>(moves: seq<Move>, start: Color, c: Color,
                                         examine: (nat, Move, nat) -> Option<R>, n: nat)
    requires n <= |moves|
    requires Walk(moves, start, c, examine, n).Some?
    ensures |Walk(moves, start, c, examine, n).value| == |TrackedPlies(start, c, n)|
  {
    if n > 0 {
      WalkLength(moves, start, c, examine, n - 1);
    }
  }

  /** Every listed ply has a successful examination exactly when the earlier ones and the last one do. */
  lemma AllExaminedAppend<R>(moves: seq<Move>, examine: (nat, Move, nat) -> Option<R>, prev: seq<nat>, p: nat)
    requires p < |moves|
    ensures AllExamined(moves, examine, prev + [p]) <==>
      AllExamined(moves, examine, prev) && examine(p, moves[p], |prev| + 1).Some?
  {
    var ps := prev + [p];
    assert forall j :: 0 <= j < |prev| ==> ps[j] == prev[j];
    assert ps[|prev|] == p;
  }

  /** One more ply of the walk: replayed only, or examined as the next record. */
  lemma WalkStep<R>(moves: seq<Move>, start: Color, c: Color,
                    examine: (nat, Move, nat) -> Option<R>, k: nat, rs: seq<R>)
    requires k < |moves|
    requires Walk(moves, start, c, examine, k) == Some(rs)
    ensures TurnAt(start, k) != c ==> Walk(moves, start, c, examine, k + 1) == Some(rs)
    ensures TurnAt(start, k) == c && examine(k, moves[k], |rs| + 1).Some? ==>
      Walk(moves, start, c, examine, k + 1) == Some(rs + [examine(k, moves[k], |rs| + 1).value])
    ensures TurnAt(start, k) == c && examine(k, moves[k], |rs| + 1).None? ==>
      Walk(moves, start, c, examine, k + 1).None?
  {
  }

  /**
   * A ply of the other side in either analyser: the move is only pushed
   * on the main board, and the walk of the game is unchanged by it.
   */
  method SkipMove<R>(board: Board, moves: seq<Move>, k: nat, start: Color, c: Color,
                     examine: (nat, Move, nat) -> Option<R>, ghost records: seq<R>)
    requires k < |moves| && board.stack == moves[..k] && board.turn == TurnAt(start, k) != c
    requires Walk(moves, start, c, examine, k) == Some(records)
    modifies board
    ensures board.stack == moves[..k + 1] && board.turn == TurnAt(start, k + 1)
    ensures Walk(moves, start, c, examine, k + 1) == Some(records)
  {
    WalkStep(moves, start, c, examine, k, records);
    TurnAtNext(start, k);
    board.Push(moves[k]);
    ReplayNext(moves, k);
  }

  /** Once an examination has raised, the walk stays aborted. */
  lemma {:induction false} WalkStaysAborted<R>(moves: seq<Move>, start: Color, c: Color,
                                               examine: (nat, Move, nat) -> Option<R>, k: nat, n: nat)
    requires k <= n <= |moves|
    requires Walk(moves, start, c, examine, k).None?
    ensures Walk(moves, start, c, examine, n).None?
    decreases n - k
  {
    if k < n {
      WalkStaysAborted(moves, start, c, examine, k + 1, n);
    }
  }

  /** The records `isFlagged` selects, in game order: the moves an analyser prints. */
  function Flagged<R>(rs: seq<R>, isFlagged: R -> bool): seq<R> {
    if rs == [] then []
    else Flagged(rs[..|rs| - 1], isFlagged) + (if isFlagged(rs[|rs| - 1]) then [rs[|rs| - 1]] else [])
  }

  /** One more record joins the printed moves exactly when it is flagged. */
  lemma FlaggedStep<R>(rs: seq<R>, r: R, isFlagged: R -> bool)
    ensures Flagged(rs + [r], isFlagged) == Flagged(rs, isFlagged) + (if isFlagged(r) then [r] else [])
  {
    assert (rs + [r])[..|rs|] == rs;
  }

  /** Flagged keeps exactly the flagged records. */
  lemma {:induction false} FlaggedKeepsFlagged<R>(rs: seq<R>, isFlagged: R -> bool)
    ensures forall f :: f in Flagged(rs, isFlagged) ==> f in rs && isFlagged(f)
    ensures forall r :: r in rs && isFlagged(r) ==> r in Flagged(rs, isFlagged)
  {
    if rs != [] {
      FlaggedKeepsFlagged(rs[..|rs| - 1], isFlagged);
      assert rs == rs[..|rs| - 1] + [rs[|rs| - 1]];
    }
  }

  /**
   * The records of the walk over the first `n` plies when it completes;
   * when an examination raised, the records collected before that ply.
   */
  function Collected<R>(moves: seq<Move>, start: Color, c: Color, examine: (nat, Move, nat) -> Option<R>, n: nat): seq<R>
    requires n <= |moves|
  {
    match Walk(moves, start, c, examine, n)
    case Some(rs) => rs
    case None => if n == 0 then [] else Collected(moves, start, c, examine, n - 1)
  }

  /**
   * Once the examination at ply `k` has raised, the collected records stay
   * those of the walk before ply `k`, however many plies follow.
   */
  lemma {:induction false} CollectedAfterRaise<R>(moves: seq<Move>, start: Color, c: Color,
                                                  examine: (nat, Move, nat) -> Option<R>, k: nat, rs: seq<R>, n: nat)
    requires k < n <= |moves|
    requires Walk(moves, start, c, examine, k) == Some(rs)
    requires Walk(moves, start, c, examine, k + 1).None?
    ensures Collected(moves, start, c, examine, n) == rs
    decreases n
  {
    WalkStaysAborted(moves, start, c, examine, k + 1, n);
    if n > k + 1 {
      CollectedAfterRaise(moves, start, c, examine, k, rs, n - 1);
    }
  }
}
