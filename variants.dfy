/**
 * How the two move-error analysers relate when Analysis/chess_analysis.py
 * runs with its default threshold of 50: the absolute error of the one
 * bounds the signed error of the other, so every move main.py reports is
 * also reported (and judged inaccurate) by chess_analysis.py, while the
 * converse fails for a move that does better than the engine's best line.
 */
module Variants {
  import opened Wrappers
  import opened Numbers
  import opened Chess
  import opened Evaluation
  import CA = ChessAnalysis
  import MS = MainScript

  /**
   * Both error sums are defined on the same trials, and the signed sum
   * never exceeds the absolute one in size.
   */
  lemma {:induction false} SignedErrorBoundedByAbsolute(engine: Engine, pos: nat, c: Color, n: nat)
    ensures MS.ErrorSum(engine, pos, c, n).Some? <==> CA.AbsErrorSum(engine, pos, c, n).Some?
    ensures MS.ErrorSum(engine, pos, c, n).Some? ==>
      Abs(MS.ErrorSum(engine, pos, c, n).value) <= CA.AbsErrorSum(engine, pos, c, n).value
  {
    if n > 0 {
      SignedErrorBoundedByAbsolute(engine, pos, c, n - 1);
    }
  }

  /** The two analysers find the same plies fully scored. */
  lemma ScoredPliesAgree(engine: Engine, c: Color, times: nat, ps: seq<nat>)
    ensures MS.ScoredPlies(engine, c, times, ps) <==> CA.ScoredPlies(engine, c, times, ps)
  {
    if MS.ScoredPlies(engine, c, times, ps) {
      forall j | 0 <= j < |ps|
        ensures CA.Scored(engine, c, times, ps[j])
      {
        assert MS.Scored(engine, c, times, ps[j]);
        SignedErrorBoundedByAbsolute(engine, ps[j], c, times);
      }
    }
    if CA.ScoredPlies(engine, c, times, ps) {
      forall j | 0 <= j < |ps|
        ensures MS.Scored(engine, c, times, ps[j])
      {
        assert CA.Scored(engine, c, times, ps[j]);
        SignedErrorBoundedByAbsolute(engine, ps[j], c, times);
      }
    }
  }

  /**
   * A move main.py reports is one chess_analysis.py, with threshold 50,
   * also reports and does not count as accurate.
   */
  lemma MainFlagImpliesAnalysisFlag(engine: Engine, c: Color, times: nat, ply: nat, move: Move, index: nat)
    requires MS.Examine(engine, c, times, ply, move, index).Some?
    requires MS.Examine(engine, c, times, ply, move, index).value.flagged
    ensures CA.Examine(engine, c, times, CA.ScriptThreshold, ply, move, index).Some?
    ensures CA.Examine(engine, c, times, CA.ScriptThreshold, ply, move, index).value.flagged
    ensures !CA.Examine(engine, c, times, CA.ScriptThreshold, ply, move, index).value.accurate
  {
    SignedErrorBoundedByAbsolute(engine, ply, c, times);
  }

  /**
   * Over a whole game, the two analysers raise on the same games, examine
   * the same plies, and every record main.py flags is flagged by
   * chess_analysis.py with threshold 50 at the same position.
   */
  lemma AnalysersAgreeOnGames(moves: seq<Move>, start: Color, c: Color, times: nat, engine: Engine)
    ensures MS.Records(moves, start, c, times, engine).Some? <==>
      CA.Records(moves, start, c, times, CA.ScriptThreshold, engine).Some?
    ensures MS.Records(moves, start, c, times, engine).Some? ==>
      var ms, ca := MS.Records(moves, start, c, times, engine).value,
                    CA.Records(moves, start, c, times, CA.ScriptThreshold, engine).value;
      |ms| == |ca| &&
      forall j :: 0 <= j < |ms| ==> ms[j].ply == ca[j].ply && (ms[j].flagged ==> ca[j].flagged)
  {
    var ps := TrackedPlies(start, c, |moves|);
    MS.RecordsFinishExactlyWhenScored(moves, start, c, times, engine);
    CA.RecordsFinishExactlyWhenScored(moves, start, c, times, CA.ScriptThreshold, engine);
    ScoredPliesAgree(engine, c, times, ps);
    if MS.Records(moves, start, c, times, engine).Some? {
      MS.RecordsDescribeTrackedMoves(moves, start, c, times, engine);
      var ms := MS.Records(moves, start, c, times, engine).value;
      CA.RecordsDescribeTrackedMoves(moves, start, c, times, CA.ScriptThreshold, engine);
      var ca := CA.Records(moves, start, c, times, CA.ScriptThreshold, engine).value;
      forall j | 0 <= j < |ms| && ms[j].flagged
        ensures ca[j].flagged
      {
        SignedErrorBoundedByAbsolute(engine, ps[j], c, times);
        assert ms[j].error.num <= ca[j].error.num;
        assert ms[j].played == ca[j].played && ms[j].best == ca[j].best;
        assert ca[j].error.den == times && ms[j].error.num >= 50 * times;
        assert !Below(ca[j].error, CA.ScriptThreshold);
      }
    }
  }

  /**
   * An engine whose best line from the start position scores 0 for White
   * while the position after the played move scores +100.
   */
  function ImprovingEngine(): (e: Engine)
    ensures TrialDifference(e, 0, White, 0) == Some(-100)
  {
    Engine((pos: nat, i: nat) => PovScore(Some(100), Some(-100)),
           (pos: nat, i: nat) => Line(Move("e4"), PovScore(Some(0), Some(0))),
           (pos: nat, i: nat) => PovScore(Some(100), Some(-100)))
  }

  /**
   * The converse of MainFlagImpliesAnalysisFlag fails: a move that does
   * 100 centipawns better than the engine's best line is reported by
   * chess_analysis.py (its absolute error is 100) but not by main.py (its
   * signed error is -100).
   */
  lemma AbsoluteErrorFlagsAnImprovement()
    ensures MS.Examine(ImprovingEngine(), White, 1, 0, Move("d4"), 1).Some?
    ensures !MS.Examine(ImprovingEngine(), White, 1, 0, Move("d4"), 1).value.flagged
    ensures CA.Examine(ImprovingEngine(), White, 1, CA.ScriptThreshold, 0, Move("d4"), 1).Some?
    ensures CA.Examine(ImprovingEngine(), White, 1, CA.ScriptThreshold, 0, Move("d4"), 1).value.flagged
  {
    var e := ImprovingEngine();
    assert MS.ErrorSum(e, 0, White, 1) == Some(-100);
    assert CA.AbsErrorSum(e, 0, White, 1) == Some(100);
    assert e.bestLine(0, 0).firstMove.san == "e4" != "d4";
  }
}
