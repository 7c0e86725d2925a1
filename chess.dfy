/**
 * What the scripts use of python-chess and of the UCI engine, reduced to
 * what their logic depends on.
 *
 * A position is identified by the number of plies pushed since the start
 * of the game, so the engine is a scripted oracle from (position, trial)
 * to a score; repeated queries of one position may differ from trial to
 * trial, as a time-bounded search does. A move is opaque apart from the
 * notation the library renders for it.
 */
module Chess {
  import opened Wrappers

  datatype Color = White | Black

  function Opponent(c: Color): (r: Color)
    ensures r != c
  {
    if c == White then Black else White
  }

  /** The side to move after `plies` pushes on a board whose side to move was `start`. */
  function TurnAt(start: Color, plies: nat): (r: Color)
    ensures r == start <==> plies % 2 == 0
  {
    if plies % 2 == 0 then start else Opponent(start)
  }

  /** Each push hands the move to the other side. */
  lemma TurnAtNext(start: Color, plies: nat)
    ensures TurnAt(start, plies + 1) == Opponent(TurnAt(start, plies))
  {
  }

  /** Replaying one more move of a game extends the replayed prefix by that move. */
  lemma ReplayNext(moves: seq<Move>, k: nat)
    requires k < |moves|
    ensures moves[..k] + [moves[k]] == moves[..k + 1]
  {
  }

  /** A move, known by its standard algebraic notation (`board.san(move)`). */
  datatype Move = Move(san: string)

  /**
   * An engine score as seen by each side: `pov.white().score(mate_score=10000)`
   * and `pov.black().score(mate_score=10000)`; None where the library gives
   * no number.
   */
  datatype PovScore = PovScore(whiteView: Option<int>, blackView: Option<int>)

  /** `pov.white() if my_color == WHITE else pov.black()`, then `.score(mate_score=10000)`. */
  function ScoreFor(s: PovScore, c: Color): Option<int> {
    if c == White then s.whiteView else s.blackView
  }

  /** The first line of `analyse(board, limit, multipv=1)`: its first move `pv[0]` and its score. */
  datatype Line = Line(firstMove: Move, score: PovScore)

  /** `chess.engine.Limit`: a time allowance (in milliseconds) or a search depth. */
  datatype Limit = Time(millis: nat) | Depth(plies: nat)

  /**
   * The engine as a scripted oracle, one function per place the scripts
   * query it, so that separate queries of one position are independent.
   * `analyse(pos, i)` is the score of the i-th sample that
   * `average_evaluation` takes of the position reached after `pos` plies;
   * `bestLine(pos, i)` the first line of the multipv query of that
   * position in trial i of the move-error analysis; `playedScore(pos, i)`
   * the score that the same trial obtains for the position after the
   * played move, itself reached after `pos` plies.
   */
  datatype Engine = Engine(analyse: (nat, nat) -> PovScore, bestLine: (nat, nat) -> Line,
                           playedScore: (nat, nat) -> PovScore)

  /** The replay board: the side to move and the moves pushed so far. */
  class Board {
    var turn: Color
    var stack: seq<Move>

    constructor (start: Color)
      ensures turn == start && stack == []
    {
      turn := start;
      stack := [];
    }

    method Push(m: Move)
      modifies this
      ensures turn == Opponent(old(turn)) && stack == old(stack) + [m]
    {
      turn := Opponent(turn);
      stack := stack + [m];
    }

    method Copy() returns (b: Board)
      ensures fresh(b) && b.turn == turn && b.stack == stack
    {
      b := new Board(turn);
      b.stack := stack;
    }
  }
}
