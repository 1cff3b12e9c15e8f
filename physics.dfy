/**
 * The rules one iteration of the consumer's ball loop applies to a match
 * record: move the ball by its velocity, bounce off the walls and the
 * paddles, score, and put the ball back in the centre after a goal.
 */
module Physics {
  import opened Models

  /** A side that has this many goals has won; the loop checks for it. */
  const WinningScore: int := 5

  /** Vertical half-height of a paddle. */
  const PaddleReach: real := 0.1

  /** The x coordinates at or beyond which the left and right paddles can hit. */
  const LeftPaddleLine: real := 0.05
  const RightPaddleLine: real := 0.95

  /** The check the loop makes at the start of every iteration. */
  predicate IsOver(s: MatchState)
  {
    s.player1_score >= WinningScore || s.player2_score >= WinningScore
  }

  /** The ball position after one iteration, before any reset. */
  function NextX(s: MatchState): real { s.ball_x + s.ball_dx }
  function NextY(s: MatchState): real { s.ball_y + s.ball_dy }

  /** The top and bottom walls, both inclusive. */
  predicate HitsWall(y: real)
  {
    y <= 0.0 || y >= 1.0
  }

  /** The two inclusive paddle windows the ball at (x, y) can be in. */
  predicate InPaddleWindow(x: real, y: real, paddle1_y: real, paddle2_y: real)
  {
    || (x <= LeftPaddleLine && y >= paddle1_y - PaddleReach && y <= paddle1_y + PaddleReach)
    || (x >= RightPaddleLine && y >= paddle2_y - PaddleReach && y <= paddle2_y + PaddleReach)
  }

  /** The velocity components after the bounces of one iteration. */
  function BouncedDx(s: MatchState): real
  {
    if InPaddleWindow(NextX(s), NextY(s), s.paddle1_y, s.paddle2_y) then -s.ball_dx else s.ball_dx
  }

  function BouncedDy(s: MatchState): real
  {
    if HitsWall(NextY(s)) then -s.ball_dy else s.ball_dy
  }

  /** Whether the iteration starting from `s` scores a goal on either side. */
  predicate Scores(s: MatchState)
  {
    NextX(s) <= 0.0 || NextX(s) >= 1.0
  }

  /** Both velocity components have the base speed; only their signs vary. */
  predicate HasBaseSpeed(s: MatchState)
  {
    && (s.ball_dx == BaseSpeed || s.ball_dx == -BaseSpeed)
    && (s.ball_dy == BaseSpeed || s.ball_dy == -BaseSpeed)
  }

  /** Scores are goal counts, and at most one side has reached the winning score. */
  predicate ScoresInRange(s: MatchState)
  {
    && 0 <= s.player1_score <= WinningScore
    && 0 <= s.player2_score <= WinningScore
    && !(s.player1_score == WinningScore && s.player2_score == WinningScore)
  }

  /** What every record the consumer keeps satisfies. */
  predicate WellFormed(s: MatchState)
  {
    HasBaseSpeed(s) && ScoresInRange(s)
  }

  lemma InitialIsWellFormed()
    ensures WellFormed(InitialState()) && !IsOver(InitialState())
  {
  }

  /**
   * `reset_ball`: back to the centre, base speed on each axis, each sign kept;
   * a zero component counts as positive.
   */
  function ResetBall(s: MatchState): (r: MatchState)
    ensures r.ball_x == 0.5 && r.ball_y == 0.5
    ensures r.ball_dx == BaseSpeed || r.ball_dx == -BaseSpeed
    ensures r.ball_dy == BaseSpeed || r.ball_dy == -BaseSpeed
    ensures r.ball_dx < 0.0 <==> s.ball_dx < 0.0
    ensures r.ball_dy < 0.0 <==> s.ball_dy < 0.0
    ensures r.player1_score == s.player1_score && r.player2_score == s.player2_score
    ensures r.paddle1_y == s.paddle1_y && r.paddle2_y == s.paddle2_y
  {
    s.(ball_x := 0.5, ball_y := 0.5,
       ball_dx := BaseSpeed * (if s.ball_dx < 0.0 then -1.0 else 1.0),
       ball_dy := BaseSpeed * (if s.ball_dy < 0.0 then -1.0 else 1.0))
  }

  /**
   * One non-terminal iteration of the ball loop, in the order the loop does
   * it: integrate, wall bounce, paddle bounce, the left goal, then the right
   * goal, which is tested on the record the left goal may have reset.
   */
  function Advance(s: MatchState): (r: MatchState)
    // the paddles belong to the clients
    ensures r.paddle1_y == s.paddle1_y && r.paddle2_y == s.paddle2_y
    // a ball at or past the left edge is a goal for player 2, at or past the right edge for player 1
    ensures r.player2_score == s.player2_score + (if NextX(s) <= 0.0 then 1 else 0)
    ensures r.player1_score == s.player1_score + (if NextX(s) >= 1.0 then 1 else 0)
    // scores never decrease, and at most one of them increases
    ensures s.player1_score <= r.player1_score && s.player2_score <= r.player2_score
    ensures r.player1_score + r.player2_score <= s.player1_score + s.player2_score + 1
    // without a goal the ball moves by its velocity and bounces
    ensures !Scores(s) ==> r.ball_x == s.ball_x + s.ball_dx && r.ball_y == s.ball_y + s.ball_dy
    ensures !Scores(s) ==> r.ball_dy == (if HitsWall(s.ball_y + s.ball_dy) then -s.ball_dy else s.ball_dy)
    ensures !Scores(s) ==>
      r.ball_dx == (if InPaddleWindow(s.ball_x + s.ball_dx, s.ball_y + s.ball_dy, s.paddle1_y, s.paddle2_y)
                    then -s.ball_dx else s.ball_dx)
    // after a goal the ball is in the centre at base speed, in the direction it had after bouncing
    ensures Scores(s) ==> r.ball_x == 0.5 && r.ball_y == 0.5 && HasBaseSpeed(r)
    ensures Scores(s) ==> (r.ball_dx < 0.0 <==> BouncedDx(s) < 0.0) && (r.ball_dy < 0.0 <==> BouncedDy(s) < 0.0)
    // the invariant of the records the consumer keeps
    ensures WellFormed(s) && !IsOver(s) ==> WellFormed(r)
  {
    var x, y := s.ball_x + s.ball_dx, s.ball_y + s.ball_dy;
    var dy := if y <= 0.0 || y >= 1.0 then -s.ball_dy else s.ball_dy;
    var dx := if InPaddleWindow(x, y, s.paddle1_y, s.paddle2_y) then -s.ball_dx else s.ball_dx;
    var moved := s.(ball_x := x, ball_y := y, ball_dx := dx, ball_dy := dy);
    var left :=
      if moved.ball_x <= 0.0 then ResetBall(moved.(player2_score := moved.player2_score + 1)) else moved;
    if left.ball_x >= 1.0 then ResetBall(left.(player1_score := left.player1_score + 1)) else left
  }

  /** The winner the terminal payload names. */
  function Winner(player1_score: int): (w: string)
    ensures w == "Player 1" || w == "Player 2"
    ensures w == "Player 1" <==> player1_score == WinningScore
  {
    if player1_score == WinningScore then "Player 1" else "Player 2"
  }

  /**
   * On a well-formed record that ends the match exactly one side has the
   * winning score, and the winner named is that side.
   */
  lemma WinnerHasWinningScore(s: MatchState)
    requires WellFormed(s) && IsOver(s)
    ensures Winner(s.player1_score) == "Player 1" <==> s.player1_score == WinningScore && s.player2_score < WinningScore
    ensures Winner(s.player1_score) == "Player 2" <==> s.player2_score == WinningScore && s.player1_score < WinningScore
  {
  }

  /**
   * `n` iterations of the ball loop with no client input in between; the
   * loop stops at the first iteration that finds the match over, so a
   * record that is already over gets no further physics.
   */
  function Run(s: MatchState, n: nat): MatchState
    decreases n
  {
    if n == 0 || IsOver(s) then s else Run(Advance(s), n - 1)
  }

  /**
   * Along any run the record stays well-formed, no score decreases and
   * at most one goal is scored per iteration.
   */
  lemma {:induction false} RunKeepsInvariant(s: MatchState, n: nat)
    requires WellFormed(s)
    ensures WellFormed(Run(s, n))
    ensures s.player1_score <= Run(s, n).player1_score && s.player2_score <= Run(s, n).player2_score
    ensures Run(s, n).player1_score + Run(s, n).player2_score <= s.player1_score + s.player2_score + n
    ensures Run(s, n).paddle1_y == s.paddle1_y && Run(s, n).paddle2_y == s.paddle2_y
    decreases n
  {
    if n != 0 && !IsOver(s) {
      RunKeepsInvariant(Advance(s), n - 1);
    }
  }

  /**
   * A ball about to cross the left edge gives player 2 the fifth goal; the
   * ball is back at the centre, the record is over, and the next iteration
   * names player 2 the winner.
   */
  lemma FifthGoalEndsMatch()
    ensures var s := MatchState(0, 4, -0.01, 0.5, -BaseSpeed, BaseSpeed, 0.5, 0.5);
      && Advance(s).player2_score == 5
      && Advance(s).ball_x == 0.5 && Advance(s).ball_y == 0.5
      && IsOver(Advance(s))
      && Winner(Advance(s).player1_score) == "Player 2"
  {
  }
}
