/**
 * The record every match carries.  The consumer keeps it in the cache under
 * `game_state_<id>` as a dictionary with eight keys, and the `Game` table has
 * the same eight columns (its `id` is the key of the map that stands for the
 * table), so one datatype serves for both.
 */
module Models {

  datatype MatchState = MatchState(
    player1_score: int,
    player2_score: int,
    ball_x: real,
    ball_y: real,
    ball_dx: real,
    ball_dy: real,
    paddle1_y: real,
    paddle2_y: real)

  /** The speed of the ball along each axis, per loop iteration. */
  const BaseSpeed: real := 0.005

  /**
   * The record a fresh match starts from: the dictionary `get_game_state`
   * stores for a missing key, and the column defaults of a new `Game` row.
   */
  function InitialState(): MatchState
  {
    MatchState(0, 0, 0.5, 0.5, BaseSpeed, BaseSpeed, 0.5, 0.5)
  }
}
