/**
 * The match engine: one `GameConsumer` per websocket connection to a match.
 * Every handler (connect, receive, one iteration of the ball loop,
 * disconnect) is one atomic step on the shared `Store`.
 */
module Consumers {
  import opened Wrappers
  import opened Models
  import opened Physics
  import opened Storage

  const WaitingText: string := "Waiting for another player to join..."
  const StartingText: string := "Both players have joined. The game is starting!"

  /** A decoded client message: the paddle keys it carries; every other key is ignored. */
  datatype Input = Input(paddle1_y: Option<real>, paddle2_y: Option<real>)

  /** `update_game_state` on the record: copy the paddle values present in the input. */
  function ApplyInput(s: MatchState, data: Input): (r: MatchState)
    ensures r.paddle1_y == if data.paddle1_y.Some? then data.paddle1_y.value else s.paddle1_y
    ensures r.paddle2_y == if data.paddle2_y.Some? then data.paddle2_y.value else s.paddle2_y
    ensures r.player1_score == s.player1_score && r.player2_score == s.player2_score
    ensures r.ball_x == s.ball_x && r.ball_y == s.ball_y
    ensures r.ball_dx == s.ball_dx && r.ball_dy == s.ball_dy
    ensures WellFormed(s) ==> WellFormed(r)
    ensures IsOver(r) == IsOver(s)
  {
    var p1 := if data.paddle1_y.Some? then data.paddle1_y.value else s.paddle1_y;
    var p2 := if data.paddle2_y.Some? then data.paddle2_y.value else s.paddle2_y;
    s.(paddle1_y := p1, paddle2_y := p2)
  }

  /** Applying the same input twice is the same as applying it once. */
  lemma ApplyInputIdempotent(s: MatchState, data: Input)
    ensures ApplyInput(ApplyInput(s, data), data) == ApplyInput(s, data)
  {
  }

  /** The payload `end_game` broadcasts. */
  function FinalPayload(player1_score: int, player2_score: int): (m: Message)
    ensures m.Final? && m.game_over
    ensures m.player1_score == player1_score && m.player2_score == player2_score
    ensures m.winner == "Player 1" <==> player1_score == WinningScore
    ensures player1_score != WinningScore ==> m.winner == "Player 2"
  {
    Final(player1_score, player2_score, Winner(player1_score), true)
  }

  /** How one iteration of the ball loop ended. */
  datatype TickOutcome =
    | Continued   // physics applied, saved and broadcast
    | Ended       // the match was over: scores persisted, payload broadcast, record deleted
    | Failed      // the match was over but `Game.objects.get` raised: the task died

  class GameConsumer {
    const store: Store
    /** `self.game_id`, from the URL */
    const gameId: int
    /** `self.channel_name` */
    const channel: int
    /** `hasattr(self, 'ball_task')`: this connection started a ball loop */
    var hasBallTask: bool
    /** that loop has neither stopped nor been cancelled */
    var loopRunning: bool

    ghost predicate Valid()
      reads this, store
    {
      store.Valid() && (loopRunning ==> hasBallTask)
    }

    constructor (store: Store, gameId: int, channel: int)
      requires store.Valid()
      ensures Valid()
      ensures this.store == store && this.gameId == gameId && this.channel == channel
      ensures !hasBallTask && !loopRunning
    {
      this.store, this.gameId, this.channel := store, gameId, channel;
      hasBallTask, loopRunning := false, false;
    }

    /** `get_game_state`: the stored record, or the initial one, which is then stored. */
    method GetGameState() returns (gs: MatchState)
      requires store.Valid()
      modifies store`gameStates
      ensures store.Valid()
      ensures gs == StoredOrInitial(old(store.gameStates), gameId) && WellFormed(gs)
      ensures store.gameStates == old(store.gameStates)[gameId := gs]
    {
      if gameId in store.gameStates {
        gs := store.gameStates[gameId];
      } else {
        gs := InitialState();
        store.gameStates := store.gameStates[gameId := gs];
      }
    }

    /** `save_game_state`: unconditional overwrite. */
    method SaveGameState(gs: MatchState)
      modifies store`gameStates
      ensures store.gameStates == old(store.gameStates)[gameId := gs]
    {
      store.gameStates := store.gameStates[gameId := gs];
    }

    /** `get_player_count`: increment the match's count (missing counts as 0) and return it. */
    method GetPlayerCount() returns (count: int)
      requires store.Valid()
      modifies store`playerCounts
      ensures store.Valid()
      ensures count == CountOf(old(store.playerCounts), gameId) + 1 && count >= 1
      ensures store.playerCounts == old(store.playerCounts)[gameId := count]
    {
      count := CountOf(store.playerCounts, gameId);
      count := count + 1;
      store.playerCounts := store.playerCounts[gameId := count];
    }

    /** `decrease_player_count`: decrement the count only when it is positive. */
    method DecreasePlayerCount()
      requires store.Valid()
      modifies store`playerCounts
      ensures store.Valid()
      ensures var c := CountOf(old(store.playerCounts), gameId);
        store.playerCounts == if c > 0 then old(store.playerCounts)[gameId := c - 1] else old(store.playerCounts)
      ensures CountOf(store.playerCounts, gameId) >= 0
    {
      var count := CountOf(store.playerCounts, gameId);
      if count > 0 {
        count := count - 1;
        store.playerCounts := store.playerCounts[gameId := count];
      }
    }

    /** `start_game`: announce the start to the group and own a new ball loop. */
    method StartGame()
      requires Valid()
      modifies this`hasBallTask, this`loopRunning, store`outbox
      ensures Valid()
      ensures store.outbox == old(store.outbox) + [ToGroup(gameId, Notice(StartingText))]
      ensures hasBallTask && loopRunning
    {
      store.outbox := store.outbox + [ToGroup(gameId, Notice(StartingText))];
      hasBallTask, loopRunning := true, true;
    }

    /**
     * `connect`: the first player alone is told to wait; the second starts
     * the match; any later one gets nothing.
     */
    method Connect() returns (count: int)
      requires Valid()
      modifies this`hasBallTask, this`loopRunning, store`playerCounts, store`outbox
      ensures Valid()
      ensures count == CountOf(old(store.playerCounts), gameId) + 1
      ensures store.playerCounts == old(store.playerCounts)[gameId := count]
      ensures store.outbox == old(store.outbox) +
        (if count == 1 then [ToChannel(channel, Notice(WaitingText))]
         else if count == 2 then [ToGroup(gameId, Notice(StartingText))]
         else [])
      ensures hasBallTask == (old(hasBallTask) || count == 2)
      ensures loopRunning == (old(loopRunning) || count == 2)
    {
      count := GetPlayerCount();
      if count == 1 {
        store.outbox := store.outbox + [ToChannel(channel, Notice(WaitingText))];
      } else if count == 2 {
        StartGame();
      }
    }

    /**
     * `disconnect`: decrement the count, and cancel the ball loop if this
     * connection started one; `cancelled` says whether `cancel` was called.
     */
    method Disconnect() returns (cancelled: bool)
      requires Valid()
      modifies this`loopRunning, store`playerCounts
      ensures Valid()
      ensures var c := CountOf(old(store.playerCounts), gameId);
        store.playerCounts == if c > 0 then old(store.playerCounts)[gameId := c - 1] else old(store.playerCounts)
      ensures cancelled == hasBallTask
      ensures loopRunning == (old(loopRunning) && !cancelled)
    {
      DecreasePlayerCount();
      cancelled := hasBallTask;
      if cancelled {
        loopRunning := false;
      }
    }

    /** `update_game_state`: overwrite the paddle fields present in the input and save. */
    method UpdateGameState(data: Input)
      requires store.Valid()
      modifies store`gameStates
      ensures store.Valid()
      ensures store.gameStates ==
        old(store.gameStates)[gameId := ApplyInput(StoredOrInitial(old(store.gameStates), gameId), data)]
    {
      var gs := GetGameState();
      if data.paddle1_y.Some? {
        gs := gs.(paddle1_y := data.paddle1_y.value);
      }
      if data.paddle2_y.Some? {
        gs := gs.(paddle2_y := data.paddle2_y.value);
      }
      SaveGameState(gs);
    }

    /** `receive`: apply the input, then broadcast the stored record. */
    method Receive(data: Input)
      requires Valid()
      modifies store`gameStates, store`outbox
      ensures Valid()
      ensures var s := ApplyInput(StoredOrInitial(old(store.gameStates), gameId), data);
        && store.gameStates == old(store.gameStates)[gameId := s]
        && store.outbox == old(store.outbox) + [ToGroup(gameId, Update(s))]
    {
      UpdateGameState(data);
      var gs := GetGameState();
      store.outbox := store.outbox + [ToGroup(gameId, Update(gs))];
    }

    /**
     * `end_game`: persist both scores in the match's row, broadcast the
     * terminal payload and delete the cached record.  When the row does not
     * exist `Game.objects.get` raises before anything is written: `ok` is false.
     */
    method EndGame(gs: MatchState) returns (ok: bool)
      requires store.Valid()
      modifies store`games, store`outbox, store`gameStates
      ensures store.Valid()
      ensures ok == (gameId in old(store.games))
      ensures ok ==>
        && store.games == old(store.games)[gameId :=
             old(store.games)[gameId].(player1_score := gs.player1_score, player2_score := gs.player2_score)]
        && store.outbox == old(store.outbox) + [ToGroup(gameId, FinalPayload(gs.player1_score, gs.player2_score))]
        && store.gameStates == old(store.gameStates) - {gameId}
      ensures !ok ==>
        store.games == old(store.games) && store.outbox == old(store.outbox) && store.gameStates == old(store.gameStates)
    {
      if gameId !in store.games {
        return false;
      }
      var game := store.games[gameId];
      game := game.(player1_score := gs.player1_score);
      game := game.(player2_score := gs.player2_score);
      store.games := store.games[gameId := game];
      var final := FinalPayload(game.player1_score, game.player2_score);
      store.outbox := store.outbox + [ToGroup(gameId, final)];
      store.gameStates := store.gameStates - {gameId};
      ok := true;
    }

    /**
     * One iteration of `update_ball_position`, after its sleep: read the
     * record; if a side already has five goals end the match and stop the
     * loop, otherwise apply the physics, save and broadcast.
     */
    method Tick() returns (outcome: TickOutcome)
      requires Valid() && loopRunning
      modifies this`loopRunning, store`gameStates, store`games, store`outbox
      ensures Valid()
      ensures var s := StoredOrInitial(old(store.gameStates), gameId);
        && (!IsOver(s) ==>
              && outcome == Continued && loopRunning
              && store.gameStates == old(store.gameStates)[gameId := Advance(s)]
              && store.games == old(store.games)
              && store.outbox == old(store.outbox) + [ToGroup(gameId, Update(Advance(s)))])
        && (IsOver(s) && gameId in old(store.games) ==>
              && outcome == Ended && !loopRunning
              && store.games == old(store.games)[gameId :=
                   old(store.games)[gameId].(player1_score := s.player1_score, player2_score := s.player2_score)]
              && store.outbox == old(store.outbox) + [ToGroup(gameId, FinalPayload(s.player1_score, s.player2_score))]
              && store.gameStates == old(store.gameStates) - {gameId})
        && (IsOver(s) && gameId !in old(store.games) ==>
              && outcome == Failed && !loopRunning
              && store.games == old(store.games) && store.outbox == old(store.outbox)
              && store.gameStates == old(store.gameStates))
    {
      var gs := GetGameState();
      if gs.player1_score >= 5 || gs.player2_score >= 5 {
        var ok := EndGame(gs);
        loopRunning := false;
        outcome := if ok then Ended else Failed;
        return;
      }
      ghost var start := gs;
      gs := gs.(ball_x := gs.ball_x + gs.ball_dx);
      gs := gs.(ball_y := gs.ball_y + gs.ball_dy);
      if gs.ball_y <= 0.0 || gs.ball_y >= 1.0 {
        gs := gs.(ball_dy := gs.ball_dy * -1.0);
      }
      if || (gs.ball_x <= 0.05 && gs.ball_y >= gs.paddle1_y - 0.1 && gs.ball_y <= gs.paddle1_y + 0.1)
         || (gs.ball_x >= 0.95 && gs.ball_y >= gs.paddle2_y - 0.1 && gs.ball_y <= gs.paddle2_y + 0.1)
      {
        gs := gs.(ball_dx := gs.ball_dx * -1.0);
      }
      if gs.ball_x <= 0.0 {
        gs := gs.(player2_score := gs.player2_score + 1);
        gs := ResetBall(gs);
      }
      if gs.ball_x >= 1.0 {
        gs := gs.(player1_score := gs.player1_score + 1);
        gs := ResetBall(gs);
      }
      assert gs == Advance(start);
      SaveGameState(gs);
      store.outbox := store.outbox + [ToGroup(gameId, Update(gs))];
      outcome := Continued;
    }
  }

  /**
   * Two connections to a fresh match: the first is told to wait, the second
   * announces the start to the group and owns the ball loop.
   */
  method TwoPlayersJoin(store: Store, gameId: int)
    returns (first: GameConsumer, second: GameConsumer, n1: int, n2: int)
    requires store.Valid() && gameId !in store.playerCounts
    modifies store`playerCounts, store`outbox
    ensures first.store == store && second.store == store && first.Valid() && second.Valid()
    ensures first.gameId == gameId && second.gameId == gameId && first.channel == 1 && second.channel == 2
    ensures n1 == 1 && n2 == 2
    ensures store.playerCounts == old(store.playerCounts)[gameId := 2]
    ensures store.outbox == old(store.outbox) +
      [ToChannel(1, Notice(WaitingText)), ToGroup(gameId, Notice(StartingText))]
    ensures !first.hasBallTask && second.hasBallTask && second.loopRunning
  {
    first := new GameConsumer(store, gameId, 1);
    n1 := first.Connect();
    second := new GameConsumer(store, gameId, 2);
    n2 := second.Connect();
  }
}
