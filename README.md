# Pong match engine — a Dafny model

This project models the server side of a two-player pong match: the
websocket consumer `GameConsumer` (`pong_game/game/consumers.py`), which
keeps one shared record per match in a key-value cache, counts the players
of each match, runs the ball loop and ends the match at five goals; and the
matchmaking view `game_state` (`pong_game/game/views.py`), whose POST pairs
arrivals through the cache slot `waiting_game_id` and whose GET returns the
stored fields of a match.

Layout:

- `models.dfy` (`Models`): the eight-field record `MatchState`, used both for
  the cached dictionary and for the `Game` row, and its initial value (the
  defaults of `get_game_state` and of the table's columns agree).
- `physics.dfy` (`Physics`): the rules of one loop iteration as functions
  (`ResetBall`, `Advance`, `Winner`), the invariant `WellFormed` of every kept
  record, and lemmas over runs of the loop.
- `storage.dfy` (`Storage`): class `Store`, holding the cache
  (`gameStates`, `playerCounts`, `waitingGameId`), the `Game` table
  (`games`), the id that table assigns next, and an `outbox` sequence of the
  messages handed to the transport.
- `consumers.dfy` (`Consumers`): class `GameConsumer`, one per connection;
  every handler is one atomic method on the shared store. The ball task is
  the flag `hasBallTask` (the attribute exists) and `loopRunning` (the task is
  live); `Tick` is one iteration of `update_ball_position`.
- `views.dfy` (`Views`): the POST branch as a function `Post` on a `Lobby`
  value and as a method `GameStatePost` on the store, proved equal; the GET
  branch as `GameStateGet`.
- `wrappers.dfy` (`Wrappers`): `Option` and `Result`.

Positions and velocities are `real`s. Every handler is atomic, so the
interleavings the model allows are those of whole handlers.

On the following points the model follows what the code does, which is not
always what one would expect of a pong server:

- the ball moves by exactly `ball_dx`/`ball_dy` per iteration; there is no
  time step scaling and no accumulation of elapsed time;
- the end-of-match check comes at the start of an iteration, before the
  physics: the iteration that scores the fifth goal saves and broadcasts
  an ordinary update, and the next iteration ends the match;
- there is no input rate limiter and no interpolated broadcast;
- the player count is not bounded by 2: a third connection gets count 3 and
  neither message;
- the winner is `'Player 1'` exactly when `player1_score == 5`. Because each
  iteration scores at most one goal and starts only from a record where both
  scores are below five, no record the consumer keeps has both sides at five:
  `Storage.Store.Valid` requires every cached record to be `WellFormed`, and
  every handler keeps it (`Physics.Advance` preserves it from a record that is
  not over, `Consumers.ApplyInput` preserves it). On such a record
  `Physics.WinnerHasWinningScore` shows the named winner is the one side at
  five, so no tie can arise;
- when the match's `Game` row does not exist, `Game.objects.get` raises in
  `end_game` before anything is written: the loop dies, no final payload is
  sent and the cached record stays (`TickOutcome.Failed`).

## Model

| member | source | states |
|---|---|---|
| `Physics.InitialIsWellFormed` | pong_game/game/consumers.py:171-180 | the initial record has base speed, scores 0 and is not over |
| `Physics.ResetBall` | pong_game/game/consumers.py:145-149 | ball at (0.5, 0.5); each velocity component has magnitude 0.005 and is negative iff it was negative (zero becomes +0.005); scores and paddles unchanged |
| `Physics.Advance` | pong_game/game/consumers.py:112-131 | paddles unchanged; player 2 gains a goal iff the moved ball has x ≤ 0, player 1 iff x ≥ 1; scores never decrease and at most one rises; without a goal the ball moves by its velocity, `ball_dy` is negated iff the new y is ≤ 0 or ≥ 1 and `ball_dx` iff the new position is in either inclusive paddle window; after a goal the ball is centred at base speed keeping the bounced signs; well-formed records that are not over stay well-formed |
| `Physics.Winner` | pong_game/game/consumers.py:211 | the winner is 'Player 1' iff player 1 has exactly five goals, otherwise 'Player 2' |
| `Physics.WinnerHasWinningScore` | pong_game/game/consumers.py:106-110 | on a well-formed record that ends the match, the named winner is the one side with five goals and the other has fewer |
| `Physics.RunKeepsInvariant` | pong_game/game/consumers.py:102-131 | over any number of loop iterations the record stays well-formed, no score decreases, total goals grow by at most one per iteration, paddles are untouched |
| `Physics.FifthGoalEndsMatch` | pong_game/game/consumers.py:108-131 | a ball at x = -0.01 moving left with player 2 on four goals gives player 2 the fifth goal, re-centres the ball, and the next check ends the match naming player 2 |
| `Storage.StoredOrInitialIdempotent` | pong_game/game/consumers.py:163-182 | a missing key reads as the initial record; a second read with no write in between returns the same record and leaves the cache as the first read left it |
| `Storage.Store.ExpireWaitingGame` | pong_game/game/views.py:25 | the timeout of `waiting_game_id` empties the slot and keeps the store valid |
| `Consumers.ApplyInput` | pong_game/game/consumers.py:151-158 | each paddle field takes the input's value iff the input carries that key; scores, ball and velocity unchanged, so well-formedness and the end condition are kept |
| `Consumers.ApplyInputIdempotent` | pong_game/game/consumers.py:151-158 | applying the same input twice is the same as applying it once |
| `Consumers.FinalPayload` | pong_game/game/consumers.py:208-213 | the terminal payload carries both scores, `game_over: true`, and 'Player 1' as winner iff player 1 has five goals, otherwise 'Player 2' |
| `Consumers.GameConsumer.constructor` | pong_game/game/consumers.py:10-11 | a connection to a match id, owning no ball task |
| `Consumers.GameConsumer.GetGameState` | pong_game/game/consumers.py:163-182 | returns the cached record, or the initial record which it then stores; the result is well-formed and is what the cache now holds |
| `Consumers.GameConsumer.SaveGameState` | pong_game/game/consumers.py:184-189 | overwrites the match's cached record and nothing else |
| `Consumers.GameConsumer.GetPlayerCount` | pong_game/game/consumers.py:45-50 | the count becomes the old count (0 when missing) plus one, is stored and returned |
| `Consumers.GameConsumer.DecreasePlayerCount` | pong_game/game/consumers.py:52-57 | the count is decremented only when positive, so it never becomes negative; a missing count is not written |
| `Consumers.GameConsumer.StartGame` | pong_game/game/consumers.py:59-70 | the starting message goes to the group, and this connection owns a running ball loop |
| `Consumers.GameConsumer.Connect` | pong_game/game/consumers.py:9-29 | count increments; at count 1 only this connection is told to wait; at count 2 the group is told the match starts and this connection takes the ball loop; any other count sends nothing and starts nothing |
| `Consumers.GameConsumer.Disconnect` | pong_game/game/consumers.py:32-43 | the count is decremented as above; `cancel` is called iff this connection owns a ball task, and only then does its loop stop |
| `Consumers.GameConsumer.UpdateGameState` | pong_game/game/consumers.py:151-161 | the cached record becomes the read record with the input's paddle keys applied; nothing else in the cache changes |
| `Consumers.GameConsumer.Receive` | pong_game/game/consumers.py:79-92 | after the update the group receives exactly the record now stored |
| `Consumers.GameConsumer.EndGame` | pong_game/game/consumers.py:193-225 | when the row exists, it gets both scores and keeps its other fields, the group gets the terminal payload and the cached record is deleted; when it does not, nothing changes |
| `Consumers.GameConsumer.Tick` | pong_game/game/consumers.py:102-143 | if neither score is ≥ 5 the cache holds `Advance` of the read record, which is broadcast and the loop goes on; otherwise no physics is applied, the match ends as in `EndGame` and the loop stops |
| `Consumers.TwoPlayersJoin` | pong_game/game/consumers.py:22-29 | two connections (channels 1 and 2) to a fresh match: the first connect returns count 1 and alone is told to wait, the second returns count 2, broadcasts the start and owns the loop; only the counts and the outbox change |
| `Views.Post` | pong_game/game/views.py:13-26 | a taken slot hands its match to the caller as player 2 and empties the slot; an empty slot creates a row with the initial fields, stores its id in the slot and answers player 1; on a valid lobby existing rows are never changed, it never fails and player 1's match is new |
| `Views.PostsPairUp` | pong_game/game/views.py:15-26 | from an empty slot the i-th of successive POSTs answers match `nextId + i/2` as player 1 for even i and player 2 for odd i: pairs share a match, each pair's match is new |
| `Views.GameStatePost` | pong_game/game/views.py:13-26 | the POST on the store changes the slot, the table and the allocator exactly as `Post` says, and keeps the store valid |
| `Views.GameStateGet` | pong_game/game/views.py:28-40 | succeeds iff an id is given and has a row, and then returns exactly that row's eight fields; otherwise `DoesNotExist` |

## Left out

- Transport: `group_add`, `group_discard`, `accept`, `send`, `group_send` and the per-type handlers `game_message`/`game_update` are not modelled; a broadcast is an append to `Store.outbox`, addressed to a channel or to the match's group.
- JSON encoding and decoding: a client message is an `Input` with optional paddle values; a payload that is not valid JSON, or a paddle value that is not a number, is not modelled.
- Concurrency and time: `asyncio.sleep`, `create_task`, `cancel` and the interleaving of `receive` with the loop inside a handler are not modelled; each handler is one atomic step and the task is the pair of flags `hasBallTask`/`loopRunning`. The lost-update race between a client update and a loop iteration therefore does not appear.
- The `if game_state:` test of the loop is always true (the read returns a non-empty dictionary), so it is not modelled as a branch.
- The 300-second expiry of `waiting_game_id` is wall-clock time; it is the explicit operation `Storage.Store.ExpireWaitingGame`.
- Django ORM and cache internals: `Game.objects.get`/`create`/`save` and `cache.get`/`set`/`delete` are map operations; ids come from a counter that never reuses an id.
- The GET request's `id` parameter is taken as an already parsed optional integer; a non-numeric string is not modelled.
- IEEE floating-point rounding: positions and velocities are exact `real`s.
- The `print` in `end_game`, the page view `game_view`, the browser client `pong.js`, the routing in `asgi.py` and the migration (used only for the column defaults) are not part of this model.
