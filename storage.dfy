/**
 * The shared storage the consumer and the matchmaking view work on: the
 * key-value cache, the `Game` table, the id allocator of that table, and
 * the messages handed to the transport.
 */
module Storage {
  import opened Wrappers
  import opened Models
  import opened Physics

  /** What a client receives. */
  datatype Message =
    | Notice(message: string)          // `{message: ...}`
    | Update(state: MatchState)        // the eight fields of the record
    | Final(player1_score: int, player2_score: int, winner: string, game_over: bool)

  /** A message sent to one connection, or to every connection of a match's group. */
  datatype Delivery =
    | ToChannel(channel: int, msg: Message)
    | ToGroup(game_id: int, msg: Message)

  /** `cache.get('game_state_<id>')`, with the record a missing key is initialised to. */
  function StoredOrInitial(states: map<int, MatchState>, id: int): MatchState
  {
    if id in states then states[id] else InitialState()
  }

  /** Reading a key twice without a write in between gives the same record and store. */
  lemma StoredOrInitialIdempotent(states: map<int, MatchState>, id: int)
    ensures id !in states ==> StoredOrInitial(states, id) == InitialState()
    ensures var s := StoredOrInitial(states, id);
      StoredOrInitial(states[id := s], id) == s && states[id := s][id := s] == states[id := s]
  {
  }

  /** `cache.get('player_count_<id>', 0)`. */
  function CountOf(counts: map<int, int>, id: int): int
  {
    if id in counts then counts[id] else 0
  }

  /**
   * The ids of the `Game` table all lie below the next id to be assigned,
   * and the match waiting for a second player has a row.
   */
  predicate AllocatorValid(waiting: Option<int>, games: map<int, MatchState>, nextId: int)
  {
    && nextId >= 1
    && (forall id :: id in games ==> 1 <= id < nextId)
    && (waiting.Some? ==> waiting.value in games)
  }

  class Store {
    /** cache `game_state_<id>` */
    var gameStates: map<int, MatchState>
    /** cache `player_count_<id>` */
    var playerCounts: map<int, int>
    /** cache `waiting_game_id` */
    var waitingGameId: Option<int>
    /** the `Game` table, by id */
    var games: map<int, MatchState>
    /** the id `Game.objects.create` assigns next */
    var nextGameId: int
    /** every message handed to the transport, oldest first */
    var outbox: seq<Delivery>

    ghost predicate Valid()
      reads this
    {
      && AllocatorValid(waitingGameId, games, nextGameId)
      && (forall id :: id in playerCounts ==> playerCounts[id] >= 0)
      && (forall id :: id in gameStates ==> WellFormed(gameStates[id]))
    }

    constructor ()
      ensures Valid()
      ensures gameStates == map[] && playerCounts == map[] && waitingGameId == None
      ensures games == map[] && nextGameId == 1 && outbox == []
    {
      gameStates, playerCounts, waitingGameId := map[], map[], None;
      games, nextGameId, outbox := map[], 1, [];
    }

    /** The 300-second timeout of `waiting_game_id` running out. */
    method ExpireWaitingGame()
      requires Valid()
      modifies this`waitingGameId
      ensures Valid() && waitingGameId == None
    {
      waitingGameId := None;
    }
  }
}
