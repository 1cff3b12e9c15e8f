/**
 * The matchmaking view `game_state`: a POST pairs arrivals through the
 * cache slot `waiting_game_id`; a GET returns the stored fields of a match.
 */
module Views {
  import opened Wrappers
  import opened Models
  import opened Storage

  /** `Game.objects.get` found no row: Django raises `DoesNotExist`. */
  datatype Error = DoesNotExist

  /** The JSON answer of a POST. */
  datatype Pairing = Pairing(game_id: int, player_number: int)

  /** The part of the store a POST reads and writes. */
  datatype Lobby = Lobby(waiting: Option<int>, games: map<int, MatchState>, nextId: int)

  predicate ValidLobby(l: Lobby)
  {
    AllocatorValid(l.waiting, l.games, l.nextId)
  }

  /** `if waiting_game_id:` — a missing key and the id 0 are both false. */
  predicate SlotTaken(waiting: Option<int>)
  {
    waiting.Some? && waiting.value != 0
  }

  /** The POST branch on the lobby: the new lobby and the answer. */
  function Post(l: Lobby): (out: (Lobby, Result<Pairing, Error>))
    // a waiting match goes to the caller as player 2, and the slot is emptied
    ensures SlotTaken(l.waiting) && l.waiting.value in l.games ==>
      out == (l.(waiting := None), Ok(Pairing(l.waiting.value, 2)))
    // a waiting id without a row raises before the slot is touched
    ensures SlotTaken(l.waiting) && l.waiting.value !in l.games ==> out == (l, Err(DoesNotExist))
    // otherwise a new match with the initial fields is created and waits for a partner
    ensures !SlotTaken(l.waiting) ==>
      && out.1 == Ok(Pairing(l.nextId, 1))
      && out.0 == Lobby(Some(l.nextId), l.games[l.nextId := InitialState()], l.nextId + 1)
    // existing rows are never changed or removed (the allocator never reuses an id)
    ensures ValidLobby(l) ==> forall id :: id in l.games ==> id in out.0.games && out.0.games[id] == l.games[id]
    // on a valid lobby a POST never fails, and player 1 always gets a match no row had before
    ensures ValidLobby(l) ==> ValidLobby(out.0) && out.1.Ok?
    ensures ValidLobby(l) && out.1.value.player_number == 1 ==> out.1.value.game_id !in l.games
  {
    if SlotTaken(l.waiting) then
      if l.waiting.value in l.games then (l.(waiting := None), Ok(Pairing(l.waiting.value, 2)))
      else (l, Err(DoesNotExist))
    else
      var id := l.nextId;
      (Lobby(Some(id), l.games[id := InitialState()], id + 1), Ok(Pairing(id, 1)))
  }

  /** The answers to `k` POSTs in a row, with nothing else in between. */
  function PostMany(l: Lobby, k: nat): seq<Result<Pairing, Error>>
    decreases k
  {
    if k == 0 then [] else
      var out := Post(l);
      [out.1] + PostMany(out.0, k - 1)
  }

  /**
   * From an empty slot, successive POSTs answer players 1, 2, 1, 2, ...;
   * the i-th answer belongs to match `nextId + i / 2`, so each pair shares
   * one match and each new pair gets an id no row had before.
   */
  lemma {:induction false} PostsPairUp(l: Lobby, k: nat)
    requires ValidLobby(l) && l.waiting == None
    ensures |PostMany(l, k)| == k
    ensures forall i :: 0 <= i < k ==>
      PostMany(l, k)[i] == Ok(Pairing(l.nextId + i / 2, if i % 2 == 0 then 1 else 2))
    ensures forall i :: 0 <= i < k ==> l.nextId + i / 2 !in l.games
    decreases k
  {
    if k == 0 {
    } else if k == 1 {
      assert PostMany(l, 1) == [Post(l).1];
    } else {
      var l1 := Post(l).0;
      var l2 := Post(l1).0;
      assert l2 == Lobby(None, l.games[l.nextId := InitialState()], l.nextId + 1);
      PostsPairUp(l2, k - 2);
      var rest := PostMany(l2, k - 2);
      assert PostMany(l1, k - 1) == [Post(l1).1] + rest;
      assert PostMany(l, k) == [Post(l).1, Post(l1).1] + rest;
      forall i | 2 <= i < k
        ensures PostMany(l, k)[i] == Ok(Pairing(l.nextId + i / 2, if i % 2 == 0 then 1 else 2))
      {
        assert PostMany(l, k)[i] == rest[i - 2];
        assert (i - 2) / 2 + 1 == i / 2 && (i - 2) % 2 == i % 2;
      }
    }
  }

  /** The POST branch of `game_state`, on the store. */
  method GameStatePost(store: Store) returns (r: Result<Pairing, Error>)
    requires store.Valid()
    modifies store`waitingGameId, store`games, store`nextGameId
    ensures store.Valid()
    ensures (Lobby(store.waitingGameId, store.games, store.nextGameId), r)
         == Post(Lobby(old(store.waitingGameId), old(store.games), old(store.nextGameId)))
  {
    var waiting := store.waitingGameId;
    if waiting.Some? && waiting.value != 0 {
      if waiting.value !in store.games {
        return Err(DoesNotExist);
      }
      store.waitingGameId := None;
      r := Ok(Pairing(waiting.value, 2));
    } else {
      var id := store.nextGameId;
      store.games := store.games[id := InitialState()];
      store.nextGameId := id + 1;
      store.waitingGameId := Some(id);
      r := Ok(Pairing(id, 1));
    }
  }

  /** The GET branch: the eight stored fields of the requested match. */
  function GameStateGet(games: map<int, MatchState>, id: Option<int>): (r: Result<MatchState, Error>)
    ensures r.Ok? <==> id.Some? && id.value in games
    ensures r.Ok? ==> r.value == games[id.value]
    ensures r.Err? ==> r.error == DoesNotExist
  {
    if id.Some? && id.value in games then Ok(games[id.value]) else Err(DoesNotExist)
  }
}
