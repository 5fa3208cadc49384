/**
 * The Redux "game" slice: a record of players, current player, deck, status and round,
 * with reducers that update it in place (Immer drafts).
 */
module GameSlice {
  import opened Wrappers

  datatype Suit = Hearts | Diamonds | Clubs | Spades

  datatype Card = Card(id: string, suit: Suit, value: int)

  datatype Player = Player(id: string, name: string, hand: seq<Card>, score: int)

  datatype GameStatus = Waiting | Playing | Finished

  /** `j` is the index `players.find(p => p.id === id)` lands on. */
  ghost predicate IsFirstMatch(players: seq<Player>, id: string, j: int) {
    0 <= j < |players| && players[j].id == id && forall k :: 0 <= k < j ==> players[k].id != id
  }

  /** `Array.prototype.find` by id, as an index: the first player with that id, if any. */
  function Find(players: seq<Player>, id: string): (r: Option<nat>)
    ensures r.Some? ==> IsFirstMatch(players, id, r.value)
    ensures r.None? <==> forall k :: 0 <= k < |players| ==> players[k].id != id
  {
    if players == [] then None
    else if players[0].id == id then Some(0)
    else match Find(players[1..], id)
      case None => None
      case Some(j) => Some(j + 1)
  }

  /** The players after the first one with `id` gets `cards` as its hand. */
  function WithHand(players: seq<Player>, id: string, cards: seq<Card>): (r: seq<Player>)
    ensures |r| == |players|
    ensures forall j :: 0 <= j < |players| ==>
      && r[j].id == players[j].id && r[j].name == players[j].name && r[j].score == players[j].score
      && r[j].hand == (if IsFirstMatch(players, id, j) then cards else players[j].hand)
    ensures (forall k :: 0 <= k < |players| ==> players[k].id != id) ==> r == players
  {
    match Find(players, id)
    case None => players
    case Some(i) => players[i := players[i].(hand := cards)]
  }

  /** The players after the first one with `id` gets `score`. */
  function WithScore(players: seq<Player>, id: string, score: int): (r: seq<Player>)
    ensures |r| == |players|
    ensures forall j :: 0 <= j < |players| ==>
      && r[j].id == players[j].id && r[j].name == players[j].name && r[j].hand == players[j].hand
      && r[j].score == (if IsFirstMatch(players, id, j) then score else players[j].score)
    ensures (forall k :: 0 <= k < |players| ==> players[k].id != id) ==> r == players
  {
    match Find(players, id)
    case None => players
    case Some(i) => players[i := players[i].(score := score)]
  }

  /** With duplicate ids only the first of them is touched. */
  lemma OnlyFirstDuplicateUpdated(players: seq<Player>, id: string, cards: seq<Card>, i: nat, j: nat)
    requires i < j < |players| && players[i].id == id && players[j].id == id
    ensures WithHand(players, id, cards)[j] == players[j]
  {
    var r := WithHand(players, id, cards);
    assert !IsFirstMatch(players, id, j);
    assert r[j].hand == players[j].hand;
  }

  /** The state of the slice. */
  class GameStore {
    var players: seq<Player>
    var currentPlayer: Option<string>
    var deck: seq<Card>
    var gameStatus: GameStatus
    var round: int

    /** `initialState`: no players, no current player, empty deck, waiting, round 0. */
    constructor ()
      ensures players == [] && currentPlayer == None && deck == []
      ensures gameStatus == Waiting && round == 0
    {
      players := [];
      currentPlayer := None;
      deck := [];
      gameStatus := Waiting;
      round := 0;
    }

    /** `initializeGame`: the payload becomes the players, status playing, round 1. */
    method InitializeGame(payload: seq<Player>)
      modifies this
      ensures players == payload && gameStatus == Playing && round == 1
      ensures currentPlayer == old(currentPlayer) && deck == old(deck)
    {
      players := payload;
      gameStatus := Playing;
      round := 1;
    }

    method SetCurrentPlayer(payload: string)
      modifies this
      ensures currentPlayer == Some(payload)
      ensures players == old(players) && deck == old(deck)
      ensures gameStatus == old(gameStatus) && round == old(round)
    {
      currentPlayer := Some(payload);
    }

    /** `updatePlayerHand`: the first player with the id gets the cards; nothing else changes. */
    method UpdatePlayerHand(playerId: string, cards: seq<Card>)
      modifies this
      ensures players == WithHand(old(players), playerId, cards)
      ensures currentPlayer == old(currentPlayer) && deck == old(deck)
      ensures gameStatus == old(gameStatus) && round == old(round)
    {
      var player := Find(players, playerId);
      if player.Some? {
        players := players[player.value := players[player.value].(hand := cards)];
      }
    }

    /** `updatePlayerScore`: the first player with the id gets the score; nothing else changes. */
    method UpdatePlayerScore(playerId: string, score: int)
      modifies this
      ensures players == WithScore(old(players), playerId, score)
      ensures currentPlayer == old(currentPlayer) && deck == old(deck)
      ensures gameStatus == old(gameStatus) && round == old(round)
    {
      var player := Find(players, playerId);
      if player.Some? {
        players := players[player.value := players[player.value].(score := score)];
      }
    }

    method SetDeck(payload: seq<Card>)
      modifies this
      ensures deck == payload
      ensures players == old(players) && currentPlayer == old(currentPlayer)
      ensures gameStatus == old(gameStatus) && round == old(round)
    {
      deck := payload;
    }

    method NextRound()
      modifies this
      ensures round == old(round) + 1
      ensures players == old(players) && currentPlayer == old(currentPlayer)
      ensures deck == old(deck) && gameStatus == old(gameStatus)
    {
      round := round + 1;
    }

    method EndGame()
      modifies this
      ensures gameStatus == Finished
      ensures players == old(players) && currentPlayer == old(currentPlayer)
      ensures deck == old(deck) && round == old(round)
    {
      gameStatus := Finished;
    }
  }

  /** Ending a game twice leaves the same state as ending it once. */
  method EndGameIdempotent(store: GameStore)
    modifies store
    ensures store.gameStatus == Finished
    ensures store.players == old(store.players) && store.currentPlayer == old(store.currentPlayer)
    ensures store.deck == old(store.deck) && store.round == old(store.round)
  {
    store.EndGame();
    var once := (store.players, store.currentPlayer, store.deck, store.gameStatus, store.round);
    store.EndGame();
    assert (store.players, store.currentPlayer, store.deck, store.gameStatus, store.round) == once;
  }

  /** A hand update and a score update with an id that matches no player leave the whole slice unchanged. */
  method UnknownPlayerIsNoOp(store: GameStore, playerId: string, cards: seq<Card>, score: int)
    requires forall k :: 0 <= k < |store.players| ==> store.players[k].id != playerId
    modifies store
    ensures store.players == old(store.players) && store.currentPlayer == old(store.currentPlayer)
    ensures store.deck == old(store.deck) && store.gameStatus == old(store.gameStatus)
    ensures store.round == old(store.round)
  {
    store.UpdatePlayerHand(playerId, cards);
    store.UpdatePlayerScore(playerId, score);
  }
}
