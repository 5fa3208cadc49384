/**
 * The `useGameSocket` hook: the state slots its event handlers overwrite, the turn
 * countdown re-derived from an absolute deadline on every tick, and the mount/cleanup
 * effect that drives the socket service.  `now` (`Date.now()`) and the value stored
 * under "userId" are parameters; interval and timeout scheduling is abstracted to the
 * handles the hook holds and the callbacks still due.
 */
module GameSocket {
  import opened Wrappers
  import Text
  import WebSocket

  const TickMs: nat := 1000
  /** What the hook's connect callback sends once the socket is open. */
  const GameDetailsRequest := WebSocket.Message("gamedetailsreq", "")

  datatype Player = Player(id: int, name: string)

  datatype GameDetails = GameDetails(
    gameState: int, host: Player, players: seq<Player>, currentPlayer: int, moveTime: int, receiver: int)

  datatype GameStartResponse = GameStartResponse(gameState: int, currentPlayer: int, moveTime: int)

  datatype CardsResponse = CardsResponse(cards: seq<string>)

  datatype Score = Score(playerId: int, total: int)

  /** One `[playerId, total]` pair of `Object.entries(gameScores)`, numbers already converted. */
  datatype ScoreEntry = ScoreEntry(key: int, total: int)

  /** A `stateupdate` frame; the fields the hook reads, each of which may be absent. */
  datatype StateUpdate = StateUpdate(
    open: Option<seq<string>>, deckCount: Option<int>, eliminated: Option<seq<int>>,
    gameScores: Option<seq<ScoreEntry>>)

  datatype DropRes = DropRes(playerId: int, open: seq<string>, deckCount: int)

  datatype PickRes = PickRes(playerId: int, source: string, card: Option<string>, open: seq<string>)

  datatype RoundEnd = RoundEnd(winnerId: int, winnerTotal: int, perPlayerAdded: seq<Score>, gameScores: seq<Score>)

  datatype GameEnd = GameEnd(winnerId: int, finalScores: seq<Score>)

  datatype ErrorRes = ErrorRes(code: string, messageText: Option<string>)

  /** `Math.max(0, endTime - now)`. */
  function RemainingMs(endTime: int, now: int): (r: nat)
    ensures r == 0 <==> endTime <= now
    ensures r > 0 ==> now + r == endTime
  {
    if endTime - now > 0 then endTime - now else 0
  }

  /** Remaining time never grows as the clock advances towards the same deadline. */
  lemma RemainingMsAntitone(endTime: int, now: int, later: int)
    requires now <= later
    ensures RemainingMs(endTime, later) <= RemainingMs(endTime, now)
  {
  }

  /** `playerId.toString() === localStorage.getItem('userId')`. */
  predicate IsLocalPlayer(playerId: int, storedUserId: Option<string>) {
    storedUserId == Some(Text.IntToString(playerId))
  }

  /** Only one player id is local for a given stored value. */
  lemma LocalPlayerUnique(p: int, q: int, storedUserId: Option<string>)
    requires IsLocalPlayer(p, storedUserId) && IsLocalPlayer(q, storedUserId)
    ensures p == q
  {
    var s := storedUserId.value;
    if p >= 0 && q >= 0 {
      Text.NatToStringInjective(p, q);
    } else if p < 0 && q < 0 {
      assert Text.NatToString(-p) == s[1..] == Text.NatToString(-q);
      Text.NatToStringInjective(-p, -q);
    }
  }

  /** The game-start updater: with no details it stays `null`; otherwise three fields change. */
  function AfterGameStart(prev: Option<GameDetails>, response: GameStartResponse): (r: Option<GameDetails>)
    ensures r.None? <==> prev.None?
    ensures r.Some? ==>
      && r.value.gameState == response.gameState
      && r.value.currentPlayer == response.currentPlayer
      && r.value.moveTime == response.moveTime
      && r.value.host == prev.value.host && r.value.players == prev.value.players
      && r.value.receiver == prev.value.receiver
  {
    match prev
    case None => None
    case Some(d) => Some(d.(gameState := response.gameState, currentPlayer := response.currentPlayer,
                           moveTime := response.moveTime))
  }

  /** The move updater: with no details it stays `null`; otherwise two fields change. */
  function AfterMove(prev: Option<GameDetails>, playerId: int, endTime: int): (r: Option<GameDetails>)
    ensures r.None? <==> prev.None?
    ensures r.Some? ==>
      && r.value.currentPlayer == playerId && r.value.moveTime == endTime
      && r.value.gameState == prev.value.gameState
      && r.value.host == prev.value.host && r.value.players == prev.value.players
      && r.value.receiver == prev.value.receiver
  {
    match prev
    case None => None
    case Some(d) => Some(d.(currentPlayer := playerId, moveTime := endTime))
  }

  /** `Object.entries(gameScores).map(([pid, total]) => ({playerId, total}))`. */
  function ScoresFromEntries(entries: seq<ScoreEntry>): (r: seq<Score>)
    ensures |r| == |entries|
    ensures forall i :: 0 <= i < |entries| ==>
      r[i].playerId == entries[i].key && r[i].total == entries[i].total
  {
    if entries == [] then []
    else [Score(entries[0].key, entries[0].total)] + ScoresFromEntries(entries[1..])
  }

  /** `messageText || code`: the message text unless missing or empty. */
  function ToastText(m: ErrorRes): (r: string)
    ensures m.messageText.Some? && m.messageText.value != "" ==> r == m.messageText.value
    ensures m.messageText.None? || m.messageText.value == "" ==> r == m.code
  {
    if m.messageText.Some? && m.messageText.value != "" then m.messageText.value else m.code
  }

  /** When every live interval handle is the one held in `timerRef`, at most one is live. */
  lemma AtMostOneLiveInterval(timer: Option<nat>, intervals: map<nat, int>)
    requires forall h :: h in intervals ==> timer == Some(h)
    ensures |intervals| <= 1
    ensures timer.None? ==> intervals == map[]
  {
    if timer.Some? && timer.value in intervals {
      assert intervals == map[timer.value := intervals[timer.value]];
    } else {
      assert intervals.Keys == {};
    }
  }

  class GameSocketHook {
    /** The shared socket service the effect connects and disconnects. */
    const service: WebSocket.WebSocketService

    var gameDetails: Option<GameDetails>
    var playerCards: seq<string>
    var timeRemaining: nat
    var openPile: seq<string>
    var deckCount: int
    var scores: seq<Score>
    var roundSummary: Option<RoundEnd>
    var gameEnd: Option<GameEnd>
    var errorToast: string
    var eliminated: seq<int>
    /** `timerRef.current`. */
    var timer: Option<nat>
    /** Intervals not yet cleared, by handle, with the deadline each one's callback captured. */
    var intervals: map<nat, int>
    var nextHandle: nat
    /** Toast-clearing timeouts still due. */
    var pendingToastClears: nat

    ghost predicate Valid()
      reads this, service
    {
      && service.Valid()
      && (forall h :: h in intervals ==> timer == Some(h))
      && (timer.Some? ==> timer.value < nextHandle)
    }

    /** The `useState` initial values. */
    constructor (service: WebSocket.WebSocketService)
      requires service.Valid()
      ensures Valid() && this.service == service
      ensures gameDetails == None && playerCards == [] && timeRemaining == 0
      ensures openPile == [] && deckCount == 0 && scores == [] && eliminated == []
      ensures roundSummary == None && gameEnd == None && errorToast == ""
      ensures timer == None && intervals == map[] && nextHandle == 0 && pendingToastClears == 0
    {
      this.service := service;
      gameDetails := None;
      playerCards := [];
      timeRemaining := 0;
      openPile := [];
      deckCount := 0;
      scores := [];
      roundSummary := None;
      gameEnd := None;
      errorToast := "";
      eliminated := [];
      timer := None;
      intervals := map[];
      nextHandle := 0;
      pendingToastClears := 0;
    }

    /**
     * The effect body: nothing without a game id; otherwise connect with a callback that
     * requests the game details.
     */
    method Mount(gameId: Option<string>, token: Option<string>, constructorThrows: bool)
      requires Valid()
      modifies service`socket, service`onConnectCallback, service`nextSocketId
      ensures Valid()
      ensures gameId.None? || gameId.value == "" ==>
        && service.socket == old(service.socket) && service.onConnectCallback == old(service.onConnectCallback)
        && service.nextSocketId == old(service.nextSocketId)
      ensures gameId.Some? && gameId.value != "" ==>
        && service.onConnectCallback == Some(WebSocket.SendOnConnect(GameDetailsRequest))
        && (constructorThrows ==>
              service.socket == old(service.socket) && service.nextSocketId == old(service.nextSocketId))
        && (!constructorThrows ==>
              && service.socket == Some(WebSocket.Socket(
                   old(service.nextSocketId), WebSocket.Url(gameId.value), WebSocket.Subprotocols(token),
                   WebSocket.Connecting))
              && service.nextSocketId == old(service.nextSocketId) + 1)
    {
      if gameId.None? || gameId.value == "" {
        return;
      }
      service.Connect(gameId.value, Some(WebSocket.SendOnConnect(GameDetailsRequest)), token, constructorThrows);
    }

    /** The effect cleanup: disconnect and clear the interval, without resetting `timerRef`. */
    method Cleanup()
      requires Valid()
      modifies this`intervals, service`socket, service`closeRequested
      ensures Valid()
      ensures service.socket == None
      ensures old(service.socket).Some? ==>
        service.closeRequested == old(service.closeRequested) + [old(service.socket).value.id]
      ensures old(service.socket).None? ==> service.closeRequested == old(service.closeRequested)
      ensures intervals == map[] && timer == old(timer)
    {
      service.Disconnect();
      if timer.Some? {
        intervals := intervals - {timer.value};
      }
      AtMostOneLiveInterval(timer, intervals);
    }

    method OnGameDetails(details: GameDetails)
      requires Valid()
      modifies this`gameDetails
      ensures Valid()
      ensures gameDetails == Some(details)
    {
      gameDetails := Some(details);
    }

    method OnGameStart(response: GameStartResponse)
      requires Valid()
      modifies this`gameDetails
      ensures Valid()
      ensures gameDetails == AfterGameStart(old(gameDetails), response)
    {
      gameDetails := AfterGameStart(gameDetails, response);
    }

    method OnCards(response: CardsResponse)
      requires Valid()
      modifies this`playerCards
      ensures Valid()
      ensures playerCards == response.cards
    {
      playerCards := response.cards;
    }

    /**
     * The move handler.  The details always take the new player and deadline.  Only when the
     * player is the local one does the countdown restart: the old interval is cleared and a
     * new one, capturing `endTime`, becomes the only live one.
     */
    method OnMove(playerId: int, endTime: int, now: int, storedUserId: Option<string>)
      requires Valid()
      modifies this`gameDetails, this`timeRemaining, this`timer, this`intervals, this`nextHandle
      ensures Valid()
      ensures gameDetails == AfterMove(old(gameDetails), playerId, endTime)
      ensures !IsLocalPlayer(playerId, storedUserId) ==>
        && timeRemaining == old(timeRemaining) && timer == old(timer)
        && intervals == old(intervals) && nextHandle == old(nextHandle)
      ensures IsLocalPlayer(playerId, storedUserId) ==>
        && timeRemaining == RemainingMs(endTime, now)
        && timer == Some(old(nextHandle)) && intervals == map[old(nextHandle) := endTime]
        && nextHandle == old(nextHandle) + 1
    {
      gameDetails := AfterMove(gameDetails, playerId, endTime);
      if IsLocalPlayer(playerId, storedUserId) {
        timeRemaining := RemainingMs(endTime, now);
        if timer.Some? {
          intervals := intervals - {timer.value};
        }
        AtMostOneLiveInterval(timer, intervals);
        intervals := intervals[nextHandle := endTime];
        timer := Some(nextHandle);
        nextHandle := nextHandle + 1;
      }
    }

    /** A tick of the live interval `handle`: resample the clock; at zero, stop the interval. */
    method Tick(handle: nat, now: int)
      requires Valid() && handle in intervals
      modifies this`timeRemaining, this`timer, this`intervals
      ensures Valid()
      ensures timeRemaining == RemainingMs(old(intervals)[handle], now)
      ensures timeRemaining == 0 ==> timer == None && intervals == map[]
      ensures timeRemaining > 0 ==> timer == old(timer) && intervals == old(intervals)
    {
      var endTime := intervals[handle];
      timeRemaining := RemainingMs(endTime, now);
      if timeRemaining == 0 && timer.Some? {
        intervals := intervals - {timer.value};
        timer := None;
      }
      AtMostOneLiveInterval(timer, intervals);
    }

    /** `stateupdate`: pile and count fall back to empty and zero; the rest change only when present. */
    method OnStateUpdate(m: StateUpdate)
      requires Valid()
      modifies this`openPile, this`deckCount, this`eliminated, this`scores
      ensures Valid()
      ensures openPile == m.open.GetOr([]) && deckCount == m.deckCount.GetOr(0)
      ensures eliminated == if m.eliminated.Some? then m.eliminated.value else old(eliminated)
      ensures scores == if m.gameScores.Some? then ScoresFromEntries(m.gameScores.value) else old(scores)
    {
      openPile := m.open.GetOr([]);
      deckCount := m.deckCount.GetOr(0);
      if m.eliminated.Some? {
        eliminated := m.eliminated.value;
      }
      if m.gameScores.Some? {
        scores := ScoresFromEntries(m.gameScores.value);
      }
    }

    method OnDropRes(m: DropRes)
      requires Valid()
      modifies this`openPile, this`deckCount
      ensures Valid()
      ensures openPile == m.open && deckCount == m.deckCount
    {
      openPile := m.open;
      deckCount := m.deckCount;
    }

    method OnPickRes(m: PickRes)
      requires Valid()
      modifies this`openPile
      ensures Valid()
      ensures openPile == m.open
    {
      openPile := m.open;
    }

    method OnRoundEnd(m: RoundEnd)
      requires Valid()
      modifies this`roundSummary, this`scores
      ensures Valid()
      ensures roundSummary == Some(m) && scores == m.gameScores
    {
      roundSummary := Some(m);
      scores := m.gameScores;
    }

    method OnGameEnd(m: GameEnd)
      requires Valid()
      modifies this`gameEnd
      ensures Valid()
      ensures gameEnd == Some(m)
    {
      gameEnd := Some(m);
    }

    /** `errorres`: show the toast and queue one timeout that clears it. */
    method OnErrorRes(m: ErrorRes)
      requires Valid()
      modifies this`errorToast, this`pendingToastClears
      ensures Valid()
      ensures errorToast == ToastText(m)
      ensures pendingToastClears == old(pendingToastClears) + 1
    {
      errorToast := ToastText(m);
      pendingToastClears := pendingToastClears + 1;
    }

    /** One toast-clearing timeout fires; it clears whatever toast is showing. */
    method ToastExpires()
      requires Valid() && pendingToastClears > 0
      modifies this`errorToast, this`pendingToastClears
      ensures Valid()
      ensures errorToast == "" && pendingToastClears == old(pendingToastClears) - 1
    {
      errorToast := "";
      pendingToastClears := pendingToastClears - 1;
    }
  }

  /**
   * The local player 101 gets a 30-second turn.  A move by player 102 meanwhile leaves the
   * countdown running; one tick per second brings it to zero after 30 ticks and stops it.
   */
  method CountdownScenario(t0: int)
  {
    var service := new WebSocket.WebSocketService();
    var hook := new GameSocketHook(service);
    assert Text.NatToString(10) == "10" && Text.NatToString(101) == "101";
    assert Text.NatToString(102) == "102";
    hook.OnMove(101, t0 + 30000, t0, Some("101"));
    assert hook.timeRemaining == 30000 && hook.timer == Some(0);
    assert !IsLocalPlayer(102, Some("101"));
    hook.OnMove(102, t0 + 60000, t0, Some("101"));
    assert hook.timer == Some(0) && 0 in hook.intervals;
    var k := 1;
    while k <= 30
      invariant 1 <= k <= 31
      invariant hook.Valid() && hook.service == service
      invariant k <= 30 ==> hook.timer == Some(0) && hook.intervals == map[0 := t0 + 30000]
      invariant k == 31 ==> hook.timer == None && hook.intervals == map[] && hook.timeRemaining == 0
    {
      hook.Tick(0, t0 + TickMs * k);
      assert hook.timeRemaining == 30000 - 1000 * k;
      k := k + 1;
    }
  }

  /** The drop-result round trip: the pile and the deck count are exactly the ones received. */
  method DropScenario()
  {
    var service := new WebSocket.WebSocketService();
    var hook := new GameSocketHook(service);
    hook.OnStateUpdate(StateUpdate(Some(["7h"]), Some(41), None, Some([ScoreEntry(101, 12)])));
    hook.OnDropRes(DropRes(101, ["7h", "7s", "8d"], 40));
    assert hook.openPile == ["7h", "7s", "8d"] && hook.deckCount == 40;
    assert hook.scores == [Score(101, 12)];
    hook.OnStateUpdate(StateUpdate(None, None, None, None));
    assert hook.openPile == [] && hook.deckCount == 0 && hook.scores == [Score(101, 12)];
  }
}
