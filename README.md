# Least Count client core, modelled in Dafny

This project models the logic of the Least Count card-game web client: the card-code
helpers, the Redux game slice, the socket service with its reconnect counter, the
`useGameSocket` event handlers and turn countdown, the timer badge arithmetic, the
player's hand component and the HTTP error mapping.  Each source file has one module:

| module | source | form |
|---|---|---|
| `Cards` | `src/utils/cards.ts` | functions and lemmas |
| `PlayerCards` | `src/components/playercards.tsx` | functions and lemmas |
| `GameSlice` | `src/store/features/gameSlice.ts` | class `GameStore` whose methods update fields in place |
| `WebSocket` | `src/services/websocket.ts` | class `WebSocketService`; the browser socket abstracted |
| `GameSocket` | `src/hooks/useGameSocket.ts` | pure updaters plus class `GameSocketHook` for the state slots and timer handle |
| `TimerBadge` | `src/components/TimerBadge.tsx` | functions and lemmas |
| `Api` | `src/utils/api.ts` | functions, plus class `RequestConfig` for the interceptor's in-place update |

`Wrappers` holds `Option`; `Text` holds the JavaScript string operations the client uses
(`slice(0, -1)`, `slice(-1)`, `toUpperCase` on ASCII, integer `toString`, `padStart`) with
a decimal parser as the partner of integer rendering (`Text.ParseNatToString`).

Abstractions.  The browser socket is a value `Socket(id, url, protocols, readyState)` held
in an optional slot; socket events are methods called with the id of the socket that fired,
so an event from an older socket (whose handlers still point at the service) is modelled.
`setTimeout` reconnects are the list `pending`; frames handed to `socket.send` are the log
`sent`; `close()` calls are the log `closeRequested`.  `localStorage` reads, `Date.now()`,
and whether the `WebSocket` constructor throws are parameters.  In the hook, live
`setInterval`s are a map from handle to the deadline the callback captured, and
`timerRef.current` is an optional handle.  The one connect callback the client passes sends
`{type: 'gamedetailsreq', data: ''}`; it is modelled as `SendOnConnect(message)` and
`OnOpen` really sends it through `SendMessage`.

What the client does not do, and what it does instead:

- There is no outbound queue: a send on a socket that is not open is dropped.
- There is no exponential backoff and no close-code classification: every close below five
  attempts queues one reconnect after a fixed 3000 ms.
- The reconnect always joins game `"1001"` with no callback.
- `disconnect` neither resets the counter nor cancels a queued reconnect.  The closed socket's
  `onclose` still runs `handleReconnect`.  So while fewer than five attempts have been counted,
  a disconnect is followed by a reconnect; at five, no reconnect is queued.
  `WebSocket.ReconnectAfterDisconnect` walks through this.
- A move by a player who is not the local one leaves a running countdown running.
  `GameSocket.CountdownScenario` walks through this.
- There is no event registry and no session-id guard.

Scenario methods `WebSocket.ReconnectBudget`, `WebSocket.SendGatedOnOpen`,
`GameSocket.CountdownScenario`, `GameSocket.DropScenario` and `GameSlice.EndGameIdempotent`
are clients that show what the contracts allow a caller to conclude.

## Model

| member | source | states |
|---|---|---|
| `Cards.RankNameTable` | src/utils/cards.ts:5-12 | ranks 1, 10, 11, 12, 13 become A, T, J, Q, K; every other rank is kept |
| `Cards.CardFilenameShape` | src/utils/cards.ts:1-14 | the filename is the mapped rank, then the upper-cased last character, then ".svg" |
| `Cards.CardFilenameExamples` | src/utils/cards.test.ts:10-17 | 1h, 10d, 11s, 12c, 13h, 9s give AH.svg, TD.svg, JS.svg, QC.svg, KH.svg, 9S.svg |
| `Cards.ExtractRank` | src/utils/cards.ts:16-19 | "" gives ""; otherwise the result is one shorter and the code is the result plus its last character |
| `Cards.EveryHasRank` | src/utils/cards.ts:24 | true exactly when every card's rank equals the given rank |
| `Cards.AreAllSameRank` | src/utils/cards.ts:21-25 | true for the empty list; otherwise true exactly when every card has the first card's rank |
| `Cards.SameRankAnyReference` | src/utils/cards.ts:23-24 | any card of the list may serve as the reference rank |
| `Cards.AreAllSameRankExamples` | src/utils/cards.test.ts:4-9 | 7h 7s 7d give true; 7h 8s give false |
| `PlayerCards.RankNameTable` | src/components/playercards.tsx:16-22 | ranks 11, 12, 13, 14 become J, Q, K, A; every other rank, 1 and 10 included, is kept |
| `PlayerCards.CardFilenameShape` | src/components/playercards.tsx:10-28 | the filename is the mapped rank, then the upper-cased last character, then ".svg" |
| `PlayerCards.CardFilenameExamples` | src/components/playercards.tsx:10-28 | 10d gives 10D.svg, 1h gives 1H.svg, 14s gives AS.svg, 11d gives JD.svg |
| `PlayerCards.FilenamesAgreeExceptOneTenFourteen` | src/components/playercards.tsx:16-22 | this mapping and the shared one give the same filename exactly when the rank is not 1, 10 or 14 |
| `PlayerCards.Render` | src/components/playercards.tsx:30-58 | nothing is rendered exactly when the state is not 20 or the hand is empty; else one image per card in hand order, src "/cards/" + filename |
| `GameSlice.Find` | src/store/features/gameSlice.ts:45 | finds the first player with the id, and nothing exactly when no player has it |
| `GameSlice.WithHand` | src/store/features/gameSlice.ts:44-49 | same length; only the first player with the id gets the new hand; ids, names, scores kept; unknown id changes nothing |
| `GameSlice.WithScore` | src/store/features/gameSlice.ts:50-55 | same length; only the first player with the id gets the new score; ids, names, hands kept; unknown id changes nothing |
| `GameSlice.OnlyFirstDuplicateUpdated` | src/store/features/gameSlice.ts:45-47 | with two players sharing an id, the later one is untouched |
| `GameSlice.GameStore.constructor` | src/store/features/gameSlice.ts:24-30 | no players, no current player, empty deck, waiting, round 0 |
| `GameSlice.GameStore.InitializeGame` | src/store/features/gameSlice.ts:36-40 | players become the payload, status playing, round 1; current player and deck kept |
| `GameSlice.GameStore.SetCurrentPlayer` | src/store/features/gameSlice.ts:41-43 | only the current player changes |
| `GameSlice.GameStore.UpdatePlayerHand` | src/store/features/gameSlice.ts:44-49 | players become `WithHand` of the old players; every other field kept |
| `GameSlice.GameStore.UpdatePlayerScore` | src/store/features/gameSlice.ts:50-55 | players become `WithScore` of the old players; every other field kept |
| `GameSlice.GameStore.SetDeck` | src/store/features/gameSlice.ts:56-58 | only the deck changes |
| `GameSlice.GameStore.NextRound` | src/store/features/gameSlice.ts:59-61 | the round grows by exactly one; nothing else changes |
| `GameSlice.GameStore.EndGame` | src/store/features/gameSlice.ts:62-64 | status becomes finished; nothing else changes |
| `GameSlice.EndGameIdempotent` | src/store/features/gameSlice.ts:62-64 | ending twice gives the state ending once gives |
| `GameSlice.UnknownPlayerIsNoOp` | src/store/features/gameSlice.ts:44-55 | hand and score updates for an id no player has leave the whole state unchanged |
| `WebSocket.Url` | src/services/websocket.ts:13 | the fixed server prefix followed by the game id |
| `WebSocket.Subprotocols` | src/services/websocket.ts:16-20 | exactly one subprotocol: the stored token, or "" without one |
| `WebSocket.Classify` | src/services/websocket.ts:73-85 | PLAYER_TURN and UPDATE_HAND are told apart; every other type is unknown |
| `WebSocket.Opened` | src/services/websocket.ts:22 | only the socket that fired becomes open |
| `WebSocket.ClosedBy` | src/services/websocket.ts:39 | only the socket that fired becomes closed; no socket becomes open |
| `WebSocket.WebSocketService.constructor` | src/services/websocket.ts:5-10 | no socket, zero attempts, no callback, nothing queued or sent |
| `WebSocket.WebSocketService.Connect` | src/services/websocket.ts:12-50 | the callback slot always takes the argument; the socket slot takes a new connecting socket unless the constructor throws |
| `WebSocket.WebSocketService.OnOpen` | src/services/websocket.ts:22-28 | attempts reset to 0; the stored callback's message is sent when the current socket is open |
| `WebSocket.WebSocketService.OnClose` | src/services/websocket.ts:39-42 | below 5 attempts: one more attempt and exactly one 3000 ms reconnect to "1001" queued; at 5 nothing changes |
| `WebSocket.WebSocketService.HandleReconnect` | src/services/websocket.ts:52-63 | below 5: attempts grow by one and one reconnect is queued; at 5: nothing; attempts never exceed 5 |
| `WebSocket.WebSocketService.FireReconnect` | src/services/websocket.ts:56-59 | the oldest reconnect leaves the queue; connect to "1001" with no callback, so the callback slot empties; a socket id is used exactly when the constructor does not throw |
| `WebSocket.WebSocketService.Disconnect` | src/services/websocket.ts:65-70 | the slot ends empty; close is called on a held socket; no-op on an empty slot |
| `WebSocket.WebSocketService.HandleMessage` | src/services/websocket.ts:72-86 | picks the branch by type and changes no state |
| `WebSocket.WebSocketService.OnMessage` | src/services/websocket.ts:30-37 | a frame that is not JSON never reaches the handler; null throws inside and is absorbed; other values are classified |
| `WebSocket.WebSocketService.SendMessage` | src/services/websocket.ts:88-94 | the message is sent exactly when the socket is present and open; otherwise dropped, nothing queued |
| `GameSocket.RemainingMs` | src/hooks/useGameSocket.ts:38 | never negative; zero exactly when the deadline has passed; otherwise now plus it is the deadline |
| `GameSocket.RemainingMsAntitone` | src/hooks/useGameSocket.ts:42-44 | a later tick never shows more time |
| `GameSocket.LocalPlayerUnique` | src/hooks/useGameSocket.ts:36 | at most one player id matches the stored user id |
| `GameSocket.AfterGameStart` | src/hooks/useGameSocket.ts:28 | null stays null; otherwise only state, current player and move time change |
| `GameSocket.AfterMove` | src/hooks/useGameSocket.ts:35 | null stays null; otherwise only current player and move time change |
| `GameSocket.ScoresFromEntries` | src/hooks/useGameSocket.ts:58 | one score per entry, in entry order, with the entry's player id and total |
| `GameSocket.ToastText` | src/hooks/useGameSocket.ts:66 | the message text when non-empty, else the code |
| `GameSocket.AtMostOneLiveInterval` | src/hooks/useGameSocket.ts:40-41 | when every live interval is the held handle, at most one interval is live |
| `GameSocket.GameSocketHook.constructor` | src/hooks/useGameSocket.ts:6-17 | the initial state slots: empty lists, zeroes, nulls, no timer |
| `GameSocket.GameSocketHook.Mount` | src/hooks/useGameSocket.ts:19-24 | without a game id the socket, callback and id counter are unchanged; otherwise the game-details callback is stored and a new socket replaces the old one unless the constructor throws |
| `GameSocket.GameSocketHook.Cleanup` | src/hooks/useGameSocket.ts:75-78 | the socket slot ends empty, a held socket is recorded as closed, and no interval is live; the held handle is not reset |
| `GameSocket.GameSocketHook.OnGameDetails` | src/hooks/useGameSocket.ts:27 | the details become the payload |
| `GameSocket.GameSocketHook.OnGameStart` | src/hooks/useGameSocket.ts:28 | the details follow `AfterGameStart` |
| `GameSocket.GameSocketHook.OnCards` | src/hooks/useGameSocket.ts:29 | the hand becomes the payload's cards |
| `GameSocket.GameSocketHook.OnMove` | src/hooks/useGameSocket.ts:34-51 | details follow `AfterMove`; a non-local move leaves time and timer untouched; a local one sets the remaining time and makes a fresh interval the only live one |
| `GameSocket.GameSocketHook.Tick` | src/hooks/useGameSocket.ts:41-49 | the time is resampled from the captured deadline; at zero the interval is cleared and the handle reset |
| `GameSocket.GameSocketHook.OnStateUpdate` | src/hooks/useGameSocket.ts:53-61 | missing pile gives [], missing count gives 0; eliminated and scores replaced only when present |
| `GameSocket.GameSocketHook.OnDropRes` | src/hooks/useGameSocket.ts:62 | pile and count become the payload's |
| `GameSocket.GameSocketHook.OnPickRes` | src/hooks/useGameSocket.ts:63 | only the pile changes |
| `GameSocket.GameSocketHook.OnRoundEnd` | src/hooks/useGameSocket.ts:64 | the summary and the scores become the payload's |
| `GameSocket.GameSocketHook.OnGameEnd` | src/hooks/useGameSocket.ts:65 | the game-end slot becomes the payload |
| `GameSocket.GameSocketHook.OnErrorRes` | src/hooks/useGameSocket.ts:66 | the toast shows `ToastText` and one clearing timeout is queued |
| `GameSocket.GameSocketHook.ToastExpires` | src/hooks/useGameSocket.ts:66 | a due timeout empties the toast |
| `TimerBadge.Seconds` | src/components/TimerBadge.tsx:4 | the least number of whole seconds covering the milliseconds |
| `TimerBadge.FieldsSplitSeconds` | src/components/TimerBadge.tsx:4-6 | seconds field in 0..59 and minutes times 60 plus it is the rounded-up seconds |
| `TimerBadge.SecondsMonotone` | src/components/TimerBadge.tsx:4 | more milliseconds never show fewer seconds |
| `TimerBadge.PaddedSecondsReadBack` | src/components/TimerBadge.tsx:9 | the padded seconds field is two digits that read back as the seconds |
| `TimerBadge.DisplayReadsBack` | src/components/TimerBadge.tsx:4-9 | the text is minutes, a colon and two digits, and the two numbers read back from it |
| `TimerBadge.DisplayExamples` | src/components/TimerBadge.tsx:4-9 | 1 ms shows 0:01, 0 shows 0:00, 60000 shows 1:00, 61001 shows 1:02 |
| `Api.HandleApiError` | src/utils/api.ts:19-30 | with a response: its status, and its message or "An error occurred"; without: "Network error occurred" and 500 |
| `Api.MessageNeverEmpty` | src/utils/api.ts:22 | the mapped message is never empty |
| `Api.Authorized` | src/utils/api.ts:11-16 | with a non-empty token Authorization is "Bearer " + token and only that key is added; otherwise the headers are unchanged |
| `Api.RequestConfig.Intercept` | src/utils/api.ts:11-17 | the configuration's headers become `Authorized` of the old ones |

## Left out

- Socket I/O: constructing the browser socket, the handshake, `socket.send`, `socket.close`
  and the arrival of events are abstracted as described above; JSON parsing and serialisation
  are abstracted to the `Frame` shapes and the `Message` values.
- `onerror` in `src/services/websocket.ts:44-46` only logs, so it is not modelled; neither is
  any `console` output.
- The `Message` type imported from `@/model/message` is not part of this model; messages are
  `{type, data}` pairs.
- `WebSocket.WebSocketService.Connect`: whether the `WebSocket` constructor throws is an input;
  the browser's own rules for that (such as rejecting the empty subprotocol) are not modelled.
- The handler registration calls in `src/hooks/useGameSocket.ts:31-34` and `:68-73` name
  methods the shown service does not define; the model calls the hook's handlers directly.
- React wiring: `useEffect` re-runs, `useState` batching, the returned setters (`setError`,
  `setGameDetails`, `setPlayerCards`, `setTimeRemaining`) and the unused `error` slot.
- `GameSocket.GameSocketHook.OnMove`: the `typeof window` guard of the move handler
  (`src/hooks/useGameSocket.ts:36`) is taken as true, since the handler only runs in a browser.
- `GameSocket.ScoresFromEntries`: takes the entries with keys and totals already converted by
  `Number`; the ordering `Object.entries` gives and the conversion of a non-numeric key are
  not modelled.
- Timing: only the 1000 ms interval cadence is a constant; the 3000 ms toast delay is not
  recorded.  When a tick or a timeout fires is up to the caller of `Tick`, `ToastExpires` and
  `FireReconnect`.
- JavaScript `number`: milliseconds, deadlines, ids, rounds and scores are unbounded
  integers, with `ms` never negative; floating point and precision loss are not modelled.
- JavaScript falsy values other than `undefined`, `null` and `""` (for example `NaN`).
- `Cards.CardFilenameShape`, `PlayerCards.CardFilenameShape`: upper-casing covers the ASCII
  letters only, not the rest of Unicode.
- `Cards.ExtractRank`, `Cards.CardFilenameShape`, `PlayerCards.CardFilenameShape`: strings are
  sequences of Unicode code points, not UTF-16 code units.  JavaScript's `slice(0, -1)` and
  `slice(-1)` cut at a code unit.  So for a card code whose last character lies outside the
  Basic Multilingual Plane (such as `"7😀"`), JavaScript keeps or yields half a surrogate pair,
  while the model takes the whole character.
- `Api.HandleApiError`: a `message` that is not a string is not modelled.
- `Api.RequestConfig.Intercept`: header names are compared exactly, not case-insensitively.
- In `src/components/playercards.tsx` the image `onError` fallback (DOM manipulation), the
  CSS classes and the heading are presentation only.
- The Redux action creators and reducer export (`src/store/features/gameSlice.ts:68-78`) are
  library glue; Immer's copy-on-write is seen as the in-place update the reducers write.
