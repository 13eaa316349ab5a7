# Verity room store and lobby/round components, in Dafny

Verity is a two-player party game. Each player writes true statements
about themselves, a language model adds two lies to each, and the players
take turns picking the truth among three shuffled statements. This project
models four parts of it.

- **The in-memory room store** (`src/lib/game-store.ts`, module `Store`).
  It is a class `GameStore` with three keyed tables: rooms, chat logs and
  last-access timestamps. It creates rooms with fixed defaults. It reads and
  overwrites rooms and appends chat messages, and it refreshes the idle
  timestamp as it does. Its idle sweep evicts every id untouched for more
  than two hours. The object invariant `Valid()` says that every room and
  every chat log has a timestamp. Every mutator keeps it, so the sweep,
  which walks the timestamps, reaches everything it should evict.
- **The start control** (`src/components/StartGameButton.tsx`, module
  `StartGate`). It holds the start rule `CanStart`, the button label, the
  status line and the click handler around the start request. The label and
  the status report the first failed condition, in a fixed order.
- **The guessing view of a round** (`src/components/GameRound.tsx`, module
  `Round`). The statements are shown shuffled, and each card keeps its
  original slot. Only the first click counts, and it reports the score once.
  After the pick, the view shows which card held the truth.
- **The review panel** (`src/components/ReviewMyRounds.tsx`, module
  `Review`). It extracts the lies of a round. It holds the optimistic
  "reviewed" toggle and the "regenerating" mark.

The records of `src/types/game.ts` are datatypes in module `GameTypes`.
Optional fields are `Option`. TypeScript numbers are modelled as `int`.

How the environment is modelled:

- The clock (`Date.now()`) is a parameter `now` of each store operation.
- The outcome of each `fetch` is an input, `RequestOutcome`. It has three
  cases: success, a response with `success: false`, or an exception.
- React state is the fields of a class. A callback invocation
  (`onScoreUpdate`, `onReviewToggle`) is an out-parameter that holds the
  value passed, or `None` when the callback is not called.
- A value observable while a request is in flight (`isStarting`,
  `regenerating`, the optimistic flag) is returned as it stood when the
  request was sent.
- The review panel's two requests can overlap, so each is split into a
  send step and an answer step. `HandleReviewToggle` and
  `HandleRegenerateLies` are one send followed by its own answer.
- The random shuffle is an input. It may be any reordering of the labelled
  statements, which is all that sorting with a random comparator promises.

Facts about the store code that the model keeps:

- The store has no locking.
- `createRoom` overwrites an existing room under the same id and resets its
  chat log to empty.
- `addChatMessage` refreshes the timestamp, and starts a chat log, even for
  an id that has no room.
- Only a `getRoom` that finds the room refreshes its timestamp.

## Model

| member | source | states |
|---|---|---|
| `Store.Stale` | src/lib/game-store.ts:24-35 | the ids the sweep evicts are exactly the timestamped ids with `now - ts > 2h`; an id aged exactly 2h is not among them |
| `Store.NewRoom` | src/lib/game-store.ts:43-57 | a new room has no players, round 1 of 10, phase waiting, round phase playing, no current player, guesser or host, is not started, has a 30000 ms timer and nobody ready |
| `Store.GameStore.constructor` | src/lib/game-store.ts:9-14 | the store starts with three empty tables and satisfies the invariant |
| `Store.GameStore.CleanupOldRooms` | src/lib/game-store.ts:24-35 | room, chat log and timestamp are removed for exactly the stale ids; every other id keeps its entries and its timestamp; afterwards every remaining room and chat log has a timestamp at most `MaxAge` old; the invariant is kept |
| `Store.GameStore.CreateRoom` | src/lib/game-store.ts:41-63 | stores and returns the default room under `id`, sets its chat log to empty and its timestamp to `now`, even if `id` existed; other ids are untouched |
| `Store.GameStore.GetRoom` | src/lib/game-store.ts:65-75 | returns the stored room iff there is one; a hit sets the timestamp to `now`; a miss changes nothing; rooms and chats never change |
| `Store.GameStore.UpdateRoom` | src/lib/game-store.ts:77-80 | afterwards `id` maps to the given room and its timestamp is `now`; other ids and all chat logs are unchanged |
| `Store.GameStore.AddChatMessage` | src/lib/game-store.ts:82-87 | the log of `id` is the earlier log (or the empty one) with the message appended at the end; the timestamp is refreshed even without a room; rooms are unchanged |
| `Store.GameStore.GetChatMessages` | src/lib/game-store.ts:89-91 | returns the stored log, or the empty sequence for an id without one |
| `Store.GameStore.GetAllRooms` | src/lib/game-store.ts:93-95 | returns each stored room id exactly once and nothing else, so its length is the number of rooms |
| `Store.GameStore.GetRoomCount` | src/lib/game-store.ts:97-99 | returns the number of stored room ids, which is the length of `GetAllRooms()` |
| `Store.CleanupIdempotent` | src/lib/game-store.ts:24-35 | after a sweep at time `now`, no id is stale at `now`, so a second sweep at the same time evicts nothing |
| `StartGate.Every` | src/components/StartGameButton.tsx:16-17 | `every` holds iff the test holds at every index |
| `StartGate.Filter` | src/components/StartGameButton.tsx:58-62 | `filter` keeps exactly the players passing the test and never grows the list |
| `StartGate.Names` | src/components/StartGameButton.tsx:58-63 | the names list has one entry per player, each that player's name |
| `StartGate.CanStart` | src/components/StartGameButton.tsx:15-19 | holds iff the caller is the host, every player is ready, every player has reviewed, there are exactly 2 players and the game has not started |
| `StartGate.ButtonText` | src/components/StartGameButton.tsx:45-52 | each label is shown iff its condition fails and all earlier ones pass, in the order starting, players, generation, review, started; otherwise "Start Game" |
| `StartGate.HostLabelMatchesRule` | src/components/StartGameButton.tsx:19-52 | for the host, the label is "Start Game" iff `canStart && !isStarting` |
| `StartGate.StatusText` | src/components/StartGameButton.tsx:54-66 | started comes first, then `2 - players.length` missing players, then missing generation, then missing review, then ready |
| `StartGate.StatusMessage` | src/components/StartGameButton.tsx:54-66 | the text is "Ready to start!" iff nothing is missing and "Game in progress" iff the game has started |
| `StartGate.StatusListsInRoomOrder` | src/components/StartGameButton.tsx:57-64 | the listed names are exactly those of the players failing the check, first player first |
| `StartGate.StatusNamesSomeone` | src/components/StartGameButton.tsx:57-64 | a "waiting for" status always names at least one player |
| `StartGate.FilterPair` | src/components/StartGameButton.tsx:58-63 | filtering two players and taking names keeps each passing player's name, in room order (derived from `FilterAppend`) |
| `StartGate.FilterAppend` | src/components/StartGameButton.tsx:58-62 | filtering distributes over concatenation, so the room order is kept |
| `StartGate.ReadyStatusMatchesRule` | src/components/StartGameButton.tsx:15-66 | for the host, the status is "Ready to start!" iff `canStart` |
| `StartGate.FreshRoomCannotStart` | src/components/StartGameButton.tsx:15-56 | a room just made by `createRoom` cannot be started, its label is "Waiting for players..." and it needs 2 more players |
| `StartGate.StartGameButton.constructor` | src/components/StartGameButton.tsx:13 | `isStarting` starts false |
| `StartGate.StartGameButton.HandleStartGame` | src/components/StartGameButton.tsx:21-43 | the request is sent iff `canStart`; otherwise nothing changes; when sent, `isStarting` is true during the request and false afterwards, whatever the outcome |
| `Round.Labelled` | src/components/GameRound.tsx:32-34 | each statement is paired with its own index |
| `Round.CorrectStatement` | src/components/GameRound.tsx:79 | the revealed truth is `statements[correctIndex]`, present iff the index is in range |
| `Round.LabelledCount` | src/components/GameRound.tsx:32-34 | each labelled entry occurs exactly once, and only entries whose text matches their slot occur |
| `Round.ShuffleEntries` | src/components/GameRound.tsx:32-35 | the shuffle has as many cards as statements, and each card's text is `statements[originalIndex]` with that index in range |
| `Round.ShuffleDistinct` | src/components/GameRound.tsx:32-35 | no two cards share an original index |
| `Round.ShuffleCovers` | src/components/GameRound.tsx:32-35 | every slot appears on some card |
| `Round.ShuffleIsPermutation` | src/components/GameRound.tsx:32-37 | the card texts are a permutation of `statements` |
| `Round.TextsOfReordering` | src/components/GameRound.tsx:35 | reordering cards reorders their texts |
| `Round.TruthCardUnique` | src/components/GameRound.tsx:65-79 | when `correctIndex` is in range, exactly one card has it as original index, and that card shows the revealed truth |
| `Round.GameRoundView.constructor` | src/components/GameRound.tsx:25-41 | on mount the shuffle is installed, nothing is selected, feedback is hidden and `isCorrect` is false |
| `Round.GameRoundView.StartRound` | src/components/GameRound.tsx:30-41 | on a round or statements change, a new shuffle is installed, `selectedIndex` is null, feedback is hidden and `isCorrect` is false |
| `Round.GameRoundView.HandleCardClick` | src/components/GameRound.tsx:43-53 | a click after a pick changes nothing and reports no score; the first click records the pick, sets `isCorrect` to whether the card's original index is `correctIndex`, shows feedback and reports that same value once; at most one report per round |
| `Round.GameRoundView.CardStyleOf` | src/components/GameRound.tsx:55-77 | before a pick every card is plain; after it, a card is drawn as the truth (picked or not) iff its original index is `correctIndex`, and only the picked card gets a picked style |
| `Review.WithoutSlot` | src/components/ReviewMyRounds.tsx:79-81 | removing the truth's slot shortens the list by one when the slot is in range and otherwise keeps its length; no new statement appears |
| `Review.LiesOf` | src/components/ReviewMyRounds.tsx:79-81 | a round has one lie fewer than statements when `truthIndex` is in range |
| `Review.WithoutSlotIsRemoval` | src/components/ReviewMyRounds.tsx:79-81 | the lies are `statements` with slot `truthIndex` cut out, in the original order; an out-of-range index removes nothing |
| `Review.LiesAndTruthMakeStatements` | src/components/ReviewMyRounds.tsx:79-81 | the lies plus the truth's statement are the round's statements, as a multiset |
| `Review.ThreeStatementsTwoLies` | src/components/ReviewMyRounds.tsx:79-81 | with 3 statements and `0 <= truthIndex <= 2` there are exactly 2 lies: the two other slots, lower slot first |
| `Review.ReviewPanel.constructor` | src/components/ReviewMyRounds.tsx:12-14 | the local flag starts as the player's stored `reviewComplete`, and nothing is regenerating |
| `Review.ReviewPanel.BeginReviewToggle` | src/components/ReviewMyRounds.tsx:50-62 | a click negates the flag at once, and the request carries the player's name and the new value |
| `Review.ReviewPanel.FinishReviewToggle` | src/components/ReviewMyRounds.tsx:64-76 | on success `onReviewToggle` gets the value that request carried and the flag is left alone; on rejection or exception the flag becomes the opposite of that request's value, whatever later clicks did, and `onReviewToggle` is not called |
| `Review.ReviewPanel.HandleReviewToggle` | src/components/ReviewMyRounds.tsx:50-77 | one click answered before the next: the flag is negated while the request is in flight; on success `onReviewToggle` gets the new value and the flag keeps it; on rejection or exception the flag is back to its value before the click |
| `Review.ReviewPanel.TwoClicksBothRejected` | src/components/ReviewMyRounds.tsx:50-77 | two clicks sent before either answer, both failing and answered in order: the requests carry opposite values and the flag ends negated although neither request took effect |
| `Review.ReviewPanel.BeginRegenerate` | src/components/ReviewMyRounds.tsx:24-36 | `regenerating` becomes the clicked round's index, and the request carries the player's name, the truth and the index |
| `Review.ReviewPanel.FinishRegenerate` | src/components/ReviewMyRounds.tsx:45-47 | whatever the outcome, `regenerating` becomes null, even when it names another round whose request is still in flight |
| `Review.ReviewPanel.HandleRegenerateLies` | src/components/ReviewMyRounds.tsx:24-48 | one request answered before the next: `regenerating` is the round index while the request is in flight and null afterwards |
| `Review.ReviewPanel.OverlappingRegenerates` | src/components/ReviewMyRounds.tsx:24-48 | when a second round is regenerated before the first answers, the first answer leaves no round marked while the second request is still in flight |

## Left out

- Console logging, `alert`, `fetch`, JSON encoding and decoding and the
  push broadcasts are I/O. Each request is reduced to its outcome, and the
  alert text is not modelled.
- The `setInterval` that runs the sweep every five minutes and the
  `Date.now()` calls are timer plumbing. The sweep is an operation that
  takes `now`.
- The `global.__gameStore` singleton that survives hot reloads is runtime
  plumbing.
- Aliasing is not modelled. The code returns the stored room object and
  the stored chat array, so a caller that mutates them mutates the store.
  The model stores values.
- Store.GameStore.GetAllRooms: the code returns the ids in insertion
  order. A Dafny `map` has no order, so the model promises only that each id
  appears exactly once.
- Room-id generation in `src/app/api/rooms/route.ts` uses `Math.random`
  and only wraps `createRoom`.
- The shuffle's `Math.random` comparator is not modelled. The shuffle is
  any reordering of the labelled statements.
- Round.GameRoundView.StartRound: React compares the effect's
  dependencies by identity. The model treats each new round as a change of
  the round number or the statements. A change of `correctIndex` alone does
  not re-run the effect, and that case is not modelled.
- Review.ReviewPanel.BeginReviewToggle: each click is taken to see the flag
  as the previous click or answer left it. A click handled by a stale render
  closure is not modelled.
- Round.GameRoundView.HandleCardClick: each click is taken to see the state
  left by the previous one. Two clicks handled by one stale render closure
  are not modelled.
- CSS class strings and JSX rendering are not modelled. `getCardClassName`
  is kept only as its choice of style, `CardStyle`. The early "No rounds
  generated yet" return of the review panel is rendering too.
- Join, submit-truths, start, guess, timeout, advance, restart and leave are
  in route handlers. They are not part of this model, and neither are turn
  parity or scoring.
- Concurrency is not modelled. The store is single-threaded JavaScript with
  no locks.
- The files that only display data (`Scoreboard.tsx`, `MyRoundsPreview.tsx`,
  `TopNavigation.tsx`, `src/app/page.tsx`, `src/app/layout.tsx`) and
  `next.config.js` are not part of this model.
