# KaunWho game core in Dafny

KaunWho is a two-player "guess who" party game. Two nearby devices connect
over a local peer-to-peer session. Each player picks photos of faces. Fifteen
of the pooled photos go on a shared board, and each player is secretly given
one board photo as a mystery face. Players take turns eliminating faces until
one of them guesses. A correct guess wins, and a wrong one hands the win to the
opponent.

This project models three parts of that program:

- **`Models`** (`Models.dfy`) covers `KaunWho/Models/GameModels.swift`:
  - the `Player`, `GamePhoto` and `GameSession` records and their initialisers;
  - `allPlayers` and `isReadyToStart`;
  - the raw strings of `GameState`, `PlayerRole` and `GameMessage.MessageType`;
  - the session payload of a state-update message;
  - the `PhotoSelectionTimer` countdown, as a class, with its `m:ss` text.
- **`Networking`** (`Networking.dfy`) covers the bookkeeping of
  `KaunWho/Networking/MultipeerManager.swift`:
  - the connected and discovered peer lists, and the hosting and connected flags;
  - whether an advertiser and a browser exist;
  - the single inbound message slot;
  - a record of every message and invitation handed to the framework.

  Each operation and framework callback is a transition function on a
  `TransportState` value. The `MultipeerManager` class updates its fields in
  place, and its methods are proved equal to those functions. Every transition
  keeps `Consistent`:
  - `isConnected` holds exactly when the connected list is non-empty;
  - neither peer list repeats a peer;
  - `isHosting` holds exactly when an advertiser exists.
- **`Game`** (`Game.dfy`) covers `KaunWho/Game/GameManager.swift`. It holds the
  session transforms behind each move: starting, eliminating, guessing, ending
  a turn and writing this device's player into the session. It also models how
  received messages are applied, and the `GameManager` class. That class
  mirrors the session's fields and, after each change, hands a message to the
  transport. Its methods follow the Swift code statement by statement,
  including its quirks:
  - `startGame` stores `gameSetup` in the session but `playing` in the
    manager's own `gameState`;
  - elimination and game-over messages carry no payload;
  - ending the turn when no one has the turn gives it to the host;
  - a received snapshot re-derives only the opponent, not this device's own player.

These inputs are not computed by the model. The caller passes them in:

- **Ids.** Fresh `UUID()` values are passed in as `Uuid` values.
- **Dates.** `Date()` values are `Timestamp`s, which are never interpreted.
- **Randomness.**
  - `shuffled()` is a caller-supplied sequence that must be a permutation of
    the photo pool.
  - Each `randomElement()` draw is an arbitrary number `pick`, and the element
    drawn is the one at `pick % count`, so any element can be drawn.
  - `Bool.random()` is a boolean parameter.
- **Framework callbacks and timers.** These become plain methods called one at
  a time:
  - the MultipeerConnectivity callbacks: `PeerDidChangeState`, `DidReceive`,
    `FoundPeer` and `LostPeer`;
  - the countdown's one-second timer (`Tick`);
  - the manager's 0.1-second polling timer (`PollStep`).

The countdown is modelled with its set of live timers. In the source, calling
`start()` twice schedules a second timer without invalidating the first, and
`stop()` invalidates only the most recent one. The model keeps this behaviour.

In two places the code contradicts itself. The model keeps what the code
does, and the corrected behaviour is stated beside it (see Findings):

- `startGame` sets the manager's own `gameState` to `playing` at
  `KaunWho/Game/GameManager.swift:108`, but stores `gameSetup` in the session
  at line 95. `eliminatePhoto` then acts only on a session in `playing`.
- The game-over screen reveals `myPlayer?.mysteryFace` as the player's own
  mystery person (`KaunWho/Views/GameBoardView.swift:256`), and `makeGuess`
  judges a guess against it. A received snapshot, however, only updates `opponentPlayer`, so
  the guest's own face is never filled in.

The code also does not keep some constraints one might expect of a session.
For example, the board is not kept empty until `playing`, and `endTurn` sets a
turn in any state. Photo changes send the session from either role, not only
from the host.

## Model

| member | source | states |
|---|---|---|
| Models.NewPlayer | KaunWho/Models/GameModels.swift:20-25 | a new player has the given id and name, no photos and no mystery face |
| Models.NewPhoto | KaunWho/Models/GameModels.swift:33-37 | a new photo keeps its id and bytes and is not eliminated |
| Models.NewSession | KaunWho/Models/GameModels.swift:63-72 | a new session has only its host, waits for players, has an empty board, and has no turn and no winner |
| Models.AllPlayers | KaunWho/Models/GameModels.swift:74-80 | the list starts with the host, has two entries exactly when there is a guest (the guest second), otherwise one |
| Models.ReadyIffTwoPlayersWithEnoughPhotos | KaunWho/Models/GameModels.swift:82-86 | a session is ready to start exactly when it has two players and every player has at least 8 photos |
| Models.GameStateFromRaw | KaunWho/Models/GameModels.swift:40-46 | decoding a raw string yields only a state whose raw value is that string |
| Models.GameStateRawRoundTrip | KaunWho/Models/GameModels.swift:40-46 | decoding a state's raw value gives the state back, and no two states share a raw value |
| Models.PlayerRoleFromRaw | KaunWho/Models/GameModels.swift:48-51 | decoding a raw string yields only a role whose raw value is that string |
| Models.PlayerRoleRawRoundTrip | KaunWho/Models/GameModels.swift:48-51 | role raw values decode back to the role and are distinct |
| Models.MessageTypeFromRaw | KaunWho/Models/GameModels.swift:96-105 | decoding a raw string yields only a message type whose raw value is that string |
| Models.MessageTypeRawRoundTrip | KaunWho/Models/GameModels.swift:96-105 | the eight message-type raw values decode back to their type and are pairwise distinct |
| Models.EncodeSession | KaunWho/Networking/MultipeerManager.swift:104-107 | an encoded session decodes to the same session |
| Models.Decimal | KaunWho/Models/GameModels.swift:138-142 | `%d` text is a non-empty string of digits, one digit exactly for numbers below 10 |
| Models.ZeroPadded2 | KaunWho/Models/GameModels.swift:138-142 | `%02d` text has at least two digits, and exactly two below 100 |
| Models.DecimalValue | KaunWho/Models/GameModels.swift:138-142 | the digits of `%d` read back as the number printed |
| Models.ZeroPadded2Value | KaunWho/Models/GameModels.swift:138-142 | the zero-padded digits read back as the number printed |
| Models.ClockText | KaunWho/Models/GameModels.swift:138-142 | the countdown text has a colon followed by exactly two characters |
| Models.ClockTextRoundTrip | KaunWho/Models/GameModels.swift:138-142 | the countdown text is the minutes, a colon, and the seconds in two digits, and reading it back gives the number of seconds |
| Models.ClockTextExamples | KaunWho/Models/GameModels.swift:138-142 | 60 seconds show as "1:00", 9 as "0:09", 0 as "0:00" |
| Models.PhotoSelectionTimer.constructor | KaunWho/Models/GameModels.swift:110-118 | a new countdown shows 60 seconds, is inactive and has no timer |
| Models.PhotoSelectionTimer.Start | KaunWho/Models/GameModels.swift:120-130 | start sets 60 seconds and active, and schedules one new timer while earlier timers stay live |
| Models.PhotoSelectionTimer.Tick | KaunWho/Models/GameModels.swift:123-129 | a live timer's tick takes exactly one second off a positive count; at zero it stops the countdown, invalidating only the held timer, so an older timer that fired stays live; the count never goes negative; an invalidated timer changes nothing |
| Models.PhotoSelectionTimer.Stop | KaunWho/Models/GameModels.swift:132-136 | stop invalidates only the held timer, clears it and deactivates, leaving the count alone |
| Models.PhotoSelectionTimer.TimeString | KaunWho/Models/GameModels.swift:138-142 | the text shown reads back as the seconds remaining |
| Networking.AppendIfAbsent | KaunWho/Networking/MultipeerManager.swift:122-124 | the peer is present afterwards, nothing else is added, earlier entries keep their places, and a duplicate-free list stays duplicate-free |
| Networking.RemoveAll | KaunWho/Networking/MultipeerManager.swift:128 | the peer is gone, every other peer stays present, the list does not grow, and no duplicates appear |
| Networking.RemoveAllAbsent | KaunWho/Networking/MultipeerManager.swift:128 | removing a peer that is not listed leaves the list unchanged |
| Networking.RemoveAllUnique | KaunWho/Networking/MultipeerManager.swift:128 | in a duplicate-free list, removal cuts out exactly the peer's position and keeps the rest in order |
| Networking.RemoveAllAppend | KaunWho/Networking/MultipeerManager.swift:186 | removal distributes over concatenation, so surviving peers keep their order |
| Networking.InitialTransport | KaunWho/Networking/MultipeerManager.swift:14-18 | the transport starts consistent, not hosting, browsing or connected, with empty lists and no message |
| Networking.HostingStarted | KaunWho/Networking/MultipeerManager.swift:38-46 | starting to host sets the hosting flag and creates an advertiser, keeping the invariant |
| Networking.HostingStopped | KaunWho/Networking/MultipeerManager.swift:48-52 | stopping hosting clears the hosting flag and the advertiser |
| Networking.BrowsingStarted | KaunWho/Networking/MultipeerManager.swift:56-62 | starting to browse creates a browser and keeps the discovered list |
| Networking.BrowsingStopped | KaunWho/Networking/MultipeerManager.swift:64-68 | stopping browsing drops the browser and empties the discovered list, leaving connections and hosting alone |
| Networking.PeerInvited | KaunWho/Networking/MultipeerManager.swift:72-75 | without a browser nothing happens; with one, exactly one invitation with a 30-second timeout is issued |
| Networking.Disconnected | KaunWho/Networking/MultipeerManager.swift:82-89 | from any state, afterwards nothing is hosted, browsed or connected and both peer lists are empty |
| Networking.MessageSent | KaunWho/Networking/MultipeerManager.swift:93-102 | with no connected peer nothing is sent; otherwise the message is sent once to every connected peer |
| Networking.GameStateMessage | KaunWho/Networking/MultipeerManager.swift:104-112 | a game-state message is a state update whose payload decodes to the session sent |
| Networking.PeerStateChanged | KaunWho/Networking/MultipeerManager.swift:118-138 | a connected peer is listed and the flag set; a disconnected peer is removed with every other peer kept; connecting changes nothing; the invariant holds throughout |
| Networking.MessageReceived | KaunWho/Networking/MultipeerManager.swift:140-149 | a decoded message overwrites the inbound slot; one that fails to decode changes nothing |
| Networking.PeerFound | KaunWho/Networking/MultipeerManager.swift:176-182 | a found peer is listed once, nothing else is added, and no duplicates appear |
| Networking.PeerLost | KaunWho/Networking/MultipeerManager.swift:184-188 | a lost peer is removed and every other discovered peer is kept |
| Networking.ConnectThenDropRestores | KaunWho/Networking/MultipeerManager.swift:118-133 | a new peer that connects and then drops leaves the connected list as it was |
| Networking.MultipeerManager.constructor | KaunWho/Networking/MultipeerManager.swift:26-34 | a new transport is in the initial state |
| Networking.MultipeerManager.StartHosting | KaunWho/Networking/MultipeerManager.swift:38-46 | updates the fields as HostingStarted, keeping the invariant |
| Networking.MultipeerManager.StopHosting | KaunWho/Networking/MultipeerManager.swift:48-52 | updates the fields as HostingStopped |
| Networking.MultipeerManager.StartBrowsing | KaunWho/Networking/MultipeerManager.swift:56-62 | updates the fields as BrowsingStarted |
| Networking.MultipeerManager.StopBrowsing | KaunWho/Networking/MultipeerManager.swift:64-68 | updates the fields as BrowsingStopped |
| Networking.MultipeerManager.InvitePeer | KaunWho/Networking/MultipeerManager.swift:72-75 | updates the fields as PeerInvited |
| Networking.MultipeerManager.Disconnect | KaunWho/Networking/MultipeerManager.swift:82-89 | updates the fields as Disconnected, through stopHosting and stopBrowsing |
| Networking.MultipeerManager.SendMessage | KaunWho/Networking/MultipeerManager.swift:93-102 | updates the fields as MessageSent |
| Networking.MultipeerManager.SendGameState | KaunWho/Networking/MultipeerManager.swift:104-112 | sends the session as a state-update message |
| Networking.MultipeerManager.PeerDidChangeState | KaunWho/Networking/MultipeerManager.swift:118-138 | updates the connected list and flag as PeerStateChanged |
| Networking.MultipeerManager.DidReceive | KaunWho/Networking/MultipeerManager.swift:140-149 | updates the inbound slot as MessageReceived |
| Networking.MultipeerManager.DidReceiveInvitation | KaunWho/Networking/MultipeerManager.swift:167-170 | every incoming invitation is accepted |
| Networking.MultipeerManager.FoundPeer | KaunWho/Networking/MultipeerManager.swift:176-182 | updates the discovered list as PeerFound |
| Networking.MultipeerManager.LostPeer | KaunWho/Networking/MultipeerManager.swift:184-188 | updates the discovered list as PeerLost |
| Game.Opposite | KaunWho/Game/GameManager.swift:153 | the other role is never the role itself |
| Game.PhotoPool | KaunWho/Game/GameManager.swift:88 | the pooled photos are the host's photos followed by the guest's |
| Game.ReadyPoolSize | KaunWho/Game/GameManager.swift:85-88 | a session ready to start pools at least 16 photos |
| Game.ExceptId | KaunWho/Game/GameManager.swift:76 | what remains is exactly the photos whose id differs, and the list does not grow |
| Game.ExceptIdAbsent | KaunWho/Game/GameManager.swift:76 | removing an id no photo carries changes nothing |
| Game.ExceptIdAppend | KaunWho/Game/GameManager.swift:76 | removal distributes over concatenation, so remaining photos keep their order |
| Game.AddThenRemovePhoto | KaunWho/Game/GameManager.swift:63-80 | appending a photo with a fresh id and then removing that id gives back the original photos |
| Game.SelectBoard | KaunWho/Game/GameManager.swift:89-90 | the board has min(pool size, 15) photos, all drawn from the shuffled pool |
| Game.RandomElement | KaunWho/Game/GameManager.swift:98 | a draw succeeds exactly when the list is non-empty and returns one of its elements |
| Game.EveryElementCanBeDrawn | KaunWho/Game/GameManager.swift:98 | every element of a list can be the one drawn |
| Game.GuestMystery | KaunWho/Game/GameManager.swift:99 | the guest's face is a board photo whose id differs from the host's face |
| Game.StartedSession | KaunWho/Game/GameManager.swift:84-105 | the started session has the selected board, the state `gameSetup` and a turn; both players keep their photos; the host's face is on a non-empty board; the guest's face, when drawn, is on the board and differs in id from the host's; id, date and winner are unchanged |
| Game.StartedBoardFromPool | KaunWho/Game/GameManager.swift:87-94 | the board holds min(pool size, 15) photos, each one a photo of the host or the guest |
| Game.ReadyBoardIsFull | KaunWho/Game/GameManager.swift:84-94 | a game that is ready always gets a board of exactly 15 photos |
| Game.MysteryFacesDiffer | KaunWho/Game/GameManager.swift:97-102 | when the board holds two distinct ids, both players get a mystery face and the two ids differ |
| Game.FirstIndexWithId | KaunWho/Game/GameManager.swift:129 | the index found is the first photo with that id, and no index means no photo has it |
| Game.Eliminate | KaunWho/Game/GameManager.swift:129-131 | only the first photo with that id changes, and it becomes eliminated; ids and images stay; an absent id changes nothing |
| Game.FirstIndexFollowsIds | KaunWho/Game/GameManager.swift:129 | the first index of an id depends only on the ids on the board |
| Game.EliminateIdempotent | KaunWho/Game/GameManager.swift:125-133 | eliminating the same photo twice gives the board of eliminating it once |
| Game.EliminateCommutes | KaunWho/Game/GameManager.swift:125-133 | eliminating two photos gives the same board in either order |
| Game.EliminatedSession | KaunWho/Game/GameManager.swift:125-133 | a session not `playing` is unchanged; otherwise only the board changes, by the elimination |
| Game.GuessWinner | KaunWho/Game/GameManager.swift:143-157 | the guesser wins exactly when the guess is correct, otherwise the other role wins |
| Game.GuessedSession | KaunWho/Game/GameManager.swift:145-159 | after a guess the session is over with that winner, and nothing else, including the turn, changes |
| Game.NextTurn | KaunWho/Game/GameManager.swift:172 | ending a turn hands it to the other role, and no turn becomes the host's |
| Game.EndTurnTwice | KaunWho/Game/GameManager.swift:168-179 | ending the turn twice restores a set turn; from no turn it reaches the guest |
| Game.WithMyPlayer | KaunWho/Game/GameManager.swift:230-242 | this device's slot takes its player; as host with no player the session is unchanged; the other slot and all other fields are unchanged |
| Game.Received | KaunWho/Game/GameManager.swift:195-228 | a decodable snapshot replaces the session and re-derives state, turn, winner and the opponent by role; an update without a decodable payload changes nothing; game-over sets only the state; every other type changes nothing |
| Game.LastSnapshotWins | KaunWho/Game/GameManager.swift:197-215 | of two snapshots received in a row, only the later one determines the result |
| Game.ReceivedIdempotent | KaunWho/Game/GameManager.swift:195-228 | receiving the same message twice has the effect of receiving it once |
| Game.StartThenEliminateIsNoOp | KaunWho/Game/GameManager.swift:95 | as written, no elimination changes a session that startGame built |
| Game.StartedSessionAsIntended | KaunWho/Game/GameManager.swift:95 | the intended started session is the same session in the state `playing` |
| Game.IntendedStartThenEliminateMarksPhoto | KaunWho/Game/GameManager.swift:125-131 | after the intended start, eliminating a board photo marks the first photo with its id and leaves every other photo alone |
| Game.GuestLosesWithOwnFaceAfterSnapshot | KaunWho/Game/GameManager.swift:206-211 | as written, a guest whose face arrives in a snapshot is still judged wrong when guessing that face |
| Game.ReceivedAsIntended | KaunWho/Game/GameManager.swift:206-211 | the intended handling agrees with the code on every field, and also copies this device's mystery face from its slot of the snapshot |
| Game.OwnFaceWinsAfterIntendedSnapshot | KaunWho/Game/GameManager.swift:140-157 | with the intended handling, a player whose face arrives in a snapshot wins by guessing it |
| Game.GameManager.constructor | KaunWho/Game/GameManager.swift:13-27 | a new manager has no session and no players, plays the host role, waits for players, and has no turn and no winner |
| Game.GameManager.CreateGame | KaunWho/Game/GameManager.swift:41-51 | the role becomes host and the new player is both myPlayer and the host of a fresh waiting session; opponent, turn and winner are untouched; the transport starts hosting |
| Game.GameManager.JoinGame | KaunWho/Game/GameManager.swift:53-59 | the role becomes guest with a new player, nothing else changes, and the host peer is invited |
| Game.GameManager.UpdateGameState | KaunWho/Game/GameManager.swift:230-242 | without a session nothing happens; otherwise this device's slot takes myPlayer and the session is sent |
| Game.GameManager.AddPhoto | KaunWho/Game/GameManager.swift:63-71 | without a player nothing happens; otherwise exactly one new photo goes at the end, and the session slot and peer are updated |
| Game.GameManager.RemovePhoto | KaunWho/Game/GameManager.swift:73-80 | without a player nothing happens; otherwise every photo with that id is removed, the rest stay in order, and the session slot and peer are updated |
| Game.GameManager.StartGame | KaunWho/Game/GameManager.swift:84-123 | without a ready session nothing happens; otherwise the session becomes the started session (state `gameSetup`) while the manager's state is `playing`; the turn mirrors the session; myPlayer takes its role's face and the opponent the other slot; the session is sent |
| Game.GameManager.EliminatePhoto | KaunWho/Game/GameManager.swift:125-138 | unless the session is `playing` nothing happens; otherwise the board is eliminated at that id and a payload-less elimination message is sent |
| Game.GameManager.MakeGuess | KaunWho/Game/GameManager.swift:140-166 | without a session or player it returns false and changes nothing; otherwise it returns whether its own face has that id, sets the winner accordingly in session and manager, sets both states to `gameOver`, leaves the turn alone, and sends a payload-less game-over message |
| Game.GameManager.EndTurn | KaunWho/Game/GameManager.swift:168-179 | without a session nothing happens; otherwise the turn passes (no turn becomes host) in session and manager, and the session is sent |
| Game.GameManager.ResetGame | KaunWho/Game/GameManager.swift:181-191 | session, players, turn and winner are cleared, the state is waiting and the role is host; the transport disconnects |
| Game.GameManager.HandleReceivedMessage | KaunWho/Game/GameManager.swift:195-228 | the fields change exactly as Received describes |
| Game.GameManager.PollStep | KaunWho/Game/GameManager.swift:29-37 | a waiting message is handled as Received describes, and the inbound slot is empty afterwards with nothing else in the transport changed |

## Left out

- The MultipeerConnectivity framework is not modelled: the `MCSession`, the
  advertiser, the browser, encryption and delivery. What the code hands to it
  is recorded instead (`sent`, `invitations`). The session's own teardown in
  `disconnect()` has no recorded effect.
- The session object is created in `init` and never cleared, so the
  `guard let session` checks always pass and are not modelled as branches.
- `acceptInvitation(from:)` has no effect in the source and is not modelled.
- The stream and resource callbacks are empty in the source and are not modelled.
- `@unknown default` of `MCSessionState` has no counterpart here, because the
  model has exactly three session states.
- JSON is not modelled:
  - A payload is either an encoded session or bytes that fail to decode.
  - The catch paths of `sendMessage`/`sendGameState` are not modelled, since
    encoding these records is treated as always succeeding.
  - Decoding an incoming message is a parameter of `DidReceive`.
- `print` logging is not modelled.
- `DispatchQueue.main.async` and `Timer.scheduledTimer` are not modelled as
  concurrency. Each callback and each timer firing is one method call, and
  calls happen one at a time.
- The probabilities of `shuffled()`, `randomElement()` and `Bool.random()` are
  not modelled. Only which outcomes are possible is modelled.
- The published-property change notifications (`@Published`, `ObservableObject`)
  are not modelled. The SwiftUI views, the screen routing in `ContentView`,
  and the colours and haptics helpers are also left out.
- Game.GameManager.StartGame: requires that `shuffled` is a permutation of the
  pool. This stands for what `shuffled()` guarantees, not a demand the source
  makes of its callers.

## Findings

| source | as written | input that shows it | evidently intended | confidence | as-written member | corrected member |
|---|---|---|---|---|---|---|
| KaunWho/Game/GameManager.swift:95 | `startGame` stores `gameSetup` in the session, and `eliminatePhoto` (line 126) acts only on a session in `playing`, so no photo can ever be eliminated after a start | any ready session; start it, then eliminate any photo on the new board: the board is unchanged | the started session is in `playing`, the state the manager itself records at line 108 | high, not executed | Game.StartThenEliminateIsNoOp | Game.StartedSessionAsIntended (property: Game.IntendedStartThenEliminateMarksPhoto) |
| KaunWho/Game/GameManager.swift:206-211 | a received snapshot re-derives only `opponentPlayer`, so a guest's own `myPlayer` never gets the mystery face the snapshot assigns it, and `makeGuess` (line 143) judges every guest guess wrong | guest manager with a fresh player; receive a snapshot whose guest slot has mystery face F; guess F: returns false and the host wins | the snapshot also re-derives this device's own player, so guessing one's own face wins | high, not executed | Game.GuestLosesWithOwnFaceAfterSnapshot | Game.ReceivedAsIntended (property: Game.OwnFaceWinsAfterIntendedSnapshot) |

The `GameManager` class keeps the code as written in both places. Its
`StartGame` and `HandleReceivedMessage` are the as-written behaviour. The
corrected definitions stand beside the class, with their properties proved.
