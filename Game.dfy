/** The game controller: the session transforms behind each move, the
    application of messages received from the peer, and the `GameManager`
    object that keeps the observable copies of the session's fields and hands
    every change to the transport. */
module Game {
  import opened Models
  import opened Networking

  /** Number of photos put on the shared board. */
  const BoardSize: nat := 15

  function Min(a: nat, b: nat): nat {
    if a <= b then a else b
  }

  function Opposite(r: PlayerRole): (o: PlayerRole)
    ensures o != r
  {
    match r
    case Host => Guest
    case Guest => Host
  }

  /** The player a session holds for a role: the host always, the guest if any. */
  function Slot(s: GameSession, r: PlayerRole): Option<Player> {
    match r
    case Host => Some(s.hostPlayer)
    case Guest => s.guestPlayer
  }

  // ---------------------------------------------------------------------------
  // Photos

  /** `allPlayers.flatMap { $0.photos }` over a list of players. */
  function PhotosOf(players: seq<Player>): seq<GamePhoto> {
    if players == [] then [] else players[0].photos + PhotosOf(players[1..])
  }

  /** Every photo of the session's players: the host's, then the guest's. */
  function PhotoPool(s: GameSession): (r: seq<GamePhoto>)
    ensures r == s.hostPlayer.photos + (if s.guestPlayer.Some? then s.guestPlayer.value.photos else [])
  {
    var all := AllPlayers(s);
    assert PhotosOf(all) == s.hostPlayer.photos + PhotosOf(all[1..]);
    match s.guestPlayer
    case None =>
      assert all[1..] == [];
      PhotosOf(all)
    case Some(guest) =>
      assert all[1..] == [guest] && [guest][1..] == [];
      assert PhotosOf(all[1..]) == guest.photos + PhotosOf([]);
      PhotosOf(all)
  }

  /** A ready session pools at least sixteen photos. */
  lemma ReadyPoolSize(s: GameSession)
    requires IsReadyToStart(s)
    ensures |PhotoPool(s)| >= 2 * MinPhotosPerPlayer
  {
  }

  /** The photos of `s` whose id is not `id`, in their order. With `Some(x)` this
      is `removeAll { $0.id == x }`; with `None` (comparing to a missing id)
      every photo is kept, as `filter { $0.id != nil }` keeps them in Swift. */
  function ExceptId(s: seq<GamePhoto>, id: Option<Uuid>): (r: seq<GamePhoto>)
    ensures |r| <= |s|
    ensures forall p :: p in r ==> p in s && Some(p.id) != id
    ensures forall p :: p in s && Some(p.id) != id ==> p in r
  {
    if s == [] then []
    else if Some(s[0].id) == id then ExceptId(s[1..], id)
    else [s[0]] + ExceptId(s[1..], id)
  }

  /** Removing an id that no photo carries changes nothing. */
  lemma {:induction false} ExceptIdAbsent(s: seq<GamePhoto>, id: Option<Uuid>)
    requires forall i :: 0 <= i < |s| ==> Some(s[i].id) != id
    ensures ExceptId(s, id) == s
  {
    if s != [] {
      ExceptIdAbsent(s[1..], id);
      assert s == [s[0]] + s[1..];
    }
  }

  /** Removal distributes over concatenation, so the kept photos stay in order. */
  lemma {:induction false} ExceptIdAppend(a: seq<GamePhoto>, b: seq<GamePhoto>, id: Option<Uuid>)
    ensures ExceptId(a + b, id) == ExceptId(a, id) + ExceptId(b, id)
  {
    if a == [] {
      assert a + b == b;
    } else {
      var ab := a + b;
      assert ab[0] == a[0] && ab[1..] == a[1..] + b;
      ExceptIdAppend(a[1..], b, id);
      var tail := ExceptId(a[1..], id) + ExceptId(b, id);
      if Some(a[0].id) == id {
        calc {
          ExceptId(ab, id);
          ExceptId(ab[1..], id);
          tail;
        }
      } else {
        calc {
          ExceptId(ab, id);
          [a[0]] + ExceptId(ab[1..], id);
          [a[0]] + tail;
          ([a[0]] + ExceptId(a[1..], id)) + ExceptId(b, id);
        }
      }
    }
  }

  /** Adding a photo and removing it again gives the list back, when the new
      photo's id was not in use. */
  lemma AddThenRemovePhoto(photos: seq<GamePhoto>, p: GamePhoto)
    requires forall i :: 0 <= i < |photos| ==> photos[i].id != p.id
    ensures ExceptId(photos + [p], Some(p.id)) == photos
  {
    ExceptIdAppend(photos, [p], Some(p.id));
    ExceptIdAbsent(photos, Some(p.id));
    assert ExceptId([p], Some(p.id)) == [];
  }

  // ---------------------------------------------------------------------------
  // Starting a game

  predicate IsShuffleOf(shuffled: seq<GamePhoto>, pool: seq<GamePhoto>) {
    multiset(shuffled) == multiset(pool)
  }

  /** `Array(shuffled.prefix(15))` */
  function SelectBoard(shuffled: seq<GamePhoto>): (r: seq<GamePhoto>)
    ensures |r| == Min(|shuffled|, BoardSize)
    ensures forall p :: p in r ==> p in shuffled
  {
    shuffled[..Min(|shuffled|, BoardSize)]
  }

  /** `randomElement()`: `pick` stands for the random draw. */
  function RandomElement(s: seq<GamePhoto>, pick: nat): (r: Option<GamePhoto>)
    ensures r.Some? <==> |s| > 0
    ensures r.Some? ==> r.value in s
  {
    if |s| == 0 then None else Some(s[pick % |s|])
  }

  /** Every element can be the one drawn. */
  lemma EveryElementCanBeDrawn(s: seq<GamePhoto>, i: nat)
    requires i < |s|
    ensures RandomElement(s, i) == Some(s[i])
  {
  }

  function IdOf(p: Option<GamePhoto>): Option<Uuid> {
    match p
    case None => None
    case Some(photo) => Some(photo.id)
  }

  /** `selectedPhotos.randomElement()` */
  function HostMystery(board: seq<GamePhoto>, hostPick: nat): Option<GamePhoto> {
    RandomElement(board, hostPick)
  }

  /** `selectedPhotos.filter { $0.id != hostMystery?.id }.randomElement()` */
  function GuestMystery(board: seq<GamePhoto>, hostPick: nat, guestPick: nat): (r: Option<GamePhoto>)
    ensures r.Some? ==> r.value in board && IdOf(HostMystery(board, hostPick)) != Some(r.value.id)
  {
    RandomElement(ExceptId(board, IdOf(HostMystery(board, hostPick))), guestPick)
  }

  /** The session `startGame()` builds: the board, the two mystery faces, the
      first turn, and the state `gameSetup` (see ## Findings in README). */
  function StartedSession(game: GameSession, shuffled: seq<GamePhoto>, hostPick: nat, guestPick: nat, hostFirst: bool)
    : (r: GameSession)
    ensures r.id == game.id && r.createdAt == game.createdAt && r.winner == game.winner
    ensures r.gameState == GameSetup
    ensures r.sharedBoard == SelectBoard(shuffled)
    ensures r.currentTurn.Some?
    ensures r.hostPlayer == game.hostPlayer.(mysteryFace := r.hostPlayer.mysteryFace)
    ensures r.guestPlayer.Some? <==> game.guestPlayer.Some?
    ensures r.guestPlayer.Some? ==>
              r.guestPlayer.value == game.guestPlayer.value.(mysteryFace := r.guestPlayer.value.mysteryFace)
    ensures r.sharedBoard != [] ==> r.hostPlayer.mysteryFace.Some? && r.hostPlayer.mysteryFace.value in r.sharedBoard
    ensures r.guestPlayer.Some? && r.guestPlayer.value.mysteryFace.Some? ==>
              r.guestPlayer.value.mysteryFace.value in r.sharedBoard
              && r.hostPlayer.mysteryFace.Some?
              && r.guestPlayer.value.mysteryFace.value.id != r.hostPlayer.mysteryFace.value.id
  {
    var board := SelectBoard(shuffled);
    var hostMystery := HostMystery(board, hostPick);
    var guestMystery := GuestMystery(board, hostPick, guestPick);
    game.(sharedBoard := board,
          gameState := GameSetup,
          hostPlayer := game.hostPlayer.(mysteryFace := hostMystery),
          guestPlayer := if game.guestPlayer.Some? then Some(game.guestPlayer.value.(mysteryFace := guestMystery)) else None,
          currentTurn := Some(if hostFirst then Host else Guest))
  }

  /** The board holds min(pool size, 15) photos, all taken from the players. */
  lemma StartedBoardFromPool(game: GameSession, shuffled: seq<GamePhoto>, hostPick: nat, guestPick: nat, hostFirst: bool)
    requires IsShuffleOf(shuffled, PhotoPool(game))
    ensures var board := StartedSession(game, shuffled, hostPick, guestPick, hostFirst).sharedBoard;
            |board| == Min(|PhotoPool(game)|, BoardSize)
            && forall p :: p in board ==> p in PhotoPool(game)
  {
    var board := SelectBoard(shuffled);
    assert |shuffled| == |multiset(shuffled)| == |multiset(PhotoPool(game))| == |PhotoPool(game)|;
    forall p | p in board ensures p in PhotoPool(game) {
      assert p in multiset(shuffled);
    }
  }

  /** A ready game always gets a full board of fifteen photos. */
  lemma ReadyBoardIsFull(game: GameSession, shuffled: seq<GamePhoto>, hostPick: nat, guestPick: nat, hostFirst: bool)
    requires IsReadyToStart(game) && IsShuffleOf(shuffled, PhotoPool(game))
    ensures |StartedSession(game, shuffled, hostPick, guestPick, hostFirst).sharedBoard| == BoardSize
  {
    StartedBoardFromPool(game, shuffled, hostPick, guestPick, hostFirst);
    ReadyPoolSize(game);
  }

  /** When the board holds two photos with different ids, both players of a
      two-player game get a mystery face, and the two faces differ. */
  lemma MysteryFacesDiffer(game: GameSession, shuffled: seq<GamePhoto>, hostPick: nat, guestPick: nat, hostFirst: bool,
                           i: nat, j: nat)
    requires game.guestPlayer.Some?
    requires i < |SelectBoard(shuffled)| && j < |SelectBoard(shuffled)|
    requires SelectBoard(shuffled)[i].id != SelectBoard(shuffled)[j].id
    ensures var r := StartedSession(game, shuffled, hostPick, guestPick, hostFirst);
            && r.hostPlayer.mysteryFace.Some?
            && r.guestPlayer.Some? && r.guestPlayer.value.mysteryFace.Some?
            && r.hostPlayer.mysteryFace.value.id != r.guestPlayer.value.mysteryFace.value.id
  {
    var board := SelectBoard(shuffled);
    var hostId := IdOf(HostMystery(board, hostPick));
    var k := if Some(board[i].id) != hostId then i else j;
    assert board[k] in board;
    assert board[k] in ExceptId(board, hostId);
  }

  // ---------------------------------------------------------------------------
  // Eliminating a photo

  /** `sharedBoard.firstIndex(where: { $0.id == id })` */
  function FirstIndexWithId(board: seq<GamePhoto>, id: Uuid): (r: Option<nat>)
    ensures r.Some? ==> r.value < |board| && board[r.value].id == id
    ensures r.Some? ==> forall k :: 0 <= k < r.value ==> board[k].id != id
    ensures r.None? ==> forall k :: 0 <= k < |board| ==> board[k].id != id
  {
    if board == [] then None
    else if board[0].id == id then Some(0)
    else
      match FirstIndexWithId(board[1..], id)
      case None => None
      case Some(k) => Some(k + 1)
  }

  /** The board after `sharedBoard[index].isEliminated = true` at the first
      photo with that id. */
  function Eliminate(board: seq<GamePhoto>, id: Uuid): (r: seq<GamePhoto>)
    ensures |r| == |board|
    ensures forall k :: 0 <= k < |board| ==> r[k].id == board[k].id && r[k].imageData == board[k].imageData
    ensures forall k :: 0 <= k < |board| && Some(k) != FirstIndexWithId(board, id) ==> r[k] == board[k]
    ensures FirstIndexWithId(board, id).Some? ==> r[FirstIndexWithId(board, id).value].isEliminated
    ensures (forall k :: 0 <= k < |board| ==> board[k].id != id) ==> r == board
  {
    match FirstIndexWithId(board, id)
    case None => board
    case Some(i) => board[i := board[i].(isEliminated := true)]
  }

  /** Two boards with the same ids in the same places agree on the first index of any id. */
  lemma FirstIndexFollowsIds(a: seq<GamePhoto>, b: seq<GamePhoto>, id: Uuid)
    requires |a| == |b| && forall k :: 0 <= k < |a| ==> a[k].id == b[k].id
    ensures FirstIndexWithId(a, id) == FirstIndexWithId(b, id)
  {
  }

  /** Eliminating the same photo twice leaves the board as eliminating it once. */
  lemma EliminateIdempotent(board: seq<GamePhoto>, id: Uuid)
    ensures Eliminate(Eliminate(board, id), id) == Eliminate(board, id)
  {
    var once := Eliminate(board, id);
    FirstIndexFollowsIds(board, once, id);
  }

  /** Eliminations of two photos give the same board in either order, so two
      players' eliminations do not depend on the order they are applied in. */
  lemma EliminateCommutes(board: seq<GamePhoto>, a: Uuid, b: Uuid)
    ensures Eliminate(Eliminate(board, a), b) == Eliminate(Eliminate(board, b), a)
  {
    FirstIndexFollowsIds(board, Eliminate(board, a), b);
    FirstIndexFollowsIds(board, Eliminate(board, b), a);
  }

  /** The session part of `eliminatePhoto(_:)`: only a session that is
      `playing` has the photo marked. */
  function EliminatedSession(game: GameSession, id: Uuid): (r: GameSession)
    ensures game.gameState != Playing ==> r == game
    ensures r == game.(sharedBoard := r.sharedBoard)
    ensures game.gameState == Playing ==> r.sharedBoard == Eliminate(game.sharedBoard, id)
  {
    if game.gameState == Playing then game.(sharedBoard := Eliminate(game.sharedBoard, id)) else game
  }

  // ---------------------------------------------------------------------------
  // Guessing and turns

  /** `myPlayer.mysteryFace?.id == photo.id`: a missing face matches nothing. */
  predicate IsCorrectGuess(me: Player, id: Uuid) {
    IdOf(me.mysteryFace) == Some(id)
  }

  /** The winner a guess by `role` produces. */
  function GuessWinner(role: PlayerRole, correct: bool): (w: PlayerRole)
    ensures w == role <==> correct
    ensures w == Opposite(role) <==> !correct
  {
    if correct then role else Opposite(role)
  }

  /** The session after a guess: over, with the winner set, nothing else touched. */
  function GuessedSession(game: GameSession, role: PlayerRole, correct: bool): (r: GameSession)
    ensures r.gameState == GameOver && r.winner == Some(GuessWinner(role, correct))
    ensures r == game.(gameState := GameOver, winner := r.winner)
  {
    game.(winner := Some(GuessWinner(role, correct)), gameState := GameOver)
  }

  /** The turn after `endTurn()`: `currentTurn == .host ? .guest : .host`. */
  function NextTurn(t: Option<PlayerRole>): (r: PlayerRole)
    ensures t.Some? ==> r == Opposite(t.value)
    ensures t.None? ==> r == Host
  {
    if t == Some(Host) then Guest else Host
  }

  /** Ending the turn twice hands it back; from no turn it reaches the host, then the guest. */
  lemma EndTurnTwice(t: Option<PlayerRole>)
    ensures t.Some? ==> NextTurn(Some(NextTurn(t))) == t.value
    ensures t.None? ==> NextTurn(Some(NextTurn(t))) == Guest
  {
  }

  /** The session `updateGameState()` builds: the slot of this device's role
      takes `me` (the host slot keeps its player when `me` is missing). */
  function WithMyPlayer(game: GameSession, role: PlayerRole, me: Option<Player>): (r: GameSession)
    ensures me.Some? ==> Slot(r, role) == me
    ensures role == Guest ==> Slot(r, Guest) == me
    ensures role == Host && me.None? ==> r == game
    ensures Slot(r, Opposite(role)) == Slot(game, Opposite(role))
    ensures r == game.(hostPlayer := r.hostPlayer, guestPlayer := r.guestPlayer)
  {
    match role
    case Host => game.(hostPlayer := if me.Some? then me.value else game.hostPlayer)
    case Guest => game.(guestPlayer := me)
  }

  // ---------------------------------------------------------------------------
  // Messages from the peer

  /** The controller's observable fields, as one value. */
  datatype ManagerState = ManagerState(
    currentGame: Option<GameSession>,
    myRole: PlayerRole,
    myPlayer: Option<Player>,
    opponentPlayer: Option<Player>,
    gameState: GameState,
    currentTurn: Option<PlayerRole>,
    winner: Option<PlayerRole>)

  /** The session a message carries, if it is a state update whose payload decodes. */
  function Snapshot(m: GameMessage): Option<GameSession> {
    if m.kind == GameStateUpdate && m.data.Some? then DecodeSession(m.data.value) else None
  }

  /** `handleReceivedMessage(_:)` */
  function Received(v: ManagerState, m: GameMessage): (r: ManagerState)
    ensures Snapshot(m).Some? ==>
              var g := Snapshot(m).value;
              && r.currentGame == Some(g)
              && r.gameState == g.gameState && r.currentTurn == g.currentTurn && r.winner == g.winner
              && (v.myRole == Host ==> r.opponentPlayer == g.guestPlayer)
              && (v.myRole == Guest ==> r.opponentPlayer == Some(g.hostPlayer))
              && r.myRole == v.myRole && r.myPlayer == v.myPlayer
    ensures m.kind == GameStateUpdate && Snapshot(m).None? ==> r == v
    ensures m.kind == GameOverMessage ==> r == v.(gameState := GameOver)
    ensures m.kind != GameStateUpdate && m.kind != GameOverMessage ==> r == v
  {
    match m.kind
    case GameStateUpdate =>
      (match Snapshot(m)
       case None => v
       case Some(g) =>
         v.(currentGame := Some(g), gameState := g.gameState, currentTurn := g.currentTurn, winner := g.winner,
            opponentPlayer := Slot(g, Opposite(v.myRole))))
    case GameOverMessage => v.(gameState := GameOver)
    case _ => v
  }

  /** The last snapshot delivered decides the session: an earlier one leaves no trace. */
  lemma LastSnapshotWins(v: ManagerState, m1: GameMessage, m2: GameMessage)
    requires Snapshot(m1).Some? && Snapshot(m2).Some?
    ensures Received(Received(v, m1), m2) == Received(v, m2)
  {
  }

  /** Applying the same message twice is applying it once. */
  lemma ReceivedIdempotent(v: ManagerState, m: GameMessage)
    ensures Received(Received(v, m), m) == Received(v, m)
  {
  }

  // ---------------------------------------------------------------------------
  // Findings

  /** As written, `startGame()` leaves the session in `gameSetup` and
      `eliminatePhoto(_:)` acts only on a `playing` session, so no elimination
      ever reaches the board of a session that `startGame()` produced. */
  lemma StartThenEliminateIsNoOp(game: GameSession, shuffled: seq<GamePhoto>, hostPick: nat, guestPick: nat,
                                 hostFirst: bool, k: nat)
    requires k < |StartedSession(game, shuffled, hostPick, guestPick, hostFirst).sharedBoard|
    ensures var started := StartedSession(game, shuffled, hostPick, guestPick, hostFirst);
            var after := EliminatedSession(started, started.sharedBoard[k].id);
            after == started && after.sharedBoard[k].isEliminated == started.sharedBoard[k].isEliminated
  {
  }

  /** The session `startGame()` evidently means to build: the same board, faces
      and turn, in the state `playing`. */
  function StartedSessionAsIntended(game: GameSession, shuffled: seq<GamePhoto>, hostPick: nat, guestPick: nat,
                                    hostFirst: bool): (r: GameSession)
    ensures r.gameState == Playing
    ensures r == StartedSession(game, shuffled, hostPick, guestPick, hostFirst).(gameState := Playing)
  {
    StartedSession(game, shuffled, hostPick, guestPick, hostFirst).(gameState := Playing)
  }

  /** With the intended state, eliminating any photo of the new board marks the
      first photo with its id and nothing else. */
  lemma IntendedStartThenEliminateMarksPhoto(game: GameSession, shuffled: seq<GamePhoto>, hostPick: nat,
                                             guestPick: nat, hostFirst: bool, k: nat)
    requires k < |StartedSessionAsIntended(game, shuffled, hostPick, guestPick, hostFirst).sharedBoard|
    ensures var started := StartedSessionAsIntended(game, shuffled, hostPick, guestPick, hostFirst);
            var id := started.sharedBoard[k].id;
            var after := EliminatedSession(started, id).sharedBoard;
            && FirstIndexWithId(started.sharedBoard, id).Some?
            && FirstIndexWithId(started.sharedBoard, id).value <= k
            && after[FirstIndexWithId(started.sharedBoard, id).value].isEliminated
            && forall j :: 0 <= j < |after| && Some(j) != FirstIndexWithId(started.sharedBoard, id) ==> after[j] == started.sharedBoard[j]
  {
  }

  /** As written, a guest's own player never learns its mystery face: the
      snapshot's guest slot carries it, but `handleReceivedMessage(_:)` only
      re-derives the opponent, so the guest's guess of that face is judged wrong. */
  lemma GuestLosesWithOwnFaceAfterSnapshot(v: ManagerState, m: GameMessage, face: GamePhoto)
    requires v.myRole == Guest && v.myPlayer.Some? && v.myPlayer.value.mysteryFace == None
    requires Snapshot(m).Some? && Slot(Snapshot(m).value, Guest).Some?
    requires Slot(Snapshot(m).value, Guest).value.mysteryFace == Some(face)
    ensures var r := Received(v, m);
            r.currentGame.Some? && r.myPlayer.Some? && !IsCorrectGuess(r.myPlayer.value, face.id)
  {
  }

  /** `handleReceivedMessage(_:)` as evidently intended: a snapshot also
      re-derives this device's own mystery face from its slot. */
  function ReceivedAsIntended(v: ManagerState, m: GameMessage): (r: ManagerState)
    ensures r.(myPlayer := v.myPlayer) == Received(v, m)
    ensures Snapshot(m).Some? && v.myPlayer.Some? && Slot(Snapshot(m).value, v.myRole).Some? ==>
              r.myPlayer == Some(v.myPlayer.value.(mysteryFace := Slot(Snapshot(m).value, v.myRole).value.mysteryFace))
    ensures Snapshot(m).None? ==> r == Received(v, m)
  {
    var r := Received(v, m);
    match Snapshot(m)
    case Some(g) =>
      if v.myPlayer.Some? && Slot(g, v.myRole).Some?
      then r.(myPlayer := Some(v.myPlayer.value.(mysteryFace := Slot(g, v.myRole).value.mysteryFace)))
      else r
    case None => r
  }

  /** With the intended handling, whoever holds a mystery face in the snapshot
      wins by guessing it. */
  lemma OwnFaceWinsAfterIntendedSnapshot(v: ManagerState, m: GameMessage, face: GamePhoto)
    requires v.myPlayer.Some?
    requires Snapshot(m).Some? && Slot(Snapshot(m).value, v.myRole).Some?
    requires Slot(Snapshot(m).value, v.myRole).value.mysteryFace == Some(face)
    ensures var r := ReceivedAsIntended(v, m);
            r.currentGame.Some? && r.myPlayer.Some? && IsCorrectGuess(r.myPlayer.value, face.id)
            && GuessWinner(r.myRole, IsCorrectGuess(r.myPlayer.value, face.id)) == v.myRole
  {
  }

  // ---------------------------------------------------------------------------
  // The controller object

  /** `GameManager`. Every method updates the fields in place as the source
      does; `now` stands for `Date()`, fresh ids for `UUID()`. */
  class GameManager {
    var currentGame: Option<GameSession>
    var myRole: PlayerRole
    var myPlayer: Option<Player>
    var opponentPlayer: Option<Player>
    var gameState: GameState
    var currentTurn: Option<PlayerRole>
    var winner: Option<PlayerRole>
    const multipeer: MultipeerManager

    function Observed(): ManagerState
      reads this
    {
      ManagerState(currentGame, myRole, myPlayer, opponentPlayer, gameState, currentTurn, winner)
    }

    ghost predicate Valid()
      reads this, multipeer
    {
      multipeer.Valid()
    }

    /** `init(multipeerManager:)`; the polling timer it schedules is `PollStep`. */
    constructor (multipeer: MultipeerManager)
      requires multipeer.Valid()
      ensures Valid() && this.multipeer == multipeer
      ensures Observed() == ManagerState(None, Host, None, None, WaitingForPlayers, None, None)
    {
      this.multipeer := multipeer;
      currentGame := None;
      myRole := Host;
      myPlayer := None;
      opponentPlayer := None;
      gameState := WaitingForPlayers;
      currentTurn := None;
      winner := None;
    }

    /** `createGame(playerName:)` */
    method CreateGame(playerName: string, playerId: Uuid, sessionId: Uuid, now: Timestamp)
      requires Valid()
      modifies this, multipeer
      ensures Valid()
      ensures myRole == Host && myPlayer == Some(NewPlayer(playerId, playerName))
      ensures currentGame == Some(NewSession(sessionId, NewPlayer(playerId, playerName), now))
      ensures currentGame.value.hostPlayer == myPlayer.value
      ensures gameState == WaitingForPlayers
      ensures opponentPlayer == old(opponentPlayer) && currentTurn == old(currentTurn) && winner == old(winner)
      ensures multipeer.State() == HostingStarted(old(multipeer.State()))
    {
      var player := NewPlayer(playerId, playerName);
      myPlayer := Some(player);
      myRole := Host;
      var game := NewSession(sessionId, player, now);
      currentGame := Some(game);
      gameState := WaitingForPlayers;
      multipeer.StartHosting();
    }

    /** `joinGame(playerName:hostPeer:)` */
    method JoinGame(playerName: string, playerId: Uuid, hostPeer: PeerId)
      requires Valid()
      modifies this, multipeer
      ensures Valid()
      ensures Observed() == old(Observed()).(myRole := Guest, myPlayer := Some(NewPlayer(playerId, playerName)))
      ensures multipeer.State() == PeerInvited(old(multipeer.State()), hostPeer)
    {
      var player := NewPlayer(playerId, playerName);
      myPlayer := Some(player);
      myRole := Guest;
      multipeer.InvitePeer(hostPeer);
    }

    /** `updateGameState()`: writes this device's player into its slot of the
        session and sends the session. */
    method UpdateGameState(now: Timestamp)
      requires Valid()
      modifies this, multipeer
      ensures Valid()
      ensures old(currentGame).None? ==> Observed() == old(Observed()) && multipeer.State() == old(multipeer.State())
      ensures old(currentGame).Some? ==>
                var g := WithMyPlayer(old(currentGame).value, myRole, myPlayer);
                && Observed() == old(Observed()).(currentGame := Some(g))
                && multipeer.State() == MessageSent(old(multipeer.State()), GameStateMessage(g, now))
    {
      if currentGame.Some? {
        var updatedGame := currentGame.value;
        if myRole == Host {
          updatedGame := updatedGame.(hostPlayer := if myPlayer.Some? then myPlayer.value else updatedGame.hostPlayer);
        } else {
          updatedGame := updatedGame.(guestPlayer := myPlayer);
        }
        currentGame := Some(updatedGame);
        multipeer.SendGameState(updatedGame, now);
      }
    }

    /** `addPhoto(_:)`: without a player nothing happens; otherwise one new
        photo goes at the end of the player's photos. */
    method AddPhoto(imageData: Bytes, photoId: Uuid, now: Timestamp)
      requires Valid()
      modifies this, multipeer
      ensures Valid()
      ensures old(myPlayer).None? ==> Observed() == old(Observed()) && multipeer.State() == old(multipeer.State())
      ensures old(myPlayer).Some? ==>
                var me := old(myPlayer).value.(photos := old(myPlayer).value.photos + [NewPhoto(photoId, imageData)]);
                && myPlayer == Some(me)
                && currentGame == (if old(currentGame).Some? then Some(WithMyPlayer(old(currentGame).value, myRole, myPlayer)) else None)
                && myRole == old(myRole) && opponentPlayer == old(opponentPlayer) && gameState == old(gameState)
                && currentTurn == old(currentTurn) && winner == old(winner)
                && multipeer.State() == (if old(currentGame).Some?
                                         then MessageSent(old(multipeer.State()), GameStateMessage(currentGame.value, now))
                                         else old(multipeer.State()))
    {
      if myPlayer.Some? {
        var player := myPlayer.value;
        var photo := NewPhoto(photoId, imageData);
        player := player.(photos := player.photos + [photo]);
        myPlayer := Some(player);
        UpdateGameState(now);
      }
    }

    /** `removePhoto(_:)`: without a player nothing happens; otherwise every
        photo with that id goes, the rest stay in order. */
    method RemovePhoto(photoId: Uuid, now: Timestamp)
      requires Valid()
      modifies this, multipeer
      ensures Valid()
      ensures old(myPlayer).None? ==> Observed() == old(Observed()) && multipeer.State() == old(multipeer.State())
      ensures old(myPlayer).Some? ==>
                var me := old(myPlayer).value.(photos := ExceptId(old(myPlayer).value.photos, Some(photoId)));
                && myPlayer == Some(me)
                && currentGame == (if old(currentGame).Some? then Some(WithMyPlayer(old(currentGame).value, myRole, myPlayer)) else None)
                && myRole == old(myRole) && opponentPlayer == old(opponentPlayer) && gameState == old(gameState)
                && currentTurn == old(currentTurn) && winner == old(winner)
                && multipeer.State() == (if old(currentGame).Some?
                                         then MessageSent(old(multipeer.State()), GameStateMessage(currentGame.value, now))
                                         else old(multipeer.State()))
    {
      if myPlayer.Some? {
        var player := myPlayer.value;
        player := player.(photos := ExceptId(player.photos, Some(photoId)));
        myPlayer := Some(player);
        UpdateGameState(now);
      }
    }

    /** `startGame()`. `shuffled` is the pool after `shuffled()`, `hostPick`
        and `guestPick` the draws of `randomElement()`, `hostFirst` the coin
        of `Bool.random()`. */
    method StartGame(shuffled: seq<GamePhoto>, hostPick: nat, guestPick: nat, hostFirst: bool, now: Timestamp)
      requires Valid()
      requires currentGame.Some? ==> IsShuffleOf(shuffled, PhotoPool(currentGame.value))
      modifies this, multipeer
      ensures Valid()
      ensures old(currentGame).None? || !IsReadyToStart(old(currentGame).value) ==>
                Observed() == old(Observed()) && multipeer.State() == old(multipeer.State())
      ensures old(currentGame).Some? && IsReadyToStart(old(currentGame).value) ==>
                var g := StartedSession(old(currentGame).value, shuffled, hostPick, guestPick, hostFirst);
                var mine := Slot(g, myRole).value.mysteryFace;
                && currentGame == Some(g)
                && gameState == Playing && g.gameState == GameSetup
                && currentTurn == g.currentTurn
                && myPlayer == (if old(myPlayer).Some? then Some(old(myPlayer).value.(mysteryFace := mine)) else None)
                && opponentPlayer == Slot(g, Opposite(myRole))
                && myRole == old(myRole) && winner == old(winner)
                && multipeer.State() == MessageSent(old(multipeer.State()), GameStateMessage(g, now))
    {
      if currentGame.None? || !IsReadyToStart(currentGame.value) {
        return;
      }
      var game := currentGame.value;
      var selectedPhotos := SelectBoard(shuffled);

      var updatedGame := game;
      updatedGame := updatedGame.(sharedBoard := selectedPhotos);
      updatedGame := updatedGame.(gameState := GameSetup);

      var hostMystery := RandomElement(selectedPhotos, hostPick);
      var guestMystery := RandomElement(ExceptId(selectedPhotos, IdOf(hostMystery)), guestPick);

      updatedGame := updatedGame.(hostPlayer := updatedGame.hostPlayer.(mysteryFace := hostMystery));
      if updatedGame.guestPlayer.Some? {
        updatedGame := updatedGame.(guestPlayer := Some(updatedGame.guestPlayer.value.(mysteryFace := guestMystery)));
      }

      updatedGame := updatedGame.(currentTurn := Some(if hostFirst then Host else Guest));

      currentGame := Some(updatedGame);
      gameState := Playing;

      if myRole == Host {
        if myPlayer.Some? {
          myPlayer := Some(myPlayer.value.(mysteryFace := hostMystery));
        }
        opponentPlayer := updatedGame.guestPlayer;
      } else {
        if myPlayer.Some? {
          myPlayer := Some(myPlayer.value.(mysteryFace := guestMystery));
        }
        opponentPlayer := Some(updatedGame.hostPlayer);
      }

      currentTurn := updatedGame.currentTurn;
      multipeer.SendGameState(updatedGame, now);
    }

    /** `eliminatePhoto(_:)`: only while the session is `playing`; the message
        sent carries no payload. */
    method EliminatePhoto(photoId: Uuid, now: Timestamp)
      requires Valid()
      modifies this, multipeer
      ensures Valid()
      ensures old(currentGame).None? || old(currentGame).value.gameState != Playing ==>
                Observed() == old(Observed()) && multipeer.State() == old(multipeer.State())
      ensures old(currentGame).Some? && old(currentGame).value.gameState == Playing ==>
                && Observed() == old(Observed()).(currentGame := Some(EliminatedSession(old(currentGame).value, photoId)))
                && multipeer.State() == MessageSent(old(multipeer.State()), GameMessage(EliminationUpdate, None, now))
    {
      if currentGame.None? || currentGame.value.gameState != Playing {
        return;
      }
      var updatedGame := currentGame.value;
      var index := FirstIndexWithId(updatedGame.sharedBoard, photoId);
      if index.Some? {
        var board := updatedGame.sharedBoard;
        updatedGame := updatedGame.(sharedBoard := board[index.value := board[index.value].(isEliminated := true)]);
      }
      currentGame := Some(updatedGame);
      multipeer.SendMessage(GameMessage(EliminationUpdate, None, now));
    }

    /** `makeGuess(_:)`: correct exactly when this device's own mystery face
        has the guessed id; either way the game is over. */
    method MakeGuess(photoId: Uuid, now: Timestamp) returns (isCorrect: bool)
      requires Valid()
      modifies this, multipeer
      ensures Valid()
      ensures old(currentGame).None? || old(myPlayer).None? ==>
                !isCorrect && Observed() == old(Observed()) && multipeer.State() == old(multipeer.State())
      ensures old(currentGame).Some? && old(myPlayer).Some? ==>
                && isCorrect == IsCorrectGuess(old(myPlayer).value, photoId)
                && Observed() == old(Observed()).(currentGame := Some(GuessedSession(old(currentGame).value, myRole, isCorrect)),
                                                  winner := Some(GuessWinner(myRole, isCorrect)),
                                                  gameState := GameOver)
                && multipeer.State() == MessageSent(old(multipeer.State()), GameMessage(GameOverMessage, None, now))
    {
      if currentGame.None? || myPlayer.None? {
        return false;
      }
      var game := currentGame.value;
      isCorrect := IdOf(myPlayer.value.mysteryFace) == Some(photoId);

      var updatedGame := game;
      if isCorrect {
        updatedGame := updatedGame.(winner := Some(myRole), gameState := GameOver);
        winner := Some(myRole);
        gameState := GameOver;
      } else {
        updatedGame := updatedGame.(winner := Some(if myRole == Host then Guest else Host), gameState := GameOver);
        winner := updatedGame.winner;
        gameState := GameOver;
      }

      currentGame := Some(updatedGame);
      multipeer.SendMessage(GameMessage(GameOverMessage, None, now));
    }

    /** `endTurn()` */
    method EndTurn(now: Timestamp)
      requires Valid()
      modifies this, multipeer
      ensures Valid()
      ensures old(currentGame).None? ==> Observed() == old(Observed()) && multipeer.State() == old(multipeer.State())
      ensures old(currentGame).Some? ==>
                var turn := Some(NextTurn(old(currentGame).value.currentTurn));
                var g := old(currentGame).value.(currentTurn := turn);
                && Observed() == old(Observed()).(currentGame := Some(g), currentTurn := turn)
                && multipeer.State() == MessageSent(old(multipeer.State()), GameStateMessage(g, now))
    {
      if currentGame.None? {
        return;
      }
      var game := currentGame.value;
      var updatedGame := game.(currentTurn := Some(if game.currentTurn == Some(Host) then Guest else Host));
      currentTurn := updatedGame.currentTurn;
      currentGame := Some(updatedGame);
      multipeer.SendGameState(updatedGame, now);
    }

    /** `resetGame()` */
    method ResetGame()
      requires Valid()
      modifies this, multipeer
      ensures Valid()
      ensures Observed() == ManagerState(None, Host, None, None, WaitingForPlayers, None, None)
      ensures multipeer.State() == Disconnected(old(multipeer.State()))
    {
      currentGame := None;
      myPlayer := None;
      opponentPlayer := None;
      gameState := WaitingForPlayers;
      currentTurn := None;
      winner := None;
      myRole := Host;
      multipeer.Disconnect();
    }

    /** `handleReceivedMessage(_:)` */
    method HandleReceivedMessage(m: GameMessage)
      requires Valid()
      modifies this
      ensures Valid()
      ensures Observed() == Received(old(Observed()), m)
    {
      match m.kind
      case GameStateUpdate =>
        if m.data.Some? {
          var decoded := DecodeSession(m.data.value);
          if decoded.Some? {
            var game := decoded.value;
            currentGame := Some(game);
            gameState := game.gameState;
            currentTurn := game.currentTurn;
            winner := game.winner;
            if myRole == Host {
              opponentPlayer := game.guestPlayer;
            } else {
              opponentPlayer := Some(game.hostPlayer);
            }
          }
        }
      case EliminationUpdate =>
      case GameOverMessage =>
        gameState := GameOver;
      case _ =>
    }

    /** One firing of the 0.1-second polling timer: a waiting message is
        handled and the slot is emptied. */
    method PollStep()
      requires Valid()
      modifies this, multipeer
      ensures Valid()
      ensures old(multipeer.receivedMessage).None? ==> Observed() == old(Observed())
      ensures old(multipeer.receivedMessage).Some? ==>
                Observed() == Received(old(Observed()), old(multipeer.receivedMessage).value)
      ensures multipeer.receivedMessage == None
      ensures multipeer.State() == old(multipeer.State()).(receivedMessage := None)
    {
      if multipeer.receivedMessage.Some? {
        HandleReceivedMessage(multipeer.receivedMessage.value);
        multipeer.receivedMessage := None;
      }
    }
  }
}
