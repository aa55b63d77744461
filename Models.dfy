/** The game's value types: players, photos, the shared session record, the
    raw-value enums carried on the wire, and the photo-selection countdown. */
module Models {

  datatype Option<T> = None | Some(value: T)

  /** A UUID. The game only ever compares ids, so any value with equality will do. */
  datatype Uuid = Uuid(bits: nat)

  /** A `Date`; stored and sent, never interpreted. */
  type Timestamp = int

  /** Raw image bytes (`Data`). */
  type Bytes = seq<bv8>

  /** Number of photos each player must select before the game can start. */
  const MinPhotosPerPlayer: nat := 8

  /** Length of the countdown shown while photos are being selected. */
  const SelectionSeconds: nat := 60

  datatype GamePhoto = GamePhoto(id: Uuid, imageData: Bytes, isEliminated: bool)

  datatype Player = Player(id: Uuid, name: string, photos: seq<GamePhoto>, mysteryFace: Option<GamePhoto>)

  datatype GameState = WaitingForPlayers | PhotoSelection | GameSetup | Playing | GameOver

  datatype PlayerRole = Host | Guest

  datatype GameSession = GameSession(
    id: Uuid,
    hostPlayer: Player,
    guestPlayer: Option<Player>,
    gameState: GameState,
    sharedBoard: seq<GamePhoto>,
    currentTurn: Option<PlayerRole>,
    winner: Option<PlayerRole>,
    createdAt: Timestamp)

  datatype MessageType =
    | JoinRequest | JoinAccepted | JoinRejected | GameStateUpdate
    | PhotoUpdate | EliminationUpdate | GuessAttempt | GameOverMessage

  /** The `data` of a message. JSON is not modelled: a payload is either the
      encoding of a session or bytes that do not decode as one. */
  datatype Payload = EncodedSession(session: GameSession) | Undecodable(bytes: Bytes)

  datatype GameMessage = GameMessage(kind: MessageType, data: Option<Payload>, timestamp: Timestamp)

  // ---------------------------------------------------------------------------
  // Initialisers

  /** `Player(name:)`: a fresh id, the given name, no photos, no mystery face. */
  function NewPlayer(id: Uuid, name: string): (p: Player)
    ensures p.id == id && p.name == name
    ensures p.photos == [] && p.mysteryFace == None
  {
    Player(id, name, [], None)
  }

  /** `GamePhoto(imageData:)`: a fresh id and a photo that is not eliminated. */
  function NewPhoto(id: Uuid, imageData: Bytes): (p: GamePhoto)
    ensures p.id == id && p.imageData == imageData
    ensures !p.isEliminated
  {
    GamePhoto(id, imageData, false)
  }

  /** `GameSession(hostPlayer:)`: only a host, waiting for players, nothing on the board. */
  function NewSession(id: Uuid, host: Player, createdAt: Timestamp): (s: GameSession)
    ensures s.id == id && s.hostPlayer == host && s.createdAt == createdAt
    ensures s.guestPlayer == None && s.gameState == WaitingForPlayers
    ensures s.sharedBoard == [] && s.currentTurn == None && s.winner == None
  {
    GameSession(id, host, None, WaitingForPlayers, [], None, None, createdAt)
  }

  // ---------------------------------------------------------------------------
  // Derived session properties

  /** `allPlayers`: the host, followed by the guest when there is one. */
  function AllPlayers(s: GameSession): (r: seq<Player>)
    ensures 1 <= |r| <= 2 && r[0] == s.hostPlayer
    ensures |r| == 2 <==> s.guestPlayer.Some?
    ensures s.guestPlayer.Some? ==> r[1] == s.guestPlayer.value
  {
    match s.guestPlayer
    case None => [s.hostPlayer]
    case Some(guest) => [s.hostPlayer, guest]
  }

  /** `guestPlayer?.photos.count ?? 0` */
  function GuestPhotoCount(s: GameSession): nat {
    match s.guestPlayer
    case None => 0
    case Some(guest) => |guest.photos|
  }

  /** `isReadyToStart`, written as the source's three conjuncts. */
  predicate IsReadyToStart(s: GameSession) {
    s.guestPlayer.Some?
    && |s.hostPlayer.photos| >= MinPhotosPerPlayer
    && GuestPhotoCount(s) >= MinPhotosPerPlayer
  }

  /** A session is ready exactly when it has two players and every player has
      at least eight photos. */
  lemma ReadyIffTwoPlayersWithEnoughPhotos(s: GameSession)
    ensures IsReadyToStart(s) <==>
              |AllPlayers(s)| == 2
              && forall i :: 0 <= i < |AllPlayers(s)| ==> |AllPlayers(s)[i].photos| >= MinPhotosPerPlayer
  {
    var all := AllPlayers(s);
    if IsReadyToStart(s) {
      assert all == [s.hostPlayer, s.guestPlayer.value];
    } else if |all| == 2 {
      assert all[1] == s.guestPlayer.value;
      assert |all[0].photos| < MinPhotosPerPlayer || |all[1].photos| < MinPhotosPerPlayer;
    }
  }

  // ---------------------------------------------------------------------------
  // Raw values of the string-backed enums

  function GameStateRaw(g: GameState): string {
    match g
    case WaitingForPlayers => "waiting"
    case PhotoSelection => "photos"
    case GameSetup => "setup"
    case Playing => "playing"
    case GameOver => "over"
  }

  /** `GameState(rawValue:)` */
  function GameStateFromRaw(raw: string): (r: Option<GameState>)
    ensures r.Some? ==> GameStateRaw(r.value) == raw
  {
    if raw == "waiting" then Some(WaitingForPlayers)
    else if raw == "photos" then Some(PhotoSelection)
    else if raw == "setup" then Some(GameSetup)
    else if raw == "playing" then Some(Playing)
    else if raw == "over" then Some(GameOver)
    else None
  }

  /** Decoding the raw value of a state gives the state back, so no two states share a raw value. */
  lemma GameStateRawRoundTrip(g: GameState, h: GameState)
    ensures GameStateFromRaw(GameStateRaw(g)) == Some(g)
    ensures GameStateRaw(g) == GameStateRaw(h) ==> g == h
  {
  }

  function PlayerRoleRaw(r: PlayerRole): string {
    match r
    case Host => "host"
    case Guest => "guest"
  }

  /** `PlayerRole(rawValue:)` */
  function PlayerRoleFromRaw(raw: string): (r: Option<PlayerRole>)
    ensures r.Some? ==> PlayerRoleRaw(r.value) == raw
  {
    if raw == "host" then Some(Host)
    else if raw == "guest" then Some(Guest)
    else None
  }

  lemma PlayerRoleRawRoundTrip(r: PlayerRole, q: PlayerRole)
    ensures PlayerRoleFromRaw(PlayerRoleRaw(r)) == Some(r)
    ensures PlayerRoleRaw(r) == PlayerRoleRaw(q) ==> r == q
  {
  }

  function MessageTypeRaw(t: MessageType): string {
    match t
    case JoinRequest => "join_request"
    case JoinAccepted => "join_accepted"
    case JoinRejected => "join_rejected"
    case GameStateUpdate => "game_state"
    case PhotoUpdate => "photo_update"
    case EliminationUpdate => "elimination"
    case GuessAttempt => "guess"
    case GameOverMessage => "game_over"
  }

  /** `GameMessage.MessageType(rawValue:)` */
  function MessageTypeFromRaw(raw: string): (r: Option<MessageType>)
    ensures r.Some? ==> MessageTypeRaw(r.value) == raw
  {
    if raw == "join_request" then Some(JoinRequest)
    else if raw == "join_accepted" then Some(JoinAccepted)
    else if raw == "join_rejected" then Some(JoinRejected)
    else if raw == "game_state" then Some(GameStateUpdate)
    else if raw == "photo_update" then Some(PhotoUpdate)
    else if raw == "elimination" then Some(EliminationUpdate)
    else if raw == "guess" then Some(GuessAttempt)
    else if raw == "game_over" then Some(GameOverMessage)
    else None
  }

  lemma MessageTypeRawRoundTrip(t: MessageType, u: MessageType)
    ensures MessageTypeFromRaw(MessageTypeRaw(t)) == Some(t)
    ensures MessageTypeRaw(t) == MessageTypeRaw(u) ==> t == u
  {
  }

  // ---------------------------------------------------------------------------
  // Session payloads

  /** `JSONEncoder().encode(gameSession)` */
  function EncodeSession(s: GameSession): (p: Payload)
    ensures DecodeSession(p) == Some(s)
  {
    EncodedSession(s)
  }

  /** `try? JSONDecoder().decode(GameSession.self, from: data)` */
  function DecodeSession(p: Payload): Option<GameSession> {
    match p
    case EncodedSession(s) => Some(s)
    case Undecodable(_) => None
  }

  // ---------------------------------------------------------------------------
  // Countdown text: `String(format: "%d:%02d", t / 60, t % 60)`

  predicate IsDigit(c: char) {
    '0' <= c <= '9'
  }

  function DigitChar(d: nat): (c: char)
    requires d < 10
    ensures IsDigit(c)
  {
    (48 + d) as char
  }

  function DigitValue(c: char): nat
    requires IsDigit(c)
  {
    (c as int) - 48
  }

  /** `%d` of a non-negative number. */
  function Decimal(n: nat): (r: string)
    ensures |r| >= 1 && forall i :: 0 <= i < |r| ==> IsDigit(r[i])
    ensures n < 10 <==> |r| == 1
  {
    if n < 10 then [DigitChar(n)] else Decimal(n / 10) + [DigitChar(n % 10)]
  }

  /** `%02d`: a single digit gets a leading zero. */
  function ZeroPadded2(n: nat): (r: string)
    ensures |r| >= 2 && forall i :: 0 <= i < |r| ==> IsDigit(r[i])
    ensures n < 100 ==> |r| == 2
  {
    var d := Decimal(n);
    if |d| == 1 then "0" + d else d
  }

  /** The value of a string of digits, most significant first. */
  function DigitsValue(s: string): nat
    requires forall i :: 0 <= i < |s| ==> IsDigit(s[i])
  {
    if s == [] then 0 else DigitsValue(s[..|s| - 1]) * 10 + DigitValue(s[|s| - 1])
  }

  lemma {:induction false} DecimalValue(n: nat)
    ensures DigitsValue(Decimal(n)) == n
  {
    var d := Decimal(n);
    if n >= 10 {
      DecimalValue(n / 10);
      assert d[..|d| - 1] == Decimal(n / 10);
    } else {
      assert d[..0] == [];
    }
  }

  lemma ZeroPadded2Value(n: nat)
    ensures DigitsValue(ZeroPadded2(n)) == n
  {
    var d := Decimal(n);
    DecimalValue(n);
    if |d| == 1 {
      var z := "0" + d;
      assert z[..1] == "0";
      assert z[..0] == [];
    }
  }

  /** The text of the countdown. */
  function ClockText(t: nat): (r: string)
    ensures |r| >= 4 && r[|r| - 3] == ':'
  {
    Decimal(t / 60) + ":" + ZeroPadded2(t % 60)
  }

  /** Reads back `m:ss` text; the inverse of ClockText. */
  function ParseClockText(s: string): Option<nat> {
    if |s| >= 4 && s[|s| - 3] == ':'
       && (forall i :: 0 <= i < |s| - 3 ==> IsDigit(s[i]))
       && IsDigit(s[|s| - 2]) && IsDigit(s[|s| - 1])
    then
      var seconds := DigitValue(s[|s| - 2]) * 10 + DigitValue(s[|s| - 1]);
      if seconds < 60 then Some(DigitsValue(s[..|s| - 3]) * 60 + seconds) else None
    else None
  }

  /** Reading the countdown text gives back the number of seconds: the minutes
      before the colon and the seconds, always two digits, after it. */
  lemma ClockTextRoundTrip(t: nat)
    ensures ParseClockText(ClockText(t)) == Some(t)
  {
    var minutes, secs := Decimal(t / 60), ZeroPadded2(t % 60);
    var s := ClockText(t);
    assert s == minutes + ":" + secs;
    assert s[..|s| - 3] == minutes;
    DecimalValue(t / 60);
    ZeroPadded2Value(t % 60);
    assert secs == s[|s| - 2..];
    assert secs[..1] == [secs[0]];
    assert secs[..0] == [];
    assert DigitsValue(secs) == DigitValue(secs[0]) * 10 + DigitValue(secs[1]);
  }

  /** The countdown text on two sample values. */
  lemma ClockTextExamples()
    ensures ClockText(60) == "1:00"
    ensures ClockText(9) == "0:09"
    ensures ClockText(0) == "0:00"
  {
    assert Decimal(1) == "1";
    assert Decimal(0) == "0";
    assert Decimal(9) == "9";
  }

  // ---------------------------------------------------------------------------
  // PhotoSelectionTimer

  /** The photo-selection countdown. Every `start()` schedules a new repeating
      one-second timer and keeps a handle to it in `timer`; `stop()` invalidates
      only the timer that handle names. Timers are numbered by `nextHandle`;
      `liveTimers` are those scheduled and not yet invalidated, each of which
      runs the tick closure once a second. */
  class PhotoSelectionTimer {
    var timeRemaining: int
    var isActive: bool
    var timer: Option<nat>
    var liveTimers: set<nat>
    var nextHandle: nat

    ghost predicate Valid()
      reads this
    {
      && 0 <= timeRemaining <= SelectionSeconds
      && (isActive <==> timer.Some?)
      && (timer.Some? ==> timer.value in liveTimers)
      && (forall h :: h in liveTimers ==> h < nextHandle)
    }

    constructor ()
      ensures Valid()
      ensures timeRemaining == SelectionSeconds && !isActive
      ensures timer == None && liveTimers == {}
    {
      timeRemaining := SelectionSeconds;
      isActive := false;
      timer := None;
      liveTimers := {};
      nextHandle := 0;
    }

    /** `start()`: resets the countdown and schedules a new timer. A timer
        scheduled by an earlier `start()` is not invalidated and keeps ticking. */
    method Start()
      requires Valid()
      modifies this
      ensures Valid()
      ensures timeRemaining == SelectionSeconds && isActive
      ensures timer == Some(old(nextHandle)) && old(nextHandle) !in old(liveTimers)
      ensures liveTimers == old(liveTimers) + {old(nextHandle)}
    {
      timeRemaining := SelectionSeconds;
      isActive := true;
      var handle := nextHandle;
      nextHandle := nextHandle + 1;
      timer := Some(handle);
      liveTimers := liveTimers + {handle};
    }

    /** `stop()`: invalidates the timer held in `timer`, drops it, deactivates. */
    method Stop()
      requires Valid()
      modifies this
      ensures Valid()
      ensures !isActive && timer == None
      ensures liveTimers == if old(timer).Some? then old(liveTimers) - {old(timer).value} else old(liveTimers)
      ensures timeRemaining == old(timeRemaining)
    {
      if timer.Some? {
        liveTimers := liveTimers - {timer.value};
      }
      timer := None;
      isActive := false;
    }

    /** The tick closure, run when the timer with handle `h` fires. An
        invalidated timer does not fire. */
    method Tick(h: nat)
      requires Valid()
      modifies this
      ensures Valid()
      ensures h !in old(liveTimers) ==>
                timeRemaining == old(timeRemaining) && isActive == old(isActive)
                && timer == old(timer) && liveTimers == old(liveTimers)
      ensures h in old(liveTimers) && old(timeRemaining) > 0 ==>
                timeRemaining == old(timeRemaining) - 1 && isActive == old(isActive)
                && timer == old(timer) && liveTimers == old(liveTimers)
      ensures h in old(liveTimers) && old(timeRemaining) == 0 ==>
                timeRemaining == 0 && !isActive && timer == None
                && liveTimers == (if old(timer).Some? then old(liveTimers) - {old(timer).value} else old(liveTimers))
    {
      if h in liveTimers {
        if timeRemaining > 0 {
          timeRemaining := timeRemaining - 1;
        } else {
          Stop();
        }
      }
    }

    /** `timeString` */
    function TimeString(): (r: string)
      requires Valid()
      reads this
      ensures ParseClockText(r) == Some(timeRemaining)
    {
      ClockTextRoundTrip(timeRemaining);
      ClockText(timeRemaining)
    }
  }
}
