/** The peer transport's bookkeeping: which peers have been discovered, which
    are connected, whether this device advertises or browses, and the messages
    it hands to the session. The MultipeerConnectivity framework itself (the
    session, advertiser and browser objects) is reduced to flags and a record
    of what was handed to it. */
module Networking {
  import opened Models

  /** An `MCPeerID`; only compared for equality. */
  datatype PeerId = PeerId(handle: nat)

  /** `MCSessionState` */
  datatype SessionState = NotConnected | Connecting | Connected

  /** Service name under which peers advertise and browse. */
  const ServiceType: string := "kaunwho-game"

  /** Seconds an invitation sent by the browser stays open. */
  const InviteTimeout: nat := 30

  /** One `session.send(data, toPeers:, with: .reliable)` call. */
  datatype Transmission = Transmission(message: GameMessage, peers: seq<PeerId>)

  /** One `browser.invitePeer(_, to:, withContext: nil, timeout:)` call. */
  datatype Invitation = Invitation(peer: PeerId, timeout: nat)

  /** Every field of the transport, as one value. `advertising` and `browsing`
      say whether an advertiser and a browser object exist. */
  datatype TransportState = TransportState(
    isHosting: bool,
    isConnected: bool,
    connectedPeers: seq<PeerId>,
    discoveredPeers: seq<PeerId>,
    receivedMessage: Option<GameMessage>,
    advertising: bool,
    browsing: bool,
    sent: seq<Transmission>,
    invitations: seq<Invitation>)

  predicate NoDuplicates<T(==)>(s: seq<T>) {
    forall i, j :: 0 <= i < j < |s| ==> s[i] != s[j]
  }

  /** The transport's invariant: the connected flag reflects the connected
      list, neither list repeats a peer, and hosting means advertising. */
  predicate Consistent(t: TransportState) {
    && t.isConnected == (|t.connectedPeers| > 0)
    && NoDuplicates(t.connectedPeers)
    && NoDuplicates(t.discoveredPeers)
    && t.isHosting == t.advertising
  }

  // ---------------------------------------------------------------------------
  // List maintenance

  /** `if !list.contains(x) { list.append(x) }` */
  function AppendIfAbsent(s: seq<PeerId>, x: PeerId): (r: seq<PeerId>)
    ensures x in r
    ensures forall y :: y in r <==> y in s || y == x
    ensures NoDuplicates(s) ==> NoDuplicates(r)
    ensures |s| <= |r| <= |s| + 1 && r[..|s|] == s
  {
    if x in s then s else s + [x]
  }

  /** `list.removeAll { $0 == x }` */
  function RemoveAll(s: seq<PeerId>, x: PeerId): (r: seq<PeerId>)
    ensures x !in r
    ensures forall y :: y != x ==> (y in r <==> y in s)
    ensures |r| <= |s|
    ensures NoDuplicates(s) ==> NoDuplicates(r)
  {
    if s == [] then []
    else if s[0] == x then RemoveAll(s[1..], x)
    else
      var rest := RemoveAll(s[1..], x);
      assert NoDuplicates(s) ==> s[0] !in s[1..] && NoDuplicates(s[1..]);
      assert s[0] !in s[1..] ==> s[0] !in rest;
      [s[0]] + rest
  }

  /** Removing an element that is not there leaves the list as it was. */
  lemma {:induction false} RemoveAllAbsent(s: seq<PeerId>, x: PeerId)
    requires x !in s
    ensures RemoveAll(s, x) == s
  {
    if s != [] {
      RemoveAllAbsent(s[1..], x);
      assert s == [s[0]] + s[1..];
    }
  }

  /** In a list without duplicates, removing a peer cuts out exactly its one
      position and keeps every other peer in order. */
  lemma {:induction false} RemoveAllUnique(s: seq<PeerId>, x: PeerId, k: nat)
    requires NoDuplicates(s) && k < |s| && s[k] == x
    ensures RemoveAll(s, x) == s[..k] + s[k + 1..]
  {
    if k == 0 {
      assert x !in s[1..];
      RemoveAllAbsent(s[1..], x);
    } else {
      assert NoDuplicates(s[1..]);
      RemoveAllUnique(s[1..], x, k - 1);
      assert s[1..][..k - 1] == s[1..k];
      assert s[1..][k..] == s[k + 1..];
      assert [s[0]] + s[1..k] == s[..k];
    }
  }

  /** Removal distributes over concatenation, so what survives keeps its order. */
  lemma {:induction false} RemoveAllAppend(a: seq<PeerId>, b: seq<PeerId>, x: PeerId)
    ensures RemoveAll(a + b, x) == RemoveAll(a, x) + RemoveAll(b, x)
  {
    if a != [] {
      RemoveAllAppend(a[1..], b, x);
      assert (a + b)[1..] == a[1..] + b;
    } else {
      assert a + b == b;
    }
  }

  // ---------------------------------------------------------------------------
  // Transitions

  /** The initial transport: nothing hosted, browsed, connected, received or sent. */
  function InitialTransport(): (t: TransportState)
    ensures Consistent(t)
    ensures !t.isHosting && !t.isConnected && !t.advertising && !t.browsing
    ensures t.connectedPeers == [] && t.discoveredPeers == [] && t.receivedMessage == None
  {
    TransportState(false, false, [], [], None, false, false, [], [])
  }

  /** `startHosting()` */
  function HostingStarted(t: TransportState): (r: TransportState)
    requires Consistent(t)
    ensures Consistent(r)
    ensures r.isHosting && r.advertising
  {
    t.(advertising := true, isHosting := true)
  }

  /** `stopHosting()` */
  function HostingStopped(t: TransportState): (r: TransportState)
    requires Consistent(t)
    ensures Consistent(r)
    ensures !r.isHosting && !r.advertising
  {
    t.(advertising := false, isHosting := false)
  }

  /** `startBrowsing()` */
  function BrowsingStarted(t: TransportState): (r: TransportState)
    requires Consistent(t)
    ensures Consistent(r)
    ensures r.browsing && r.discoveredPeers == t.discoveredPeers
  {
    t.(browsing := true)
  }

  /** `stopBrowsing()`: drops the browser and forgets every discovered peer. */
  function BrowsingStopped(t: TransportState): (r: TransportState)
    requires Consistent(t)
    ensures Consistent(r)
    ensures !r.browsing && r.discoveredPeers == []
    ensures r.connectedPeers == t.connectedPeers && r.isHosting == t.isHosting
  {
    t.(browsing := false, discoveredPeers := [])
  }

  /** `invitePeer(_:)`: only a browsing transport sends an invitation. */
  function PeerInvited(t: TransportState, p: PeerId): (r: TransportState)
    requires Consistent(t)
    ensures Consistent(r)
    ensures !t.browsing ==> r == t
    ensures t.browsing ==> r.invitations == t.invitations + [Invitation(p, InviteTimeout)]
    ensures r.connectedPeers == t.connectedPeers && r.discoveredPeers == t.discoveredPeers
  {
    if t.browsing then t.(invitations := t.invitations + [Invitation(p, InviteTimeout)]) else t
  }

  /** `disconnect()`: from any state, nothing is hosted, browsed or connected
      afterwards and both peer lists are empty. */
  function Disconnected(t: TransportState): (r: TransportState)
    ensures Consistent(r)
    ensures !r.isConnected && !r.isHosting && !r.advertising && !r.browsing
    ensures r.connectedPeers == [] && r.discoveredPeers == []
    ensures r.receivedMessage == t.receivedMessage && r.sent == t.sent
  {
    t.(advertising := false, isHosting := false,
       browsing := false, discoveredPeers := [],
       isConnected := false, connectedPeers := [])
  }

  /** `sendMessage(_:)`: with no connected peer nothing is handed to the session;
      otherwise the message goes to every connected peer. */
  function MessageSent(t: TransportState, m: GameMessage): (r: TransportState)
    requires Consistent(t)
    ensures Consistent(r)
    ensures t.connectedPeers == [] ==> r == t
    ensures t.connectedPeers != [] ==> r.sent == t.sent + [Transmission(m, t.connectedPeers)]
    ensures r.connectedPeers == t.connectedPeers && r.receivedMessage == t.receivedMessage
  {
    if t.connectedPeers == [] then t
    else t.(sent := t.sent + [Transmission(m, t.connectedPeers)])
  }

  /** The message `sendGameState(_:)` builds: a state update carrying the session. */
  function GameStateMessage(s: GameSession, now: Timestamp): (m: GameMessage)
    ensures m.kind == GameStateUpdate && m.data.Some? && DecodeSession(m.data.value) == Some(s)
  {
    GameMessage(GameStateUpdate, Some(EncodeSession(s)), now)
  }

  /** The `session(_:peer:didChange:)` callback. */
  function PeerStateChanged(t: TransportState, p: PeerId, state: SessionState): (r: TransportState)
    requires Consistent(t)
    ensures Consistent(r)
    ensures state == Connected ==> p in r.connectedPeers && r.isConnected
    ensures state == NotConnected ==> p !in r.connectedPeers
    ensures state != Connecting ==>
              forall q :: q != p ==> (q in r.connectedPeers <==> q in t.connectedPeers)
    ensures state == Connecting ==> r == t
    ensures r.discoveredPeers == t.discoveredPeers && r.isHosting == t.isHosting
  {
    match state
    case Connected => t.(connectedPeers := AppendIfAbsent(t.connectedPeers, p), isConnected := true)
    case NotConnected =>
      var rest := RemoveAll(t.connectedPeers, p);
      t.(connectedPeers := rest, isConnected := rest != [])
    case Connecting => t
  }

  /** The `session(_:didReceive:fromPeer:)` callback: a message that decodes
      overwrites the single inbound slot; one that does not is dropped. */
  function MessageReceived(t: TransportState, decoded: Option<GameMessage>): (r: TransportState)
    requires Consistent(t)
    ensures Consistent(r)
    ensures decoded.None? ==> r == t
    ensures decoded.Some? ==> r.receivedMessage == decoded
    ensures r.connectedPeers == t.connectedPeers && r.discoveredPeers == t.discoveredPeers
  {
    if decoded.Some? then t.(receivedMessage := decoded) else t
  }

  /** The `browser(_:foundPeer:)` callback. */
  function PeerFound(t: TransportState, p: PeerId): (r: TransportState)
    requires Consistent(t)
    ensures Consistent(r)
    ensures p in r.discoveredPeers
    ensures forall q :: q in r.discoveredPeers <==> q in t.discoveredPeers || q == p
    ensures r.connectedPeers == t.connectedPeers
  {
    t.(discoveredPeers := AppendIfAbsent(t.discoveredPeers, p))
  }

  /** The `browser(_:lostPeer:)` callback. */
  function PeerLost(t: TransportState, p: PeerId): (r: TransportState)
    requires Consistent(t)
    ensures Consistent(r)
    ensures p !in r.discoveredPeers
    ensures forall q :: q != p ==> (q in r.discoveredPeers <==> q in t.discoveredPeers)
    ensures r.connectedPeers == t.connectedPeers
  {
    t.(discoveredPeers := RemoveAll(t.discoveredPeers, p))
  }

  /** A peer that connects and then drops leaves the connected list as it was,
      when it was not connected before. */
  lemma ConnectThenDropRestores(t: TransportState, p: PeerId)
    requires Consistent(t) && p !in t.connectedPeers
    ensures PeerStateChanged(PeerStateChanged(t, p, Connected), p, NotConnected).connectedPeers
            == t.connectedPeers
  {
    RemoveAllAppend(t.connectedPeers, [p], p);
    RemoveAllAbsent(t.connectedPeers, p);
    assert RemoveAll([p], p) == [];
  }

  // ---------------------------------------------------------------------------
  // The transport object

  /** `MultipeerManager`. Each method updates the fields in place as the
      source does and is specified by the transition function of the same name. */
  class MultipeerManager {
    var isHosting: bool
    var isConnected: bool
    var connectedPeers: seq<PeerId>
    var discoveredPeers: seq<PeerId>
    var receivedMessage: Option<GameMessage>
    var advertising: bool
    var browsing: bool
    var sent: seq<Transmission>
    var invitations: seq<Invitation>

    function State(): TransportState
      reads this
    {
      TransportState(isHosting, isConnected, connectedPeers, discoveredPeers, receivedMessage,
                     advertising, browsing, sent, invitations)
    }

    ghost predicate Valid()
      reads this
    {
      Consistent(State())
    }

    constructor ()
      ensures Valid() && State() == InitialTransport()
    {
      isHosting, isConnected := false, false;
      connectedPeers, discoveredPeers := [], [];
      receivedMessage := None;
      advertising, browsing := false, false;
      sent, invitations := [], [];
    }

    method StartHosting()
      requires Valid()
      modifies this
      ensures Valid() && State() == HostingStarted(old(State()))
    {
      advertising := true;
      isHosting := true;
    }

    method StopHosting()
      requires Valid()
      modifies this
      ensures Valid() && State() == HostingStopped(old(State()))
    {
      advertising := false;
      isHosting := false;
    }

    method StartBrowsing()
      requires Valid()
      modifies this
      ensures Valid() && State() == BrowsingStarted(old(State()))
    {
      browsing := true;
    }

    method StopBrowsing()
      requires Valid()
      modifies this
      ensures Valid() && State() == BrowsingStopped(old(State()))
    {
      browsing := false;
      discoveredPeers := [];
    }

    method InvitePeer(p: PeerId)
      requires Valid()
      modifies this
      ensures Valid() && State() == PeerInvited(old(State()), p)
    {
      if browsing {
        invitations := invitations + [Invitation(p, InviteTimeout)];
      }
    }

    method Disconnect()
      requires Valid()
      modifies this
      ensures Valid() && State() == Disconnected(old(State()))
    {
      StopHosting();
      StopBrowsing();
      isConnected := false;
      connectedPeers := [];
      discoveredPeers := [];
    }

    method SendMessage(m: GameMessage)
      requires Valid()
      modifies this
      ensures Valid() && State() == MessageSent(old(State()), m)
    {
      if connectedPeers != [] {
        sent := sent + [Transmission(m, connectedPeers)];
      }
    }

    /** `sendGameState(_:)`; `now` stands for `Date()`. */
    method SendGameState(s: GameSession, now: Timestamp)
      requires Valid()
      modifies this
      ensures Valid() && State() == MessageSent(old(State()), GameStateMessage(s, now))
    {
      var message := GameMessage(GameStateUpdate, Some(EncodeSession(s)), now);
      SendMessage(message);
    }

    method PeerDidChangeState(p: PeerId, state: SessionState)
      requires Valid()
      modifies this
      ensures Valid() && State() == PeerStateChanged(old(State()), p, state)
    {
      ghost var before := State();
      match state
      case Connected =>
        if p !in connectedPeers {
          connectedPeers := connectedPeers + [p];
        }
        isConnected := true;
        assert connectedPeers == AppendIfAbsent(before.connectedPeers, p);
      case NotConnected =>
        connectedPeers := RemoveAll(connectedPeers, p);
        isConnected := connectedPeers != [];
      case Connecting =>
    }

    /** `decoded` is the outcome of decoding the received bytes as a message. */
    method DidReceive(decoded: Option<GameMessage>)
      requires Valid()
      modifies this
      ensures Valid() && State() == MessageReceived(old(State()), decoded)
    {
      if decoded.Some? {
        receivedMessage := decoded;
      }
    }

    /** The advertiser's invitation callback accepts every invitation. */
    method DidReceiveInvitation(from: PeerId) returns (accept: bool)
      ensures accept
    {
      accept := true;
    }

    method FoundPeer(p: PeerId)
      requires Valid()
      modifies this
      ensures Valid() && State() == PeerFound(old(State()), p)
    {
      if p !in discoveredPeers {
        discoveredPeers := discoveredPeers + [p];
      }
    }

    method LostPeer(p: PeerId)
      requires Valid()
      modifies this
      ensures Valid() && State() == PeerLost(old(State()), p)
    {
      discoveredPeers := RemoveAll(discoveredPeers, p);
    }
  }
}
