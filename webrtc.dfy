/**
 * `WebRTCSessionManager`: the table of rooms. A host creates a room holding
 * its own offer sender; a joiner is let in while the room has fewer peers
 * than its `max_size`, sends one SDP offer to every current peer, and is then
 * appended as a peer itself.
 *
 * Channels are named by ids: a peer is the id of its `mpsc::Sender` of
 * offer streams. The caller supplies the id of each new channel.
 */
module WebRtc {
  import opened Wrappers

  /** `WebRTCSession`: the peers' offer senders in join order, and the room's capacity. */
  datatype Session = Session(peers: seq<nat>, maxSize: nat)

  datatype JoinSessionError = NotFound | Full
  datatype ExistingSessionError = ExistingSessionError

  /** `HostConnectionReceiver`: dropping it closes the room `id`. */
  datatype HostReceiver<K> = HostReceiver(id: K, connStream: nat)

  /**
   * `SDPOfferStreamSender`: the right to send offers into room `id`, given by
   * `join_session`; it holds the room's entry lock until it is used or dropped.
   */
  datatype OfferSender<K> = OfferSender(id: K, memberCount: nat, maxSize: nat)

  /** One `SDPOfferStream` handed to a peer: the offer and the index the answer comes back with. */
  datatype OfferDelivery = OfferDelivery(peer: nat, offer: string, answerIndex: nat)

  function Max(a: nat, b: nat): nat { if a < b then b else a }

  /** Every room has its host and never more peers than its capacity (or one, for a zero capacity). */
  predicate SessionInvariant(s: Session) {
    1 <= |s.peers| <= Max(s.maxSize, 1)
  }

  /** The offers a full send makes: offer i to peer i, answered under index i. */
  function Deliveries(peers: seq<nat>, offers: seq<string>): (d: seq<OfferDelivery>)
    requires |offers| == |peers|
    ensures |d| == |offers|
    ensures forall i :: 0 <= i < |d| ==> d[i] == OfferDelivery(peers[i], offers[i], i)
  {
    seq(|offers|, i requires 0 <= i < |offers| => OfferDelivery(peers[i], offers[i], i))
  }

  /** A room the host just opened. */
  function NewSession(sender: nat, maxSize: nat): (s: Session)
    ensures |s.peers| == 1 && s.peers[0] == sender && s.maxSize == maxSize
    ensures SessionInvariant(s)
  {
    Session([sender], maxSize)
  }

  /** The room after a joiner was let in (fewer peers than capacity) and sent its offers. */
  function Joined(s: Session, newPeer: nat): Session {
    s.(peers := s.peers + [newPeer])
  }

  /** Admitting a joiner only below capacity keeps the room within capacity. */
  lemma JoinedKeepsInvariant(s: Session, newPeer: nat)
    requires SessionInvariant(s) && |s.peers| < s.maxSize
    ensures SessionInvariant(Joined(s, newPeer))
    ensures |Joined(s, newPeer).peers| <= s.maxSize
    ensures Joined(s, newPeer).peers[..|s.peers|] == s.peers
  {
  }

  /** A room with capacity at most one is full from the start. */
  lemma SmallRoomIsFull(sender: nat, maxSize: nat)
    requires maxSize <= 1
    ensures |NewSession(sender, maxSize).peers| >= maxSize
  {
  }

  class SessionManager<K(==)> {
    var sessions: map<K, Session>

    ghost predicate Valid()
      reads this
    {
      forall k :: k in sessions ==> SessionInvariant(sessions[k])
    }

    /** `WebRTCSessionManager::default()`. */
    constructor ()
      ensures sessions == map[] && Valid()
    {
      sessions := map[];
    }

    /** The offer sender still describes its room: the entry lock it holds keeps the room as it was. */
    ghost predicate Issued(sender: OfferSender<K>)
      reads this
    {
      && sender.id in sessions
      && sender.memberCount == |sessions[sender.id].peers|
      && sender.maxSize == sessions[sender.id].maxSize
      && sender.memberCount < sender.maxSize
    }

    /** `host_session`: `sender`/`connStream` are the ends of the room's new offer channel. */
    method HostSession(id: K, maxSize: nat, sender: nat, connStream: nat)
      returns (r: Result<HostReceiver<K>, ExistingSessionError>)
      requires Valid()
      modifies this
      ensures Valid()
      ensures id in old(sessions) ==> r == Err(ExistingSessionError) && sessions == old(sessions)
      ensures id !in old(sessions) ==>
        r == Ok(HostReceiver(id, connStream)) && sessions == old(sessions)[id := NewSession(sender, maxSize)]
    {
      if id in sessions {
        return Err(ExistingSessionError);
      }
      sessions := sessions[id := NewSession(sender, maxSize)];
      r := Ok(HostReceiver(id, connStream));
    }

    /** `join_session`: reads the room and changes nothing. */
    method JoinSession(id: K) returns (r: Result<OfferSender<K>, JoinSessionError>)
      ensures id !in sessions ==> r == Err(NotFound)
      ensures id in sessions && |sessions[id].peers| >= sessions[id].maxSize ==> r == Err(Full)
      ensures id in sessions && |sessions[id].peers| < sessions[id].maxSize ==>
        r == Ok(OfferSender(id, |sessions[id].peers|, sessions[id].maxSize))
      ensures r.Ok? ==> Issued(r.value)
    {
      if id !in sessions {
        return Err(NotFound);
      }
      var session := sessions[id];
      if |session.peers| >= session.maxSize {
        return Err(Full);
      }
      r := Ok(OfferSender(id, |session.peers|, session.maxSize));
    }

    /**
     * `send_sdp_offers`: a wrong number of offers hands sender and offers
     * back; otherwise offer i goes to peer i and the joiner's own sender
     * `newPeer` becomes the last peer.
     */
    method SendSdpOffers(sender: OfferSender<K>, offers: seq<string>, newPeer: nat)
      returns (r: Result<seq<OfferDelivery>, (OfferSender<K>, seq<string>)>)
      requires Valid() && Issued(sender)
      modifies this
      ensures Valid()
      ensures |offers| != sender.memberCount ==> r == Err((sender, offers)) && sessions == old(sessions)
      ensures |offers| == sender.memberCount ==>
        && r == Ok(Deliveries(old(sessions)[sender.id].peers, offers))
        && sessions == old(sessions)[sender.id := Joined(old(sessions)[sender.id], newPeer)]
      ensures |offers| == sender.memberCount ==> |sessions[sender.id].peers| <= sessions[sender.id].maxSize
    {
      if |offers| != sender.memberCount {
        return Err((sender, offers));
      }
      var session := sessions[sender.id];
      var sent: seq<OfferDelivery> := [];
      for i := 0 to |offers|
        invariant |sent| == i
        invariant forall j :: 0 <= j < i ==> sent[j] == OfferDelivery(session.peers[j], offers[j], j)
      {
        sent := sent + [OfferDelivery(session.peers[i], offers[i], i)];
      }
      assert sent == Deliveries(session.peers, offers);
      JoinedKeepsInvariant(session, newPeer);
      sessions := sessions[sender.id := Joined(session, newPeer)];
      r := Ok(sent);
    }

    /** `HostConnectionReceiver::drop`: the room is removed. */
    method DropHost(host: HostReceiver<K>)
      requires Valid()
      modifies this
      ensures Valid()
      ensures sessions == old(sessions) - {host.id}
    {
      sessions := sessions - {host.id};
    }

    /**
     * `host_session_random_id`: draws ids `generate(0), generate(1), ...`
     * until one is vacant. The loop only ends when some draw is vacant,
     * which `requires` states.
     */
    method HostSessionRandomId(generate: nat -> K, maxSize: nat, sender: nat, connStream: nat)
      returns (host: HostReceiver<K>, id: K, draws: nat)
      requires Valid()
      requires exists n: nat :: generate(n) !in sessions
      modifies this
      ensures Valid()
      ensures id == generate(draws) && id !in old(sessions)
      ensures forall j: nat :: j < draws ==> generate(j) in old(sessions)
      ensures host == HostReceiver(id, connStream)
      ensures sessions == old(sessions)[id := NewSession(sender, maxSize)]
    {
      ghost var w: nat :| generate(w) !in sessions;
      draws := 0;
      while true
        invariant draws <= w
        invariant sessions == old(sessions)
        invariant forall j: nat :: j < draws ==> generate(j) in old(sessions)
        decreases w - draws
      {
        id := generate(draws);
        var attempt := HostSession(id, maxSize, sender, connStream);
        if attempt.Ok? {
          host := attempt.value;
          return;
        }
        draws := draws + 1;
      }
    }
  }
}
