/** What a step adds to the history of the hub: who speaks to whom. */
module RelayHistory {
  import opened Common
  import opened RelayModel
  import opened RelayInvariant
  import opened RelayOpen
  import opened RelayTheorems

  predicate IsData(item: Item) { item.Handed? && item.message.ChannelData? }

  predicate IsClose(item: Item) { item.Handed? && item.message.ChannelClose? }

  /** Neither data nor closes were added. */
  ghost predicate Neutral(h: Hub, n: Hub) {
    h.log <= n.log && forall i :: |h.log| <= i < |n.log| ==> !IsData(n.log[i]) && !IsClose(n.log[i])
  }

  /** Data and closes come from one end, `c`, of a channel open before, and go to the other. */
  ghost predicate FromEnd(h: Hub, item: Item, c: Name) {
    && (IsData(item) || IsClose(item) ==>
         item.message.channel in h.channels && OppositeEnds(h.channels[item.message.channel], c, item.recipient))
    && (IsData(item) ==> item.message.sender == c)
  }

  ghost predicate Spoken(h: Hub, n: Hub, c: Name) {
    h.log <= n.log && forall i :: |h.log| <= i < |n.log| ==> FromEnd(h, n.log[i], c)
  }

  ghost predicate OpensNothing(h: Hub, n: Hub) {
    h.log <= n.log && forall i :: |h.log| <= i < |n.log| ==> !n.log[i].Opened?
  }

  lemma NotingIsNeutral(h: Hub, item: Item)
    requires !IsData(item) && !IsClose(item)
    ensures Neutral(h, Noting(h, item))
  {
  }

  lemma HandIsNeutral(h: Hub, device: Name, connection: Name, m: Message)
    requires !m.ChannelData? && !m.ChannelClose?
    ensures Neutral(h, Hand(h, device, connection, m))
  {
  }

  // ---- the steps that say nothing about open channels

  lemma RegisterIsNeutral(h: Hub, device: Name, connection: Name, incoming: Option<bool>, closed: set<Name>)
    ensures Neutral(h, Register(h, device, connection, incoming, closed))
  {
    NotingIsNeutral(h, Connected(connection));
    RefreshKeepsTables(Added(h, device, connection, FromQuery(incoming)), device, closed);
    hide Refresh, Neutral;
  }

  lemma NoteOpenedKeepsLog(h: Hub, device: Name, connection: Name, closed: set<Name>)
    ensures NoteOpened(h, device, connection, closed).log == h.log
  {
    hide Newest;
  }

  lemma RoundIsNeutral(h: Hub, device: Name, connection: Name, channel: Name, owner: Name, seen: Observation)
    ensures Neutral(h, OpenRound(h, device, connection, channel, owner, seen))
  {
    hide Pick;
    HandIsNeutral(h, device, connection, ChannelRejected(channel, CHANNEL_EXISTS));
    var (p, choice) := Pick(h, owner, seen.closedAtPick);
    PickedIsInTable(h, owner, seen.closedAtPick);
    HandIsNeutral(p, device, connection, ChannelRejected(channel, NO_CONNECTION));
    if choice.Some? {
      var e := Entry(device, connection, owner, choice.value, false);
      NotingIsNeutral(p.(channels := p.channels[channel := e]), Opened(channel, e));
      NotingIsNeutral(AddChannel(p, channel, e), Handed(choice.value, IncomingChannel(channel, device)));
    }
  }

  lemma CleanUpIsNeutral(h: Hub, channel: Name, device: Name, connection: Name, closed: set<Name>)
    ensures Neutral(h, CleanUp(h, channel, device, connection, closed))
  {
    hide RemoveEntry;
    RemovalTables(h, device, connection, closed);
    var removed := RemoveEntry(h, device, connection, closed);
    NotingIsNeutral(removed.(channels := removed.channels - {channel}), Removed(channel));
  }

  lemma {:induction false} OpenLoopIsNeutral(
    h: Hub, device: Name, connection: Name, channel: Name, owner: Name, seen: nat -> Observation, i: nat)
    ensures Neutral(h, OpenLoop(h, device, connection, channel, owner, seen, i))
    decreases ConnectionCount(h, owner)
  {
    hide Neutral, OpenRound, CleanUp;
    var round := OpenRound(h, device, connection, channel, owner, seen(i));
    RoundIsNeutral(h, device, connection, channel, owner, seen(i));
    LoopIsRounds(h, device, connection, channel, owner, seen, i);
    hide OpenLoop;
    if channel !in h.channels && channel in round.channels && seen(i).sendFails {
      var t := round.channels[channel].targetConnection;
      FailedRoundShrinks(h, device, connection, channel, owner, seen(i));
      CleanUpIsNeutral(round, channel, owner, t, seen(i).closedAtRemoval);
      OpenLoopIsNeutral(CleanUp(round, channel, owner, t, seen(i).closedAtRemoval),
                      device, connection, channel, owner, seen, i + 1);
      NeutralTwice(h, round, CleanUp(round, channel, owner, t, seen(i).closedAtRemoval),
                 OpenLoop(h, device, connection, channel, owner, seen, i));
    }
  }

  lemma NeutralTwice(h: Hub, a: Hub, b: Hub, n: Hub)
    requires Neutral(h, a) && Neutral(a, b) && Neutral(b, n)
    ensures Neutral(h, n)
  {
  }

  lemma FailedRoundShrinks(h: Hub, device: Name, connection: Name, channel: Name, owner: Name, seen: Observation)
    requires var round := OpenRound(h, device, connection, channel, owner, seen);
      channel !in h.channels && channel in round.channels && seen.sendFails
    ensures var round := OpenRound(h, device, connection, channel, owner, seen);
      ConnectionCount(CleanUp(round, channel, owner, round.channels[channel].targetConnection, seen.closedAtRemoval), owner)
        < ConnectionCount(h, owner)
  {
    var round := OpenRound(h, device, connection, channel, owner, seen);
    var t := round.channels[channel].targetConnection;
    PickedIsInTable(h, owner, seen.closedAtPick);
    hide Pick, RemoveEntry;
    assert round.connections == h.connections && InTable(round, owner, t);
    RemovalShrinks(round, owner, t, seen.closedAtRemoval);
  }

  lemma OpenIsNeutral(
    h: Hub, device: Name, connection: Name, channel: Name, authorization: Authorization,
    closed: set<Name>, seen: nat -> Observation)
    ensures Neutral(h, Open(h, device, connection, channel, authorization, closed, seen))
  {
    hide NoteOpened, OpenLoop;
    NoteOpenedKeepsLog(h, device, connection, closed);
    var noted := NoteOpened(h, device, connection, closed);
    match authorization
    case Denied(reason) => HandIsNeutral(noted, device, connection, ChannelRejected(channel, reason));
    case Granted(owner) => OpenLoopIsNeutral(noted, device, connection, channel, owner, seen, 0);
  }

  // ---- the steps that close channels

  /** Only closes to the other ends of channels open in `h` were added, on behalf of `c`. */
  ghost predicate Notified(h: Hub, n: Hub, c: Name) {
    && Spoken(h, n, c) && OpensNothing(h, n)
    && (forall i :: |h.log| <= i < |n.log| ==> !IsData(n.log[i]))
    && (forall ch :: ch in n.channels ==> ch in h.channels && n.channels[ch] == h.channels[ch])
  }

  /** A channel is removed and the other end told. */
  lemma PeerIsTold(h: Hub, channel: Name, c: Name, peerDevice: Name, peer: Name, note: Option<string>)
    requires channel in h.channels && OppositeEnds(h.channels[channel], c, peer)
    ensures Notified(h, Hand(Noting(h.(channels := h.channels - {channel}), Removed(channel)), peerDevice, peer,
                             ChannelClose(channel, note)), c)
  {
  }

  lemma DropChannelNotifies(h: Hub, device: Name, connection: Name, channel: Name)
    requires channel in h.channels && Involves(h.channels[channel], device, connection)
    ensures Notified(h, DropChannel(h, device, connection, channel), connection)
  {
    hide Notified;
    var e := h.channels[channel];
    if e.sourceDevice == device && e.sourceConnection == connection {
      PeerIsTold(h, channel, connection, e.targetDevice, e.targetConnection, Some("peer disconnected"));
    } else {
      PeerIsTold(h, channel, connection, e.sourceDevice, e.sourceConnection, Some("peer disconnected"));
    }
  }

  lemma NotifiedTwice(h: Hub, a: Hub, n: Hub, c: Name)
    requires Notified(h, a, c) && Notified(a, n, c)
    ensures Notified(h, n, c)
  {
    forall i | |h.log| <= i < |n.log|
      ensures FromEnd(h, n.log[i], c) && !IsData(n.log[i])
    {
      if i < |a.log| {
        assert n.log[i] == a.log[i];
      }
    }
  }

  lemma {:induction false} DropChannelsNotifies(h: Hub, device: Name, connection: Name, order: seq<Name>)
    requires forall ch :: ch in order && ch in h.channels ==> Involves(h.channels[ch], device, connection)
    ensures Notified(h, DropChannels(h, device, connection, order), connection)
    decreases |order|
  {
    if order != [] {
      var next := h;
      if order[0] in h.channels {
        DropChannelNotifies(h, device, connection, order[0]);
        next := DropChannel(h, device, connection, order[0]);
      }
      DropChannelsNotifies(next, device, connection, order[1..]);
      hide Spoken;
      NotifiedTwice(h, next, DropChannels(next, device, connection, order[1..]), connection);
    }
  }

  lemma DisconnectNotifies(h: Hub, device: Name, connection: Name, closed: set<Name>, order: seq<Name>)
    requires forall ch :: ch in order <==> ch in Affected(h, device, connection)
    ensures Notified(h, Disconnect(h, device, connection, closed, order), connection)
  {
    hide RemoveEntry, DropChannels, Notified;
    RemovalTables(h, device, connection, closed);
    var removed := RemoveEntry(h, device, connection, closed);
    DropChannelsNotifies(removed, device, connection, order);
    var dropped := DropChannels(removed, device, connection, order);
    DisconnectedIsNoted(h, removed, dropped, Disconnect(h, device, connection, closed, order), connection);
  }

  lemma DisconnectedIsNoted(h: Hub, removed: Hub, dropped: Hub, n: Hub, c: Name)
    requires removed.log == h.log && removed.channels == h.channels
    requires Notified(removed, dropped, c)
    requires n.log == dropped.log + [Disconnected(c)] && n.channels == dropped.channels
    ensures Notified(h, n, c)
  {
  }

  lemma CloseNotifies(h: Hub, device: Name, connection: Name, channel: Name, note: Option<string>)
    ensures Notified(h, CloseChannel(h, device, connection, channel, note), connection)
  {
    if channel in h.channels && Involves(h.channels[channel], device, connection) {
      hide Notified;
      var e := h.channels[channel];
      if IsSource(e, device, connection) {
        PeerIsTold(h, channel, connection, e.targetDevice, e.targetConnection, note);
      } else {
        PeerIsTold(h, channel, connection, e.sourceDevice, e.sourceConnection, note);
      }
    }
  }

  // ---- every step

  /** The socket on whose behalf a step is taken. */
  function Actor(ev: Event): Name {
    match ev
    case ResetEvent => ""
    case _ => ev.connection
  }

  lemma NeutralMeans(h: Hub, n: Hub, c: Name)
    requires Neutral(h, n)
    ensures Spoken(h, n, c) && forall i :: |h.log| <= i < |n.log| ==> !IsData(n.log[i])
  {
  }

  lemma AnswerIsNeutral(h: Hub, device: Name, connection: Name, channel: Name, reason: string)
    ensures Neutral(h, Accept(h, device, connection, channel))
    ensures Neutral(h, Reject(h, device, connection, channel, reason))
  {
  }

  lemma ForwardingSpeaks(h: Hub, device: Name, connection: Name, channel: Name, payload: string)
    ensures var n := SendData(h, device, connection, channel, payload);
      Spoken(h, n, connection) && OpensNothing(h, n)
  {
  }

  /** Whatever a step says about a channel goes from the socket that takes it to the other end. */
  lemma StepSpeaks(h: Hub, ev: Event)
    requires Enabled(h, ev)
    ensures Spoken(h, Step(h, ev), Actor(ev))
    ensures Neutral(h, Step(h, ev)) || OpensNothing(h, Step(h, ev))
    ensures !ev.DataEvent? ==> forall i :: |h.log| <= i < |Step(h, ev).log| ==> !IsData(Step(h, ev).log[i])
  {
    hide Register, Disconnect, Open, NoteOpened, OpenRound, CleanUp, Accept, Reject, CloseChannel, SendData, Spoken, Neutral, OpensNothing;
    match ev
    case DisconnectEvent(c, closed, order) => DisconnectNotifies(h, h.live[c], c, closed, order);
    case DataEvent(c, ch, payload) => ForwardingSpeaks(h, h.live[c], c, ch, payload);
    case CloseEvent(c, ch, note) => CloseNotifies(h, h.live[c], c, ch, note);
    case _ =>
      StepIsNeutral(h, ev);
      NeutralMeans(h, Step(h, ev), Actor(ev));
  }

  lemma StepIsNeutral(h: Hub, ev: Event)
    requires Enabled(h, ev) && !ev.DisconnectEvent? && !ev.DataEvent? && !ev.CloseEvent?
    ensures Neutral(h, Step(h, ev))
  {
    hide Register, Open, NoteOpened, OpenRound, CleanUp, Accept, Reject;
    match ev
    case RegisterEvent(d, c, incoming, closed) => RegisterIsNeutral(h, d, c, incoming, closed);
    case ResetEvent =>
    case OpenEvent(c, ch, authorization, closed, seen) => OpenIsNeutral(h, h.live[c], c, ch, authorization, closed, seen);
    case MarkEvent(c, closed) => NoteOpenedKeepsLog(h, h.live[c], c, closed);
    case RoundEvent(c, ch, owner, observed) => RoundIsNeutral(h, h.live[c], c, ch, owner, observed);
    case CleanUpEvent(_, ch, owner, target, closed) => CleanUpIsNeutral(h, ch, owner, target, closed);
    case RefuseEvent(c, ch, reason) => HandIsNeutral(h, h.live[c], c, ChannelRejected(ch, reason));
    case AcceptEvent(c, ch) => AnswerIsNeutral(h, h.live[c], c, ch, "");
    case RejectEvent(c, ch, reason) => AnswerIsNeutral(h, h.live[c], c, ch, reason);
    case PingEvent(c) => HandIsNeutral(h, h.live[c], c, Pong);
  }
}
