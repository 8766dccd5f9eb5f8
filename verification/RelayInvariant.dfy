/** What holds of the relay hub in every reachable state. */
module RelayInvariant {
  import opened Common
  import opened RelayModel

  // ---- the tables

  /** One device's connections are its own sockets, with registrations of their own. */
  ghost predicate DeviceOk(connections: map<Name, Connection>, device: Name, live: map<Name, Name>, next: nat) {
    && connections.Keys != {}
    && (forall c :: c in connections ==>
          c in live && live[c] == device && connections[c].registration < next)
    && (forall a, b :: a in connections && b in connections && a != b ==>
          connections[a].registration != connections[b].registration)
  }

  ghost predicate TableOk(h: Hub) {
    forall d :: d in h.connections ==> DeviceOk(h.connections[d], d, h.live, h.nextSequence)
  }

  /** The preference names a registered connection that never said what it wants and never opened a channel. */
  ghost predicate PreferredOk(h: Hub) {
    && (forall d :: d in h.preferred ==>
          && InTable(h, d, h.preferred[d])
          && IsIdleLegacy(h.connections[d][h.preferred[d]])
          && d in h.highWater && h.highWater[d] == h.connections[d][h.preferred[d]].registration)
    && (forall d :: d in h.highWater ==> h.highWater[d] < h.nextSequence)
  }

  ghost predicate IndexOk(h: Hub) { TableOk(h) && PreferredOk(h) }

  ghost predicate SocketUp(h: Hub, device: Name, connection: Name) {
    connection in h.live && h.live[connection] == device
  }

  /** Both ends of every channel are sockets that are up. */
  ghost predicate ChannelsOk(h: Hub) {
    && h.live.Keys !! h.retired
    && forall ch :: ch in h.channels ==>
         && SocketUp(h, h.channels[ch].sourceDevice, h.channels[ch].sourceConnection)
         && SocketUp(h, h.channels[ch].targetDevice, h.channels[ch].targetConnection)
  }

  /** A newly preferred connection is newer than any connection preferred before it. */
  ghost predicate Rises(h: Hub, n: Hub) {
    && (forall d :: d in h.highWater ==> d in n.highWater && h.highWater[d] <= n.highWater[d])
    && (forall d :: d in n.preferred && !(d in h.preferred && h.preferred[d] == n.preferred[d]) ==>
          && d in n.highWater
          && (d in h.highWater ==> h.highWater[d] < n.highWater[d]))
  }

  // ---- the history

  /** The channel an id stands for after a history, if any. */
  ghost function Replay(log: seq<Item>, channel: Name): Option<Entry> {
    if log == [] then None
    else
      var before := Replay(log[..|log| - 1], channel);
      match log[|log| - 1]
      case Opened(ch, e) => if ch == channel then Some(e) else before
      case Confirmed(ch) =>
        if ch == channel && before.Some? then Some(before.value.(accepted := true)) else before
      case Removed(ch) => if ch == channel then None else before
      case Cleared => None
      case _ => before
  }

  ghost function Gone(log: seq<Item>): set<Name> { set i | i in log && i.Disconnected? :: i.connection }

  ghost predicate OppositeEnds(e: Entry, sender: Name, recipient: Name) {
    || (sender == e.sourceConnection && recipient == e.targetConnection)
    || (sender == e.targetConnection && recipient == e.sourceConnection)
  }

  /** What may be handed out after a history. */
  ghost predicate MessageFits(log: seq<Item>, recipient: Name, m: Message) {
    match m
    case IncomingChannel(ch, _) =>
      var e := Replay(log, ch);
      e.Some? && !e.value.accepted && recipient == e.value.targetConnection
    case ChannelAccepted(ch) =>
      var e := Replay(log, ch);
      e.Some? && e.value.accepted && recipient == e.value.sourceConnection
    case ChannelData(ch, _, sender) =>
      var e := Replay(log, ch);
      e.Some? && e.value.accepted && OppositeEnds(e.value, sender, recipient)
    case ChannelClose(ch, _) => Replay(log, ch).None?
    case _ => true
  }

  ghost predicate Fits(log: seq<Item>, item: Item) {
    match item
    case Connected(c) => c !in Gone(log)
    case Opened(ch, e) =>
      && Replay(log, ch).None? && !e.accepted
      && e.sourceConnection !in Gone(log) && e.targetConnection !in Gone(log)
    case Handed(c, m) => c !in Gone(log) && MessageFits(log, c, m)
    case _ => true
  }

  ghost predicate GoodLog(log: seq<Item>) {
    forall i :: 0 <= i < |log| ==> Fits(log[..i], log[i])
  }

  ghost predicate LogOk(h: Hub) {
    && GoodLog(h.log)
    && Gone(h.log) == h.retired
    && forall ch :: Replay(h.log, ch) == if ch in h.channels then Some(h.channels[ch]) else None
  }

  ghost predicate Inv(h: Hub) { IndexOk(h) && ChannelsOk(h) && LogOk(h) }

  lemma GoodSnoc(log: seq<Item>, item: Item)
    requires GoodLog(log) && Fits(log, item)
    ensures GoodLog(log + [item])
  {
    var n := log + [item];
    forall i | 0 <= i < |n|
      ensures Fits(n[..i], n[i])
    {
      if i < |log| {
        assert n[..i] == log[..i];
      } else {
        assert n[..i] == log;
      }
    }
  }

  lemma GoneSnoc(log: seq<Item>, item: Item)
    ensures Gone(log + [item]) == Gone(log) + if item.Disconnected? then {item.connection} else {}
  {
    assert forall i :: i in log + [item] <==> i in log || i == item;
  }

  lemma ReplaySnoc(log: seq<Item>, item: Item, channel: Name)
    ensures Replay(log + [item], channel) ==
      match item
      case Opened(ch, e) => if ch == channel then Some(e) else Replay(log, channel)
      case Confirmed(ch) =>
        if ch == channel && Replay(log, channel).Some? then Some(Replay(log, channel).value.(accepted := true))
        else Replay(log, channel)
      case Removed(ch) => if ch == channel then None else Replay(log, channel)
      case Cleared => None
      case _ => Replay(log, channel)
  {
    assert (log + [item])[..|log|] == log;
  }

  /** One more item in the history, with the channel table it implies. */
  lemma NotingKeepsLog(h: Hub, n: Hub, item: Item)
    requires LogOk(h) && Fits(h.log, item)
    requires n.log == h.log + [item]
    requires n.retired == h.retired + if item.Disconnected? then {item.connection} else {}
    requires
      match item
      case Opened(ch, e) => n.channels == h.channels[ch := e]
      case Confirmed(ch) => ch in h.channels && n.channels == h.channels[ch := h.channels[ch].(accepted := true)]
      case Removed(ch) => n.channels == h.channels - {ch}
      case Cleared => n.channels == map[]
      case _ => n.channels == h.channels
    ensures LogOk(n)
  {
    GoodSnoc(h.log, item);
    GoneSnoc(h.log, item);
    forall ch
      ensures Replay(n.log, ch) == if ch in n.channels then Some(n.channels[ch]) else None
    {
      ReplaySnoc(h.log, item, ch);
    }
  }

  /** A message to a socket in the table is handed over; anything else changes nothing. */
  lemma HandKeepsInv(h: Hub, device: Name, connection: Name, m: Message)
    requires Inv(h) && (InTable(h, device, connection) ==> MessageFits(h.log, connection, m))
    ensures Inv(Hand(h, device, connection, m))
  {
    if InTable(h, device, connection) {
      assert connection in h.live;
      NotingKeepsLog(h, Hand(h, device, connection, m), Handed(connection, m));
    }
  }

  // ---- the preference index

  lemma PreferKeepsIndex(h: Hub, device: Name, connection: Name)
    requires IndexOk(h) && InTable(h, device, connection) && IsIdleLegacy(h.connections[device][connection])
    requires device !in h.preferred
    requires device in h.highWater ==> h.highWater[device] < h.connections[device][connection].registration
    ensures IndexOk(Prefer(h, device, connection)) && Rises(h, Prefer(h, device, connection))
  {
    RegisteredBefore(h, device, connection);
    SameTableOk(h, Prefer(h, device, connection));
    hide TableOk;
    PreferKeepsPreferred(h, device, connection);
    hide PreferredOk;
  }

  lemma RegisteredBefore(h: Hub, device: Name, connection: Name)
    requires TableOk(h) && InTable(h, device, connection)
    ensures SocketUp(h, device, connection)
    ensures h.connections[device][connection].registration < h.nextSequence
  {
    assert DeviceOk(h.connections[device], device, h.live, h.nextSequence);
  }

  lemma PreferKeepsPreferred(h: Hub, device: Name, connection: Name)
    requires PreferredOk(h) && InTable(h, device, connection) && IsIdleLegacy(h.connections[device][connection])
    requires device !in h.preferred
    requires h.connections[device][connection].registration < h.nextSequence
    requires device in h.highWater ==> h.highWater[device] < h.connections[device][connection].registration
    ensures PreferredOk(Prefer(h, device, connection)) && Rises(h, Prefer(h, device, connection))
  {
    var n := Prefer(h, device, connection);
    forall d | d in n.preferred && d != device
      ensures InTable(n, d, n.preferred[d])
    {
      assert InTable(h, d, h.preferred[d]);
    }
  }

  lemma SameTableOk(h: Hub, n: Hub)
    requires TableOk(h)
    requires n.connections == h.connections && n.live == h.live && n.nextSequence == h.nextSequence
    ensures TableOk(n)
  {
  }

  lemma UnpreferKeepsIndex(h: Hub, device: Name)
    requires IndexOk(h)
    ensures IndexOk(Unprefer(h, device)) && Rises(h, Unprefer(h, device))
  {
    SameTableOk(h, Unprefer(h, device));
    hide TableOk;
  }

  lemma RisesTrans(a: Hub, b: Hub, c: Hub)
    requires Rises(a, b) && Rises(b, c)
    requires forall d :: d in b.preferred && d in c.preferred && b.preferred[d] == c.preferred[d]
                         ==> d in b.highWater && d in c.highWater
    ensures Rises(a, c)
  {
  }

  /** Promotion picks only connections newer than the one it replaces. */
  lemma PromoteKeepsIndex(h: Hub, device: Name, above: int, closed: set<Name>)
    requires IndexOk(h) && device !in h.preferred
    requires device in h.highWater ==> h.highWater[device] <= above
    ensures IndexOk(Promote(h, device, above, closed)) && Rises(h, Promote(h, device, above, closed))
  {
    if device in h.connections {
      var m := h.connections[device];
      var choice := Newest(m, LegacyCandidates(m, closed, above));
      NewestIsCandidate(m, LegacyCandidates(m, closed, above));
      hide Newest;
      if choice.Some? {
        PreferKeepsIndex(h, device, choice.value);
      }
    }
  }

  lemma ReplaceKeepsIndex(h: Hub, device: Name, above: int, closed: set<Name>)
    requires IndexOk(h)
    requires device in h.preferred ==> device in h.highWater
    requires device in h.highWater ==> h.highWater[device] <= above
    ensures var n := Promote(Unprefer(h, device), device, above, closed);
      IndexOk(n) && Rises(h, n)
  {
    var u := Unprefer(h, device);
    UnpreferKeepsIndex(h, device);
    PromoteKeepsIndex(u, device, above, closed);
    hide Promote;
    var n := Promote(u, device, above, closed);
    hide TableOk;
    RisesTrans(h, u, n);
  }

  lemma RefreshKeepsIndex(h: Hub, device: Name, closed: set<Name>)
    requires IndexOk(h)
    ensures IndexOk(Refresh(h, device, closed)) && Rises(h, Refresh(h, device, closed))
  {
    if device in h.preferred {
      ReplaceKeepsIndex(h, device, h.connections[device][h.preferred[device]].registration, closed);
    }
  }
}
