/** What the hub says when a channel is accepted, rejected or closed, when a socket leaves, or to a ping. */
module RelayNotices {
  import opened Common
  import opened RelayModel
  import opened RelayInvariant
  import opened RelayTheorems
  import opened RelayOrder
  import opened RelaySteps
  import opened RelayChannels

  /** The end of a channel opposite to a connection, with its device. */
  function OtherEnd(e: Entry, c: Name): (Name, Name) {
    if e.sourceConnection == c then (e.targetDevice, e.targetConnection) else (e.sourceDevice, e.sourceConnection)
  }

  /** A message to a socket the table knows; nothing otherwise. */
  ghost function Told(h: Hub, device: Name, connection: Name, m: Message): seq<Item> {
    if InTable(h, device, connection) then [Handed(connection, m)] else []
  }

  predicate IsEnd(h: Hub, channel: Name, c: Name) {
    channel in h.channels && (h.channels[channel].sourceConnection == c || h.channels[channel].targetConnection == c)
  }

  /** The connection of a channel is its target. */
  predicate IsItsTarget(h: Hub, channel: Name, c: Name) {
    channel in h.channels && h.channels[channel].targetConnection == c
  }

  /** A removal, and one close to the other end unless that is the socket that left. */
  ghost function Farewell(h: Hub, c: Name, channel: Name): seq<Item>
    requires channel in h.channels
  {
    var (device, other) := OtherEnd(h.channels[channel], c);
    [Removed(channel)]
      + if other != c then Told(h, device, other, ChannelClose(channel, Some("peer disconnected"))) else []
  }

  /** That for each channel of a socket that left. */
  ghost function Farewells(h: Hub, c: Name, order: seq<Name>): seq<Item> {
    if order == [] || order[0] !in h.channels then []
    else Farewell(h, c, order[0]) + Farewells(h, c, order[1..])
  }

  /** What a step must add to the history; connections suffice to name the ends of a channel. */
  ghost function Said(h: Hub, ev: Event): Option<seq<Item>>
    requires Enabled(h, ev)
  {
    match ev
    case AcceptEvent(c, ch) =>
      Some(if !IsItsTarget(h, ch, c) then []
           else
             var e := h.channels[ch];
             [Confirmed(ch)] + Told(h, e.sourceDevice, e.sourceConnection, ChannelAccepted(ch)))
    case RejectEvent(c, ch, reason) =>
      Some(if !IsItsTarget(h, ch, c) then []
           else
             var e := h.channels[ch];
             [Removed(ch)] + Told(h, e.sourceDevice, e.sourceConnection, ChannelRejected(ch, reason)))
    case DataEvent(c, ch, payload) =>
      Some(match Recipient(h, c, ch) case None => [] case Some(r) => [Handed(r, ChannelData(ch, payload, c))])
    case CloseEvent(c, ch, note) =>
      Some(if !IsEnd(h, ch, c) then []
           else
             var (device, other) := OtherEnd(h.channels[ch], c);
             [Removed(ch)] + Told(h, device, other, ChannelClose(ch, note)))
    case DisconnectEvent(c, _, order) => Some(Farewells(h, c, order) + [Disconnected(c)])
    case OpenEvent(c, ch, Denied(reason), _, _) => Some(Told(h, h.live[c], c, ChannelRejected(ch, reason)))
    case RefuseEvent(c, ch, reason) => Some(Told(h, h.live[c], c, ChannelRejected(ch, reason)))
    case PingEvent(c) => Some(Told(h, h.live[c], c, Pong))
    case ResetEvent => Some([Cleared])
    case _ => None
  }

  /** And to the channel table. */
  ghost function NextChannels(h: Hub, ev: Event): map<Name, Entry>
    requires Enabled(h, ev)
  {
    match ev
    case AcceptEvent(c, ch) =>
      if IsItsTarget(h, ch, c) then h.channels[ch := h.channels[ch].(accepted := true)] else h.channels
    case RejectEvent(c, ch, _) => if IsItsTarget(h, ch, c) then h.channels - {ch} else h.channels
    case CloseEvent(c, ch, _) => if IsEnd(h, ch, c) then h.channels - {ch} else h.channels
    case DisconnectEvent(c, _, _) => map ch | ch in h.channels && !IsEnd(h, ch, c) :: h.channels[ch]
    case ResetEvent => map[]
    case _ => h.channels
  }

  /** Connections name their devices. */
  lemma EndsByName(h: Hub, channel: Name, c: Name)
    requires ChannelsOk(h) && c in h.live && channel in h.channels
    ensures IsSource(h.channels[channel], h.live[c], c) <==> h.channels[channel].sourceConnection == c
    ensures IsTarget(h.channels[channel], h.live[c], c) <==> h.channels[channel].targetConnection == c
  {
  }

  lemma AcceptSays(h: Hub, c: Name, ch: Name)
    requires ChannelsOk(h) && c in h.live
    ensures var ev, n := AcceptEvent(c, ch), Accept(h, h.live[c], c, ch);
      n.log == h.log + Said(h, ev).value && n.channels == NextChannels(h, ev)
  {
    if ch in h.channels {
      EndsByName(h, ch, c);
    }
  }

  lemma RejectSays(h: Hub, c: Name, ch: Name, reason: string)
    requires ChannelsOk(h) && c in h.live
    ensures var ev, n := RejectEvent(c, ch, reason), Reject(h, h.live[c], c, ch, reason);
      n.log == h.log + Said(h, ev).value && n.channels == NextChannels(h, ev)
  {
    if ch in h.channels {
      EndsByName(h, ch, c);
    }
  }

  lemma CloseSays(h: Hub, c: Name, ch: Name, note: Option<string>)
    requires ChannelsOk(h) && c in h.live
    ensures var ev, n := CloseEvent(c, ch, note), CloseChannel(h, h.live[c], c, ch, note);
      n.log == h.log + Said(h, ev).value && n.channels == NextChannels(h, ev)
  {
    if ch in h.channels {
      EndsByName(h, ch, c);
    }
  }

  lemma DataSays(h: Hub, c: Name, ch: Name, payload: string)
    requires ChannelsOk(h) && c in h.live
    ensures var ev, n := DataEvent(c, ch, payload), SendData(h, h.live[c], c, ch, payload);
      n.log == h.log + Said(h, ev).value && n.channels == NextChannels(h, ev)
  {
    if ch in h.channels {
      EndsByName(h, ch, c);
    }
  }

  lemma DeniedSays(h: Hub, c: Name, ch: Name, reason: string, closed: set<Name>, seen: nat -> Observation)
    requires c in h.live
    ensures var ev, n := OpenEvent(c, ch, Denied(reason), closed, seen), Open(h, h.live[c], c, ch, Denied(reason), closed, seen);
      n.log == h.log + Said(h, ev).value && n.channels == NextChannels(h, ev)
  {
    NotingKeepsSockets(h, h.live[c], c, closed);
    hide NoteOpened;
  }

  lemma NotingKeepsSockets(h: Hub, device: Name, connection: Name, closed: set<Name>)
    ensures var n := NoteOpened(h, device, connection, closed);
      n.log == h.log && n.channels == h.channels
      && (InTable(n, device, connection) <==> InTable(h, device, connection))
  {
    hide Newest;
  }

  // ---- a socket leaves

  lemma OneFarewell(h: Hub, r: Hub, c: Name, device: Name, channel: Name)
    requires ChannelsOk(h) && c in h.live && h.live[c] == device && IsEnd(h, channel, c)
    requires channel in r.channels && r.channels[channel] == h.channels[channel]
    requires LeftTable(h, r, device, c)
    ensures
      DropChannel(r, device, c, channel).log == r.log + Farewell(h, c, channel)
  {
    EndsByName(h, channel, c);
    var e := h.channels[channel];
    assert SocketUp(h, e.sourceDevice, e.sourceConnection) && SocketUp(h, e.targetDevice, e.targetConnection);
    InTableNow(h, r, device, c, e.sourceDevice, e.sourceConnection);
    InTableNow(h, r, device, c, e.targetDevice, e.targetConnection);
    hide LeftTable, ChannelsOk, InTable;
  }

  lemma InTableNow(h: Hub, r: Hub, device: Name, c: Name, d: Name, o: Name)
    requires LeftTable(h, r, device, c)
    ensures InTable(r, d, o) <==> InTable(h, d, o) && !(d == device && o == c)
  {
  }

  /** The table of `r` is that of `h` without one connection. */
  ghost predicate LeftTable(h: Hub, r: Hub, device: Name, c: Name) {
    forall d, o :: InTable(r, d, o) <==> InTable(h, d, o) && !(d == device && o == c)
  }

  /** The listed channels have `c` as an end, and are in `r` as they are in `h`. */
  ghost predicate StillOpen(h: Hub, r: Hub, c: Name, order: seq<Name>) {
    forall i :: 0 <= i < |order| ==>
      IsEnd(h, order[i], c) && order[i] in r.channels && r.channels[order[i]] == h.channels[order[i]]
  }

  lemma OthersStillOpen(h: Hub, r: Hub, c: Name, device: Name, order: seq<Name>)
    requires order != [] && NoneTwice(order) && StillOpen(h, r, c, order)
    ensures
      var n := DropChannel(r, device, c, order[0]);
      n.connections == r.connections && StillOpen(h, n, c, order[1..]) && NoneTwice(order[1..])
  {
    var n := DropChannel(r, device, c, order[0]);
    assert n.channels == r.channels - {order[0]};
    hide DropChannel;
    forall i | 0 <= i < |order[1..]|
      ensures IsEnd(h, order[1..][i], c) && order[1..][i] in n.channels && n.channels[order[1..][i]] == h.channels[order[1..][i]]
    {
      assert order[1..][i] == order[i + 1];
    }
  }

  lemma {:induction false} AllFarewells(h: Hub, r: Hub, c: Name, device: Name, order: seq<Name>)
    requires ChannelsOk(h) && c in h.live && h.live[c] == device
    requires NoneTwice(order) && StillOpen(h, r, c, order) && LeftTable(h, r, device, c)
    ensures DropChannels(r, device, c, order).log == r.log + Farewells(h, c, order)
    decreases |order|
  {
    if order == [] {
      assert r.log + [] == r.log;
    } else {
      var ch, rest := order[0], order[1..];
      assert StillOpen(h, r, c, [ch]) && IsEnd(h, ch, c);
      hide ChannelsOk, LeftTable;
      OneFarewell(h, r, c, device, ch);
      OthersStillOpen(h, r, c, device, order);
      hide DropChannel, StillOpen, NoneTwice, Farewell, IsEnd;
      var n := DropChannel(r, device, c, ch);
      SameTable(h, r, n, device, c);
      AllFarewells(h, n, c, device, rest);
    }
  }

  lemma SameTable(h: Hub, r: Hub, n: Hub, device: Name, c: Name)
    requires LeftTable(h, r, device, c) && n.connections == r.connections
    ensures LeftTable(h, n, device, c)
  {
  }

  lemma TableWithout(h: Hub, r: Hub, device: Name, c: Name)
    requires r.connections == RemovedFromTable(h, device, c).connections
    ensures LeftTable(h, r, device, c)
  {
  }

  lemma AffectedAreOpen(h: Hub, r: Hub, c: Name, order: seq<Name>)
    requires ChannelsOk(h) && c in h.live && r.channels == h.channels
    requires forall ch :: ch in order ==> ch in Affected(h, h.live[c], c)
    ensures StillOpen(h, r, c, order)
  {
    forall i | 0 <= i < |order|
      ensures IsEnd(h, order[i], c) && order[i] in r.channels && r.channels[order[i]] == h.channels[order[i]]
    {
      assert order[i] in Affected(h, h.live[c], c);
      EndsByName(h, order[i], c);
    }
  }

  lemma DisconnectSays(h: Hub, c: Name, closed: set<Name>, order: seq<Name>)
    requires ChannelsOk(h) && c in h.live && NoneTwice(order)
    requires forall ch :: ch in order ==> ch in Affected(h, h.live[c], c)
    ensures Disconnect(h, h.live[c], c, closed, order).log == h.log + (Farewells(h, c, order) + [Disconnected(c)])
  {
    var device := h.live[c];
    RemovalTables(h, device, c, closed);
    hide RemoveEntry, DropChannels, Farewells;
    var r := RemoveEntry(h, device, c, closed);
    AffectedAreOpen(h, r, c, order);
    TableWithout(h, r, device, c);
    hide RemovedFromTable, ChannelsOk, Affected, LeftTable, StillOpen, NoneTwice;
    AllFarewells(h, r, c, device, order);
  }

  /** Exactly the channels of the socket are gone. */
  lemma DisconnectLeaves(h: Hub, c: Name, closed: set<Name>, order: seq<Name>)
    requires Inv(h) && c in h.live && forall ch :: ch in order <==> ch in Affected(h, h.live[c], c)
    ensures Disconnect(h, h.live[c], c, closed, order).channels
         == map ch | ch in h.channels && !IsEnd(h, ch, c) :: h.channels[ch]
  {
    var device := h.live[c];
    EndsAreAffected(h, c);
    hide ChannelsOk, IndexOk, LogOk;
    RemoveEntryKeepsInv(h, device, c, closed);
    hide Inv, RemoveEntry, DropChannels, IsEnd, Affected;
    var r := RemoveEntry(h, device, c, closed);
    RemovalTables(h, device, c, closed);
    DropChannelsKeepsInv(r, device, c, order);
    OnlyOthersLeft(h, DropChannels(r, device, c, order), c, order);
  }

  lemma EndsAreAffected(h: Hub, c: Name)
    requires ChannelsOk(h) && c in h.live
    ensures forall ch :: ch in Affected(h, h.live[c], c) <==> IsEnd(h, ch, c)
  {
    forall ch | ch in h.channels
      ensures ch in Affected(h, h.live[c], c) <==> IsEnd(h, ch, c)
    {
      EndsByName(h, ch, c);
    }
  }

  lemma OnlyOthersLeft(h: Hub, n: Hub, c: Name, order: seq<Name>)
    requires forall ch :: ch in order <==> IsEnd(h, ch, c)
    requires forall ch :: ch in n.channels <==> ch in h.channels && ch !in order
    requires forall ch :: ch in n.channels ==> n.channels[ch] == h.channels[ch]
    ensures n.channels == map ch | ch in h.channels && !IsEnd(h, ch, c) :: h.channels[ch]
  {
    hide IsEnd;
  }

  // ---- every step of a run

  /**
     A step adds to the history and to the channel table exactly what is said above: an acceptance and a
     rejection are passed to the source, a close and the notice of a departure to the other end, a
     refusal and a pong to their cause, each once, and only if the table knows the socket.
   */
  lemma StepSaysExactly(states: seq<Hub>, events: seq<Event>, i: nat)
    requires Run(states, events) && i < |events|
    ensures Enabled(states[i], events[i])
    ensures Said(states[i], events[i]).Some? ==>
      && states[i + 1].log == states[i].log + Said(states[i], events[i]).value
      && states[i + 1].channels == NextChannels(states[i], events[i])
  {
    RunKeepsInv(states, events, i);
    var h, ev := states[i], events[i];
    assert states[i + 1] == Step(h, ev);
    hide Run;
    EachSays(h, ev);
    hide Inv, Step, Said, NextChannels;
  }

  lemma EachSays(h: Hub, ev: Event)
    requires Inv(h) && Enabled(h, ev)
    ensures Said(h, ev).Some? ==>
      Step(h, ev).log == h.log + Said(h, ev).value && Step(h, ev).channels == NextChannels(h, ev)
  {
    hide IndexOk, ChannelsOk, LogOk, Disconnect, Accept, Reject, SendData, CloseChannel, Open, Register, NoteOpened, OpenRound, CleanUp;
    hide Farewells, Farewell, Told, IsEnd, IsItsTarget, Recipient, OtherEnd;
    match ev
    case AcceptEvent(c, ch) => AcceptSays(h, c, ch);
    case RejectEvent(c, ch, reason) => RejectSays(h, c, ch, reason);
    case DataEvent(c, ch, payload) => DataSays(h, c, ch, payload);
    case CloseEvent(c, ch, note) => CloseSays(h, c, ch, note);
    case DisconnectEvent(c, closed, order) =>
      DisconnectSays(h, c, closed, order);
      DisconnectLeaves(h, c, closed, order);
    case OpenEvent(c, ch, authorization, closed, seen) =>
      if authorization.Denied? {
        DeniedSays(h, c, ch, authorization.reason, closed, seen);
      }
    case RefuseEvent(c, ch, reason) => HandSays(h, h.live[c], c, ChannelRejected(ch, reason));
    case PingEvent(c) => HandSays(h, h.live[c], c, Pong);
    case _ =>
  }

  /** A reset forgets every connection, channel and preference; sockets stay up, and numbers go on. */
  lemma ResetForgetsAll(h: Hub)
    ensures
      var n := Reset(h);
      && (forall d, c :: !InTable(n, d, c)) && n.channels == map[] && n.preferred == map[]
      && n.live == h.live && n.retired == h.retired && n.nextSequence == h.nextSequence
  {
  }

  lemma HandSays(h: Hub, device: Name, connection: Name, m: Message)
    ensures var n := Hand(h, device, connection, m);
      n.log == h.log + Told(h, device, connection, m) && n.channels == h.channels
  {
  }
}
