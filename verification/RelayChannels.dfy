/** The steps that open, use and end channels keep the hub's invariant, and what an open request comes to. */
module RelayChannels {
  import opened Common
  import opened RelayModel
  import opened RelayInvariant
  import opened RelaySteps

  lemma IndexUntouched(h: Hub, n: Hub)
    requires IndexOk(h)
    requires n.connections == h.connections && n.live == h.live && n.nextSequence == h.nextSequence
    requires n.preferred == h.preferred && n.highWater == h.highWater
    ensures IndexOk(n) && Rises(h, n)
  {
    SameTableOk(h, n);
    hide TableOk;
  }

  lemma RemoveChannelKeepsInv(h: Hub, channel: Name)
    requires Inv(h)
    ensures var n := UndoChannel(h, channel); Inv(n) && Replay(n.log, channel).None?
  {
    var n := UndoChannel(h, channel);
    IndexUntouched(h, n);
    hide IndexOk;
    ReplaySnoc(h.log, Removed(channel), channel);
    NotingKeepsLog(h, n, Removed(channel));
    hide LogOk;
  }

  /** Once a channel is gone its other end may be told so. */
  lemma NoticeKeepsInv(h: Hub, device: Name, connection: Name, channel: Name, note: Option<string>)
    requires Inv(h) && Replay(h.log, channel).None?
    ensures Inv(Hand(h, device, connection, ChannelClose(channel, note)))
  {
    HandKeepsInv(h, device, connection, ChannelClose(channel, note));
  }

  // ---- disconnecting

  lemma DropChannelKeepsInv(h: Hub, device: Name, connection: Name, channel: Name)
    requires Inv(h) && channel in h.channels
    ensures var n := DropChannel(h, device, connection, channel);
      Inv(n) && n.(log := h.log, channels := h.channels) == h && n.channels == h.channels - {channel}
  {
    hide Inv, Replay;
    RemoveChannelKeepsInv(h, channel);
    var u, e := UndoChannel(h, channel), h.channels[channel];
    NoticeKeepsInv(u, e.targetDevice, e.targetConnection, channel, Some("peer disconnected"));
    NoticeKeepsInv(u, e.sourceDevice, e.sourceConnection, channel, Some("peer disconnected"));
  }

  lemma {:induction false} DropChannelsKeepsInv(h: Hub, device: Name, connection: Name, order: seq<Name>)
    requires Inv(h)
    ensures var n := DropChannels(h, device, connection, order);
      && Inv(n) && n.(log := h.log, channels := h.channels) == h
      && forall ch :: ch in n.channels <==> ch in h.channels && ch !in order
    ensures var n := DropChannels(h, device, connection, order);
      forall ch :: ch in n.channels ==> n.channels[ch] == h.channels[ch]
    decreases |order|
  {
    hide Inv;
    if order != [] {
      var m := if order[0] in h.channels then DropChannel(h, device, connection, order[0]) else h;
      if order[0] in h.channels {
        DropChannelKeepsInv(h, device, connection, order[0]);
      }
      DropChannelsKeepsInv(m, device, connection, order[1..]);
      assert forall ch :: ch in order <==> ch == order[0] || ch in order[1..];
    }
  }

  /** A socket that is in no table entry and no channel can go. */
  lemma RetireKeepsInv(h: Hub, device: Name, connection: Name)
    requires Inv(h) && SocketUp(h, device, connection) && !InTable(h, device, connection)
    requires forall ch :: ch in h.channels ==> !Involves(h.channels[ch], device, connection)
    ensures Inv(Retired(h, connection)) && Rises(h, Retired(h, connection))
  {
    hide TableOk, PreferredOk, ChannelsOk, LogOk;
    var n := Retired(h, connection);
    RetireKeepsTable(h, device, connection);
    RetireKeepsPreferred(h, connection);
    RetireKeepsChannels(h, device, connection);
    NotingKeepsLog(h, n, Disconnected(connection));
  }

  lemma RetireKeepsTable(h: Hub, device: Name, connection: Name)
    requires TableOk(h) && SocketUp(h, device, connection) && !InTable(h, device, connection)
    ensures TableOk(Retired(h, connection))
  {
    var n := Retired(h, connection);
    forall d | d in n.connections
      ensures DeviceOk(n.connections[d], d, n.live, n.nextSequence)
    {
      DeviceWithoutSocket(h.connections[d], d, h.live, h.nextSequence, connection, device);
    }
  }

  lemma DeviceWithoutSocket(m: map<Name, Connection>, d: Name, live: map<Name, Name>, next: nat, c: Name, device: Name)
    requires DeviceOk(m, d, live, next) && c in live && live[c] == device && (d == device ==> c !in m)
    ensures DeviceOk(m, d, live - {c}, next)
  {
  }

  lemma RetireKeepsPreferred(h: Hub, connection: Name)
    requires PreferredOk(h)
    ensures PreferredOk(Retired(h, connection)) && Rises(h, Retired(h, connection))
  {
    var n := Retired(h, connection);
    assert forall d, c :: InTable(n, d, c) <==> InTable(h, d, c);
  }

  lemma RetireKeepsChannels(h: Hub, device: Name, connection: Name)
    requires ChannelsOk(h) && SocketUp(h, device, connection)
    requires forall ch :: ch in h.channels ==> !Involves(h.channels[ch], device, connection)
    ensures ChannelsOk(Retired(h, connection))
  {
  }

  ghost function Retired(h: Hub, connection: Name): Hub {
    Noting(h, Disconnected(connection)).(live := h.live - {connection}, retired := h.retired + {connection})
  }

  lemma RemovalTakesItOut(h: Hub, device: Name, connection: Name, closed: set<Name>)
    ensures var r := RemoveEntry(h, device, connection, closed);
      SameHistory(h, r) && !InTable(r, device, connection)
  {
    RemovalTables(h, device, connection, closed);
    hide RemoveEntry;
  }

  lemma DisconnectKeepsInv(h: Hub, device: Name, connection: Name, closed: set<Name>, order: seq<Name>)
    requires Inv(h) && SocketUp(h, device, connection)
    requires forall ch :: ch in order <==> ch in Affected(h, device, connection)
    ensures var n := Disconnect(h, device, connection, closed, order); Inv(n) && Rises(h, n)
  {
    hide Inv, Rises;
    var r := RemoveEntry(h, device, connection, closed);
    RemoveEntryKeepsInv(h, device, connection, closed);
    RemovalTakesItOut(h, device, connection, closed);
    hide RemoveEntry;
    var d := DropChannels(r, device, connection, order);
    DropChannelsKeepsInv(r, device, connection, order);
    RetireKeepsInv(d, device, connection);
    assert Disconnect(h, device, connection, closed, order) == Retired(d, connection);
    RisesAlong(h, r, d, Retired(d, connection));
  }

  lemma RisesAlong(h: Hub, r: Hub, d: Hub, n: Hub)
    requires Rises(h, r) && Inv(r)
    requires d.highWater == r.highWater && d.preferred == r.preferred
    requires n.highWater == d.highWater && n.preferred == d.preferred
    ensures Rises(h, n)
  {
  }

  lemma ResetKeepsInv(h: Hub)
    requires Inv(h)
    ensures Inv(Reset(h)) && Rises(h, Reset(h))
  {
    NotingKeepsLog(h, Reset(h), Cleared);
    hide LogOk;
  }

  // ---- using a channel

  lemma AcceptKeepsInv(h: Hub, device: Name, connection: Name, channel: Name)
    requires Inv(h)
    ensures var n := Accept(h, device, connection, channel); Inv(n) && Rises(h, n)
  {
    if channel in h.channels && IsTarget(h.channels[channel], device, connection) {
      var e := h.channels[channel];
      var n := Noting(h.(channels := h.channels[channel := e.(accepted := true)]), Confirmed(channel));
      ConfirmKeepsInv(h, n, channel);
      hide Inv, Replay;
      HandKeepsInv(n, e.sourceDevice, e.sourceConnection, ChannelAccepted(channel));
    }
  }

  lemma ConfirmKeepsInv(h: Hub, n: Hub, channel: Name)
    requires Inv(h) && channel in h.channels
    requires n == Noting(h.(channels := h.channels[channel := h.channels[channel].(accepted := true)]), Confirmed(channel))
    ensures Inv(n) && Rises(h, n)
    ensures Replay(n.log, channel) == Some(h.channels[channel].(accepted := true))
  {
    hide IndexOk, ChannelsOk, Rises;
    IndexUntouched(h, n);
    ConfirmKeepsChannels(h, n, channel);
    ReplaySnoc(h.log, Confirmed(channel), channel);
    assert Replay(h.log, channel) == Some(h.channels[channel]);
    hide Replay;
    NotingKeepsLog(h, n, Confirmed(channel));
  }

  lemma ConfirmKeepsChannels(h: Hub, n: Hub, channel: Name)
    requires ChannelsOk(h) && channel in h.channels && n.live == h.live && n.retired == h.retired
    requires n.channels == h.channels[channel := h.channels[channel].(accepted := true)]
    ensures ChannelsOk(n)
  {
  }

  lemma RejectKeepsInv(h: Hub, device: Name, connection: Name, channel: Name, reason: string)
    requires Inv(h)
    ensures var n := Reject(h, device, connection, channel, reason); Inv(n) && Rises(h, n)
  {
    if channel in h.channels && IsTarget(h.channels[channel], device, connection) {
      var e := h.channels[channel];
      RemoveChannelKeepsInv(h, channel);
      hide Inv, Replay;
      HandKeepsInv(UndoChannel(h, channel), e.sourceDevice, e.sourceConnection, ChannelRejected(channel, reason));
    }
  }

  lemma CloseKeepsInv(h: Hub, device: Name, connection: Name, channel: Name, reason: Option<string>)
    requires Inv(h)
    ensures var n := CloseChannel(h, device, connection, channel, reason); Inv(n) && Rises(h, n)
  {
    if channel in h.channels && Involves(h.channels[channel], device, connection) {
      var e := h.channels[channel];
      RemoveChannelKeepsInv(h, channel);
      hide Inv, Replay;
      var u := UndoChannel(h, channel);
      NoticeKeepsInv(u, e.targetDevice, e.targetConnection, channel, reason);
      NoticeKeepsInv(u, e.sourceDevice, e.sourceConnection, channel, reason);
    }
  }

  /** Data reaches the opposite end and nobody else, exactly as submitted, and only once accepted. */
  lemma EntryReplays(h: Hub, channel: Name)
    requires Inv(h) && channel in h.channels
    ensures Replay(h.log, channel) == Some(h.channels[channel])
  {
  }

  lemma SendDataKeepsInv(h: Hub, device: Name, connection: Name, channel: Name, payload: string)
    requires Inv(h)
    ensures var n := SendData(h, device, connection, channel, payload); Inv(n) && Rises(h, n)
  {
    if channel in h.channels && h.channels[channel].accepted {
      var e := h.channels[channel];
      var m := ChannelData(channel, payload, connection);
      EntryReplays(h, channel);
      hide Inv, Replay;
      if IsSource(e, device, connection) {
        HandKeepsInv(h, e.targetDevice, e.targetConnection, m);
      } else if IsTarget(e, device, connection) {
        HandKeepsInv(h, e.sourceDevice, e.sourceConnection, m);
      }
    }
  }

  lemma RejectionKeepsInv(h: Hub, device: Name, connection: Name, channel: Name, reason: string)
    requires Inv(h)
    ensures Inv(Hand(h, device, connection, ChannelRejected(channel, reason)))
  {
    HandKeepsInv(h, device, connection, ChannelRejected(channel, reason));
  }
}
