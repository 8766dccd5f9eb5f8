/** The relay hub as the object whose tables every handler updates in place. */
module RelayService {
  import opened Common
  import opened RelayModel
  import opened RelayInvariant
  import opened RelayOpen
  import opened RelayHistory

  /** No two connections were registered with the same number. */
  ghost predicate Distinct(connections: map<Name, Connection>) {
    forall a, b :: a in connections && b in connections && a != b ==>
      connections[a].registration != connections[b].registration
  }

  ghost predicate Numbered(connections: map<Name, Connection>, next: nat) {
    && Distinct(connections)
    && forall c :: c in connections ==> connections[c].registration < next
  }

  lemma NewestIsUnique(connections: map<Name, Connection>, candidates: set<Name>, best: Option<Name>)
    requires Distinct(connections)
    requires if best.Some? then IsNewest(connections, candidates, best.value) else candidates == {}
    ensures Newest(connections, candidates) == best
  {
    NewestIsCandidate(connections, candidates);
  }

  /** The candidate with the largest registration number, as `max_by_key` finds it. */
  method FindNewest(connections: map<Name, Connection>, candidates: set<Name>) returns (best: Option<Name>)
    requires Distinct(connections) && candidates <= connections.Keys
    ensures best == Newest(connections, candidates)
    ensures if best.Some? then IsNewest(connections, candidates, best.value) else candidates == {}
  {
    best := None;
    var remaining := candidates;
    while remaining != {}
      invariant remaining <= candidates
      invariant if best.Some? then IsNewest(connections, candidates - remaining, best.value) else remaining == candidates
      decreases remaining
    {
      var c :| c in remaining;
      if best.None? || connections[best.value].registration < connections[c].registration {
        best := Some(c);
      }
      remaining := remaining - {c};
    }
    assert candidates - remaining == candidates;
    NewestIsUnique(connections, candidates, best);
  }

  lemma {:induction false} DropOneMore(h: Hub, device: Name, connection: Name, order: seq<Name>, channel: Name)
    ensures var d := DropChannels(h, device, connection, order);
      DropChannels(h, device, connection, order + [channel])
        == if channel in d.channels then DropChannel(d, device, connection, channel) else d
    decreases |order|
  {
    if order == [] {
      assert ([] + [channel])[1..] == [];
    } else {
      assert (order + [channel])[1..] == order[1..] + [channel];
      var first := if order[0] in h.channels then DropChannel(h, device, connection, order[0]) else h;
      DropOneMore(first, device, connection, order[1..], channel);
    }
  }

  lemma AppendOnce(order: seq<Name>, channel: Name)
    requires NoneTwice(order) && channel !in order
    ensures NoneTwice(order + [channel])
  {
  }

  lemma NothingDropped(h: Hub, device: Name, connection: Name)
    ensures DropChannels(h, device, connection, []) == h
  {
  }

  lemma DroppedIsGone(h: Hub, device: Name, connection: Name, channel: Name)
    requires channel in h.channels
    ensures DropChannel(h, device, connection, channel).channels == h.channels - {channel}
  {
  }

  class RelayHub {
    var connections: map<Name, map<Name, Connection>>
    var channels: map<Name, Entry>
    var nextSequence: nat
    var preferred: map<Name, Name>
    ghost var live: map<Name, Name>
    ghost var retired: set<Name>
    ghost var highWater: map<Name, int>
    ghost var log: seq<Item>

    ghost function State(): Hub
      reads this
    {
      Hub(connections, channels, nextSequence, preferred, live, retired, highWater, log)
    }

    ghost predicate Valid()
      reads this
    {
      forall d :: d in connections ==> Numbered(connections[d], nextSequence)
    }

    constructor ()
      ensures Valid() && State() == EMPTY_HUB
    {
      connections, channels, nextSequence, preferred := map[], map[], 0, map[];
      live, retired, highWater, log := map[], {}, map[], [];
    }

    predicate Knows(device: Name, connection: Name)
      reads this
    {
      device in connections && connection in connections[device]
    }

    method SendToConnection(device: Name, connection: Name, message: Message)
      requires Valid()
      modifies this`log
      ensures Valid() && State() == Hand(old(State()), device, connection, message)
    {
      if Knows(device, connection) {
        log := log + [Handed(connection, message)];
      }
    }

    method MaybePromoteNewerLegacyConnection(device: Name, above: int, closed: set<Name>)
      requires Valid()
      modifies this`preferred, this`highWater
      ensures Valid() && State() == Promote(old(State()), device, above, closed)
    {
      if device !in connections {
        return;
      }
      var replacement := FindNewest(connections[device], LegacyCandidates(connections[device], closed, above));
      if replacement.Some? {
        preferred := preferred[device := replacement.value];
        highWater := highWater[device := connections[device][replacement.value].registration];
      }
    }

    method RefreshPreferredLegacyConnection(device: Name, closed: set<Name>)
      requires Valid()
      modifies this`preferred, this`highWater
      ensures Valid() && State() == Refresh(old(State()), device, closed)
    {
      if device !in preferred {
        return;
      }
      var p := preferred[device];
      if !Knows(device, p) {
        preferred := preferred - {device};
        return;
      }
      var c := connections[device][p];
      if !IsIdleLegacy(c) || p in closed {
        preferred := preferred - {device};
        MaybePromoteNewerLegacyConnection(device, c.registration, closed);
      }
    }

    method PickIncomingConnection(device: Name, closed: set<Name>) returns (choice: Option<Name>)
      requires Valid()
      modifies this`preferred, this`highWater
      ensures Valid() && (State(), choice) == Pick(old(State()), device, closed)
    {
      if device !in connections {
        return None;
      }
      choice := FindNewest(connections[device], ExplicitCandidates(connections[device], closed));
      if choice.Some? {
        return;
      }
      RefreshPreferredLegacyConnection(device, closed);
      if device !in preferred || !Knows(device, preferred[device]) {
        return None;
      }
      var p := preferred[device];
      if !IsIdleLegacy(connections[device][p]) || p in closed {
        return None;
      }
      return Some(p);
    }

    method RemoveConnectionEntry(device: Name, connection: Name, closed: set<Name>)
      requires Valid()
      modifies this`connections, this`preferred, this`highWater
      ensures Valid() && State() == RemoveEntry(old(State()), device, connection, closed)
    {
      var number := if Knows(device, connection) then Some(connections[device][connection].registration) else None;
      var wasPreferred := device in preferred && preferred[device] == connection;
      var removeDevice := false;
      ghost var before := connections;
      if device in connections {
        connections := connections[device := connections[device] - {connection}];
        removeDevice := connections[device] == map[];
        EmptyAfterRemoval(before[device], connection);
      }
      if removeDevice {
        connections := connections - {device};
        preferred := preferred - {device};
        assert connections == before - {device};
      } else if wasPreferred {
        preferred := preferred - {device};
        if number.Some? {
          MaybePromoteNewerLegacyConnection(device, number.value, closed);
        }
      }
    }

    method MaybeAssignPreferredLegacyConnection(device: Name, connection: Name, closed: set<Name>)
      requires Valid()
      modifies this`preferred, this`highWater
      ensures Valid() && State() == Assign(old(State()), device, connection, closed)
    {
      RefreshPreferredLegacyConnection(device, closed);
      if device in preferred || !Knows(device, connection) {
        return;
      }
      if IsIdleLegacy(connections[device][connection]) && connection !in closed {
        preferred := preferred[device := connection];
        highWater := highWater[device := connections[device][connection].registration];
      }
    }

    method RegisterDevice(device: Name, connection: Name, incoming: Option<bool>, closed: set<Name>)
      requires Valid()
      modifies this
      ensures Valid() && State() == Register(old(State()), device, connection, incoming, closed)
    {
      AddConnection(device, connection, FromQuery(incoming));
      hide Assign, Valid;
      MaybeAssignPreferredLegacyConnection(device, connection, closed);
    }

    /** The table entry of a new connection, under the next registration number. */
    method AddConnection(device: Name, connection: Name, support: Support)
      requires Valid()
      modifies this`connections, this`nextSequence, this`live, this`log
      ensures Valid() && State() == Added(old(State()), device, connection, support)
    {
      var entry := Connection(support, nextSequence, false);
      var known := if device in connections then connections[device] else map[];
      assert Numbered(known, nextSequence);
      NumberedAfterInsert(known, connection, entry);
      connections := connections[device := known[connection := entry]];
      nextSequence := nextSequence + 1;
      live := live[connection := device];
      log := log + [Connected(connection)];
      hide Distinct;
    }

    method DisconnectDevice(device: Name, connection: Name, closed: set<Name>) returns (ghost order: seq<Name>)
      requires Valid()
      modifies this
      ensures Valid() && State() == Disconnect(old(State()), device, connection, closed, order)
      ensures NoneTwice(order)
      ensures forall channel :: channel in order <==> channel in Affected(old(State()), device, connection)
    {
      RemovalTables(old(State()), device, connection, closed);
      RemoveConnectionEntry(device, connection, closed);
      hide RemoveEntry, DropChannels;
      order := DropAllAffected(device, connection);
      live := live - {connection};
      retired := retired + {connection};
      log := log + [Disconnected(connection)];
    }

    /** Removes the channels of a socket that went away, in the order in which the table yields them. */
    method DropAllAffected(device: Name, connection: Name) returns (ghost order: seq<Name>)
      requires Valid()
      modifies this`channels, this`log
      ensures Valid() && State() == DropChannels(old(State()), device, connection, order)
      ensures NoneTwice(order)
      ensures forall channel :: channel in order <==> channel in Affected(old(State()), device, connection)
    {
      ghost var before := State();
      var affected := set channel | channel in channels && Involves(channels[channel], device, connection);
      ghost var all := affected;
      order := [];
      hide DropChannels, DropChannel;
      NothingDropped(before, device, connection);
      while affected != {}
        invariant Valid() && affected <= all
        invariant State() == DropChannels(before, device, connection, order)
        invariant NoneTwice(order)
        invariant forall channel :: channel in order <==> channel in all - affected
        invariant affected <= channels.Keys
        decreases affected
      {
        var channel :| channel in affected;
        DropOneMore(before, device, connection, order, channel);
        DroppedIsGone(State(), device, connection, channel);
        AppendOnce(order, channel);
        affected := affected - {channel};
        order := order + [channel];
        DropAffected(device, connection, channel);
      }
    }

    method DropAffected(device: Name, connection: Name, channel: Name)
      requires Valid() && channel in channels
      modifies this`channels, this`log
      ensures Valid() && State() == DropChannel(old(State()), device, connection, channel)
    {
      var e := channels[channel];
      channels := channels - {channel};
      log := log + [Removed(channel)];
      if IsSource(e, device, connection) {
        SendToConnection(e.targetDevice, e.targetConnection, ChannelClose(channel, Some("peer disconnected")));
      } else {
        SendToConnection(e.sourceDevice, e.sourceConnection, ChannelClose(channel, Some("peer disconnected")));
      }
    }

    method Reset()
      requires Valid()
      modifies this
      ensures Valid() && State() == RelayModel.Reset(old(State()))
      ensures forall device, connection :: !Knows(device, connection)
    {
      connections, channels, preferred := map[], map[], map[];
      log := log + [Cleared];
    }

    method NoteConnectionOpenedChannel(device: Name, connection: Name, closed: set<Name>)
      requires Valid()
      modifies this`connections, this`preferred, this`highWater
      ensures Valid() && State() == NoteOpened(old(State()), device, connection, closed)
    {
      var wasPreferred := device in preferred && preferred[device] == connection;
      if !Knows(device, connection) {
        return;
      }
      var c := connections[device][connection];
      var marked := c.(originated := true);
      if c.support.LegacyUnknown? {
        marked := marked.(support := ExplicitNo);
      }
      connections := connections[device := connections[device][connection := marked]];
      if wasPreferred {
        preferred := preferred - {device};
        MaybePromoteNewerLegacyConnection(device, c.registration, closed);
      }
    }

    method HandleOpenChannel(
      device: Name, connection: Name, channel: Name, authorization: Authorization,
      closed: set<Name>, seen: nat -> Observation)
      requires Valid()
      modifies this
      ensures Valid() && State() == Open(old(State()), device, connection, channel, authorization, closed, seen)
    {
      NoteConnectionOpenedChannel(device, connection, closed);
      match authorization
      case Denied(reason) => SendToConnection(device, connection, ChannelRejected(channel, reason));
      case Granted(owner) => OfferToTarget(device, connection, channel, owner, seen);
    }

    /** Offers the channel to one connection of the owner after another until a send succeeds. */
    method OfferToTarget(device: Name, connection: Name, channel: Name, owner: Name, seen: nat -> Observation)
      requires Valid()
      modifies this
      ensures Valid() && State() == OpenLoop(old(State()), device, connection, channel, owner, seen, 0)
    {
      hide OpenLoop, OpenRound, CleanUp;
      var i := 0;
      while true
        invariant Valid()
        invariant OpenLoop(State(), device, connection, channel, owner, seen, i)
               == OpenLoop(old(State()), device, connection, channel, owner, seen, 0)
        decreases ConnectionCount(State(), owner)
      {
        ghost var h := State();
        LoopIsRounds(h, device, connection, channel, owner, seen, i);
        var target := OfferRound(device, connection, channel, owner, seen(i));
        if target.None? {
          return;
        }
        FailedRoundShrinks(h, device, connection, channel, owner, seen(i));
        Withdraw(channel, owner, target.value, seen(i).closedAtRemoval);
        i := i + 1;
      }
    }

    /** One critical section and the send after it; the result is the target of an offer that could not be sent. */
    method OfferRound(device: Name, connection: Name, channel: Name, owner: Name, seen: Observation)
      returns (target: Option<Name>)
      requires Valid()
      modifies this`channels, this`log, this`preferred, this`highWater
      ensures Valid() && State() == OpenRound(old(State()), device, connection, channel, owner, seen)
      ensures target.Some? <==> channel !in old(channels) && channel in channels && seen.sendFails
      ensures target.Some? ==> target.value == channels[channel].targetConnection
      ensures forall ch :: ch in old(channels) ==> ch in channels && channels[ch] == old(channels)[ch]
    {
      hide Pick, Hand;
      if channel in channels {
        SendToConnection(device, connection, ChannelRejected(channel, CHANNEL_EXISTS));
        return None;
      }
      var choice := PickIncomingConnection(owner, seen.closedAtPick);
      if choice.None? {
        SendToConnection(device, connection, ChannelRejected(channel, NO_CONNECTION));
        return None;
      }
      channels := channels[channel := Entry(device, connection, owner, choice.value, false)];
      log := log + [Opened(channel, channels[channel])];
      if seen.sendFails {
        return choice;
      }
      log := log + [Handed(choice.value, IncomingChannel(channel, device))];
      return None;
    }

    /** Takes back an offer that could not be sent, together with the connection it was made to. */
    method Withdraw(channel: Name, owner: Name, target: Name, closed: set<Name>)
      requires Valid()
      modifies this`connections, this`preferred, this`highWater, this`channels, this`log
      ensures Valid() && State() == CleanUp(old(State()), channel, owner, target, closed)
    {
      RemoveConnectionEntry(owner, target, closed);
      channels := channels - {channel};
      log := log + [Removed(channel)];
    }

    method HandleChannelAccepted(device: Name, connection: Name, channel: Name)
      requires Valid()
      modifies this`channels, this`log
      ensures Valid() && State() == Accept(old(State()), device, connection, channel)
      ensures channels.Keys == old(channels).Keys && channels - {channel} == old(channels) - {channel}
      ensures channels != old(channels) || log != old(log) ==> IsTarget(channels[channel], device, connection)
      ensures forall i :: |old(log)| <= i < |log| && log[i].Handed? ==> log[i].recipient == channels[channel].sourceConnection
    {
      if channel !in channels || !IsTarget(channels[channel], device, connection) {
        return;
      }
      var e := channels[channel];
      channels := channels[channel := e.(accepted := true)];
      log := log + [Confirmed(channel)];
      SendToConnection(e.sourceDevice, e.sourceConnection, ChannelAccepted(channel));
    }

    method HandleChannelRejected(device: Name, connection: Name, channel: Name, reason: string)
      requires Valid()
      modifies this`channels, this`log
      ensures Valid() && State() == Reject(old(State()), device, connection, channel, reason)
      ensures channels - {channel} == old(channels) - {channel}
      ensures channel in channels ==> !IsTarget(channels[channel], device, connection)
      ensures channel in old(channels) && !IsTarget(old(channels)[channel], device, connection) ==> channel in channels
    {
      if channel !in channels || !IsTarget(channels[channel], device, connection) {
        return;
      }
      var e := channels[channel];
      channels := channels - {channel};
      log := log + [Removed(channel)];
      SendToConnection(e.sourceDevice, e.sourceConnection, ChannelRejected(channel, reason));
    }

    method HandleChannelData(device: Name, connection: Name, channel: Name, payload: string)
      requires Valid()
      modifies this`log
      ensures Valid() && State() == SendData(old(State()), device, connection, channel, payload)
      ensures log == old(log) ||
        (channel in channels && channels[channel].accepted
         && exists recipient :: log == old(log) + [Handed(recipient, ChannelData(channel, payload, connection))]
              && OppositeEnds(channels[channel], connection, recipient))
    {
      if channel !in channels || !channels[channel].accepted {
        return;
      }
      var e := channels[channel];
      if IsSource(e, device, connection) {
        SendToConnection(e.targetDevice, e.targetConnection, ChannelData(channel, payload, connection));
      } else if IsTarget(e, device, connection) {
        SendToConnection(e.sourceDevice, e.sourceConnection, ChannelData(channel, payload, connection));
      }
    }

    method HandleChannelClose(device: Name, connection: Name, channel: Name, reason: Option<string>)
      requires Valid()
      modifies this`channels, this`log
      ensures Valid() && State() == CloseChannel(old(State()), device, connection, channel, reason)
      ensures channels - {channel} == old(channels) - {channel}
      ensures channel in channels ==> !Involves(channels[channel], device, connection)
      ensures channel in old(channels) && !Involves(old(channels)[channel], device, connection) ==> channel in channels
    {
      if channel !in channels {
        return;
      }
      var e := channels[channel];
      var peerDevice, peerConnection;
      if IsSource(e, device, connection) {
        peerDevice, peerConnection := e.targetDevice, e.targetConnection;
      } else if IsTarget(e, device, connection) {
        peerDevice, peerConnection := e.sourceDevice, e.sourceConnection;
      } else {
        return;
      }
      channels := channels - {channel};
      log := log + [Removed(channel)];
      SendToConnection(peerDevice, peerConnection, ChannelClose(channel, reason));
    }

    method HandlePing(device: Name, connection: Name)
      requires Valid()
      modifies this`log
      ensures Valid() && State() == Hand(old(State()), device, connection, Pong)
    {
      SendToConnection(device, connection, Pong);
    }
  }

  lemma EmptyAfterRemoval(m: map<Name, Connection>, connection: Name)
    ensures m - {connection} == map[] <==> m.Keys <= {connection}
  {
    assert (m - {connection}).Keys == m.Keys - {connection};
    if m.Keys <= {connection} {
      assert m - {connection} == map[];
    } else {
      var c :| c in m.Keys && c !in {connection};
      assert c in m - {connection};
    }
  }

  lemma NumberedAfterInsert(m: map<Name, Connection>, connection: Name, entry: Connection)
    requires Numbered(m, entry.registration)
    ensures Numbered(m[connection := entry], entry.registration + 1)
  {
  }
}
