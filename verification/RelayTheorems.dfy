/** What every run of the relay hub guarantees. */
module RelayTheorems {
  import opened Common
  import opened RelayModel
  import opened RelayInvariant
  import opened RelaySteps
  import opened RelayChannels
  import opened RelayOpen

  /**
     A step; every one but a registration is taken on behalf of a socket that is up, or by the operator.
     An open request runs undisturbed (`OpenEvent`) or as its critical sections, between which any
     other step may happen: marking the source, offering the channel round by round, clearing up after
     a round whose send failed, refusing. That a clean-up follows a failed round is not insisted on.
   */
  datatype Event =
    | RegisterEvent(device: Name, connection: Name, incoming: Option<bool>, closed: set<Name>)
    | DisconnectEvent(connection: Name, closed: set<Name>, order: seq<Name>)
    | ResetEvent
    | OpenEvent(connection: Name, channel: Name, authorization: Authorization, closed: set<Name>, seen: nat -> Observation)
    | MarkEvent(connection: Name, closed: set<Name>)
    | RoundEvent(connection: Name, channel: Name, owner: Name, observed: Observation)
    | CleanUpEvent(connection: Name, channel: Name, owner: Name, target: Name, closed: set<Name>)
    | RefuseEvent(connection: Name, channel: Name, reason: string)
    | AcceptEvent(connection: Name, channel: Name)
    | RejectEvent(connection: Name, channel: Name, reason: string)
    | DataEvent(connection: Name, channel: Name, payload: string)
    | CloseEvent(connection: Name, channel: Name, note: Option<string>)
    | PingEvent(connection: Name)

  ghost predicate Enabled(h: Hub, ev: Event) {
    match ev
    case RegisterEvent(_, c, _, _) => c !in h.live && c !in h.retired
    case DisconnectEvent(c, _, order) =>
      c in h.live && NoneTwice(order) && forall ch :: ch in order <==> ch in Affected(h, h.live[c], c)
    case ResetEvent => true
    case OpenEvent(c, _, _, _, _) => c in h.live
    case MarkEvent(c, _) => c in h.live
    case RoundEvent(c, _, _, _) => c in h.live
    case CleanUpEvent(c, _, _, _, _) => c in h.live
    case RefuseEvent(c, _, _) => c in h.live
    case AcceptEvent(c, _) => c in h.live
    case RejectEvent(c, _, _) => c in h.live
    case DataEvent(c, _, _) => c in h.live
    case CloseEvent(c, _, _) => c in h.live
    case PingEvent(c) => c in h.live
  }

  ghost function Step(h: Hub, ev: Event): Hub
    requires Enabled(h, ev)
  {
    match ev
    case RegisterEvent(d, c, incoming, closed) => Register(h, d, c, incoming, closed)
    case DisconnectEvent(c, closed, order) => Disconnect(h, h.live[c], c, closed, order)
    case ResetEvent => Reset(h)
    case OpenEvent(c, ch, authorization, closed, seen) => Open(h, h.live[c], c, ch, authorization, closed, seen)
    case MarkEvent(c, closed) => NoteOpened(h, h.live[c], c, closed)
    case RoundEvent(c, ch, owner, observed) => OpenRound(h, h.live[c], c, ch, owner, observed)
    case CleanUpEvent(_, ch, owner, target, closed) => CleanUp(h, ch, owner, target, closed)
    case RefuseEvent(c, ch, reason) => Hand(h, h.live[c], c, ChannelRejected(ch, reason))
    case AcceptEvent(c, ch) => Accept(h, h.live[c], c, ch)
    case RejectEvent(c, ch, reason) => Reject(h, h.live[c], c, ch, reason)
    case DataEvent(c, ch, payload) => SendData(h, h.live[c], c, ch, payload)
    case CloseEvent(c, ch, note) => CloseChannel(h, h.live[c], c, ch, note)
    case PingEvent(c) => Hand(h, h.live[c], c, Pong)
  }

  ghost predicate Run(states: seq<Hub>, events: seq<Event>) {
    && |states| == |events| + 1
    && states[0] == EMPTY_HUB
    && forall i :: 0 <= i < |events| ==> Enabled(states[i], events[i]) && states[i + 1] == Step(states[i], events[i])
  }

  lemma StepKeepsInv(h: Hub, ev: Event)
    requires Inv(h) && Enabled(h, ev)
    ensures Inv(Step(h, ev)) && Rises(h, Step(h, ev))
  {
    match ev
    case RegisterEvent(d, c, incoming, closed) => RegisterKeepsInv(h, d, c, incoming, closed);
    case DisconnectEvent(c, closed, order) => DisconnectKeepsInv(h, h.live[c], c, closed, order);
    case ResetEvent => ResetKeepsInv(h);
    case OpenEvent(c, ch, authorization, closed, seen) => OpenKeepsInv(h, h.live[c], c, ch, authorization, closed, seen);
    case MarkEvent(c, closed) => NoteOpenedKeepsInv(h, h.live[c], c, closed);
    case RoundEvent(c, ch, owner, observed) => OpenRoundKeepsInv(h, h.live[c], c, ch, owner, observed);
    case CleanUpEvent(_, ch, owner, target, closed) => CleanUpKeepsInv(h, ch, owner, target, closed);
    case RefuseEvent(c, ch, reason) => RejectionKeepsInv(h, h.live[c], c, ch, reason);
    case AcceptEvent(c, ch) => AcceptKeepsInv(h, h.live[c], c, ch);
    case RejectEvent(c, ch, reason) => RejectKeepsInv(h, h.live[c], c, ch, reason);
    case DataEvent(c, ch, payload) => SendDataKeepsInv(h, h.live[c], c, ch, payload);
    case CloseEvent(c, ch, note) => CloseKeepsInv(h, h.live[c], c, ch, note);
    case PingEvent(c) => HandKeepsInv(h, h.live[c], c, Pong);
  }

  lemma {:induction false} RunKeepsInv(states: seq<Hub>, events: seq<Event>, i: nat)
    requires Run(states, events) && i < |states|
    ensures Inv(states[i])
  {
    if i == 0 {
      assert EMPTY_HUB.log == [];
    } else {
      RunKeepsInv(states, events, i - 1);
      hide Inv;
      StepKeepsInv(states[i - 1], events[i - 1]);
    }
  }

  // ---- sockets and channels

  /** Every channel joins two sockets that are up, and a socket that is gone is mentioned nowhere. */
  lemma ChannelsJoinLiveSockets(states: seq<Hub>, events: seq<Event>, i: nat, connection: Name)
    requires Run(states, events) && i < |states|
    ensures var h := states[i];
      && (forall ch :: ch in h.channels ==>
           && h.channels[ch].sourceConnection in h.live && h.live[h.channels[ch].sourceConnection] == h.channels[ch].sourceDevice
           && h.channels[ch].targetConnection in h.live && h.live[h.channels[ch].targetConnection] == h.channels[ch].targetDevice)
      && (connection in h.retired ==>
           && (forall d :: !InTable(h, d, connection))
           && (forall d :: d in h.preferred ==> h.preferred[d] != connection)
           && (forall ch :: ch in h.channels ==>
                h.channels[ch].sourceConnection != connection && h.channels[ch].targetConnection != connection))
  {
    RunKeepsInv(states, events, i);
    var h := states[i];
    if connection in h.retired {
      forall d
        ensures !InTable(h, d, connection)
      {
        if InTable(h, d, connection) {
          RegisteredBefore(h, d, connection);
        }
      }
    }
  }

  // ---- the history of a channel

  /** Item `k` opened the channel, item `m` (if it is later than `k`) confirmed it, and nothing ended it since. */
  ghost predicate SessionSince(log: seq<Item>, channel: Name, e: Entry, k: nat, m: nat) {
    && k <= m < |log|
    && log[k] == Opened(channel, e.(accepted := false))
    && (e.accepted ==> k < m && log[m] == Confirmed(channel))
    && forall i :: k < i < |log| ==> !Ends(log[i], channel)
  }

  ghost predicate Ends(item: Item, channel: Name) {
    item == Removed(channel) || item == Cleared || (item.Opened? && item.channel == channel)
  }

  lemma {:induction false} SessionBegins(log: seq<Item>, channel: Name) returns (k: nat, m: nat)
    requires GoodLog(log) && Replay(log, channel).Some?
    ensures SessionSince(log, channel, Replay(log, channel).value, k, m)
  {
    var n := |log| - 1;
    var front, last := log[..n], log[n];
    assert log == front + [last];
    assert Fits(front, last);
    PrefixIsGood(log, n);
    hide GoodLog;
    ReplaySnoc(front, last, channel);
    hide MessageFits, Gone, Replay;
    if last.Opened? && last.channel == channel {
      k, m := n, n;
    } else {
      k, m := SessionBegins(front, channel);
      if last == Confirmed(channel) {
        m := n;
      }
    }
  }

  /**
     Data is handed only to the opposite end of the channel that is open under that id, after its
     target accepted it.
   */
  lemma DataIsIsolated(states: seq<Hub>, events: seq<Event>, i: nat, j: nat) returns (e: Entry, k: nat, m: nat)
    requires Run(states, events) && i < |states|
    requires j < |states[i].log| && states[i].log[j].Handed? && states[i].log[j].message.ChannelData?
    ensures var log := states[i].log;
      var data := log[j].message;
      && k < m < j && log[k] == Opened(data.channel, e.(accepted := false)) && log[m] == Confirmed(data.channel)
      && (forall x :: k < x < j ==> !Ends(log[x], data.channel))
      && OppositeEnds(e, data.sender, log[j].recipient)
  {
    RunKeepsInv(states, events, i);
    var log := states[i].log;
    var channel := log[j].message.channel;
    assert Fits(log[..j], log[j]);
    e := Replay(log[..j], channel).value;
    PrefixIsGood(log, j);
    k, m := SessionBegins(log[..j], channel);
    assert forall x :: 0 <= x < j ==> log[..j][x] == log[x];
  }

  lemma PrefixIsGood(log: seq<Item>, n: nat)
    requires GoodLog(log) && n <= |log|
    ensures GoodLog(log[..n])
  {
    forall i | 0 <= i < n
      ensures Fits(log[..n][..i], log[..n][i])
    {
      assert log[..n][..i] == log[..i];
    }
  }

  lemma {:induction false} StaysClosed(log: seq<Item>, channel: Name, i: nat, j: nat)
    requires i <= j <= |log| && Replay(log[..i], channel).None?
    requires forall x :: i <= x < j ==> !(log[x].Opened? && log[x].channel == channel)
    ensures Replay(log[..j], channel).None?
    decreases j - i
  {
    if i < j {
      StaysClosed(log, channel, i, j - 1);
      assert log[..j] == log[..j - 1] + [log[j - 1]];
      ReplaySnoc(log[..j - 1], log[j - 1], channel);
    }
  }

  /** After a close has been handed to anyone, no data follows on that id until it is opened again. */
  lemma NoDataAfterClose(states: seq<Hub>, events: seq<Event>, n: nat, i: nat, j: nat)
    requires Run(states, events) && n < |states| && i < j < |states[n].log|
    requires states[n].log[i].Handed? && states[n].log[i].message.ChannelClose?
    requires states[n].log[j].Handed? && states[n].log[j].message.ChannelData?
    requires states[n].log[i].message.channel == states[n].log[j].message.channel
    ensures exists k :: i < k < j && states[n].log[k].Opened? && states[n].log[k].channel == states[n].log[i].message.channel
  {
    RunKeepsInv(states, events, n);
    var log := states[n].log;
    var channel := log[i].message.channel;
    assert Fits(log[..i], log[i]) && Fits(log[..j], log[j]);
    if forall k :: i < k < j ==> !(log[k].Opened? && log[k].channel == channel) {
      StaysClosed(log, channel, i, j);
    }
  }

  lemma {:induction false} StaysOpen(log: seq<Item>, channel: Name, i: nat, j: nat)
    requires i <= j <= |log| && Replay(log[..i], channel).Some?
    requires forall x :: i <= x < j ==> log[x] != Removed(channel) && log[x] != Cleared
    ensures Replay(log[..j], channel).Some?
    decreases j - i
  {
    if i < j {
      StaysOpen(log, channel, i, j - 1);
      assert log[..j] == log[..j - 1] + [log[j - 1]];
      ReplaySnoc(log[..j - 1], log[j - 1], channel);
    }
  }

  /** An id is opened again only after its channel was removed: no open overwrites another's channel. */
  lemma OpenNeverOverwrites(states: seq<Hub>, events: seq<Event>, n: nat, i: nat, j: nat)
    requires Run(states, events) && n < |states| && i < j < |states[n].log|
    requires states[n].log[i].Opened? && states[n].log[j].Opened?
    requires states[n].log[i].channel == states[n].log[j].channel
    ensures exists k :: i < k < j && states[n].log[k] in {Removed(states[n].log[i].channel), Cleared}
  {
    RunKeepsInv(states, events, n);
    hide Run;
    OpeningIsNew(states[n].log, i, j);
  }

  lemma OpeningIsNew(log: seq<Item>, i: nat, j: nat)
    requires GoodLog(log) && i < j < |log| && log[i].Opened? && log[j].Opened? && log[i].channel == log[j].channel
    ensures exists k :: i < k < j && log[k] in {Removed(log[i].channel), Cleared}
  {
    var channel := log[i].channel;
    assert Fits(log[..j], log[j]);
    hide GoodLog;
    if forall k :: i < k < j ==> log[k] != Removed(channel) && log[k] != Cleared {
      assert log[..i + 1] == log[..i] + [log[i]];
      ReplaySnoc(log[..i], log[i], channel);
      hide Replay;
      StaysOpen(log, channel, i + 1, j);
    }
  }

  /** Nothing is ever handed to a socket after it went away. */
  lemma NothingAfterDisconnect(states: seq<Hub>, events: seq<Event>, n: nat, i: nat, j: nat)
    requires Run(states, events) && n < |states| && i < j < |states[n].log|
    requires states[n].log[i].Disconnected? && states[n].log[j].Handed?
    ensures states[n].log[i].connection != states[n].log[j].recipient
  {
    RunKeepsInv(states, events, n);
    var log := states[n].log;
    assert Fits(log[..j], log[j]);
    assert log[..j][i] == log[i];
    assert log[i] in log[..j];
  }

  // ---- the preference

  /** A preferred connection is registered, never stated a preference and never opened a channel. */
  lemma PreferenceAgreesWithTable(states: seq<Hub>, events: seq<Event>, i: nat, device: Name)
    requires Run(states, events) && i < |states|
    requires device in states[i].preferred
    ensures var h := states[i];
      && InTable(h, device, h.preferred[device])
      && h.connections[device][h.preferred[device]].support.LegacyUnknown?
      && !h.connections[device][h.preferred[device]].originated
  {
    RunKeepsInv(states, events, i);
  }

  lemma {:induction false} HighWaterRises(states: seq<Hub>, events: seq<Event>, i: nat, j: nat, device: Name)
    requires Run(states, events) && i <= j < |states|
    requires device in states[i].highWater
    ensures device in states[j].highWater && states[i].highWater[device] <= states[j].highWater[device]
    decreases j - i
  {
    if i < j {
      HighWaterRises(states, events, i, j - 1, device);
      RunKeepsInv(states, events, j - 1);
      hide Inv;
      StepKeepsInv(states[j - 1], events[j - 1]);
    }
  }

  lemma RunRises(states: seq<Hub>, events: seq<Event>, i: nat)
    requires Run(states, events) && 0 < i < |states|
    ensures Rises(states[i - 1], states[i])
  {
    RunKeepsInv(states, events, i - 1);
    hide Inv, Rises;
    StepKeepsInv(states[i - 1], events[i - 1]);
  }

  lemma PreferredIsMarked(states: seq<Hub>, events: seq<Event>, i: nat, device: Name)
    requires Run(states, events) && i < |states| && device in states[i].preferred
    ensures var h := states[i];
      && InTable(h, device, h.preferred[device])
      && device in h.highWater && h.highWater[device] == h.connections[device][h.preferred[device]].registration
  {
    RunKeepsInv(states, events, i);
    HighWaterIsPast(states[i], device);
  }

  /** A change of preference, over any stretch, raises the high-water mark. */
  lemma {:induction false} ChangeRaisesTheMark(states: seq<Hub>, events: seq<Event>, i: nat, j: nat, device: Name)
    requires Run(states, events) && i <= j < |states|
    requires device in states[i].preferred && device in states[i].highWater
    requires device in states[j].preferred && states[i].preferred[device] != states[j].preferred[device]
    ensures device in states[j].highWater && states[i].highWater[device] < states[j].highWater[device]
    decreases j - i
  {
    hide Run;
    HighWaterRises(states, events, i, j - 1, device);
    RunRises(states, events, j);
    var h, n := states[j - 1], states[j];
    if device in h.preferred && h.preferred[device] == n.preferred[device] {
      ChangeRaisesTheMark(states, events, i, j - 1, device);
    }
  }

  /**
     A device's preference only ever moves to newer registrations: any connection preferred later,
     even after a gap, is the same one or was registered after it.
   */
  lemma PreferenceOnlyMovesForward(states: seq<Hub>, events: seq<Event>, i: nat, j: nat, device: Name)
    requires Run(states, events) && i <= j < |states|
    requires device in states[i].preferred && device in states[j].preferred
    ensures
      var a, b := states[i], states[j];
      && InTable(a, device, a.preferred[device]) && InTable(b, device, b.preferred[device])
      && (a.preferred[device] != b.preferred[device] ==>
           a.connections[device][a.preferred[device]].registration < b.connections[device][b.preferred[device]].registration)
  {
    PreferredIsMarked(states, events, i, device);
    PreferredIsMarked(states, events, j, device);
    hide Run, InTable;
    if states[i].preferred[device] != states[j].preferred[device] {
      ChangeRaisesTheMark(states, events, i, j, device);
    }
  }

  // ---- opening

  /** An open request ends in exactly one way, on any reachable hub. */
  lemma OpenEndsOneWay(
    states: seq<Hub>, events: seq<Event>, i: nat, connection: Name, channel: Name, owner: Name,
    closed: set<Name>, seen: nat -> Observation)
    returns (before: Hub, tries: seq<Item>, last: nat, outcome: Outcome)
    requires Run(states, events) && i < |states| && connection in states[i].live
    ensures
      var h := states[i];
      var device := h.live[connection];
      var n := Step(h, OpenEvent(connection, channel, Granted(owner), closed, seen));
      && before == NoteOpened(h, device, connection, closed) && SameHistory(h, before)
      && Ended(before, n, device, connection, channel, owner, seen, tries, last, outcome)
      && (outcome.Delivered? <==> n.channels != h.channels)
  {
    var h := states[i];
    var device := h.live[connection];
    RunKeepsInv(states, events, i);
    before := NoteOpened(h, device, connection, closed);
    NoteOpenedKeepsInv(h, device, connection, closed);
    NoteOpenedKeepsHistory(h, device, connection, closed);
    hide Inv, NoteOpened;
    tries, last, outcome := OpenLoopEnds(before, device, connection, channel, owner, seen, 0);
  }
}
