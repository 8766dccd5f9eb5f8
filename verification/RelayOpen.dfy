/** What an open request comes to. */
module RelayOpen {
  import opened Common
  import opened RelayModel
  import opened RelayInvariant
  import opened RelaySteps
  import opened RelayChannels

  // ---- the choice of a connection

  lemma {:induction false} NewestExists(connections: map<Name, Connection>, candidates: set<Name>)
    requires candidates <= connections.Keys && candidates != {}
    ensures exists c :: IsNewest(connections, candidates, c)
    decreases candidates
  {
    var x :| x in candidates;
    var rest := candidates - {x};
    if rest == {} {
      assert candidates == {x};
      assert IsNewest(connections, candidates, x);
    } else {
      NewestExists(connections, rest);
      var c :| IsNewest(connections, rest, c);
      var best := if connections[c].registration <= connections[x].registration then x else c;
      assert forall o :: o in candidates ==> o == x || o in rest;
      assert IsNewest(connections, candidates, best);
    }
  }

  /** The newest open explicit connection if there is one; else the preferred legacy one if it is open. */
  ghost predicate RightChoice(h: Hub, device: Name, closed: set<Name>, choice: Name) {
    && InTable(h, device, choice)
    && choice !in closed
    && var explicit := ExplicitCandidates(h.connections[device], closed);
       if explicit != {} then IsNewest(h.connections[device], explicit, choice)
       else
         && IsIdleLegacy(h.connections[device][choice])
         && device in h.preferred && h.preferred[device] == choice
  }

  /** No explicit connection is open, and no open legacy connection is preferred. */
  ghost predicate NoChoice(h: Hub, device: Name, closed: set<Name>) {
    device in h.connections ==>
      && ExplicitCandidates(h.connections[device], closed) == {}
      && (device in h.preferred && InTable(h, device, h.preferred[device]) ==>
           !IsIdleLegacy(h.connections[device][h.preferred[device]]) || h.preferred[device] in closed)
  }

  lemma PickChoosesRight(h: Hub, device: Name, closed: set<Name>)
    ensures var (p, choice) := Pick(h, device, closed);
      && SameTables(h, p)
      && (choice.Some? ==> RightChoice(p, device, closed, choice.value))
      && (choice.None? ==> NoChoice(p, device, closed))
  {
    PickedIsInTable(h, device, closed);
    RefreshKeepsTables(h, device, closed);
    hide Refresh;
    if device in h.connections {
      var m := h.connections[device];
      var explicit := ExplicitCandidates(m, closed);
      NewestIsCandidate(m, explicit);
      if explicit != {} {
        NewestExists(m, explicit);
      }
      hide IsNewest;
    }
  }

  lemma PickKeepsInv(h: Hub, device: Name, closed: set<Name>)
    requires Inv(h)
    ensures var p := Pick(h, device, closed).0; Inv(p) && Rises(h, p)
  {
    RefreshKeepsIndex(h, device, closed);
    RefreshKeepsTables(h, device, closed);
    RisesByUnpreferring(h, h);
    hide Refresh, IndexOk, ChannelsOk, LogOk, Rises;
    HistoryUntouched(h, Pick(h, device, closed).0);
  }

  // ---- one round

  lemma AddChannelKeepsInv(h: Hub, channel: Name, e: Entry)
    requires Inv(h) && channel !in h.channels && !e.accepted
    requires SocketUp(h, e.sourceDevice, e.sourceConnection) && SocketUp(h, e.targetDevice, e.targetConnection)
    ensures var n := AddChannel(h, channel, e); Inv(n) && Rises(h, n)
    ensures Replay(AddChannel(h, channel, e).log, channel) == Some(e)
  {
    var n := AddChannel(h, channel, e);
    IndexUntouched(h, n);
    hide IndexOk;
    ReplaySnoc(h.log, Opened(channel, e), channel);
    assert Replay(h.log, channel).None?;
    hide Replay;
    NotingKeepsLog(h, n, Opened(channel, e));
    hide LogOk;
    assert ChannelsOk(n);
  }

  /** The new channel's target is told of it. */
  lemma DeliverKeepsInv(h: Hub, channel: Name, e: Entry)
    requires Inv(h) && Replay(h.log, channel) == Some(e) && !e.accepted
    requires SocketUp(h, e.targetDevice, e.targetConnection)
    ensures var n := Noting(h, Handed(e.targetConnection, IncomingChannel(channel, e.sourceDevice)));
      Inv(n) && Rises(h, n)
  {
    var n := Noting(h, Handed(e.targetConnection, IncomingChannel(channel, e.sourceDevice)));
    IndexUntouched(h, n);
    hide IndexOk, Replay;
    NotingKeepsLog(h, n, Handed(e.targetConnection, IncomingChannel(channel, e.sourceDevice)));
    hide LogOk;
  }

  /** Items a round leaves behind when the chosen socket turns out to be dead. */
  ghost predicate Attempts(items: seq<Item>, channel: Name) {
    forall i :: 0 <= i < |items| ==>
      (items[i].Opened? && items[i].channel == channel) || items[i] == Removed(channel)
  }

  lemma InTableIsUp(h: Hub, device: Name, connection: Name)
    requires Inv(h) && InTable(h, device, connection)
    ensures SocketUp(h, device, connection)
  {
    RegisteredBefore(h, device, connection);
  }

  /** The state after a round whose send failed: one connection fewer, and the channels as before. */
  ghost function FailedRound(p: Hub, channel: Name, e: Entry, closed: set<Name>): Hub {
    UndoChannel(RemoveEntry(AddChannel(p, channel, e), e.targetDevice, e.targetConnection, closed), channel)
  }

  lemma FailedRoundFrame(p: Hub, channel: Name, e: Entry, closed: set<Name>)
    requires channel !in p.channels
    ensures var n := FailedRound(p, channel, e, closed);
      && n.channels == p.channels && n.live == p.live
      && n.log == p.log + [Opened(channel, e), Removed(channel)]
      && (InTable(p, e.targetDevice, e.targetConnection) ==>
           ConnectionCount(n, e.targetDevice) < ConnectionCount(p, e.targetDevice))
  {
    var added := AddChannel(p, channel, e);
    RemovalTakesItOut(added, e.targetDevice, e.targetConnection, closed);
    RemovalShrinks(added, e.targetDevice, e.targetConnection, closed);
    hide RemoveEntry;
    assert p.channels[channel := e] - {channel} == p.channels;
  }

  lemma FailedRoundKeepsInv(p: Hub, channel: Name, e: Entry, closed: set<Name>)
    requires Inv(p) && channel !in p.channels && !e.accepted
    requires SocketUp(p, e.sourceDevice, e.sourceConnection) && InTable(p, e.targetDevice, e.targetConnection)
    ensures Inv(FailedRound(p, channel, e, closed)) && Rises(p, FailedRound(p, channel, e, closed))
  {
    InTableIsUp(p, e.targetDevice, e.targetConnection);
    hide Inv, Rises, Replay, RemoveEntry;
    var added := AddChannel(p, channel, e);
    AddChannelKeepsInv(p, channel, e);
    var removed := RemoveEntry(added, e.targetDevice, e.targetConnection, closed);
    RemoveEntryKeepsInv(added, e.targetDevice, e.targetConnection, closed);
    RemoveChannelKeepsInv(removed, channel);
    RisesPast(p, added, removed, UndoChannel(removed, channel));
  }

  lemma RisesPast(p: Hub, added: Hub, removed: Hub, n: Hub)
    requires added.highWater == p.highWater && added.preferred == p.preferred
    requires Rises(added, removed)
    requires n.highWater == removed.highWater && n.preferred == removed.preferred
    ensures Rises(p, n)
  {
  }

  lemma CleanUpKeepsInv(h: Hub, channel: Name, device: Name, connection: Name, closed: set<Name>)
    requires Inv(h)
    ensures var n := CleanUp(h, channel, device, connection, closed); Inv(n) && Rises(h, n)
  {
    hide Inv, Rises, RemoveEntry;
    var removed := RemoveEntry(h, device, connection, closed);
    RemoveEntryKeepsInv(h, device, connection, closed);
    RemoveChannelKeepsInv(removed, channel);
    RisesUnmoved(h, removed, UndoChannel(removed, channel));
  }

  /** A round keeps everything on its own, whatever happens before the next one. */
  lemma OpenRoundKeepsInv(
    h: Hub, device: Name, connection: Name, channel: Name, owner: Name, seen: Observation)
    requires Inv(h) && SocketUp(h, device, connection)
    ensures var n := OpenRound(h, device, connection, channel, owner, seen); Inv(n) && Rises(h, n)
  {
    hide Inv, Rises, RightChoice, Pick, Replay;
    var (p, choice) := Pick(h, owner, seen.closedAtPick);
    PickKeepsInv(h, owner, seen.closedAtPick);
    PickChoosesRight(h, owner, seen.closedAtPick);
    var n := OpenRound(h, device, connection, channel, owner, seen);
    if channel in h.channels {
      RejectionKeepsInv(h, device, connection, channel, CHANNEL_EXISTS);
      RisesByUnpreferring(h, h);
      RisesUnmoved(h, h, n);
    } else if choice.None? {
      RejectionKeepsInv(p, device, connection, channel, NO_CONNECTION);
      RisesUnmoved(h, p, n);
    } else {
      var e := Entry(device, connection, owner, choice.value, false);
      ChosenIsInTable(p, owner, seen.closedAtPick, choice.value);
      InTableIsUp(p, owner, choice.value);
      AddChannelKeepsInv(p, channel, e);
      if !seen.sendFails {
        DeliverKeepsInv(AddChannel(p, channel, e), channel, e);
      }
      RisesUnmoved(h, p, n);
    }
  }

  /** The loop is its rounds in a row, with a clean-up after each one whose send failed. */
  lemma LoopIsRounds(
    h: Hub, device: Name, connection: Name, channel: Name, owner: Name, seen: nat -> Observation, i: nat)
    ensures OpenLoop(h, device, connection, channel, owner, seen, i) ==
      var round := OpenRound(h, device, connection, channel, owner, seen(i));
      if channel !in h.channels && channel in round.channels && seen(i).sendFails
      then
        OpenLoop(CleanUp(round, channel, owner, round.channels[channel].targetConnection, seen(i).closedAtRemoval),
                 device, connection, channel, owner, seen, i + 1)
      else round
  {
    PickedIsInTable(h, owner, seen(i).closedAtPick);
    hide Pick, RemoveEntry;
  }

  // ---- the whole loop

  datatype Outcome = Delivered(target: Name) | Refused(reason: string)

  /** How the loop ended, in round `last`, after `tries` left their trace. */
  ghost predicate Ended(
    h: Hub, n: Hub, device: Name, connection: Name, channel: Name, owner: Name,
    seen: nat -> Observation, tries: seq<Item>, last: nat, outcome: Outcome)
  {
    && Attempts(tries, channel)
    && match outcome
       case Delivered(t) =>
         && channel !in h.channels
         && n.channels == h.channels[channel := Entry(device, connection, owner, t, false)]
         && n.log == h.log + tries + [Opened(channel, n.channels[channel]), Handed(t, IncomingChannel(channel, device))]
         && RightChoice(n, owner, seen(last).closedAtPick, t)
       case Refused(reason) =>
         && n.channels == h.channels
         && n.log == h.log + tries
              + (if InTable(n, device, connection) then [Handed(connection, ChannelRejected(channel, reason))] else [])
         && (reason == CHANNEL_EXISTS <==> channel in h.channels)
         && (reason != CHANNEL_EXISTS ==> reason == NO_CONNECTION && NoChoice(n, owner, seen(last).closedAtPick))
  }

  /**
     The loop ends, in exactly one of two ways: the channel is new and its target has been told, or
     the source has been refused and the channels are as they were.
   */
  lemma {:induction false} OpenLoopEnds(
    h: Hub, device: Name, connection: Name, channel: Name, owner: Name, seen: nat -> Observation, i: nat)
    returns (tries: seq<Item>, last: nat, outcome: Outcome)
    requires Inv(h) && SocketUp(h, device, connection)
    ensures var n := OpenLoop(h, device, connection, channel, owner, seen, i);
      Inv(n) && Rises(h, n) && Ended(h, n, device, connection, channel, owner, seen, tries, last, outcome)
    decreases ConnectionCount(h, owner)
  {
    hide Inv, Rises, RightChoice, NoChoice, Pick, Hand, Ended;
    tries, last := [], i;
    var n := OpenLoop(h, device, connection, channel, owner, seen, i);
    if channel in h.channels {
      outcome := Refused(CHANNEL_EXISTS);
      RisesByUnpreferring(h, h);
      RefusalEnds(h, h, n, device, connection, channel, owner, seen, i, CHANNEL_EXISTS);
      return;
    }
    var (p, choice) := Pick(h, owner, seen(i).closedAtPick);
    PickKeepsInv(h, owner, seen(i).closedAtPick);
    PickChoosesRight(h, owner, seen(i).closedAtPick);
    if choice.None? {
      outcome := Refused(NO_CONNECTION);
      RefusalEnds(h, p, n, device, connection, channel, owner, seen, i, NO_CONNECTION);
      return;
    }
    var t := choice.value;
    var e := Entry(device, connection, owner, t, false);
    ChosenIsInTable(p, owner, seen(i).closedAtPick, t);
    if !seen(i).sendFails {
      outcome := Delivered(t);
      DeliveryEnds(h, p, device, connection, channel, owner, seen, i, t);
    } else {
      FailedRoundKeepsInv(p, channel, e, seen(i).closedAtRemoval);
      FailedRoundFrame(p, channel, e, seen(i).closedAtRemoval);
      var f := FailedRound(p, channel, e, seen(i).closedAtRemoval);
      assert n == OpenLoop(f, device, connection, channel, owner, seen, i + 1);
      hide FailedRound, OpenLoop;
      tries, last, outcome := OpenLoopEnds(f, device, connection, channel, owner, seen, i + 1);
      RisesAcross(h, p, f, n);
      OneMoreRound(h, f, n, device, connection, channel, owner, seen, tries, last, outcome, e);
      tries := [Opened(channel, e), Removed(channel)] + tries;
    }
  }

  lemma DeliveryEnds(
    h: Hub, p: Hub, device: Name, connection: Name, channel: Name, owner: Name,
    seen: nat -> Observation, i: nat, t: Name)
    requires Inv(p) && Rises(h, p) && p.channels == h.channels && p.log == h.log && p.live == h.live
    requires SocketUp(h, device, connection) && channel !in h.channels
    requires RightChoice(p, owner, seen(i).closedAtPick, t)
    ensures
      var e := Entry(device, connection, owner, t, false);
      var n := Noting(AddChannel(p, channel, e), Handed(t, IncomingChannel(channel, device)));
      Inv(n) && Rises(h, n) && Ended(h, n, device, connection, channel, owner, seen, [], i, Delivered(t))
  {
    hide Inv, RightChoice, Replay, Rises, Ended;
    var e := Entry(device, connection, owner, t, false);
    var a := AddChannel(p, channel, e);
    var n := Noting(a, Handed(t, IncomingChannel(channel, device)));
    ChosenIsInTable(p, owner, seen(i).closedAtPick, t);
    InTableIsUp(p, owner, t);
    AddChannelKeepsInv(p, channel, e);
    DeliverKeepsInv(a, channel, e);
    RisesUnmoved(h, p, n);
    DeliveryIsAnEnd(h, p, device, connection, channel, owner, seen, i, t);
  }

  lemma DeliveryIsAnEnd(
    h: Hub, p: Hub, device: Name, connection: Name, channel: Name, owner: Name,
    seen: nat -> Observation, i: nat, t: Name)
    requires p.channels == h.channels && p.log == h.log && channel !in h.channels
    requires RightChoice(p, owner, seen(i).closedAtPick, t)
    ensures
      var e := Entry(device, connection, owner, t, false);
      var n := Noting(AddChannel(p, channel, e), Handed(t, IncomingChannel(channel, device)));
      Ended(h, n, device, connection, channel, owner, seen, [], i, Delivered(t))
  {
    var e := Entry(device, connection, owner, t, false);
    var n := Noting(AddChannel(p, channel, e), Handed(t, IncomingChannel(channel, device)));
    ChoiceStands(p, n, owner, seen(i).closedAtPick, t);
    hide RightChoice;
    assert n.log == h.log + [] + [Opened(channel, e), Handed(t, IncomingChannel(channel, device))];
  }

  lemma OneMoreRound(
    h: Hub, f: Hub, n: Hub, device: Name, connection: Name, channel: Name, owner: Name,
    seen: nat -> Observation, tries: seq<Item>, last: nat, outcome: Outcome, e: Entry)
    requires f.channels == h.channels && f.log == h.log + [Opened(channel, e), Removed(channel)]
    requires Ended(f, n, device, connection, channel, owner, seen, tries, last, outcome)
    ensures Ended(h, n, device, connection, channel, owner, seen, [Opened(channel, e), Removed(channel)] + tries, last, outcome)
  {
    hide RightChoice, NoChoice;
    assert h.log + ([Opened(channel, e), Removed(channel)] + tries) == f.log + tries;
  }

  lemma ChosenIsInTable(p: Hub, device: Name, closed: set<Name>, t: Name)
    requires RightChoice(p, device, closed, t)
    ensures InTable(p, device, t)
  {
  }

  lemma ChoiceStands(p: Hub, n: Hub, device: Name, closed: set<Name>, t: Name)
    requires RightChoice(p, device, closed, t)
    requires n.connections == p.connections && n.preferred == p.preferred
    ensures RightChoice(n, device, closed, t)
  {
  }

  lemma RisesUnmoved(h: Hub, p: Hub, n: Hub)
    requires Rises(h, p) && n.highWater == p.highWater && n.preferred == p.preferred
    ensures Rises(h, n)
  {
  }

  lemma RisesAcross(h: Hub, p: Hub, f: Hub, n: Hub)
    requires Inv(p) && Inv(f) && Inv(n)
    requires Rises(h, p) && Rises(p, f) && Rises(f, n)
    ensures Rises(h, n)
  {
    RisesThrough(h, p, f);
    RisesThrough(h, f, n);
  }

  lemma RefusalEnds(
    h: Hub, p: Hub, n: Hub, device: Name, connection: Name, channel: Name, owner: Name,
    seen: nat -> Observation, i: nat, reason: string)
    requires Inv(p) && Rises(h, p)
    requires n == Hand(p, device, connection, ChannelRejected(channel, reason))
    requires p.log == h.log && p.channels == h.channels
    requires if reason == CHANNEL_EXISTS then channel in h.channels
             else channel !in h.channels && reason == NO_CONNECTION && NoChoice(p, owner, seen(i).closedAtPick)
    ensures Inv(n) && Rises(h, n)
    ensures Ended(h, n, device, connection, channel, owner, seen, [], i, Refused(reason))
  {
    RejectionKeepsInv(p, device, connection, channel, reason);
    hide Inv;
    RisesUnmoved(h, p, n);
    hide Rises;
    assert h.log + [] == h.log;
  }

  lemma OpenKeepsInv(
    h: Hub, device: Name, connection: Name, channel: Name, authorization: Authorization,
    closed: set<Name>, seen: nat -> Observation)
    requires Inv(h) && SocketUp(h, device, connection)
    ensures var n := Open(h, device, connection, channel, authorization, closed, seen); Inv(n) && Rises(h, n)
  {
    hide Inv, Rises;
    var m := NoteOpened(h, device, connection, closed);
    NoteOpenedKeepsInv(h, device, connection, closed);
    NoteOpenedKeepsHistory(h, device, connection, closed);
    hide NoteOpened;
    var n := Open(h, device, connection, channel, authorization, closed, seen);
    match authorization {
      case Denied(reason) =>
        RejectionKeepsInv(m, device, connection, channel, reason);
        RisesUnmoved(h, m, n);
      case Granted(owner) =>
        var tries, last, outcome := OpenLoopEnds(m, device, connection, channel, owner, seen, 0);
        InvRisesThrough(h, m, n);
    }
  }

  lemma NoteOpenedKeepsHistory(h: Hub, device: Name, connection: Name, closed: set<Name>)
    requires Inv(h)
    ensures SameHistory(h, NoteOpened(h, device, connection, closed))
  {
    NoteOpenedKeepsIndex(h, device, connection, closed);
  }

  lemma InvRisesThrough(a: Hub, b: Hub, c: Hub)
    requires Inv(b) && Inv(c) && Rises(a, b) && Rises(b, c)
    ensures Rises(a, c)
  {
    RisesThrough(a, b, c);
  }
}
