/** What the clean-up after a failed offer removes when other steps came between. */
module RelayCleanUp {
  import opened Common
  import opened RelayModel
  import opened RelayInvariant
  import opened RelayTheorems

  /** The channel now open under the id is the one that was opened by item `k`. */
  ghost predicate OpenedAt(log: seq<Item>, channel: Name, k: nat) {
    && k < |log| && log[k].Opened? && log[k].channel == channel
    && forall x :: k < x < |log| ==> !Ends(log[x], channel)
  }

  lemma OpenChannelHasOpening(h: Hub, channel: Name) returns (k: nat)
    requires Inv(h) && channel in h.channels
    ensures OpenedAt(h.log, channel, k) && h.log[k].entry == h.channels[channel].(accepted := false)
  {
    assert Replay(h.log, channel) == Some(h.channels[channel]);
    hide Inv, Replay;
    var m;
    k, m := SessionBegins(h.log, channel);
  }

  lemma CleanUpChannels(h: Hub, channel: Name, owner: Name, target: Name, closed: set<Name>)
    ensures var n := CleanUp(h, channel, owner, target, closed);
      n.channels == h.channels - {channel} && n.log == h.log + [Removed(channel)]
  {
    RemovalTables(h, owner, target, closed);
    hide RemoveEntry;
  }

  /**
     A source whose offer, opened by item `k`, failed to be sent clears up later, having opened nothing
     in between. The clean-up removes the channel of somebody else exactly when the entry it finds
     under the id names another source, that is, when the id was opened again and is still open. No
     other channel is touched and nobody is told.
   */
  lemma CleanUpTakesItsOwn(
    h: Hub, k: nat, connection: Name, channel: Name, owner: Name, target: Name, closed: set<Name>)
    requires Inv(h) && k < |h.log| && h.log[k].Opened? && h.log[k].channel == channel
    requires h.log[k].entry.sourceConnection == connection
    requires forall x :: k < x < |h.log| && h.log[x].Opened? ==> h.log[x].entry.sourceConnection != connection
    ensures
      var n := CleanUp(h, channel, owner, target, closed);
      n.channels == h.channels - {channel} && n.log == h.log + [Removed(channel)]
    ensures channel in h.channels ==>
      && (OpenedAt(h.log, channel, k) <==> h.channels[channel].sourceConnection == connection)
      && (OpenedAt(h.log, channel, k) <==>
            forall x :: k < x < |h.log| ==> !(h.log[x].Opened? && h.log[x].channel == channel))
  {
    CleanUpChannels(h, channel, owner, target, closed);
    hide CleanUp;
    if channel in h.channels {
      var j := OpenChannelHasOpening(h, channel);
      hide Inv;
      assert Ends(h.log[k], channel) && k <= j;
    }
  }

  // ---- a run in which it takes another's

  const A: Name := "a"
  const B: Name := "b"
  const C: Name := "c"
  const ID: Name := "channel"

  function Explicit(registration: nat): Connection { Connection(ExplicitYes, registration, false) }

  ghost function StrayEvents(): seq<Event> {
    [RegisterEvent(A, A, Some(true), {}),
     RegisterEvent(B, B, Some(true), {}),
     RegisterEvent(C, C, Some(true), {}),
     RoundEvent(A, ID, B, Observation({}, true, {})),
     DisconnectEvent(B, {}, [ID]),
     RoundEvent(C, ID, A, Observation({}, false, {})),
     CleanUpEvent(A, ID, B, B, {})]
  }

  lemma NewExplicit(h: Hub, device: Name, connection: Name)
    requires device !in h.preferred
    ensures Register(h, device, connection, Some(true), {}) == Added(h, device, connection, ExplicitYes)
  {
  }

  lemma PicksOnly(h: Hub, device: Name, connection: Name, registration: nat)
    requires device in h.connections && h.connections[device] == map[connection := Explicit(registration)]
    ensures Pick(h, device, {}) == (h, Some(connection))
  {
    var m := h.connections[device];
    assert ExplicitCandidates(m, {}) == {connection};
    assert IsNewest(m, {connection}, connection);
    NewestIsCandidate(m, {connection});
  }

  /** Three sockets are up, each on a device of its own. */
  ghost predicate ThreeUp(h: Hub) {
    && h.connections == map[A := map[A := Explicit(0)], B := map[B := Explicit(1)], C := map[C := Explicit(2)]]
    && h.live == map[A := A, B := B, C := C]
    && h.channels == map[] && h.preferred == map[] && h.retired == {}
  }

  lemma ThreeRegister() returns (states: seq<Hub>)
    ensures |states| == 4 && states[0] == EMPTY_HUB && ThreeUp(states[3])
    ensures forall i :: 0 <= i < 3 ==>
      Enabled(states[i], StrayEvents()[i]) && states[i + 1] == Step(states[i], StrayEvents()[i])
  {
    var s1 := Added(EMPTY_HUB, A, A, ExplicitYes);
    var s2 := Added(s1, B, B, ExplicitYes);
    NewExplicit(EMPTY_HUB, A, A);
    NewExplicit(s1, B, B);
    NewExplicit(s2, C, C);
    hide Register;
    states := [EMPTY_HUB, s1, s2, Added(s2, C, C, ExplicitYes)];
  }

  lemma FirstOffer(h: Hub)
    requires ThreeUp(h)
    ensures OpenRound(h, A, A, ID, B, Observation({}, true, {})) == AddChannel(h, ID, Entry(A, A, B, B, false))
  {
    PicksOnly(h, B, B, 1);
    hide Pick;
  }

  lemma SecondOffer(h: Hub)
    requires A in h.connections && h.connections[A] == map[A := Explicit(0)] && h.channels == map[]
    ensures OpenRound(h, C, C, ID, A, Observation({}, false, {})).channels == map[ID := Entry(C, C, A, A, false)]
    ensures OpenRound(h, C, C, ID, A, Observation({}, false, {})).live == h.live
  {
    PicksOnly(h, A, A, 0);
    hide Pick;
  }

  lemma OfferLeaveOffer(h: Hub) returns (s4: Hub, s5: Hub, s6: Hub)
    requires ThreeUp(h)
    ensures Enabled(h, StrayEvents()[3]) && s4 == Step(h, StrayEvents()[3])
    ensures Enabled(s4, StrayEvents()[4]) && s5 == Step(s4, StrayEvents()[4])
    ensures Enabled(s5, StrayEvents()[5]) && s6 == Step(s5, StrayEvents()[5])
    ensures s6.channels == map[ID := Entry(C, C, A, A, false)] && A in s6.live
  {
    hide OpenRound, Disconnect, Register, Open, NoteOpened, CleanUp, Accept, Reject, SendData, CloseChannel;
    s4 := AddChannel(h, ID, Entry(A, A, B, B, false));
    FirstOffer(h);
    TargetLeaves(s4);
    s5 := Disconnect(s4, B, B, {}, [ID]);
    SecondOffer(s5);
    s6 := OpenRound(s5, C, C, ID, A, Observation({}, false, {}));
  }

  lemma LateCleanUp(h: Hub) returns (n: Hub)
    requires A in h.live && h.channels == map[ID := Entry(C, C, A, A, false)]
    ensures Enabled(h, StrayEvents()[6]) && n == Step(h, StrayEvents()[6])
    ensures n.channels == map[] && n.log == h.log + [Removed(ID)]
  {
    CleanUpChannels(h, ID, B, B, {});
    n := CleanUp(h, ID, B, B, {});
    hide CleanUp;
  }

  lemma SevenEvents()
    ensures |StrayEvents()| == 7
  {
  }

  /**
     The target of a failed offer disconnects, which removes the offered channel; another source opens
     the same id; and the clean-up of the first offer then removes that other channel without a word.
   */
  lemma CleanUpMayTakeAnothers() returns (states: seq<Hub>)
    ensures Run(states, StrayEvents())
    ensures ID in states[6].channels && states[6].channels[ID].sourceConnection == C
    ensures states[7].channels == map[] && states[7].log == states[6].log + [Removed(ID)]
  {
    hide ThreeUp, Enabled, Step, StrayEvents;
    var start := ThreeRegister();
    var s4, s5, s6 := OfferLeaveOffer(start[3]);
    var s7 := LateCleanUp(s6);
    states := start + [s4, s5, s6, s7];
    SevenEvents();
    forall i | 0 <= i < 7
      ensures Enabled(states[i], StrayEvents()[i]) && states[i + 1] == Step(states[i], StrayEvents()[i])
    {
      if i < 3 {
        assert states[i] == start[i] && states[i + 1] == start[i + 1];
      }
    }
  }

  lemma TargetLeaves(h: Hub)
    requires h.channels == map[ID := Entry(A, A, B, B, false)] && h.preferred == map[]
    requires h.connections == map[A := map[A := Explicit(0)], B := map[B := Explicit(1)], C := map[C := Explicit(2)]]
    ensures Affected(h, B, B) == {ID}
    ensures var n := Disconnect(h, B, B, {}, [ID]);
      && n.channels == map[] && n.live == h.live - {B} && n.preferred == map[]
      && A in n.connections && n.connections[A] == map[A := Explicit(0)]
  {
    RemovalTables(h, B, B, {});
    var r := RemoveEntry(h, B, B, {});
    assert r.preferred == map[];
    hide RemoveEntry;
    assert [ID][1..] == [];
    assert DropChannels(r, B, B, [ID]) == DropChannel(r, B, B, ID);
  }
}
