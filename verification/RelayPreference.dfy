/** Which legacy connection a device prefers, and which connection an open request is offered to. */
module RelayPreference {
  import opened Common
  import opened RelayModel
  import opened RelayInvariant
  import opened RelaySteps
  import opened RelayChannels
  import opened RelayOpen

  /** Registered, open, never said what it wants and never opened a channel. */
  predicate Eligible(h: Hub, device: Name, c: Name, closed: set<Name>) {
    && InTable(h, device, c) && c !in closed
    && h.connections[device][c].support.LegacyUnknown? && !h.connections[device][c].originated
  }

  /** Eligible and registered after number `after`. */
  predicate EligibleAfter(h: Hub, device: Name, after: int, closed: set<Name>, c: Name) {
    Eligible(h, device, c, closed) && h.connections[device][c].registration > after
  }

  /** The newest of these. */
  ghost predicate Successor(h: Hub, device: Name, after: int, closed: set<Name>, c: Name) {
    && EligibleAfter(h, device, after, closed, c)
    && forall o :: EligibleAfter(h, device, after, closed, o) ==>
         h.connections[device][o].registration <= h.connections[device][c].registration
  }

  ghost predicate NoSuccessor(h: Hub, device: Name, after: int, closed: set<Name>) {
    forall o :: !EligibleAfter(h, device, after, closed, o)
  }

  /** In `n` the device prefers the successor there is in `h`, or nothing when there is none. */
  ghost predicate PrefersSuccessor(h: Hub, n: Hub, device: Name, after: int, closed: set<Name>) {
    && (forall c :: Successor(h, device, after, closed, c) ==> device in n.preferred && n.preferred[device] == c)
    && (NoSuccessor(h, device, after, closed) ==> device !in n.preferred)
  }

  /** There is always one or the other. */
  lemma SuccessorOrNone(h: Hub, device: Name, after: int, closed: set<Name>)
    ensures NoSuccessor(h, device, after, closed) || exists c :: Successor(h, device, after, closed, c)
  {
    if o :| EligibleAfter(h, device, after, closed, o) {
      var m := h.connections[device];
      var candidates := set c | c in m && EligibleAfter(h, device, after, closed, c);
      assert o in candidates;
      NewestExists(m, candidates);
      var c :| IsNewest(m, candidates, c);
      assert Successor(h, device, after, closed, c);
    }
  }

  lemma DeviceIsDistinct(h: Hub, device: Name)
    requires TableOk(h) && device in h.connections
    ensures forall a, b :: a in h.connections[device] && b in h.connections[device] && a != b ==>
      h.connections[device][a].registration != h.connections[device][b].registration
  {
    assert DeviceOk(h.connections[device], device, h.live, h.nextSequence);
  }

  lemma PromotesSuccessor(h: Hub, device: Name, after: int, closed: set<Name>)
    requires TableOk(h) && device !in h.preferred
    ensures PrefersSuccessor(h, Promote(h, device, after, closed), device, after, closed)
    ensures forall d :: d != device ==>
      (d in Promote(h, device, after, closed).preferred <==> d in h.preferred)
      && (d in h.preferred ==> Promote(h, device, after, closed).preferred[d] == h.preferred[d])
  {
    if device in h.connections {
      var m := h.connections[device];
      var candidates := LegacyCandidates(m, closed, after);
      DeviceIsDistinct(h, device);
      NewestIsCandidate(m, candidates);
      forall c | Successor(h, device, after, closed, c)
        ensures IsNewest(m, candidates, c)
      {
        assert forall o :: o in candidates ==> EligibleAfter(h, device, after, closed, o);
      }
      if NoSuccessor(h, device, after, closed) {
        assert forall o :: o in candidates ==> EligibleAfter(h, device, after, closed, o);
      }
      hide TableOk;
    }
  }

  // ---- the preferred connection leaves

  lemma EligibleWithout(h: Hub, r: Hub, device: Name, connection: Name, closed: set<Name>, o: Name, after: int)
    requires r == RemovedFromTable(h, device, connection)
    requires InTable(h, device, connection) && h.connections[device][connection].registration <= after
    ensures EligibleAfter(r, device, after, closed, o) <==> EligibleAfter(h, device, after, closed, o)
  {
  }

  lemma SameSuccessor(h: Hub, r: Hub, n: Hub, device: Name, after: int, closed: set<Name>)
    requires forall o :: EligibleAfter(r, device, after, closed, o) <==> EligibleAfter(h, device, after, closed, o)
    requires forall o :: EligibleAfter(h, device, after, closed, o) && EligibleAfter(r, device, after, closed, o) ==>
      r.connections[device][o].registration == h.connections[device][o].registration
    requires PrefersSuccessor(r, n, device, after, closed)
    ensures PrefersSuccessor(h, n, device, after, closed)
  {
    forall c | Successor(h, device, after, closed, c)
      ensures Successor(r, device, after, closed, c)
    {
    }
  }

  /** When the preferred connection leaves, the newest eligible one registered after it takes its place. */
  lemma RemovalPrefersSuccessor(h: Hub, device: Name, connection: Name, closed: set<Name>)
    requires IndexOk(h) && device in h.preferred && h.preferred[device] == connection
    ensures InTable(h, device, connection)
    ensures PrefersSuccessor(h, RemoveEntry(h, device, connection, closed), device,
                             h.connections[device][connection].registration, closed)
  {
    PreferredIsInTable(h, device);
    var m := h.connections[device];
    var after := m[connection].registration;
    var n := RemoveEntry(h, device, connection, closed);
    if m.Keys <= {connection} {
      assert forall o :: o in m ==> o == connection;
    } else {
      var r := RemovedFromTable(h, device, connection);
      RemovalKeepsTable(h, device, connection);
      var u := Unprefer(r, device);
      assert n == Promote(u, device, after, closed);
      SameTableOk(r, u);
      hide TableOk;
      PromotesSuccessor(u, device, after, closed);
      forall o
        ensures EligibleAfter(u, device, after, closed, o) <==> EligibleAfter(h, device, after, closed, o)
      {
        EligibleWithout(h, r, device, connection, closed, o, after);
      }
      hide RemoveEntry, Promote, PrefersSuccessor;
      SameSuccessor(h, u, n, device, after, closed);
    }
  }

  /** When another connection leaves, or one of another device, the preference stands. */
  lemma RemovalKeepsOtherPreference(h: Hub, device: Name, connection: Name, closed: set<Name>, d: Name)
    requires IndexOk(h) && d in h.preferred && !(d == device && h.preferred[d] == connection)
    ensures var n := RemoveEntry(h, device, connection, closed);
      d in n.preferred && n.preferred[d] == h.preferred[d]
  {
    PreferredIsInTable(h, d);
    hide IndexOk;
    if d == device {
      KeepsOwn(h, device, connection, closed);
    } else {
      KeepsOthers(h, device, connection, closed, d);
    }
  }

  lemma KeepsOwn(h: Hub, device: Name, connection: Name, closed: set<Name>)
    requires device in h.preferred && h.preferred[device] != connection && InTable(h, device, h.preferred[device])
    ensures RemoveEntry(h, device, connection, closed).preferred == h.preferred
  {
    assert h.preferred[device] in h.connections[device].Keys;
    hide Promote;
  }

  lemma KeepsOthers(h: Hub, device: Name, connection: Name, closed: set<Name>, d: Name)
    requires d in h.preferred && d != device
    ensures var n := RemoveEntry(h, device, connection, closed); d in n.preferred && n.preferred[d] == h.preferred[d]
  {
    if InTable(h, device, connection) {
      var u := Unprefer(WithoutConnection(h, device, connection), device);
      PromoteLeavesOthers(u, device, h.connections[device][connection].registration, closed, d);
    }
    hide Promote;
  }

  lemma PromoteLeavesOthers(h: Hub, device: Name, after: int, closed: set<Name>, d: Name)
    requires d != device && d in h.preferred
    ensures var n := Promote(h, device, after, closed); d in n.preferred && n.preferred[d] == h.preferred[d]
  {
    hide Newest;
  }

  /** The same of a disconnection, with the channels it closes. */
  lemma DisconnectPrefersSuccessor(h: Hub, device: Name, connection: Name, closed: set<Name>, order: seq<Name>)
    requires Inv(h) && device in h.preferred && h.preferred[device] == connection
    ensures InTable(h, device, connection)
    ensures PrefersSuccessor(h, Disconnect(h, device, connection, closed, order), device,
                             h.connections[device][connection].registration, closed)
  {
    hide LogOk, ChannelsOk;
    RemovalPrefersSuccessor(h, device, connection, closed);
    hide IndexOk;
    RemoveEntryKeepsInv(h, device, connection, closed);
    hide Inv, RemoveEntry, DropChannels;
    DropChannelsKeepsInv(RemoveEntry(h, device, connection, closed), device, connection, order);
  }

  // ---- the preferred connection opens a channel

  /** A connection that opens a channel is marked for good, and no other connection changes. */
  lemma OpeningMarksSource(h: Hub, device: Name, connection: Name, closed: set<Name>)
    requires InTable(h, device, connection)
    ensures
      var n := NoteOpened(h, device, connection, closed);
      && InTable(n, device, connection)
      && n.connections[device][connection].originated && !n.connections[device][connection].support.LegacyUnknown?
      && (n.connections[device][connection].support.ExplicitYes? <==> h.connections[device][connection].support.ExplicitYes?)
      && n.connections[device][connection].registration == h.connections[device][connection].registration
      && n.connections.Keys == h.connections.Keys && n.connections - {device} == h.connections - {device}
      && n.connections[device] - {connection} == h.connections[device] - {connection}
  {
    var m := Marked(h, device, connection);
    PromoteKeepsTables(Unprefer(m, device), device, h.connections[device][connection].registration, closed);
    hide Promote;
  }

  /** If it was preferred, the newest eligible one registered after it takes its place. */
  lemma OpeningPrefersSuccessor(h: Hub, device: Name, connection: Name, closed: set<Name>)
    requires IndexOk(h) && device in h.preferred && h.preferred[device] == connection
    ensures InTable(h, device, connection)
    ensures PrefersSuccessor(h, NoteOpened(h, device, connection, closed), device,
                             h.connections[device][connection].registration, closed)
  {
    PreferredIsInTable(h, device);
    var m := Marked(h, device, connection);
    var after := h.connections[device][connection].registration;
    MarkedKeepsTable(h, device, connection);
    var u := Unprefer(m, device);
    SameTableOk(m, u);
    hide TableOk, PreferredOk;
    PromotesSuccessor(u, device, after, closed);
    forall o
      ensures EligibleAfter(u, device, after, closed, o) <==> EligibleAfter(h, device, after, closed, o)
    {
      MarkedIsNotLater(h, device, connection, closed, o);
    }
    assert NoteOpened(h, device, connection, closed) == Promote(u, device, after, closed);
    hide NoteOpened, Promote, PrefersSuccessor;
    SameSuccessor(h, u, Promote(u, device, after, closed), device, after, closed);
  }

  lemma MarkedIsNotLater(h: Hub, device: Name, connection: Name, closed: set<Name>, o: Name)
    requires InTable(h, device, connection)
    ensures
      var after := h.connections[device][connection].registration;
      EligibleAfter(Marked(h, device, connection), device, after, closed, o) <==> EligibleAfter(h, device, after, closed, o)
  {
  }

  lemma OpeningKeepsOtherPreference(h: Hub, device: Name, connection: Name, closed: set<Name>)
    requires !(device in h.preferred && h.preferred[device] == connection)
    ensures NoteOpened(h, device, connection, closed).preferred == h.preferred
  {
  }

  // ---- the preferred connection dies

  lemma RefreshPrefersSuccessor(h: Hub, device: Name, closed: set<Name>)
    requires IndexOk(h)
    ensures
      var n := Refresh(h, device, closed);
      device in h.preferred ==>
        && InTable(h, device, h.preferred[device])
        && if Eligible(h, device, h.preferred[device], closed) then n == h
           else PrefersSuccessor(h, n, device, h.connections[device][h.preferred[device]].registration, closed)
    ensures device !in h.preferred ==> Refresh(h, device, closed) == h
  {
    if device in h.preferred {
      PreferredIsInTable(h, device);
      var u := Unprefer(h, device);
      var after := h.connections[device][h.preferred[device]].registration;
      SameTableOk(h, u);
      hide TableOk, PreferredOk;
      PromotesSuccessor(u, device, after, closed);
      assert forall o :: EligibleAfter(u, device, after, closed, o) <==> EligibleAfter(h, device, after, closed, o);
      hide Promote, PrefersSuccessor;
      SameSuccessor(h, u, Promote(u, device, after, closed), device, after, closed);
    }
  }

  predicate NoExplicitOpen(h: Hub, device: Name, closed: set<Name>) {
    device in h.connections ==>
      forall c :: c in h.connections[device] && h.connections[device][c].support.ExplicitYes? ==> c in closed
  }

  /**
     Without an open explicit connection, a request for a device is offered to the connection it prefers if
     that is open; if that is closed, to the newest eligible one registered after it, which the device
     prefers from then on; and to nobody if there is none, or nothing was preferred.
   */
  lemma RequestGoesToSuccessor(h: Hub, device: Name, closed: set<Name>)
    requires IndexOk(h) && NoExplicitOpen(h, device, closed)
    ensures
      var (n, choice) := Pick(h, device, closed);
      && (device !in h.preferred ==> n == h && choice.None?)
      && (device in h.preferred ==>
           && InTable(h, device, h.preferred[device])
           && if Eligible(h, device, h.preferred[device], closed) then n == h && choice == Some(h.preferred[device])
              else
                var after := h.connections[device][h.preferred[device]].registration;
                && PrefersSuccessor(h, n, device, after, closed)
                && (forall c :: Successor(h, device, after, closed, c) ==> choice == Some(c))
                && (NoSuccessor(h, device, after, closed) ==> choice.None?))
  {
    if device in h.connections {
      NoneExplicit(h, device, closed);
    }
    RefreshPrefersSuccessor(h, device, closed);
    RefreshKeepsTables(h, device, closed);
    if device in h.preferred {
      PreferredIsInTable(h, device);
    }
    hide IndexOk, Refresh, NoExplicitOpen, Newest;
  }

  lemma NoneExplicit(h: Hub, device: Name, closed: set<Name>)
    requires device in h.connections && NoExplicitOpen(h, device, closed)
    ensures Newest(h.connections[device], ExplicitCandidates(h.connections[device], closed)) == None
  {
    assert ExplicitCandidates(h.connections[device], closed) == {};
  }

  /** So a round of an open request with the preferred connection closed goes to the successor. */
  lemma OfferGoesToSuccessor(
    h: Hub, device: Name, connection: Name, channel: Name, owner: Name, closed: set<Name>, c: Name)
    requires IndexOk(h) && channel !in h.channels && owner in h.preferred && NoExplicitOpen(h, owner, closed)
    requires h.preferred[owner] in closed && InTable(h, owner, h.preferred[owner])
    requires Successor(h, owner, h.connections[owner][h.preferred[owner]].registration, closed, c)
    ensures
      var n := OpenRound(h, device, connection, channel, owner, Observation(closed, false, {}));
      && n.channels == h.channels[channel := Entry(device, connection, owner, c, false)]
      && n.log == h.log + [Opened(channel, n.channels[channel]), Handed(c, IncomingChannel(channel, device))]
      && owner in n.preferred && n.preferred[owner] == c
  {
    SuccessorIsPicked(h, owner, closed, c);
    PickedIsInTable(h, owner, closed);
    hide IndexOk, Pick, NoExplicitOpen, Successor, InTable;
  }

  lemma SuccessorIsPicked(h: Hub, device: Name, closed: set<Name>, c: Name)
    requires IndexOk(h) && device in h.preferred && NoExplicitOpen(h, device, closed)
    requires h.preferred[device] in closed && InTable(h, device, h.preferred[device])
    requires Successor(h, device, h.connections[device][h.preferred[device]].registration, closed, c)
    ensures var (n, choice) := Pick(h, device, closed);
      choice == Some(c) && device in n.preferred && n.preferred[device] == c
  {
    RequestGoesToSuccessor(h, device, closed);
    hide IndexOk, Pick, NoExplicitOpen, Successor, NoSuccessor;
  }

  // ---- a connection registers

  lemma RegisteredEntry(h: Hub, device: Name, connection: Name, incoming: Option<bool>, closed: set<Name>)
    ensures
      var n := Register(h, device, connection, incoming, closed);
      && InTable(n, device, connection)
      && n.connections[device][connection].registration == h.nextSequence && n.nextSequence == h.nextSequence + 1
      && !n.connections[device][connection].originated
      && (n.connections[device][connection].support.ExplicitYes? <==> incoming == Some(true))
      && (n.connections[device][connection].support.ExplicitNo? <==> incoming == Some(false))
      && n.connections - {device} == h.connections - {device}
      && n.connections[device] - {connection} ==
           (if device in h.connections then h.connections[device] - {connection} else map[])
  {
    AssignKeepsTables(Added(h, device, connection, FromQuery(incoming)), device, connection, closed);
    hide Assign;
  }

  lemma AssignKeepsTables(h: Hub, device: Name, connection: Name, closed: set<Name>)
    ensures SameTables(h, Assign(h, device, connection, closed))
  {
    RefreshKeepsTables(h, device, closed);
    hide Refresh;
  }

  /** An eligible connection is preferred unless another eligible one is, or a newer one takes over. */
  lemma AssignPrefersIt(h: Hub, device: Name, connection: Name, closed: set<Name>)
    requires IndexOk(h) && Eligible(h, device, connection, closed)
    requires device in h.preferred ==>
      InTable(h, device, h.preferred[device])
      && Successor(h, device, h.connections[device][h.preferred[device]].registration, closed, connection)
    ensures
      var n := Assign(h, device, connection, closed);
      && device in n.preferred
      && n.preferred[device] ==
           if device in h.preferred && Eligible(h, device, h.preferred[device], closed) then h.preferred[device]
           else connection
  {
    RefreshPrefersSuccessor(h, device, closed);
    RefreshKeepsTables(h, device, closed);
    hide IndexOk, Refresh, Successor, NoSuccessor;
  }

  /**
     An open connection that did not say what it wants becomes the preferred one unless the one preferred
     before is still eligible.
   */
  lemma RegisteringLegacyPrefersIt(h: Hub, device: Name, connection: Name, closed: set<Name>)
    requires Inv(h) && connection !in h.live && connection !in h.retired && connection !in closed
    ensures
      var n := Register(h, device, connection, None, closed);
      && device in n.preferred
      && n.preferred[device] ==
           if device in h.preferred && Eligible(h, device, h.preferred[device], closed) then h.preferred[device]
           else connection
  {
    var a := Added(h, device, connection, LegacyUnknown);
    AddedKeepsInv(h, device, connection, LegacyUnknown);
    NewcomerFollows(h, device, connection, closed);
    hide Inv, Assign, Successor, Eligible, InTable, Added;
    AddedIsIndexed(a);
    AssignPrefersIt(a, device, connection, closed);
  }

  lemma AddedIsIndexed(h: Hub)
    requires Inv(h)
    ensures IndexOk(h)
  {
  }

  /** After a registration the newcomer follows the connection preferred so far. */
  lemma NewcomerFollows(h: Hub, device: Name, connection: Name, closed: set<Name>)
    requires Inv(h) && connection !in h.live && connection !in closed
    ensures
      var a := Added(h, device, connection, LegacyUnknown);
      && a.preferred == h.preferred && Eligible(a, device, connection, closed)
      && (device in h.preferred ==>
           && InTable(a, device, h.preferred[device])
           && Successor(a, device, a.connections[device][h.preferred[device]].registration, closed, connection)
           && (Eligible(a, device, h.preferred[device], closed) <==> Eligible(h, device, h.preferred[device], closed)))
  {
    if device in h.preferred {
      PreferredIsInTable(h, device);
      RegisteredBefore(h, device, h.preferred[device]);
      NewcomerIsSuccessor(h, device, connection, closed, h.connections[device][h.preferred[device]].registration);
      StillEligible(h, device, connection, closed, h.preferred[device]);
    }
    hide Inv, Successor;
  }

  lemma StillEligible(h: Hub, device: Name, connection: Name, closed: set<Name>, p: Name)
    requires Inv(h) && connection !in h.live && InTable(h, device, p)
    ensures
      var a := Added(h, device, connection, LegacyUnknown);
      && InTable(a, device, p) && a.connections[device][p] == h.connections[device][p]
      && (Eligible(a, device, p, closed) <==> Eligible(h, device, p, closed))
  {
    NewcomerIsUnknown(h, device, connection);
    hide Inv;
  }

  lemma NewcomerIsSuccessor(h: Hub, device: Name, connection: Name, closed: set<Name>, after: int)
    requires Inv(h) && connection !in h.live && connection !in closed && after < h.nextSequence
    ensures Successor(Added(h, device, connection, LegacyUnknown), device, after, closed, connection)
  {
    NewcomerIsUnknown(h, device, connection);
    var a := Added(h, device, connection, LegacyUnknown);
    forall o | EligibleAfter(a, device, after, closed, o)
      ensures a.connections[device][o].registration <= a.connections[device][connection].registration
    {
      if o != connection {
        RegisteredBefore(h, device, o);
      }
    }
    hide Inv;
  }

  /** One that asked for channels gets the next one, while it is open. */
  lemma RegisteredExplicitIsOffered(h: Hub, device: Name, connection: Name, closed: set<Name>, later: set<Name>)
    requires Inv(h) && connection !in h.live && connection !in h.retired && connection !in later
    ensures var n := Register(h, device, connection, Some(true), closed);
      Pick(n, device, later) == (n, Some(connection))
  {
    RegisterKeepsInv(h, device, connection, Some(true), closed);
    var n := Register(h, device, connection, Some(true), closed);
    RegisteredEntry(h, device, connection, Some(true), closed);
    hide Register, ChannelsOk, LogOk, Rises;
    NewestNumberIsPicked(n, device, connection, later);
  }

  lemma NewestNumberIsPicked(n: Hub, device: Name, connection: Name, closed: set<Name>)
    requires TableOk(n) && InTable(n, device, connection) && connection !in closed
    requires n.connections[device][connection].support.ExplicitYes?
    requires n.connections[device][connection].registration + 1 == n.nextSequence
    ensures Pick(n, device, closed) == (n, Some(connection))
  {
    var m := n.connections[device];
    var candidates := ExplicitCandidates(m, closed);
    assert DeviceOk(m, device, n.live, n.nextSequence);
    assert IsNewest(m, candidates, connection);
    NewestIsCandidate(m, candidates);
    hide Refresh;
  }

  /** One that declined them is never offered any. */
  lemma DeclinedIsNeverOffered(h: Hub, device: Name, connection: Name, closed: set<Name>)
    requires IndexOk(h) && InTable(h, device, connection) && h.connections[device][connection].support.ExplicitNo?
    ensures Pick(h, device, closed).1 != Some(connection)
  {
    PickChoosesRight(h, device, closed);
    var (p, choice) := Pick(h, device, closed);
    hide Pick;
  }
}
