/** Every step of the relay hub keeps its invariant. */
module RelaySteps {
  import opened Common
  import opened RelayModel
  import opened RelayInvariant

  /** Sockets, channels and history are as they were. */
  ghost predicate SameHistory(h: Hub, n: Hub) {
    n.log == h.log && n.channels == h.channels && n.live == h.live && n.retired == h.retired
  }

  lemma HistoryUntouched(h: Hub, n: Hub)
    requires Inv(h) && IndexOk(n) && SameHistory(h, n)
    ensures Inv(n)
  {
  }

  // ---- connections leaving the table

  lemma RemovalKeepsTable(h: Hub, device: Name, connection: Name)
    requires TableOk(h)
    ensures TableOk(RemovedFromTable(h, device, connection))
  {
    hide DeviceOk;
    if device in h.connections && !(h.connections[device].Keys <= {connection}) {
      DeviceWithout(h.connections[device], connection, device, h.live, h.nextSequence);
    }
  }

  lemma DeviceWithout(m: map<Name, Connection>, connection: Name, device: Name, live: map<Name, Name>, next: nat)
    requires DeviceOk(m, device, live, next) && !(m.Keys <= {connection})
    ensures DeviceOk(m - {connection}, device, live, next)
  {
    assert (m - {connection}).Keys == m.Keys - {connection};
  }

  lemma RemovalKeepsPreferred(h: Hub, device: Name, connection: Name)
    requires PreferredOk(h) && !(device in h.preferred && h.preferred[device] == connection)
    ensures PreferredOk(RemovedFromTable(h, device, connection))
  {
  }

  lemma RemovalKeepsIndex(h: Hub, device: Name, connection: Name)
    requires IndexOk(h) && !(device in h.preferred && h.preferred[device] == connection)
    ensures IndexOk(RemovedFromTable(h, device, connection)) && Rises(h, RemovedFromTable(h, device, connection))
  {
    hide TableOk;
    RemovalKeepsTable(h, device, connection);
    RemovalKeepsPreferred(h, device, connection);
    hide PreferredOk;
  }

  lemma RemoveEntryKeepsIndex(h: Hub, device: Name, connection: Name, closed: set<Name>)
    requires IndexOk(h)
    ensures IndexOk(RemoveEntry(h, device, connection, closed))
    ensures Rises(h, RemoveEntry(h, device, connection, closed))
  {
    hide IndexOk, Rises, Promote;
    if device in h.preferred && h.preferred[device] == connection {
      PreferredIsInTable(h, device);
      UnpreferKeepsIndex(h, device);
      RemovalKeepsIndex(Unprefer(h, device), device, connection);
      var r := RemovedFromTable(Unprefer(h, device), device, connection);
      RisesByUnpreferring(h, r);
      if !(h.connections[device].Keys <= {connection}) {
        PromoteAfterRemoval(h, r, device, connection, closed);
      }
    } else {
      RemovalKeepsIndex(h, device, connection);
      if device in h.connections && h.connections[device].Keys <= {connection} {
        LastOneIsPreferred(h, device, connection);
        assert h.preferred - {device} == h.preferred;
      }
    }
  }

  lemma RisesByUnpreferring(h: Hub, n: Hub)
    requires n.highWater == h.highWater
    requires forall d :: d in n.preferred ==> d in h.preferred && n.preferred[d] == h.preferred[d]
    ensures Rises(h, n)
  {
  }

  lemma PreferredIsInTable(h: Hub, device: Name)
    requires IndexOk(h) && device in h.preferred
    ensures InTable(h, device, h.preferred[device])
  {
  }

  lemma LastOneIsPreferred(h: Hub, device: Name, connection: Name)
    requires IndexOk(h) && device in h.connections && h.connections[device].Keys <= {connection}
    ensures device in h.preferred ==> h.preferred[device] == connection
  {
  }

  lemma PromoteAfterRemoval(h: Hub, r: Hub, device: Name, connection: Name, closed: set<Name>)
    requires IndexOk(h) && IndexOk(r) && Rises(h, r) && device !in r.preferred && r.highWater == h.highWater
    requires device in h.preferred && h.preferred[device] == connection
    ensures
      var n := Promote(r, device, h.connections[device][connection].registration, closed);
      IndexOk(n) && Rises(h, n)
  {
    var above := h.connections[device][connection].registration;
    PromoteKeepsIndex(r, device, above, closed);
    hide Promote;
    hide TableOk;
    RisesTrans(h, r, Promote(r, device, above, closed));
  }

  lemma RemoveEntryKeepsInv(h: Hub, device: Name, connection: Name, closed: set<Name>)
    requires Inv(h)
    ensures Inv(RemoveEntry(h, device, connection, closed)) && Rises(h, RemoveEntry(h, device, connection, closed))
  {
    RemoveEntryKeepsIndex(h, device, connection, closed);
    RemovalTables(h, device, connection, closed);
    hide RemoveEntry;
    hide IndexOk;
    HistoryUntouched(h, RemoveEntry(h, device, connection, closed));
  }

  // ---- connections entering the table

  /** Without a preference afterwards, refreshing has left the high-water marks where they were. */
  lemma RefreshWithoutSuccessor(h: Hub, device: Name, closed: set<Name>)
    ensures device !in Refresh(h, device, closed).preferred ==> Refresh(h, device, closed).highWater == h.highWater
  {
    hide Newest;
  }

  lemma AssignKeepsIndex(h: Hub, device: Name, connection: Name, closed: set<Name>)
    requires IndexOk(h) && InTable(h, device, connection)
    requires device in h.highWater ==> h.highWater[device] < h.connections[device][connection].registration
    ensures IndexOk(Assign(h, device, connection, closed)) && Rises(h, Assign(h, device, connection, closed))
    ensures SameTables(h, Assign(h, device, connection, closed))
  {
    var r := Refresh(h, device, closed);
    RefreshKeepsIndex(h, device, closed);
    RefreshKeepsTables(h, device, closed);
    RefreshWithoutSuccessor(h, device, closed);
    hide Refresh;
    if device !in r.preferred && IsIdleLegacy(r.connections[device][connection]) && connection !in closed {
      PreferKeepsIndex(r, device, connection);
      hide TableOk;
      RisesTrans(h, r, Prefer(r, device, connection));
    }
  }

  lemma DeviceWith(m: map<Name, Connection>, c: Name, entry: Connection, device: Name, live: map<Name, Name>, next: nat)
    requires m.Keys == {} || DeviceOk(m, device, live, next)
    requires c !in live && entry.registration == next
    ensures DeviceOk(m[c := entry], device, live[c := device], next + 1)
  {
    assert c in m[c := entry];
  }

  lemma DeviceLater(m: map<Name, Connection>, d: Name, live: map<Name, Name>, next: nat, c: Name, device: Name)
    requires DeviceOk(m, d, live, next) && c !in live
    ensures DeviceOk(m, d, live[c := device], next + 1)
  {
  }

  lemma AddedKeepsTable(h: Hub, device: Name, connection: Name, support: Support)
    requires TableOk(h) && connection !in h.live
    ensures TableOk(Added(h, device, connection, support))
  {
    hide DeviceOk;
    var n := Added(h, device, connection, support);
    forall d | d in n.connections
      ensures DeviceOk(n.connections[d], d, n.live, n.nextSequence)
    {
      if d == device {
        var known := if device in h.connections then h.connections[device] else map[];
        DeviceWith(known, connection, Connection(support, h.nextSequence, false), device, h.live, h.nextSequence);
      } else {
        DeviceLater(h.connections[d], d, h.live, h.nextSequence, connection, device);
      }
    }
  }

  lemma AddedKeepsPreferred(h: Hub, device: Name, connection: Name, support: Support)
    requires PreferredOk(h) && !InTable(h, device, connection)
    ensures PreferredOk(Added(h, device, connection, support))
  {
    var n := Added(h, device, connection, support);
    forall d | d in h.preferred
      ensures InTable(n, d, h.preferred[d]) && n.connections[d][h.preferred[d]] == h.connections[d][h.preferred[d]]
    {
      assert InTable(h, d, h.preferred[d]);
    }
  }

  lemma AddedKeepsChannels(h: Hub, device: Name, connection: Name, support: Support)
    requires ChannelsOk(h) && connection !in h.live && connection !in h.retired
    ensures ChannelsOk(Added(h, device, connection, support))
  {
  }

  lemma AddedKeepsInv(h: Hub, device: Name, connection: Name, support: Support)
    requires Inv(h) && connection !in h.live && connection !in h.retired
    ensures Inv(Added(h, device, connection, support))
  {
    AddedKeepsTable(h, device, connection, support);
    NewcomerIsUnknown(h, device, connection);
    hide TableOk;
    AddedKeepsPreferred(h, device, connection, support);
    hide PreferredOk;
    AddedKeepsChannels(h, device, connection, support);
    hide ChannelsOk;
    NotingKeepsLog(h, Added(h, device, connection, support), Connected(connection));
  }

  lemma NewcomerIsUnknown(h: Hub, device: Name, connection: Name)
    requires TableOk(h) && connection !in h.live
    ensures !InTable(h, device, connection)
  {
    if device in h.connections {
      assert DeviceOk(h.connections[device], device, h.live, h.nextSequence);
    }
  }

  lemma HighWaterIsPast(h: Hub, device: Name)
    requires IndexOk(h)
    ensures device in h.highWater ==> h.highWater[device] < h.nextSequence
    ensures device in h.preferred ==>
      && InTable(h, device, h.preferred[device])
      && device in h.highWater && h.highWater[device] == h.connections[device][h.preferred[device]].registration
  {
  }

  lemma RisesFromSame(h: Hub, a: Hub, n: Hub)
    requires Rises(a, n) && a.highWater == h.highWater && a.preferred == h.preferred
    ensures Rises(h, n)
  {
  }

  lemma RegisterKeepsInv(h: Hub, device: Name, connection: Name, incoming: Option<bool>, closed: set<Name>)
    requires Inv(h) && connection !in h.live && connection !in h.retired
    ensures var n := Register(h, device, connection, incoming, closed); Inv(n) && Rises(h, n)
  {
    var a := Added(h, device, connection, FromQuery(incoming));
    var n := Register(h, device, connection, incoming, closed);
    assert n == Assign(a, device, connection, closed);
    hide Assign, Rises, IndexOk, ChannelsOk, LogOk;
    AddedKeepsInv(h, device, connection, FromQuery(incoming));
    HighWaterIsPast(h, device);
    AssignKeepsIndex(a, device, connection, closed);
    HistoryUntouched(a, n);
    RisesFromSame(h, a, n);
  }

  // ---- a connection that opens a channel

  function Marked(h: Hub, device: Name, connection: Name): Hub
    requires InTable(h, device, connection)
  {
    var c := h.connections[device][connection];
    var marked := c.(originated := true, support := if c.support.LegacyUnknown? then ExplicitNo else c.support);
    h.(connections := h.connections[device := h.connections[device][connection := marked]])
  }

  lemma DeviceMarked(m: map<Name, Connection>, c: Name, entry: Connection, device: Name, live: map<Name, Name>, next: nat)
    requires DeviceOk(m, device, live, next) && c in m && entry.registration == m[c].registration
    ensures DeviceOk(m[c := entry], device, live, next)
  {
    assert c in m[c := entry];
  }

  lemma MarkedKeepsTable(h: Hub, device: Name, connection: Name)
    requires TableOk(h) && InTable(h, device, connection)
    ensures TableOk(Marked(h, device, connection))
  {
    hide DeviceOk;
    var n := Marked(h, device, connection);
    DeviceMarked(h.connections[device], connection, n.connections[device][connection], device, h.live, h.nextSequence);
  }

  lemma MarkedKeepsPreferred(h: Hub, device: Name, connection: Name)
    requires PreferredOk(h) && InTable(h, device, connection)
    requires !(device in h.preferred && h.preferred[device] == connection)
    ensures PreferredOk(Marked(h, device, connection))
  {
    var n := Marked(h, device, connection);
    forall d | d in h.preferred
      ensures InTable(n, d, h.preferred[d]) && n.connections[d][h.preferred[d]] == h.connections[d][h.preferred[d]]
    {
      assert InTable(h, d, h.preferred[d]);
    }
  }

  lemma MarkedKeepsIndex(h: Hub, device: Name, connection: Name)
    requires IndexOk(h) && InTable(h, device, connection)
    requires !(device in h.preferred && h.preferred[device] == connection)
    ensures IndexOk(Marked(h, device, connection))
  {
    hide TableOk, PreferredOk;
    MarkedKeepsTable(h, device, connection);
    MarkedKeepsPreferred(h, device, connection);
  }

  lemma NoteOpenedKeepsIndex(h: Hub, device: Name, connection: Name, closed: set<Name>)
    requires IndexOk(h)
    ensures var n := NoteOpened(h, device, connection, closed); IndexOk(n) && Rises(h, n)
    ensures SameHistory(h, NoteOpened(h, device, connection, closed))
  {
    hide IndexOk, Rises, Promote;
    var n := NoteOpened(h, device, connection, closed);
    RisesByUnpreferring(h, h);
    if InTable(h, device, connection) {
      var c := h.connections[device][connection];
      HighWaterIsPast(h, device);
      if device in h.preferred && h.preferred[device] == connection {
        UnpreferKeepsIndex(h, device);
        MarkedKeepsIndex(Unprefer(h, device), device, connection);
        var m := Marked(Unprefer(h, device), device, connection);
        assert n == Promote(m, device, c.registration, closed);
        PromoteKeepsIndex(m, device, c.registration, closed);
        PromoteKeepsTables(m, device, c.registration, closed);
        RisesByUnpreferring(h, m);
        RisesThrough(h, m, n);
      } else {
        MarkedKeepsIndex(h, device, connection);
        RisesByUnpreferring(h, n);
      }
    }
  }

  lemma RisesThrough(a: Hub, b: Hub, c: Hub)
    requires Rises(a, b) && Rises(b, c) && IndexOk(b) && IndexOk(c)
    ensures Rises(a, c)
  {
    hide TableOk;
    RisesTrans(a, b, c);
  }

  lemma NoteOpenedKeepsInv(h: Hub, device: Name, connection: Name, closed: set<Name>)
    requires Inv(h)
    ensures var n := NoteOpened(h, device, connection, closed); Inv(n) && Rises(h, n)
  {
    hide IndexOk, ChannelsOk, LogOk;
    NoteOpenedKeepsIndex(h, device, connection, closed);
    hide NoteOpened;
    HistoryUntouched(h, NoteOpened(h, device, connection, closed));
  }
}
