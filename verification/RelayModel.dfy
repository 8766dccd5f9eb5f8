/**
 The relay hub as a state machine: one step for each critical section together with the sends that
 follow it. Whether a socket's sender is closed is observed afresh in every step.
 */
module RelayModel {
  import opened Common

  type Name = string

  datatype Support = ExplicitYes | ExplicitNo | LegacyUnknown

  function FromQuery(incoming: Option<bool>): Support {
    match incoming
    case Some(true) => ExplicitYes
    case Some(false) => ExplicitNo
    case None => LegacyUnknown
  }

  datatype Connection = Connection(support: Support, registration: nat, originated: bool)

  datatype Entry = Entry(
    sourceDevice: Name, sourceConnection: Name, targetDevice: Name, targetConnection: Name, accepted: bool)

  /** What is handed to a socket's queue; `sender` is the socket that submitted the data. */
  datatype Message =
    | IncomingChannel(channel: Name, sourceDevice: Name)
    | ChannelAccepted(channel: Name)
    | ChannelRejected(channel: Name, reason: string)
    | ChannelData(channel: Name, payload: string, sender: Name)
    | ChannelClose(channel: Name, note: Option<string>)
    | Pong

  /** The history of the hub. */
  datatype Item =
    | Connected(connection: Name)
    | Disconnected(connection: Name)
    | Opened(channel: Name, entry: Entry)
    | Confirmed(channel: Name)
    | Removed(channel: Name)
    | Cleared
    | Handed(recipient: Name, message: Message)

  /**
     The tables, then the sockets that are up (with their device), those that are gone, the highest
     registration that was ever preferred per device, and the history.
   */
  datatype Hub = Hub(
    connections: map<Name, map<Name, Connection>>,
    channels: map<Name, Entry>,
    nextSequence: nat,
    preferred: map<Name, Name>,
    live: map<Name, Name>,
    retired: set<Name>,
    highWater: map<Name, int>,
    log: seq<Item>)

  const EMPTY_HUB: Hub := Hub(map[], map[], 0, map[], map[], {}, map[], [])

  predicate InTable(h: Hub, device: Name, connection: Name) {
    device in h.connections && connection in h.connections[device]
  }

  function Noting(h: Hub, item: Item): Hub { h.(log := h.log + [item]) }

  /** Sends to a socket the table still knows; anything else is dropped. */
  function Hand(h: Hub, device: Name, connection: Name, message: Message): Hub {
    if InTable(h, device, connection) then Noting(h, Handed(connection, message)) else h
  }

  // ---- choosing a connection

  ghost predicate IsNewest(connections: map<Name, Connection>, candidates: set<Name>, c: Name) {
    && candidates <= connections.Keys
    && c in candidates
    && forall o :: o in candidates ==> connections[o].registration <= connections[c].registration
  }

  ghost function Newest(connections: map<Name, Connection>, candidates: set<Name>): Option<Name> {
    if exists c :: IsNewest(connections, candidates, c)
    then var c :| IsNewest(connections, candidates, c); Some(c)
    else None
  }

  predicate IsIdleLegacy(c: Connection) { c.support.LegacyUnknown? && !c.originated }

  function ExplicitCandidates(connections: map<Name, Connection>, closed: set<Name>): set<Name> {
    set c | c in connections && connections[c].support.ExplicitYes? && c !in closed
  }

  function LegacyCandidates(connections: map<Name, Connection>, closed: set<Name>, above: int): set<Name> {
    set c | c in connections && IsIdleLegacy(connections[c]) && c !in closed && connections[c].registration > above
  }

  function Prefer(h: Hub, device: Name, connection: Name): Hub
    requires InTable(h, device, connection)
  {
    h.(preferred := h.preferred[device := connection],
       highWater := h.highWater[device := h.connections[device][connection].registration])
  }

  function Unprefer(h: Hub, device: Name): Hub { h.(preferred := h.preferred - {device}) }

  /** `maybe_promote_newer_legacy_connection`. */
  ghost function Promote(h: Hub, device: Name, above: int, closed: set<Name>): Hub {
    if device !in h.connections then h
    else match Newest(h.connections[device], LegacyCandidates(h.connections[device], closed, above))
      case Some(c) => if InTable(h, device, c) then Prefer(h, device, c) else h
      case None => h
  }

  /** `refresh_preferred_legacy_connection`. */
  ghost function Refresh(h: Hub, device: Name, closed: set<Name>): Hub {
    if device !in h.preferred then h
    else
      var p := h.preferred[device];
      if !InTable(h, device, p) then Unprefer(h, device)
      else
        var c := h.connections[device][p];
        if IsIdleLegacy(c) && p !in closed then h
        else Promote(Unprefer(h, device), device, c.registration, closed)
  }

  /** `maybe_assign_preferred_legacy_connection`. */
  ghost function Assign(h: Hub, device: Name, connection: Name, closed: set<Name>): Hub {
    var r := Refresh(h, device, closed);
    if device !in r.preferred && InTable(r, device, connection)
       && IsIdleLegacy(r.connections[device][connection]) && connection !in closed
    then Prefer(r, device, connection)
    else r
  }

  function WithoutConnection(h: Hub, device: Name, connection: Name): Hub
    requires device in h.connections
  {
    h.(connections := h.connections[device := h.connections[device] - {connection}])
  }

  /** `remove_connection_entry`. */
  ghost function RemoveEntry(h: Hub, device: Name, connection: Name, closed: set<Name>): Hub {
    var wasPreferred := device in h.preferred && h.preferred[device] == connection;
    if device in h.connections && h.connections[device].Keys <= {connection} then
      Unprefer(h.(connections := h.connections - {device}), device)
    else
      var removed := if device in h.connections then WithoutConnection(h, device, connection) else h;
      if !wasPreferred then removed
      else if InTable(h, device, connection) then
        Promote(Unprefer(removed, device), device, h.connections[device][connection].registration, closed)
      else Unprefer(removed, device)
  }

  /** `pick_incoming_connection`: the newest explicit connection, or else the preferred legacy one. */
  ghost function Pick(h: Hub, device: Name, closed: set<Name>): (Hub, Option<Name>) {
    if device !in h.connections then (h, None)
    else
      var explicit := Newest(h.connections[device], ExplicitCandidates(h.connections[device], closed));
      if explicit.Some? then (h, explicit)
      else
        var r := Refresh(h, device, closed);
        if device in r.preferred && InTable(r, device, r.preferred[device])
           && IsIdleLegacy(r.connections[device][r.preferred[device]]) && r.preferred[device] !in closed
        then (r, Some(r.preferred[device]))
        else (r, None)
  }

  // ---- steps

  /** The table with one more socket, newer than all others. */
  function Added(h: Hub, device: Name, connection: Name, support: Support): Hub {
    var known := if device in h.connections then h.connections[device] else map[];
    Noting(h, Connected(connection)).(
      connections := h.connections[device := known[connection := Connection(support, h.nextSequence, false)]],
      nextSequence := h.nextSequence + 1,
      live := h.live[connection := device])
  }

  ghost function Register(h: Hub, device: Name, connection: Name, incoming: Option<bool>, closed: set<Name>): Hub {
    Assign(Added(h, device, connection, FromQuery(incoming)), device, connection, closed)
  }

  predicate Involves(e: Entry, device: Name, connection: Name) {
    || (e.sourceDevice == device && e.sourceConnection == connection)
    || (e.targetDevice == device && e.targetConnection == connection)
  }

  function Affected(h: Hub, device: Name, connection: Name): set<Name> {
    set channel | channel in h.channels && Involves(h.channels[channel], device, connection)
  }

  predicate NoneTwice(order: seq<Name>) {
    forall i, j :: 0 <= i < j < |order| ==> order[i] != order[j]
  }

  /** Removes one channel of a socket that went away and tells the other end. */
  function DropChannel(h: Hub, device: Name, connection: Name, channel: Name): Hub
    requires channel in h.channels
  {
    var e := h.channels[channel];
    var removed := Noting(h.(channels := h.channels - {channel}), Removed(channel));
    var notice := ChannelClose(channel, Some("peer disconnected"));
    if e.sourceDevice == device && e.sourceConnection == connection
    then Hand(removed, e.targetDevice, e.targetConnection, notice)
    else Hand(removed, e.sourceDevice, e.sourceConnection, notice)
  }

  /** Drops the listed channels, in whatever order the table yields them. */
  function DropChannels(h: Hub, device: Name, connection: Name, order: seq<Name>): Hub
    decreases |order|
  {
    if order == [] then h
    else
      var rest := order[1..];
      DropChannels(if order[0] in h.channels then DropChannel(h, device, connection, order[0]) else h,
                   device, connection, rest)
  }

  ghost function Disconnect(h: Hub, device: Name, connection: Name, closed: set<Name>, order: seq<Name>): Hub {
    var dropped := DropChannels(RemoveEntry(h, device, connection, closed), device, connection, order);
    Noting(dropped, Disconnected(connection)).(
      live := dropped.live - {connection}, retired := dropped.retired + {connection})
  }

  function Reset(h: Hub): Hub {
    Noting(h.(connections := map[], channels := map[], preferred := map[]), Cleared)
  }

  /** `note_connection_opened_channel`. */
  ghost function NoteOpened(h: Hub, device: Name, connection: Name, closed: set<Name>): Hub {
    if !InTable(h, device, connection) then h
    else
      var c := h.connections[device][connection];
      var marked := c.(originated := true, support := if c.support.LegacyUnknown? then ExplicitNo else c.support);
      var n := h.(connections := h.connections[device := h.connections[device][connection := marked]]);
      if device in h.preferred && h.preferred[device] == connection
      then Promote(Unprefer(n, device), device, c.registration, closed)
      else n
  }

  /** What one round of the open loop observes of the sockets. */
  datatype Observation = Observation(closedAtPick: set<Name>, sendFails: bool, closedAtRemoval: set<Name>)

  const CHANNEL_EXISTS := "channel already exists"
  const NO_CONNECTION := "target device has no relay service connection"

  ghost function ConnectionCount(h: Hub, device: Name): nat {
    if device in h.connections then |h.connections[device]| else 0
  }

  ghost function AddChannel(h: Hub, channel: Name, entry: Entry): Hub {
    Noting(h.(channels := h.channels[channel := entry]), Opened(channel, entry))
  }

  ghost function UndoChannel(h: Hub, channel: Name): Hub {
    Noting(h.(channels := h.channels - {channel}), Removed(channel))
  }

  /** The open loop from round `i` on; `seen` says what each round observes. */
  ghost function OpenLoop(
    h: Hub, device: Name, connection: Name, channel: Name, target: Name, seen: nat -> Observation, i: nat): Hub
    decreases ConnectionCount(h, target)
  {
    if channel in h.channels then
      Hand(h, device, connection, ChannelRejected(channel, CHANNEL_EXISTS))
    else
      var (picked, choice) := Pick(h, target, seen(i).closedAtPick);
      match choice
      case None => Hand(picked, device, connection, ChannelRejected(channel, NO_CONNECTION))
      case Some(t) =>
        var added := AddChannel(picked, channel, Entry(device, connection, target, t, false));
        if !seen(i).sendFails then Noting(added, Handed(t, IncomingChannel(channel, device)))
        else
          var undone := UndoChannel(RemoveEntry(added, target, t, seen(i).closedAtRemoval), channel);
          PickedIsInTable(h, target, seen(i).closedAtPick);
          RemovalShrinks(added, target, t, seen(i).closedAtRemoval);
          OpenLoop(undone, device, connection, channel, target, seen, i + 1)
  }

  /** One round of the open loop on its own: the channel is entered and offered to its target. */
  ghost function OpenRound(
    h: Hub, device: Name, connection: Name, channel: Name, target: Name, seen: Observation): Hub
  {
    if channel in h.channels then
      Hand(h, device, connection, ChannelRejected(channel, CHANNEL_EXISTS))
    else
      var (picked, choice) := Pick(h, target, seen.closedAtPick);
      match choice
      case None => Hand(picked, device, connection, ChannelRejected(channel, NO_CONNECTION))
      case Some(t) =>
        var added := AddChannel(picked, channel, Entry(device, connection, target, t, false));
        if seen.sendFails then added else Noting(added, Handed(t, IncomingChannel(channel, device)))
  }

  /** What follows a failed send: the connection and the channel are taken out again. */
  ghost function CleanUp(h: Hub, channel: Name, device: Name, connection: Name, closed: set<Name>): Hub {
    UndoChannel(RemoveEntry(h, device, connection, closed), channel)
  }

  /** An open request: the service either names its owner or is refused with a reason. */
  datatype Authorization = Granted(owner: Name) | Denied(reason: string)

  ghost function Open(
    h: Hub, device: Name, connection: Name, channel: Name, authorization: Authorization,
    closed: set<Name>, seen: nat -> Observation): Hub
  {
    var noted := NoteOpened(h, device, connection, closed);
    match authorization
    case Denied(reason) => Hand(noted, device, connection, ChannelRejected(channel, reason))
    case Granted(owner) => OpenLoop(noted, device, connection, channel, owner, seen, 0)
  }

  predicate IsTarget(e: Entry, device: Name, connection: Name) {
    e.targetDevice == device && e.targetConnection == connection
  }

  predicate IsSource(e: Entry, device: Name, connection: Name) {
    e.sourceDevice == device && e.sourceConnection == connection
  }

  function Accept(h: Hub, device: Name, connection: Name, channel: Name): Hub {
    if channel !in h.channels || !IsTarget(h.channels[channel], device, connection) then h
    else
      var e := h.channels[channel];
      var n := Noting(h.(channels := h.channels[channel := e.(accepted := true)]), Confirmed(channel));
      Hand(n, e.sourceDevice, e.sourceConnection, ChannelAccepted(channel))
  }

  function Reject(h: Hub, device: Name, connection: Name, channel: Name, reason: string): Hub {
    if channel !in h.channels || !IsTarget(h.channels[channel], device, connection) then h
    else
      var e := h.channels[channel];
      var n := Noting(h.(channels := h.channels - {channel}), Removed(channel));
      Hand(n, e.sourceDevice, e.sourceConnection, ChannelRejected(channel, reason))
  }

  function SendData(h: Hub, device: Name, connection: Name, channel: Name, payload: string): Hub {
    if channel !in h.channels || !h.channels[channel].accepted then h
    else
      var e := h.channels[channel];
      var m := ChannelData(channel, payload, connection);
      if IsSource(e, device, connection) then Hand(h, e.targetDevice, e.targetConnection, m)
      else if IsTarget(e, device, connection) then Hand(h, e.sourceDevice, e.sourceConnection, m)
      else h
  }

  function CloseChannel(h: Hub, device: Name, connection: Name, channel: Name, reason: Option<string>): Hub {
    if channel !in h.channels || !Involves(h.channels[channel], device, connection) then h
    else
      var e := h.channels[channel];
      var n := Noting(h.(channels := h.channels - {channel}), Removed(channel));
      var m := ChannelClose(channel, reason);
      if IsSource(e, device, connection) then Hand(n, e.targetDevice, e.targetConnection, m)
      else Hand(n, e.sourceDevice, e.sourceConnection, m)
  }

  // ---- the open loop terminates

  lemma NewestIsCandidate(connections: map<Name, Connection>, candidates: set<Name>)
    ensures Newest(connections, candidates).Some? ==>
      IsNewest(connections, candidates, Newest(connections, candidates).value)
  {
  }

  /** Only the preference may differ. */
  ghost predicate SameTables(h: Hub, r: Hub) {
    && r.connections == h.connections && r.channels == h.channels && r.log == h.log
    && r.live == h.live && r.retired == h.retired && r.nextSequence == h.nextSequence
  }

  lemma PromoteKeepsTables(h: Hub, device: Name, above: int, closed: set<Name>)
    ensures SameTables(h, Promote(h, device, above, closed))
  {
  }

  lemma RefreshKeepsTables(h: Hub, device: Name, closed: set<Name>)
    ensures SameTables(h, Refresh(h, device, closed))
  {
    if device in h.preferred && InTable(h, device, h.preferred[device]) {
      PromoteKeepsTables(Unprefer(h, device), device, h.connections[device][h.preferred[device]].registration, closed);
    }
    hide Promote;
  }

  lemma PickedIsInTable(h: Hub, device: Name, closed: set<Name>)
    ensures var (p, choice) := Pick(h, device, closed);
      SameTables(h, p) && (choice.Some? ==> InTable(h, device, choice.value))
  {
    RefreshKeepsTables(h, device, closed);
    hide Refresh;
    if device in h.connections {
      NewestIsCandidate(h.connections[device], ExplicitCandidates(h.connections[device], closed));
    }
  }

  /** The table without one connection; a device without connections has no entry. */
  function RemovedFromTable(h: Hub, device: Name, connection: Name): Hub {
    if device !in h.connections then h
    else if h.connections[device].Keys <= {connection} then h.(connections := h.connections - {device})
    else WithoutConnection(h, device, connection)
  }

  lemma RemovalTables(h: Hub, device: Name, connection: Name, closed: set<Name>)
    ensures SameTables(RemovedFromTable(h, device, connection), RemoveEntry(h, device, connection, closed))
  {
    var removed := if device in h.connections then WithoutConnection(h, device, connection) else h;
    if InTable(h, device, connection) {
      PromoteKeepsTables(Unprefer(removed, device), device, h.connections[device][connection].registration, closed);
    }
    hide Promote;
  }

  lemma RemovalShrinks(h: Hub, device: Name, connection: Name, closed: set<Name>)
    ensures InTable(h, device, connection) ==>
      ConnectionCount(RemoveEntry(h, device, connection, closed), device) < ConnectionCount(h, device)
  {
    RemovalTables(h, device, connection, closed);
    hide RemoveEntry;
    if InTable(h, device, connection) {
      var m := h.connections[device];
      assert (m - {connection}).Keys == m.Keys - {connection};
      assert |(m - {connection}).Keys| == |m.Keys| - 1;
    }
  }
}
