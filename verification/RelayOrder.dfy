/** The hub forwards channel data in the order of submission, each item once, and invents none. */
module RelayOrder {
  import opened Common
  import opened RelayModel
  import opened RelayInvariant
  import opened RelayHistory
  import opened RelayTheorems

  /** The data in a history, with the sockets it was handed to. */
  function DataItems(log: seq<Item>): seq<Item> {
    if log == [] then []
    else
      var last := log[|log| - 1];
      DataItems(log[..|log| - 1]) + if IsData(last) then [last] else []
  }

  lemma DataItemsSnoc(log: seq<Item>, item: Item)
    ensures DataItems(log + [item]) == DataItems(log) + if IsData(item) then [item] else []
  {
    assert (log + [item])[..|log|] == log;
  }

  lemma {:induction false} NoDataAdded(before: seq<Item>, log: seq<Item>)
    requires before <= log && forall i :: |before| <= i < |log| ==> !IsData(log[i])
    ensures DataItems(log) == DataItems(before)
    decreases |log|
  {
    if before != log {
      NoDataAdded(before, log[..|log| - 1]);
    } else {
      assert before == log;
    }
  }

  /** No step but the forwarding of data hands channel data to anyone. */
  lemma StepIsQuiet(h: Hub, ev: Event)
    requires Enabled(h, ev) && !ev.DataEvent?
    ensures DataItems(Step(h, ev).log) == DataItems(h.log)
  {
    StepSpeaks(h, ev);
    hide Step, Enabled;
    NoDataAdded(h.log, Step(h, ev).log);
  }

  // ---- submission and delivery

  /** The other end of an accepted channel, if it is still in the table; connection names suffice. */
  ghost function Recipient(h: Hub, connection: Name, channel: Name): Option<Name> {
    if channel !in h.channels || !h.channels[channel].accepted then None
    else
      var e := h.channels[channel];
      if e.sourceConnection == connection then
        if InTable(h, e.targetDevice, e.targetConnection) then Some(e.targetConnection) else None
      else if e.targetConnection == connection && InTable(h, e.sourceDevice, e.sourceConnection) then
        Some(e.sourceConnection)
      else None
  }

  lemma DataStep(h: Hub, connection: Name, channel: Name, payload: string)
    requires ChannelsOk(h) && connection in h.live
    ensures
      var n := SendData(h, h.live[connection], connection, channel, payload);
      match Recipient(h, connection, channel)
      case None => n == h
      case Some(r) => DataItems(n.log) == DataItems(h.log) + [Handed(r, ChannelData(channel, payload, connection))]
  {
    match Recipient(h, connection, channel)
    case None =>
    case Some(r) => DataItemsSnoc(h.log, Handed(r, ChannelData(channel, payload, connection)));
  }

  /** `order` lists the steps before `n` that submitted the data items, one by one and in order. */
  ghost predicate SubmittedBy(
    states: seq<Hub>, events: seq<Event>, items: seq<Item>, order: seq<nat>, n: nat)
    requires n <= |events| <= |states|
  {
    && |order| == |items|
    && (forall k :: 0 <= k < |order| ==>
          && order[k] < n
          && items[k].Handed? && items[k].message.ChannelData?
          && var m := items[k].message;
             && events[order[k]] == DataEvent(m.sender, m.channel, m.payload)
             && Recipient(states[order[k]], m.sender, m.channel) == Some(items[k].recipient))
    && (forall j, k :: 0 <= j < k < |order| ==> order[j] < order[k])
    && (forall i :: 0 <= i < n && events[i].DataEvent? && i !in order ==>
          Recipient(states[i], events[i].connection, events[i].channel).None?)
  }

  /**
     The data handed out in a run is exactly the data submitted on accepted channels whose other end is
     in the table: in the order of submission, each item once and unaltered, to that other end.
   */
  lemma {:induction false} DataKeepsItsOrder(states: seq<Hub>, events: seq<Event>, n: nat) returns (order: seq<nat>)
    requires Run(states, events) && n < |states|
    ensures SubmittedBy(states, events, DataItems(states[n].log), order, n)
  {
    hide Run, Inv, Enabled, Step;
    RunStep(states, events, n);
    order := [];
    if n > 0 {
      order := DataKeepsItsOrder(states, events, n - 1);
      var h, ev := states[n - 1], events[n - 1];
      var before := DataItems(h.log);
      hide SubmittedBy, Recipient, DataItems;
      if !ev.DataEvent? {
        StepIsQuiet(h, ev);
        NothingSubmitted(states, events, before, order, n);
      } else if Recipient(h, ev.connection, ev.channel).None? {
        DataInStep(h, ev);
        NothingSubmitted(states, events, before, order, n);
      } else {
        DataInStep(h, ev);
        OneSubmitted(states, events, before, order, n);
        order := order + [n - 1];
      }
    }
  }

  lemma RunStep(states: seq<Hub>, events: seq<Event>, n: nat)
    requires Run(states, events) && n < |states|
    ensures |states| == |events| + 1
    ensures n == 0 ==> DataItems(states[n].log) == []
    ensures n > 0 ==>
      && Inv(states[n - 1]) && Enabled(states[n - 1], events[n - 1])
      && states[n] == Step(states[n - 1], events[n - 1])
  {
    if n > 0 {
      RunKeepsInv(states, events, n - 1);
    }
  }

  lemma DataInStep(h: Hub, ev: Event)
    requires Inv(h) && ev.DataEvent? && Enabled(h, ev)
    ensures DataItems(Step(h, ev).log) == DataItems(h.log) +
      match Recipient(h, ev.connection, ev.channel)
      case None => []
      case Some(r) => [Handed(r, ChannelData(ev.channel, ev.payload, ev.connection))]
  {
    DataStep(h, ev.connection, ev.channel, ev.payload);
  }

  lemma NothingSubmitted(states: seq<Hub>, events: seq<Event>, items: seq<Item>, order: seq<nat>, n: nat)
    requires 0 < n <= |events| <= |states|
    requires SubmittedBy(states, events, items, order, n - 1)
    requires events[n - 1].DataEvent? ==>
      Recipient(states[n - 1], events[n - 1].connection, events[n - 1].channel).None?
    ensures SubmittedBy(states, events, items, order, n)
  {
    hide Recipient;
  }

  lemma OneSubmitted(states: seq<Hub>, events: seq<Event>, items: seq<Item>, order: seq<nat>, n: nat)
    requires 0 < n <= |events| <= |states|
    requires SubmittedBy(states, events, items, order, n - 1)
    requires events[n - 1].DataEvent?
    requires Recipient(states[n - 1], events[n - 1].connection, events[n - 1].channel).Some?
    ensures
      var ev := events[n - 1];
      var r := Recipient(states[n - 1], ev.connection, ev.channel).value;
      SubmittedBy(states, events, items + [Handed(r, ChannelData(ev.channel, ev.payload, ev.connection))],
                  order + [n - 1], n)
  {
    hide Recipient;
    assert forall i :: i in order + [n - 1] <==> i in order || i == n - 1;
  }
}
