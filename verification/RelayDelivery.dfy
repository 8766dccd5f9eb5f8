/**
 Messages on their way: the hub looks a socket up under its lock and sends after releasing it, so
 messages may reach the queues in another order than they were looked up. Each socket's own handlers
 follow one another, so what is sent on behalf of one socket keeps its order.
 */
module RelayDelivery {
  import opened Common
  import opened RelayModel
  import opened RelayInvariant
  import opened RelayTheorems
  import opened RelayHistory

  lemma {:induction false} LogGrows(states: seq<Hub>, events: seq<Event>, i: nat, n: nat)
    requires Run(states, events) && i <= n < |states|
    ensures states[i].log <= states[n].log
    decreases n - i
  {
    if i < n {
      LogGrows(states, events, i, n - 1);
      OneMoreStep(states, events, n - 1);
      hide Run;
    }
  }

  lemma OneMoreStep(states: seq<Hub>, events: seq<Event>, i: nat)
    requires Run(states, events) && i < |events|
    ensures states[i].log <= states[i + 1].log
  {
    StepSpeaks(states[i], events[i]);
    hide Step, Enabled;
  }

  /** Step `i` noted item `j`. */
  ghost predicate NotedBy(states: seq<Hub>, events: seq<Event>, j: nat, i: nat) {
    i < |events| && i + 1 < |states| && |states[i].log| <= j < |states[i + 1].log|
  }

  ghost predicate SameActor(states: seq<Hub>, events: seq<Event>, a: nat, i: nat, b: nat, k: nat) {
    NotedBy(states, events, a, i) && NotedBy(states, events, b, k) && Actor(events[i]) == Actor(events[k])
  }

  /** `sent` is an order in which messages of the history may have been sent: distinct, and in order per socket. */
  ghost predicate Delivery(states: seq<Hub>, events: seq<Event>, n: nat, sent: seq<nat>)
    requires n < |states|
  {
    && (forall x :: 0 <= x < |sent| ==> sent[x] < |states[n].log| && states[n].log[sent[x]].Handed?)
    && (forall x, y :: 0 <= x < y < |sent| ==> sent[x] != sent[y])
    && (forall x, y, i, k :: 0 <= x < y < |sent| && SameActor(states, events, sent[x], i, sent[y], k) ==> sent[x] < sent[y])
  }

  lemma {:induction false} NotingStep(states: seq<Hub>, events: seq<Event>, n: nat, j: nat) returns (i: nat)
    requires Run(states, events) && n < |states| && j < |states[n].log|
    ensures i < n && NotedBy(states, events, j, i) && states[i + 1].log[j] == states[n].log[j]
  {
    if j < |states[n - 1].log| {
      LogGrows(states, events, n - 1, n);
      i := NotingStep(states, events, n - 1, j);
    } else {
      i := n - 1;
    }
  }

  /** The id was opened by an item strictly between the two. */
  ghost predicate OpenedBetween(log: seq<Item>, i: int, j: int, channel: Name) {
    exists k :: 0 <= k < |log| && i < k < j && log[k].Opened? && log[k].channel == channel
  }

  predicate Speaks(item: Item) { IsData(item) || IsClose(item) }

  /** Without a new opening in between, an id stands for a channel with the same ends. */
  lemma {:induction false} SameSession(log: seq<Item>, channel: Name, i: nat, j: nat)
    requires i <= j <= |log| && Replay(log[..i], channel).Some? && Replay(log[..j], channel).Some?
    requires forall x :: i <= x < j ==> !(log[x].Opened? && log[x].channel == channel)
    ensures Replay(log[..j], channel).value.(accepted := false) == Replay(log[..i], channel).value.(accepted := false)
    decreases j - i
  {
    if i < j {
      assert log[..j] == log[..j - 1] + [log[j - 1]];
      ReplaySnoc(log[..j - 1], log[j - 1], channel);
      SameSession(log, channel, i, j - 1);
    }
  }

  /** The step that notes a data item or a close speaks for one end of the channel to the other, and opens nothing. */
  lemma SpeakingStep(states: seq<Hub>, events: seq<Event>, n: nat, j: nat) returns (i: nat)
    requires Run(states, events) && n < |states| && j < |states[n].log| && Speaks(states[n].log[j])
    ensures i < n && NotedBy(states, events, j, i)
    ensures states[i].log <= states[i + 1].log <= states[n].log
    ensures forall x :: |states[i].log| <= x < |states[i + 1].log| ==> !states[n].log[x].Opened?
    ensures
      var m := states[n].log[j].message;
      var e := Replay(states[n].log[..|states[i].log|], m.channel);
      e.Some? && OppositeEnds(e.value, Actor(events[i]), states[n].log[j].recipient)
  {
    i := NotingStep(states, events, n, j);
    LogGrows(states, events, i + 1, n);
    RunKeepsInv(states, events, i);
    StepSpeaks(states[i], events[i]);
    hide Step, Enabled;
    assert states[n].log[..|states[i].log|] == states[i].log;
    assert FromEnd(states[i], states[i + 1].log[j], Actor(events[i]));
  }

  /**
     Data and closes sent to one socket on one id arrive in the order of their lookups, unless the id
     was opened anew between the two lookups.
   */
  lemma SessionKeepsItsOrder(
    states: seq<Hub>, events: seq<Event>, n: nat, sent: seq<nat>, x: nat, y: nat)
    requires Run(states, events) && n < |states| && Delivery(states, events, n, sent) && x < y < |sent|
    requires Speaks(states[n].log[sent[x]]) && Speaks(states[n].log[sent[y]])
    requires states[n].log[sent[x]].recipient == states[n].log[sent[y]].recipient
    requires states[n].log[sent[x]].message.channel == states[n].log[sent[y]].message.channel
    ensures sent[x] < sent[y] || OpenedBetween(states[n].log, sent[y], sent[x], states[n].log[sent[x]].message.channel)
  {
    hide Run;
    if sent[y] < sent[x] && !OpenedBetween(states[n].log, sent[y], sent[x], states[n].log[sent[x]].message.channel) {
      var i, k := OneSpeaker(states, events, n, sent[x], sent[y]);
    }
  }

  /** What is said to a socket in one session of an id is all said on behalf of one other. */
  lemma OneSpeaker(states: seq<Hub>, events: seq<Event>, n: nat, a: nat, b: nat) returns (i: nat, k: nat)
    requires Run(states, events) && n < |states| && b < a < |states[n].log|
    requires Speaks(states[n].log[a]) && Speaks(states[n].log[b])
    requires states[n].log[a].recipient == states[n].log[b].recipient
    requires states[n].log[a].message.channel == states[n].log[b].message.channel
    requires !OpenedBetween(states[n].log, b, a, states[n].log[a].message.channel)
    ensures SameActor(states, events, a, i, b, k)
  {
    i := SpeakingStep(states, events, n, a);
    k := SpeakingStep(states, events, n, b);
    hide Run, Replay;
    StepsInOrder(states, events, b, k, a, i);
    SameSession(states[n].log, states[n].log[a].message.channel, |states[k].log|, |states[i].log|);
  }

  lemma StepsInOrder(states: seq<Hub>, events: seq<Event>, b: nat, k: nat, a: nat, i: nat)
    requires Run(states, events) && NotedBy(states, events, b, k) && NotedBy(states, events, a, i) && b < a
    ensures k <= i && |states[k].log| <= |states[i].log| && (k < i ==> |states[k + 1].log| <= |states[i].log|)
  {
    if i < k {
      LogGrows(states, events, i + 1, k);
    } else if k < i {
      LogGrows(states, events, k + 1, i);
      LogGrows(states, events, k, i);
    }
  }

  /** In particular no data of a session reaches a socket after the close of that session. */
  lemma NoDataAfterItsClose(
    states: seq<Hub>, events: seq<Event>, n: nat, sent: seq<nat>, x: nat, y: nat)
    requires Run(states, events) && n < |states| && Delivery(states, events, n, sent) && x < y < |sent|
    requires IsClose(states[n].log[sent[x]]) && IsData(states[n].log[sent[y]])
    requires states[n].log[sent[x]].recipient == states[n].log[sent[y]].recipient
    requires states[n].log[sent[x]].message.channel == states[n].log[sent[y]].message.channel
    ensures OpenedBetween(states[n].log, Min(sent[x], sent[y]), Max(sent[x], sent[y]),
                          states[n].log[sent[x]].message.channel)
  {
    hide Run;
    SessionKeepsItsOrder(states, events, n, sent, x, y);
    if sent[x] < sent[y] {
      NoDataAfterClose(states, events, n, sent[x], sent[y]);
    }
  }
}
