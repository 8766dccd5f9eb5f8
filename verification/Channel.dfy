/**
 A direct channel: two endpoints and a network between them. An endpoint may be handed any message
 its peer has ever sent, any number of times and in any order, or never; nothing else is delivered.
 */
module Channel {
  import opened SecureChannel
  import opened Endpoint

  datatype Channel = Channel(left: Endpoint, right: Endpoint)

  datatype Side = Left | Right

  ghost function At(c: Channel, side: Side): Endpoint { if side.Left? then c.left else c.right }

  function Other(side: Side): Side { if side.Left? then Right else Left }

  /** The channel right after it was opened with a shared secret. */
  ghost function Opened(sharedSecret: Bytes, channelId: Bytes): Channel {
    Channel(Initial(SecureChannelPair(sharedSecret, channelId, Initiator)),
            Initial(SecureChannelPair(sharedSecret, channelId, Responder)))
  }

  ghost predicate MayHappen(c: Channel, side: Side, ev: Event) {
    && Enabled(At(c, side), ev)
    && (ev.ReceiveEvent? ==> ev.message in At(c, Other(side)).sent)
  }

  ghost function Apply(c: Channel, side: Side, ev: Event): Channel
    requires MayHappen(c, side, ev)
  {
    if side.Left? then c.(left := Step(c.left, ev)) else c.(right := Step(c.right, ev))
  }

  datatype Action = Action(side: Side, event: Event)

  /** `states` is what the channel goes through under `actions`. */
  ghost predicate Run(states: seq<Channel>, actions: seq<Action>, sharedSecret: Bytes, channelId: Bytes) {
    && |states| == |actions| + 1
    && states[0] == Opened(sharedSecret, channelId)
    && forall i :: 0 <= i < |actions| ==>
         && MayHappen(states[i], actions[i].side, actions[i].event)
         && states[i + 1] == Apply(states[i], actions[i].side, actions[i].event)
  }
}
