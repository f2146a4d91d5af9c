/** The `sendOrAppend` closure that both evaluators build for one container:
    with Slack configured every message is posted at once, otherwise it is
    appended to a buffer local to that one call. */
module Sink {
  import opened Types

  class Dispatcher {
    /** `notifications.SlackEnabled()`: both the token and the channel are set.
        The environment it reads does not change while the program runs. */
    const slackEnabled: bool

    /** The messages handed to `SendSlackNotification`, in order. Delivery is
        best effort; a failed post is logged and dropped. */
    var sent: seq<Message>

    /** The per-call buffer (`messages` in the closure). */
    var messages: seq<Message>

    /** Only one of the two routes is ever used. */
    ghost predicate Valid()
      reads this
    {
      if slackEnabled then messages == [] else sent == []
    }

    /** Everything dispatched so far, whichever route it took. */
    ghost function Emitted(): seq<Message>
      reads this
    {
      if slackEnabled then sent else messages
    }

    constructor (slackEnabled: bool)
      ensures Valid()
      ensures this.slackEnabled == slackEnabled && sent == [] && messages == []
    {
      this.slackEnabled := slackEnabled;
      sent := [];
      messages := [];
    }

    method SendOrAppend(message: Message)
      requires Valid()
      modifies this
      ensures Valid()
      ensures Emitted() == old(Emitted()) + [message]
      ensures slackEnabled ==> sent == old(sent) + [message] && messages == old(messages)
      ensures !slackEnabled ==> messages == old(messages) + [message] && sent == old(sent)
    {
      if slackEnabled {
        sent := sent + [message];
      } else {
        messages := messages + [message];
      }
    }
  }
}
