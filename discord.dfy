/** `send_discord_message`: one blocking post to the configured Discord webhook.
    The channel is the sequence of messages it has received. */
module Discord {

  class DiscordChannel {
    var sent: seq<string>

    constructor ()
      ensures sent == []
    {
      sent := [];
    }

    /** Posts `content`; `reachable` is whether the foreign call succeeds. When it
        does not, the call raises (`raised`) and nothing is delivered. */
    method Send(content: string, reachable: bool) returns (raised: bool)
      modifies this
      ensures raised <==> !reachable
      ensures sent == old(sent) + (if reachable then [content] else [])
    {
      if reachable {
        sent := sent + [content];
      }
      raised := !reachable;
    }
  }
}
