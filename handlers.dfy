/**
 * Notifier selection: the configuration names a Slack token and channel,
 * `GetHandler` picks the Slack notifier when either is set, and the
 * notifier's `Init` copies and checks them.
 */
module Handlers {
  import opened Wrappers

  datatype SlackConfig = SlackConfig(token: string, channel: string)

  datatype HandlerConfig = HandlerConfig(slack: SlackConfig)

  datatype Config = Config(handler: HandlerConfig)

  const UnknownHandler := "Unknown handler"
  const MissingTokenOrChannel := "Missing token or channel"

  /** The outcome of validating a Slack configuration. */
  function InitError(slack: SlackConfig): (err: Option<string>)
    ensures err.None? <==> slack.token != "" && slack.channel != ""
    ensures err.Some? ==> err.value == MissingTokenOrChannel
  {
    if slack.token == "" || slack.channel == "" then Some(MissingTokenOrChannel) else None
  }

  /** The outcome of selecting and initialising a handler. */
  function HandlerError(c: Config): (err: Option<string>)
    ensures var slack := c.handler.slack;
            && (err.None? <==> slack.token != "" && slack.channel != "")
            && (err == Some(UnknownHandler) <==> slack.token == "" && slack.channel == "")
            && (err == Some(MissingTokenOrChannel) <==> (slack.token == "") != (slack.channel == ""))
  {
    if |c.handler.slack.channel| > 0 || |c.handler.slack.token| > 0 then InitError(c.handler.slack)
    else Some(UnknownHandler)
  }

  /** The Slack notifier. */
  class Slack {
    var token: string
    var channel: string

    /** A zero-valued notifier, as `new(Slack)` makes. */
    constructor ()
      ensures token == "" && channel == ""
    {
      token := "";
      channel := "";
    }

    /** Copies token and channel from the configuration, then fails if either is empty. */
    method Init(c: Config) returns (err: Option<string>)
      modifies this
      ensures token == c.handler.slack.token && channel == c.handler.slack.channel
      ensures err == InitError(c.handler.slack)
    {
      token := c.handler.slack.token;
      channel := c.handler.slack.channel;
      if token == "" || channel == "" {
        return Some(MissingTokenOrChannel);
      }
      return None;
    }
  }

  /**
   * Picks the Slack handler when a token or a channel is configured and
   * initialises it; any error leaves no handler.
   */
  method GetHandler(c: Config) returns (handler: Slack?, err: Option<string>)
    ensures err == HandlerError(c)
    ensures err.Some? ==> handler == null
    ensures err.None? ==> handler != null && fresh(handler)
                          && handler.token == c.handler.slack.token && handler.channel == c.handler.slack.channel
  {
    if |c.handler.slack.channel| > 0 || |c.handler.slack.token| > 0 {
      handler := new Slack();
    } else {
      return null, Some(UnknownHandler);
    }
    err := handler.Init(c);
    if err.Some? {
      return null, err;
    }
    return handler, None;
  }
}
