/** The notification tool: validates recipient, message, channel and priority. */
module Notifications {
  import opened Wrappers
  import opened Values
  import opened Strings
  import opened ToolsBase
  import opened Fields

  const NotificationTool := Tool(
    "send_notification", "Send a notification message to a user via email, SMS, or Slack",
    true, SendNotification)

  const Channels := ["email", "sms", "slack"]
  const Priorities := ["low", "normal", "high"]

  /**
   * The message as echoed in the result: unchanged up to 50 characters,
   * otherwise its first 50 characters followed by "...".
   */
  function Preview(message: string): (p: string)
    ensures |p| <= 53 && |p| <= |message| + 3
    ensures StartsWith(p, message[..if |message| <= 50 then |message| else 50])
    ensures |message| <= 50 ==> p == message
    ensures |message| > 50 ==> |p| == 53 && EndsWith(p, "...")
  {
    if |message| > 50 then message[..50] + "..." else message
  }

  /** The arguments the input model accepts. */
  predicate ValidNotification(args: Object) {
    && "recipient" in args && args["recipient"].JStr?
    && "message" in args && args["message"].JStr? && 1 <= |args["message"].s| <= 500
    && ("channel" !in args || (args["channel"].JStr? && args["channel"].s in Channels))
    && ("priority" !in args || (args["priority"].JStr? && args["priority"].s in Priorities))
  }

  /**
   * `SendNotificationTool.execute(**args)`: valid arguments yield a "sent"
   * record echoing recipient, channel (default "email") and priority (default
   * "normal") with a preview of the message; anything else fails as invalid
   * input.
   */
  function Execute(args: Object): (r: ToolResult)
    ensures WellFormed(r)
    ensures r.success <==> ValidNotification(args)
    ensures r.success ==> r.data == Some(map[
      "recipient" := args["recipient"],
      "channel" := if "channel" in args then args["channel"] else JStr("email"),
      "priority" := if "priority" in args then args["priority"] else JStr("normal"),
      "status" := JStr("sent"),
      "message_preview" := JStr(Preview(args["message"].s))])
    ensures !r.success ==> r.error.Some? && StartsWith(r.error.value, "Invalid input: ")
  {
    match RequiredString(args, "recipient")
    case Err(e) => InvalidInput("SendNotificationInput", e)
    case Ok(recipient) =>
      match RequiredStringOfLength(args, "message", 1, Some(500))
      case Err(e) => InvalidInput("SendNotificationInput", e)
      case Ok(message) =>
        match Choice(args, "channel", Channels, "email")
        case Err(e) => InvalidInput("SendNotificationInput", e)
        case Ok(channel) =>
          match Choice(args, "priority", Priorities, "normal")
          case Err(e) => InvalidInput("SendNotificationInput", e)
          case Ok(priority) =>
            ToolResult(true, Some(map[
              "recipient" := JStr(recipient),
              "channel" := JStr(channel),
              "priority" := JStr(priority),
              "status" := JStr("sent"),
              "message_preview" := JStr(Preview(message))]), None)
  }
}
