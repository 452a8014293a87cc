/**
 * `MyBot` of `pages/api/myBot.ts`: answer every message with one fixed text; a failing
 * send is logged and the turn goes on.
 */
module StaticBot {
  import opened BotActivity

  const StaticReply := "Hello, user! This is a static message from the bot."
  const SendErrorLog := "🔴 Error sending message:"

  /** `sendStaticMessage`: one send, whose failure (`!delivered`) is caught and logged. */
  function SendStaticMessage(delivered: bool): (effects: seq<Effect>)
    ensures SendCount(effects) == 1 && effects[0] == Send(StaticReply)
    ensures Next !in effects
    ensures delivered <==> |effects| == 1
    ensures !delivered ==> effects == [Send(StaticReply), LogError(SendErrorLog)]
  {
    var logged := if delivered then [] else [LogError(SendErrorLog)];
    SendCountSingle(Send(StaticReply));
    SendCountSingle(LogError(SendErrorLog));
    SendCountAppend([Send(StaticReply)], logged);
    [Send(StaticReply)] + logged
  }

  /** The `onMessage` handler: `sendStaticMessage`, then `next()`, whether or not the send failed. */
  function OnMessage(activity: Activity, delivered: bool): (effects: seq<Effect>)
    ensures EndsWithNext(effects)
    ensures SendCount(effects) == 1 && effects[0] == Send(StaticReply)
    ensures !delivered <==> LogError(SendErrorLog) in effects
    ensures delivered ==> effects == [Send(StaticReply), Next]
    ensures !delivered ==> effects == [Send(StaticReply), LogError(SendErrorLog), Next]
  {
    var sent := SendStaticMessage(delivered);
    SendCountSingle(Next);
    SendCountAppend(sent, [Next]);
    sent + [Next]
  }

  /** The reply does not depend on the incoming activity. */
  lemma ReplyIgnoresActivity(a: Activity, b: Activity, delivered: bool)
    ensures OnMessage(a, delivered) == OnMessage(b, delivered)
  {
  }
}
