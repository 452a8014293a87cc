/**
 * `MyBot` of `src/bots/BotLogic.ts`: echo every message, and welcome every member a
 * conversation update adds, except the bot itself.
 */
module EchoBot {
  import opened Wrappers
  import opened BotActivity

  const EchoPrefix := "You said: \""
  const EchoSuffix := "\""
  const WelcomeText := "Welcome! How can I assist you?"

  /** A JavaScript template literal's rendering of a possibly undefined string. */
  function Rendered(text: Option<string>): string
  {
    if text.Some? then text.value else "undefined"
  }

  /** `You said: "${userMessage}"`. */
  function EchoText(text: Option<string>): (r: string)
    ensures EchoPrefix <= r && |r| == |EchoPrefix| + |Rendered(text)| + 1 && r[|r| - 1] == '"'
  {
    EchoPrefix + Rendered(text) + EchoSuffix
  }

  /** The inverse of `EchoText`: the quoted text of an echo reply. */
  function QuotedText(reply: string): Option<string>
  {
    if EchoPrefix <= reply && |reply| > |EchoPrefix| && reply[|reply| - 1] == '"'
    then Some(reply[|EchoPrefix|..|reply| - 1])
    else None
  }

  /** The user's text can be read back from the echo: the reply loses nothing of it. */
  lemma EchoRoundTrip(text: string)
    ensures QuotedText(EchoText(Some(text))) == Some(text)
  {
    var r := EchoText(Some(text));
    assert r[|EchoPrefix|..|r| - 1] == text;
  }

  /** The `onMessage` handler: one echo, then `next()`. */
  function OnMessage(activity: Activity): (effects: seq<Effect>)
    ensures EndsWithNext(effects)
    ensures |effects| == 2 && SendCount(effects) == 1
    ensures effects[0].Send? && QuotedText(effects[0].text) == Some(Rendered(activity.text))
  {
    EchoRoundTrip(Rendered(activity.text));
    assert EchoText(activity.text) == EchoText(Some(Rendered(activity.text)));
    var effects := [Send(EchoText(activity.text))] + [Next];
    SendCountSingle(Send(EchoText(activity.text)));
    SendCountSingle(Next);
    SendCountAppend([Send(EchoText(activity.text))], [Next]);
    effects
  }

  /** The added members that are welcomed, in list order: all whose id differs from the bot's. */
  function Welcomed(members: seq<ChannelAccount>, botId: string): (r: seq<ChannelAccount>)
    ensures |r| <= |members|
    ensures forall i :: 0 <= i < |r| ==> r[i].id != botId && r[i] in members
    ensures forall i :: 0 <= i < |members| && members[i].id != botId ==> members[i] in r
  {
    if members == [] then []
    else
      var last := members[|members| - 1];
      var front := members[..|members| - 1];
      assert members == front + [last];
      Welcomed(front, botId) + (if last.id != botId then [last] else [])
  }

  /** The positions in `members` of accounts other than the bot: an independent count of welcomes. */
  function OtherPositions(members: seq<ChannelAccount>, botId: string): set<nat>
  {
    set i: nat | i < |members| && members[i].id != botId
  }

  lemma OtherPositionsStep(members: seq<ChannelAccount>, botId: string)
    requires members != []
    ensures var n := |members| - 1;
            OtherPositions(members, botId)
            == OtherPositions(members[..n], botId) + (if members[n].id != botId then {n} else {})
  {
    var n := |members| - 1;
    var front := members[..n];
    forall i: nat | i < n ensures members[i] == front[i] {}
  }

  /** One welcome per added member other than the bot. */
  lemma {:induction false} WelcomeCount(members: seq<ChannelAccount>, botId: string)
    ensures |Welcomed(members, botId)| == |OtherPositions(members, botId)|
  {
    if members != [] {
      var n := |members| - 1;
      var front := members[..n];
      WelcomeCount(front, botId);
      OtherPositionsStep(members, botId);
      var before := OtherPositions(front, botId);
      assert n !in before;
      assert |Welcomed(members, botId)|
             == |Welcomed(front, botId)| + (if members[n].id != botId then 1 else 0);
    }
  }

  /** The sends of a welcome loop over `members`. */
  function WelcomeSends(members: seq<ChannelAccount>, botId: string): (r: seq<Effect>)
    ensures |r| == |Welcomed(members, botId)|
    ensures forall i :: 0 <= i < |r| ==> r[i] == Send(WelcomeText)
  {
    seq(|Welcomed(members, botId)|, _ => Send(WelcomeText))
  }

  lemma {:induction false} AllSendsCount(sends: seq<Effect>)
    requires forall i :: 0 <= i < |sends| ==> sends[i].Send?
    ensures SendCount(sends) == |sends|
  {
    if sends != [] {
      AllSendsCount(sends[1..]);
    }
  }

  /** The `onConversationUpdate` handler: the welcome loop over `membersAdded`, then `next()`. */
  method OnConversationUpdate(activity: Activity) returns (effects: seq<Effect>)
    ensures EndsWithNext(effects)
    ensures activity.membersAdded.None? ==> effects == [Next]
    ensures activity.membersAdded.Some? ==>
              effects == WelcomeSends(activity.membersAdded.value, activity.recipient.id) + [Next]
              && SendCount(effects) == |OtherPositions(activity.membersAdded.value, activity.recipient.id)|
  {
    effects := [];
    if activity.membersAdded.Some? {
      var members := activity.membersAdded.value;
      for i := 0 to |members|
        invariant effects == WelcomeSends(members[..i], activity.recipient.id)
      {
        assert members[..i + 1][..i] == members[..i];
        if members[i].id != activity.recipient.id {
          effects := effects + [Send(WelcomeText)];
        }
      }
      assert members[..|members|] == members;
      WelcomeCount(members, activity.recipient.id);
      AllSendsCount(effects);
    }
    SendCountSingle(Next);
    SendCountAppend(effects, [Next]);
    effects := effects + [Next];
  }

  /** The bot's own account is never welcomed, whatever else is added. */
  lemma BotIsNeverWelcomed(members: seq<ChannelAccount>, bot: ChannelAccount)
    ensures bot !in Welcomed(members, bot.id)
    ensures Welcomed([bot], bot.id) == []
  {
  }
}
