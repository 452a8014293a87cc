/**
 * What a Bot Framework turn handler sees and does: the incoming activity, reduced to the
 * fields the handlers read, and the ordered effects of a turn.
 */
module BotActivity {
  import opened Wrappers

  datatype ChannelAccount = ChannelAccount(id: string)

  /** `context.activity`: its text, the bot's own account, and the members a conversation update adds. */
  datatype Activity = Activity(
    text: Option<string>,
    recipient: ChannelAccount,
    membersAdded: Option<seq<ChannelAccount>>)

  /** A `sendActivity` call, an error written to the log, or the call of `next()`. */
  datatype Effect = Send(text: string) | LogError(message: string) | Next

  /** A turn that calls `next()` exactly once, after everything else it does. */
  predicate EndsWithNext(effects: seq<Effect>)
  {
    && |effects| >= 1
    && effects[|effects| - 1] == Next
    && forall i :: 0 <= i < |effects| - 1 ==> effects[i] != Next
  }

  /** The number of messages a turn sends. */
  function SendCount(effects: seq<Effect>): nat
  {
    if effects == [] then 0
    else (if effects[0].Send? then 1 else 0) + SendCount(effects[1..])
  }

  lemma SendCountSingle(e: Effect)
    ensures SendCount([e]) == if e.Send? then 1 else 0
  {
    assert [e][1..] == [];
  }

  /** Sends of consecutive parts of a turn add up. */
  lemma {:induction false} SendCountAppend(a: seq<Effect>, b: seq<Effect>)
    ensures SendCount(a + b) == SendCount(a) + SendCount(b)
  {
    if a == [] {
      assert a + b == b;
    } else {
      assert (a + b)[1..] == a[1..] + b;
      SendCountAppend(a[1..], b);
    }
  }
}
