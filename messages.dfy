/**
 * The `/api/messages` route: HTTP method routing, request validation and the
 * completion-backed turn over a process-wide conversation history.
 *
 * The completion service is not modelled; its answer for a turn is an input
 * (`Completion`), so a turn is a deterministic update of the history.
 */
module Messages {
  import opened Wrappers
  import JsString

  /** The trim in the source fires once the history holds more than this many entries. */
  const MaxHistory := 10

  const DefaultConversation := "default-conversation"
  const RunningMessage := "Bot service is running"
  const MethodNotAllowed := "Method Not Allowed"
  const MissingTextError := "Invalid request: Missing message text"
  const MissingKeyError := "OpenAI API key is not configured"
  const FallbackReply := "I'm not sure how to respond to that."
  const Apology := "I'm experiencing some difficulties right now. Could you please try again?"

  datatype Role = User | Assistant

  /** One remembered message of a conversation. */
  datatype Entry = Entry(role: Role, content: string)

  /** The request body: a Bot Framework activity, reduced to what the route reads. */
  datatype Activity = Activity(text: Option<string>, conversationId: Option<string>)

  datatype Request = Request(verb: string, body: Option<Activity>)

  /** What the completion service did: answered (its message content may be null) or threw. */
  datatype Completion = Replied(content: Option<string>) | Failed

  /** JSON response bodies: `{ text }` for a bot reply, `{ message }` otherwise. */
  datatype Body = Text(text: string) | Message(message: string)

  datatype Response = Response(status: int, body: Body)

  /** What `handler` does with a request: answer at once, or run a turn on this activity. */
  datatype Dispatch = Answer(response: Response) | Process(activity: Activity)

  /** One call of the route with the completion service's answer for it. */
  datatype TurnInput = TurnInput(text: string, completion: Completion)

  // ---------------------------------------------------------------------------
  // Validation and routing

  /** JavaScript truthiness of an optional string: present and not empty. */
  predicate Truthy(s: Option<string>)
  {
    s.Some? && s.value != ""
  }

  /** The request carries a body whose `text` is truthy. */
  predicate HasText(body: Option<Activity>)
  {
    body.Some? && Truthy(body.value.text)
  }

  /** `validateRequest`: `None` when the request may be processed, else the message it throws. */
  function Validate(body: Option<Activity>, apiKey: Option<string>): (error: Option<string>)
    ensures error.None? <==> HasText(body) && Truthy(apiKey)
    ensures error.Some? ==> (error.value == MissingTextError <==> !HasText(body))
    ensures error.Some? ==> (error.value == MissingKeyError <==> HasText(body))
  {
    if body.None? || !Truthy(body.value.text) then Some(MissingTextError)
    else if !Truthy(apiKey) then Some(MissingKeyError)
    else None
  }

  /** The routing part of `handler`, before any turn runs. */
  function Route(req: Request, apiKey: Option<string>): (d: Dispatch)
    ensures req.verb == "GET" ==> d == Answer(Response(200, Message(RunningMessage)))
    ensures req.verb != "GET" && req.verb != "POST" ==> d == Answer(Response(405, Message(MethodNotAllowed)))
    ensures d.Process? <==> req.verb == "POST" && HasText(req.body) && Truthy(apiKey)
    ensures d.Process? ==> req.body == Some(d.activity) && Truthy(d.activity.text)
    ensures req.verb == "POST" && !HasText(req.body) ==> d == Answer(Response(500, Message(MissingTextError)))
    ensures (req.verb == "POST" && HasText(req.body) && !Truthy(apiKey))
              ==> d == Answer(Response(500, Message(MissingKeyError)))
  {
    if req.verb == "GET" then Answer(Response(200, Message(RunningMessage)))
    else if req.verb != "POST" then Answer(Response(405, Message(MethodNotAllowed)))
    else match Validate(req.body, apiKey)
      case Some(error) => Answer(Response(500, Message(error)))
      case None => Process(req.body.value)
  }

  // ---------------------------------------------------------------------------
  // The turn, as functions of the history

  /** `activity.conversation?.id || "default-conversation"`. */
  function ConversationKey(id: Option<string>): (key: string)
    ensures key != ""
    ensures Truthy(id) ==> key == id.value
    ensures !Truthy(id) ==> key == DefaultConversation
  {
    if Truthy(id) then id.value else DefaultConversation
  }

  /** The history stored under `key`, or the empty history a first message creates. */
  function Lookup(store: map<string, seq<Entry>>, key: string): seq<Entry>
  {
    if key in store then store[key] else []
  }

  /** Appending the user's message and then shifting out at most one entry from the front. */
  function UserStep(h: seq<Entry>, text: string): (r: seq<Entry>)
    ensures |r| == if |h| >= MaxHistory then |h| else |h| + 1
    ensures r[|r| - 1] == Entry(User, text)
    ensures h + [Entry(User, text)] == (if |h| >= MaxHistory then [h[0]] else []) + r
  {
    var appended := h + [Entry(User, text)];
    if |appended| > MaxHistory then appended[1..] else appended
  }

  /** The reply a successful completion yields: `content?.trim() || "I'm not sure ..."`. */
  function ReplyText(content: Option<string>): (r: string)
    ensures r != ""
    ensures content.None? || JsString.AllWhiteSpace(content.value) ==> r == FallbackReply
    ensures content.Some? && !JsString.AllWhiteSpace(content.value) ==> r == JsString.Trim(content.value)
  {
    if content.Some? && JsString.Trim(content.value) != "" then JsString.Trim(content.value)
    else FallbackReply
  }

  /** The text a turn answers with. */
  function TurnReply(completion: Completion): (r: string)
    ensures r != ""
    ensures completion.Failed? ==> r == Apology
  {
    match completion
    case Replied(content) => ReplyText(content)
    case Failed => Apology
  }

  /** A conversation's history after one turn of `processMessageWithOpenAI`. */
  function TurnHistory(h: seq<Entry>, text: string, completion: Completion): (r: seq<Entry>)
    ensures (if |h| >= MaxHistory then [h[0]] else []) + r
            == h + [Entry(User, text)] + (if completion.Replied? then [Entry(Assistant, TurnReply(completion))] else [])
  {
    var afterUser := UserStep(h, text);
    if completion.Failed? then afterUser
    else afterUser + [Entry(Assistant, TurnReply(completion))]
  }

  /** The whole store after one turn on `activity`: only its conversation's entry changes. */
  function StoreAfterTurn(store: map<string, seq<Entry>>, activity: Activity, completion: Completion)
    : (r: map<string, seq<Entry>>)
    requires activity.text.Some?
    ensures r.Keys == store.Keys + {ConversationKey(activity.conversationId)}
    ensures forall k :: k in store && k != ConversationKey(activity.conversationId) ==> r[k] == store[k]
    ensures r[ConversationKey(activity.conversationId)]
            == TurnHistory(Lookup(store, ConversationKey(activity.conversationId)), activity.text.value, completion)
  {
    var key := ConversationKey(activity.conversationId);
    store[key := TurnHistory(Lookup(store, key), activity.text.value, completion)]
  }

  // ---------------------------------------------------------------------------
  // The route as a stateful object

  /** The module-level `conversationHistory` record, owned by the route. */
  class ConversationStore {
    var history: map<string, seq<Entry>>

    constructor ()
      ensures history == map[]
    {
      history := map[];
    }

    /** The user step of `processMessageWithOpenAI`: create the history on first use, push, shift once. */
    method PushUserMessage(key: string, text: string)
      modifies this
      ensures history == old(history)[key := UserStep(Lookup(old(history), key), text)]
    {
      if key !in history {
        history := history[key := []];
      }
      // the conversation's array, pushed to and shifted in place
      var entries := history[key];
      entries := entries + [Entry(User, text)];
      if |entries| > MaxHistory {
        entries := entries[1..];
      }
      history := history[key := entries];
    }

    /** `processMessageWithOpenAI`: the user step, then the reply pushed on success or the apology on failure. */
    method ProcessMessage(activity: Activity, completion: Completion) returns (reply: string)
      requires activity.text.Some?
      modifies this
      ensures history == StoreAfterTurn(old(history), activity, completion)
      ensures reply == TurnReply(completion)
    {
      var key := ConversationKey(activity.conversationId);
      PushUserMessage(key, activity.text.value);
      match completion {
        case Replied(content) =>
          reply := ReplyText(content);
          history := history[key := history[key] + [Entry(Assistant, reply)]];
        case Failed =>
          reply := Apology;
      }
    }

    /** `handler`: answer GET and wrong methods at once, validate, then run a turn with status 200. */
    method Handle(req: Request, apiKey: Option<string>, completion: Completion) returns (res: Response)
      modifies this
      ensures Route(req, apiKey).Answer? ==> res == Route(req, apiKey).response && history == old(history)
      ensures Route(req, apiKey).Process? ==>
                && res == Response(200, Text(TurnReply(completion)))
                && history == StoreAfterTurn(old(history), Route(req, apiKey).activity, completion)
    {
      var d := Route(req, apiKey);
      match d {
        case Answer(response) =>
          res := response;
        case Process(activity) =>
          var text := ProcessMessage(activity, completion);
          res := Response(200, Text(text));
      }
    }
  }

  // ---------------------------------------------------------------------------
  // Properties of a single turn

  /** With a full history the user step drops exactly the oldest entry (first in, first out). */
  lemma UserStepAtCapacity(h: seq<Entry>, text: string)
    requires |h| == MaxHistory
    ensures UserStep(h, text) == h[1..] + [Entry(User, text)]
    ensures |UserStep(h, text)| == MaxHistory
  {
  }

  /** On success the reply returned is the assistant entry recorded; on failure only the user step is recorded. */
  lemma ReplyIsRecorded(h: seq<Entry>, text: string, completion: Completion)
    ensures var r := TurnHistory(h, text, completion);
            completion.Replied? ==> r[|r| - 1] == Entry(Assistant, TurnReply(completion))
                                    && r[|r| - 2] == Entry(User, text)
    ensures var r := TurnHistory(h, text, completion);
            completion.Failed? ==> r[|r| - 1] == Entry(User, text)
  {
  }

  /** How many entries one turn adds: the "last 10 messages" trim does not bound the length. */
  lemma TurnGrowth(h: seq<Entry>, text: string, completion: Completion)
    ensures |h| >= MaxHistory && completion.Replied? ==> |TurnHistory(h, text, completion)| == |h| + 1
    ensures |h| >= MaxHistory && completion.Failed? ==> |TurnHistory(h, text, completion)| == |h|
    ensures |h| < MaxHistory && completion.Replied? ==> |TurnHistory(h, text, completion)| == |h| + 2
    ensures |h| < MaxHistory && completion.Failed? ==> |TurnHistory(h, text, completion)| == |h| + 1
  {
  }

  /** A conversation whose id is literally "default-conversation" shares history with id-less requests. */
  lemma DefaultKeyIsShared()
    ensures ConversationKey(None) == ConversationKey(Some("")) == ConversationKey(Some(DefaultConversation))
  {
  }

  // ---------------------------------------------------------------------------
  // Properties of a sequence of turns on one conversation

  /** The history of one conversation after the given turns, in order. */
  function Replay(h: seq<Entry>, turns: seq<TurnInput>): seq<Entry>
    decreases |turns|
  {
    if turns == [] then h
    else Replay(TurnHistory(h, turns[0].text, turns[0].completion), turns[1..])
  }

  /** Every entry the given turns push, in order, before any shift. */
  function Pushed(turns: seq<TurnInput>): seq<Entry>
    decreases |turns|
  {
    if turns == [] then [] else TurnPushed(turns[0]) + Pushed(turns[1..])
  }

  predicate IsSuffix(a: seq<Entry>, b: seq<Entry>)
  {
    |a| <= |b| && a == b[|b| - |a|..]
  }

  predicate AllReplied(turns: seq<TurnInput>)
  {
    forall i :: 0 <= i < |turns| ==> turns[i].completion.Replied?
  }

  /** The entries one turn pushes, before any shift. */
  function TurnPushed(t: TurnInput): seq<Entry>
  {
    [Entry(User, t.text)] + if t.completion.Replied? then [Entry(Assistant, TurnReply(t.completion))] else []
  }

  lemma SuffixOfAppended(a: seq<Entry>, b: seq<Entry>, c: seq<Entry>)
    requires IsSuffix(a, b)
    ensures IsSuffix(a + c, b + c)
  {
    assert (b + c)[|b + c| - |a + c|..] == b[|b| - |a|..] + c;
  }

  lemma SuffixTransitive(a: seq<Entry>, b: seq<Entry>, c: seq<Entry>)
    requires IsSuffix(a, b) && IsSuffix(b, c)
    ensures IsSuffix(a, c)
  {
    assert c[|c| - |a|..] == c[|c| - |b|..][|b| - |a|..];
  }

  /** One turn leaves a suffix of the old history followed by what it pushed. */
  lemma TurnIsSuffix(h: seq<Entry>, t: TurnInput)
    ensures IsSuffix(TurnHistory(h, t.text, t.completion), h + TurnPushed(t))
  {
    var u := UserStep(h, t.text);
    assert h + [Entry(User, t.text)] == (if |h| >= MaxHistory then [h[0]] else []) + u;
    assert IsSuffix(u, h + [Entry(User, t.text)]);
    if t.completion.Replied? {
      SuffixOfAppended(u, h + [Entry(User, t.text)], [Entry(Assistant, TurnReply(t.completion))]);
      assert h + [Entry(User, t.text)] + [Entry(Assistant, TurnReply(t.completion))] == h + TurnPushed(t);
    } else {
      assert h + [Entry(User, t.text)] == h + TurnPushed(t);
    }
  }

  /** A suffix of `h1 + rest`, where `h1` is a suffix of `h + pushed`, is a suffix of `h + (pushed + rest)`. */
  lemma SuffixAcrossStep(h: seq<Entry>, pushed: seq<Entry>, h1: seq<Entry>, rest: seq<Entry>, r: seq<Entry>)
    requires IsSuffix(h1, h + pushed)
    requires IsSuffix(r, h1 + rest)
    ensures IsSuffix(r, h + (pushed + rest))
  {
    SuffixOfAppended(h1, h + pushed, rest);
    assert h + pushed + rest == h + (pushed + rest);
    SuffixTransitive(r, h1 + rest, h + (pushed + rest));
  }

  /** The history is always the most recent part of everything ever pushed: eviction is oldest first. */
  lemma {:induction false} HistoryIsSuffixOfPushed(h: seq<Entry>, turns: seq<TurnInput>)
    ensures IsSuffix(Replay(h, turns), h + Pushed(turns))
    decreases |turns|
  {
    if turns != [] {
      var h1 := TurnHistory(h, turns[0].text, turns[0].completion);
      HistoryIsSuffixOfPushed(h1, turns[1..]);
      TurnIsSuffix(h, turns[0]);
      SuffixAcrossStep(h, TurnPushed(turns[0]), h1, Pushed(turns[1..]), Replay(h1, turns[1..]));
    }
  }

  /** No sequence of turns ever shortens a history. */
  lemma {:induction false} HistoryNeverShrinks(h: seq<Entry>, turns: seq<TurnInput>)
    ensures |Replay(h, turns)| >= |h|
    decreases |turns|
  {
    if turns != [] {
      TurnGrowth(h, turns[0].text, turns[0].completion);
      HistoryNeverShrinks(TurnHistory(h, turns[0].text, turns[0].completion), turns[1..]);
    }
  }

  /** From ten entries on, every successful turn adds exactly one net entry. */
  lemma {:induction false} GrowthAtCapacity(h: seq<Entry>, turns: seq<TurnInput>)
    requires |h| >= MaxHistory
    requires AllReplied(turns)
    ensures |Replay(h, turns)| == |h| + |turns|
    decreases |turns|
  {
    if turns != [] {
      TurnGrowth(h, turns[0].text, turns[0].completion);
      GrowthAtCapacity(TurnHistory(h, turns[0].text, turns[0].completion), turns[1..]);
    }
  }

  /** From `2 * pairs` entries, at most ten, successful turns add two entries until ten is reached, then one. */
  lemma {:induction false} GrowthFromEven(h: seq<Entry>, pairs: nat, turns: seq<TurnInput>)
    requires |h| == 2 * pairs && pairs <= 5
    requires AllReplied(turns)
    ensures |Replay(h, turns)| == if pairs + |turns| <= 5 then |h| + 2 * |turns| else |turns| + 5 + pairs
    decreases |turns|
  {
    if turns != [] {
      var h1 := TurnHistory(h, turns[0].text, turns[0].completion);
      TurnGrowth(h, turns[0].text, turns[0].completion);
      assert AllReplied(turns[1..]);
      if pairs == 5 {
        GrowthAtCapacity(h1, turns[1..]);
      } else {
        GrowthFromEven(h1, pairs + 1, turns[1..]);
      }
    }
  }

  /** `n` successful turns on a new conversation leave `2n` entries up to five turns, then `n + 5`. */
  lemma GrowthFromEmpty(turns: seq<TurnInput>)
    requires AllReplied(turns)
    ensures |Replay([], turns)| == if |turns| <= 5 then 2 * |turns| else |turns| + 5
  {
    GrowthFromEven([], 0, turns);
  }

  /** For every bound there is a conversation whose history exceeds it: the length is not capped. */
  lemma HistoryIsUnbounded(bound: nat)
    ensures var turns := seq(bound + 1, _ => TurnInput("hi", Replied(Some("hello"))));
            |Replay([], turns)| > bound
  {
    var turns := seq(bound + 1, _ => TurnInput("hi", Replied(Some("hello"))));
    GrowthFromEmpty(turns);
  }
}
