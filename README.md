# Teams bot message handling: a Dafny model

This project models the request-handling core of a web application. The application provisions a Microsoft Teams bot and chats with it. The model covers four pieces of its server-side logic:

- **The `/api/messages` route** (`pages/api/messages.ts`, module `Messages`). It answers GET with 200 and any verb other than GET or POST with 405. It validates a POST (message text and OpenAI API key), then runs a completion-backed turn. The turn uses a process-wide conversation history keyed by conversation id. The history is the class `ConversationStore`, with a `map<string, seq<Entry>>` field that its methods update the way the source's `push` and `shift` do. The completion service's answer for a turn is an input, `Replied(content)` or `Failed`.
- **The inbound request authenticator** (`pages/api/verifyBotRequest.ts`, module `BotAuth`). It is a straight chain of guards:
  - the `Authorization: Bearer` header form (section 2.1 of RFC 6750), whose token is the second space-separated field;
  - a truthy `kid` in the JOSE header (section 4.1.4 of RFC 7515);
  - the JWKS key lookup for that `kid`;
  - `jwt.verify` restricted to RS256 (section 3.3 of RFC 7518), with the Bot Framework issuer and the configured audience (sections 4.1.1 and 4.1.3 of RFC 7519);
  - a rejection of bare-string payloads;
  - a check that `channelId` is `"msteams"`.

  `jwt.decode`, the JWKS lookup and `jwt.verify` are uninterpreted: they are the function-valued fields of a `JwtLibrary` argument. The model returns the outcome and the calls made to the library, in order. This states the order of the guards and the arguments each call gets.
- **The echo bot** (`src/bots/BotLogic.ts`, module `EchoBot`). It echoes each message as `You said: "<text>"`. On a conversation update it sends one welcome per added member whose id differs from the bot's. The welcome loop is a method with a `for` loop proved against a filter function.
- **The static bot** (`pages/api/myBot.ts`, module `StaticBot`). It sends one fixed reply per message. A failed send is logged and swallowed, and `next()` is still called.

Module `BotActivity` holds the activity and turn-effect types the two bots share. Module `JsString` models JavaScript's `String.prototype.trim` (used on the completion text) and `split(" ")` (used to extract the token). Module `Wrappers` holds `Option` and `Result`.

Two facts about the code shape the model:

- The comment at `pages/api/messages.ts:100` speaks of keeping the last 10 messages. The code shifts out at most one entry after the user push (`pages/api/messages.ts:101-103`). It then pushes the assistant reply without any trim (`pages/api/messages.ts:127-130`). So a history grows by one net entry per successful turn once it holds ten, and it is not bounded. `TurnGrowth`, `GrowthFromEmpty` and `HistoryIsUnbounded` prove this.
- The missing-or-malformed header error is thrown outside the `try` (`pages/api/verifyBotRequest.ts:33-35`), so it keeps its own message. Every later failure is caught and rethrown as `"Unauthorized bot request"` (`pages/api/verifyBotRequest.ts:73-76`). The function throws; it chooses no status code.

## Model

| member | source | states |
|---|---|---|
| `Messages.Validate` | pages/api/messages.ts:70-80 | validation passes iff the body has a truthy `text` and the API key is truthy; otherwise the missing-text error wins over the missing-key error |
| `Messages.Route` | pages/api/messages.ts:37-66 | GET gives 200 "Bot service is running"; any verb but GET or POST gives 405 "Method Not Allowed"; a POST is processed iff it has truthy text and a configured key, and otherwise gets 500 with the validation message |
| `Messages.ConversationKey` | pages/api/messages.ts:87 | the key is never empty; a truthy id is its own key, and a missing or empty id is keyed "default-conversation" |
| `Messages.DefaultKeyIsShared` | pages/api/messages.ts:87 | a missing id, an empty id and the literal id "default-conversation" all share one history |
| `Messages.UserStep` | pages/api/messages.ts:94-103 | the user entry ends the history; the old history plus that entry equals the result with at most one oldest entry in front, dropped exactly when the old length is at least ten |
| `Messages.UserStepAtCapacity` | pages/api/messages.ts:100-103 | at exactly ten entries the user step drops the oldest entry and keeps ten (first in, first out) |
| `Messages.ReplyText` | pages/api/messages.ts:122-124 | the reply is never empty; it is the fallback text when the content is null or all white space, and otherwise the JavaScript-trimmed content |
| `Messages.TurnReply` | pages/api/messages.ts:121-138 | a turn's reply is never empty, and a failed completion yields the fixed apology |
| `Messages.ReplyIsRecorded` | pages/api/messages.ts:121-137 | on success the last entry is the assistant entry holding the returned reply, right after the user entry; on failure the last entry is the user entry |
| `Messages.TurnGrowth` | pages/api/messages.ts:95-130 | at ten or more entries a successful turn adds one net entry and a failed one none; below ten they add two and one |
| `Messages.TurnHistory` | pages/api/messages.ts:94-130 | one conversation's history after a turn: the old history followed by the user entry and, on success only, the assistant reply, with exactly the oldest entry dropped when the old history held ten or more |
| `Messages.StoreAfterTurn` | pages/api/messages.ts:89-130 | the store gains at most the turn's key; every other conversation keeps its history; the turn's key holds the turn applied to its old history, or to the empty history on first use |
| `Messages.ConversationStore.constructor` | pages/api/messages.ts:28-31 | the history record starts empty |
| `Messages.ConversationStore.PushUserMessage` | pages/api/messages.ts:90-103 | the conversation's entry is created when missing, the user entry is pushed and at most one oldest entry shifted out, leaving the key mapped to `UserStep` of its old history; every other conversation is unchanged |
| `Messages.ConversationStore.ProcessMessage` | pages/api/messages.ts:83-139 | the lazy-create, push, shift and reply-push steps leave the store equal to `StoreAfterTurn`, and the reply returned is `TurnReply` |
| `Messages.ConversationStore.Handle` | pages/api/messages.ts:33-67 | answered requests leave the history unchanged and return the routed response; processed requests return 200 with the turn's reply and update the store by exactly one turn |
| `Messages.TurnIsSuffix` | pages/api/messages.ts:94-130 | after one turn the history is a suffix of the old history followed by the entries the turn pushed |
| `Messages.HistoryIsSuffixOfPushed` | pages/api/messages.ts:94-130 | after any sequence of turns the history is a suffix of everything ever pushed, so eviction is always oldest first |
| `Messages.HistoryNeverShrinks` | pages/api/messages.ts:94-130 | no sequence of turns shortens a history |
| `Messages.GrowthAtCapacity` | pages/api/messages.ts:100-130 | from ten entries on, n successful turns add exactly n entries |
| `Messages.GrowthFromEven` | pages/api/messages.ts:100-130 | from an even length of at most ten, successful turns add two entries each until ten is reached, then one each |
| `Messages.GrowthFromEmpty` | pages/api/messages.ts:89-130 | n successful turns on a new conversation leave 2n entries for n ≤ 5 and n + 5 after that |
| `Messages.HistoryIsUnbounded` | pages/api/messages.ts:100-103 | for every bound some sequence of turns takes a new conversation's history past it, so the "last 10 messages" comment is not an invariant |
| `JsString.Trim` | pages/api/messages.ts:123 | the result is no longer than the input, neither starts nor ends with white space, and is empty exactly when the input is all white space |
| `JsString.TrimIdempotent` | pages/api/messages.ts:123 | trimming twice is trimming once |
| `JsString.TrimRemovesOnlyWhiteSpace` | pages/api/messages.ts:123 | the input is the trimmed text with only white space before and after it |
| `JsString.Split` | pages/api/verifyBotRequest.ts:38 | splitting gives one more field than there are separators, and no field contains the separator |
| `JsString.JoinSplit` | pages/api/verifyBotRequest.ts:38 | joining the fields of a split with the separator gives back the string |
| `JsString.SplitJoin` | pages/api/verifyBotRequest.ts:38 | splitting a join of separator-free fields gives back the fields |
| `JsString.SplitWithoutSeparator` | pages/api/verifyBotRequest.ts:38 | a string without the separator is one field |
| `JsString.SplitAfterField` | pages/api/verifyBotRequest.ts:38 | a separator-free prefix followed by the separator splits off as the first field |
| `JsString.FirstField` | pages/api/verifyBotRequest.ts:38 | the first field is a prefix of the string, followed by the separator when it is shorter than the string |
| `BotAuth.WellFormedAuthorization` | pages/api/verifyBotRequest.ts:31-35 | the header passes exactly when it is present and starts with "Bearer " (case and the trailing space included); an empty header fails, as a falsy value does |
| `BotAuth.BearerToken` | pages/api/verifyBotRequest.ts:38 | the token has no space, is a prefix of what follows "Bearer ", and stops only at a space or at the end of the header |
| `BotAuth.TokenOfPlainHeader` | pages/api/verifyBotRequest.ts:38 | for "Bearer t" with no further space the token is exactly t |
| `BotAuth.TokenStopsAtSpace` | pages/api/verifyBotRequest.ts:38 | a second space ends the token, so "Bearer t x" yields t and "Bearer  x" yields the empty token |
| `BotAuth.KeyId` | pages/api/verifyBotRequest.ts:41-44 | a key id is found exactly when the token header decodes and carries a non-empty `kid`, and it is that `kid` |
| `BotAuth.Rs256Options` | pages/api/verifyBotRequest.ts:50-54 | the options allow RS256 and no other algorithm, require the issuer "https://api.botframework.com", and take `APP_ID` as the audience |
| `BotAuth.FromTeams` | pages/api/verifyBotRequest.ts:66-69 | the request passes exactly when its body has a `channelId` equal to "msteams"; a missing body or id, and an empty id, fail |
| `BotAuth.VerifyBotRequest` | pages/api/verifyBotRequest.ts:30-77 | returns only true; fails with the header message iff the header is missing or lacks "Bearer ", making no library call; otherwise fails only with "Unauthorized bot request"; calls decode on the token, then the key lookup with the decoded `kid`, then `verify` with RS256 only, the Bot Framework issuer and `APP_ID`, each only after the previous one succeeded and always when it did; accepts iff all three calls were made, `verify` returned a claim set and `channelId` is "msteams" |
| `BotAuth.AcceptedTokenIsRs256` | pages/api/verifyBotRequest.ts:49-54 | with a library that honours its options, an accepted token's header says RS256, its `iss` is the Bot Framework issuer, and its `aud` is the configured non-empty `APP_ID` |
| `BotAuth.OnlyTeamsIsAccepted` | pages/api/verifyBotRequest.ts:65-69 | a request with a well-formed header whose body lacks `channelId` "msteams" is refused with the uniform message, whatever the library does |
| `BotAuth.TableLibrary` | pages/api/verifyBotRequest.ts:50-54 | a table-driven library that checks only the algorithm list honours its options, so the assumption of `AcceptedTokenIsRs256` can be met |
| `BotAuth.AcceptedWhenEveryCheckPasses` | pages/api/verifyBotRequest.ts:30-72 | any Teams request with a well-formed header, including one with text after the token, is accepted whenever its token decodes with a `kid`, the key lookup succeeds and `verify` returns a claim set |
| `BotAuth.RefusedWhenVerificationFails` | pages/api/verifyBotRequest.ts:50-76 | any request with a well-formed header whose token decodes and whose key is found, but which `verify` rejects or answers with a bare string, fails with "Unauthorized bot request" whatever its body |
| `BotAuth.Rs256TeamsRequestIsAccepted` | pages/api/verifyBotRequest.ts:30-72 | a Teams request bearing an RS256 token with a known `kid` is accepted |
| `BotAuth.Hs256TokenIsRefused` | pages/api/verifyBotRequest.ts:50-54 | the same request bearing an HS256 token is refused with "Unauthorized bot request" |
| `EchoBot.EchoText` | src/bots/BotLogic.ts:12 | the echo starts with `You said: "`, ends with a quote, and is exactly as long as the rendered text plus those |
| `EchoBot.EchoRoundTrip` | src/bots/BotLogic.ts:9-12 | the user's text can be read back from the echo |
| `EchoBot.OnMessage` | src/bots/BotLogic.ts:8-16 | exactly two effects: one message, whose quoted text is the rendered user text, then `next()` |
| `EchoBot.Welcomed` | src/bots/BotLogic.ts:20-25 | the welcomed members are added members other than the bot, and every added member other than the bot is welcomed |
| `EchoBot.WelcomeCount` | src/bots/BotLogic.ts:21-24 | the number of welcomes equals the number of positions in `membersAdded` whose id differs from the bot's |
| `EchoBot.WelcomeSends` | src/bots/BotLogic.ts:21-25 | one "Welcome! How can I assist you?" send per welcomed member, and nothing else |
| `EchoBot.OnConversationUpdate` | src/bots/BotLogic.ts:19-28 | without `membersAdded` only `next()` happens; otherwise the loop sends the welcomes, their count equals the non-bot positions, and `next()` comes once, after them |
| `EchoBot.BotIsNeverWelcomed` | src/bots/BotLogic.ts:22 | the bot's own account is never among the welcomed members |
| `StaticBot.SendStaticMessage` | pages/api/myBot.ts:24-33 | one send of the fixed text; a delivered send adds nothing else, and a failed one adds exactly the log entry "🔴 Error sending message:" and does not rethrow |
| `StaticBot.OnMessage` | pages/api/myBot.ts:14-21 | a delivered send gives exactly the send of "Hello, user! This is a static message from the bot." then `next()`; a failed one gives the send, the error log entry, then `next()`; the failure is logged iff the send failed |
| `StaticBot.ReplyIgnoresActivity` | pages/api/myBot.ts:14-29 | the sends, the error log entry and `next()` do not depend on the incoming activity (the console log of its text is left out) |

## Left out

- The OpenAI chat-completion call (`pages/api/messages.ts:107-119`) is an external service. Its model name, `max_tokens`, floating-point `temperature` and the system prompt it is seeded with are not modelled. Its result is the `Completion` input. An empty `choices` array throws inside the `try`, so it is a `Failed` completion.
- The history record is a plain object literal in the source. A conversation id that names an inherited property, such as "constructor" or "__proto__", finds a truthy non-array value. The `push` then throws, outside the inner `try`, and the route answers 500. The model treats every id as an ordinary key.
- Concurrent turns on one conversation can interleave around the awaited completion call. The model runs turns one after another.
- Request fields that JSON could make non-strings (a numeric `text`, id or `channelId`) are modelled as strings or as absent. In particular a JSON `"text": null` is echoed by `src/bots/BotLogic.ts:12` as `null`, while the model can only give it as `None`, which `EchoBot.Rendered` renders as "undefined".
- `jsonwebtoken` and `jwks-rsa` are not modelled: decoding, RS256 signature checking, `exp` and clock handling, and the JWKS fetch and cache. `JwtLibrary` is an uninterpreted stand-in. A call that throws and a call that returns null are both `None`.
- BotAuth.AcceptedTokenIsRs256: states nothing about `exp`, because expiry is checked inside the library against a clock the model does not have. It also relies on the stated assumption `HonoursOptions` about the library, not on a model of it.
- `console.log` and `console.error` output is left out, except the log entry of a swallowed send error in `pages/api/myBot.ts`.
- EchoBot.OnMessage: assumes `sendActivity` succeeds. In `src/bots/BotLogic.ts:12` a failed send propagates, which skips `next()`.
- EchoBot.OnConversationUpdate: assumes every welcome `sendActivity` succeeds. In `src/bots/BotLogic.ts:23` a failed send propagates, which skips the remaining welcomes and `next()`.
- The framework's dispatch of an activity to `onMessage` or `onConversationUpdate` by its type happens in the Bot Framework's `ActivityHandler` and is not part of this model.
- The model reads JavaScript strings as sequences of Unicode characters, not UTF-16 code units. Lone surrogates are therefore not represented.
- The following are not part of this model: the provisioning routes (`pages/api/createAzureBot.ts`, `pages/api/createBot.ts`, `pages/api/createPrimaryApplication.ts`), the token routes (`pages/api/token.ts`, `src/utils/oath.ts`), the bot-listing proxy (`pages/api/bots/getAllBots.ts`) and the React UI. They are HTTP forwarding and presentation code.
- The modelled files (`pages/api/messages.ts`, `pages/api/verifyBotRequest.ts`, `src/bots/BotLogic.ts`, `pages/api/myBot.ts`) do not handle attachments (file-download links, the content-type allow-list), so attachment dispatch is not modelled.
