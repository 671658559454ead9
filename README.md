# JokeBot mention filter, modelled in Dafny

The joke bot is a Slack bot that answers a public mention with a joke. This
project models the logic of its `JokeBot` class in `libs/jokebot.js`:

- **Identity capture** (`_onStart`): when the real-time session starts, the bot
  looks itself up in the user directory. It stores the first user whose name
  equals the configured name, or nothing when no user matches.
- **The reply decision** (`_onMessage`): four checks run in order and stop at the
  first one that fails. The event must be a `"message"` with a non-empty text. Its
  channel must be a string starting with `'C'`. Its sender must not be the bot.
  Its text must contain the bot's id (`indexOf(id) > -1`).
- **The reply continuation** (the part of `_sendMessage` after the joke fetch):
  look up the event's channel by id (`_getChannelById`) and post the joke there
  under its name.

Files:

- `wrappers.dfy`: `Option`. JavaScript's `undefined` and `null` both map to `None`.
- `jsbuiltins.dfy`: the built-ins the logic relies on. `filter` and `filter(...)[0]`
  are proved to return the first match. `indexOf` is proved against a separate
  definition of "substring at position i".
- `jokebot.dfy`: the entities (`Settings`, `User`, `Channel`, `Event`), the four
  checks and their conjunction `ShouldReply`, the two lookups, and the class
  `JokeBotModel`. The class has the bot's `settings`, the captured `user`, and the
  `users`/`channels` directory snapshots.
- `scenarios.dfy`: properties of the decision over whole events, and client
  methods that run the handlers in dispatch order.

Faults are explicit results, not preconditions. Reading `this.user.id` before an
identity is set throws in the source (lines 93 and 165). Here `OnMessage`
returns `IdentityUnsetError`. That happens only once the first two checks have
passed, because the `&&` chain stops earlier otherwise. Reading `channel.name`
after a missed lookup (line 132) also throws in the source. Here `SendMessage`
returns `ChannelLookupError`. A message that passes the first two checks before
the session starts therefore faults; `MessageBeforeStart` states this.

## Model

| member | source | states |
|---|---|---|
| JsBuiltins.Filter | libs/jokebot.js:151-153 | every element `filter` returns is in the list and satisfies the predicate, every element that satisfies it is returned, and the result is no longer than the list |
| JsBuiltins.FilterKeepsOrder | libs/jokebot.js:151-153 | `filter` returns the matching elements in their original order with duplicates kept: exactly the elements at the increasing list of all matching positions |
| JsBuiltins.FilterHead | libs/jokebot.js:151-153 | if the filtered list is not empty, its element `[0]` is the first element of the original list that satisfies the predicate |
| JsBuiltins.FirstWhere | libs/jokebot.js:151-153 | `filter(p)[0]` is undefined exactly when no element satisfies `p`; otherwise it is the element at the first position that does |
| JsBuiltins.IndexOfFrom | libs/jokebot.js:165 | the search behind `indexOf`, from a start position within the text: it gives the lowest occurrence at or after that position, or -1 exactly when there is none there |
| JsBuiltins.IndexOf | libs/jokebot.js:165 | `indexOf` gives the first position where the pattern occurs as a contiguous substring, and -1 exactly when the text does not contain it. Positions count characters, not UTF-16 code units (see "Left out") |
| JokeBot.IsMentioningJokeBot | libs/jokebot.js:163-166 | the mention check holds exactly when the bot's id is a substring of the text; it can only be applied to a text that is present |
| JokeBot.FirstUserByName | libs/jokebot.js:38 | the identity lookup finds nothing exactly when no user has the configured name; otherwise it returns the first user with that name |
| JokeBot.FirstChannelById | libs/jokebot.js:149-154 | the channel lookup finds nothing exactly when no channel has the id; otherwise it returns the first channel with that id |
| JokeBot.JokeBotModel.constructor | libs/jokebot.js:11-16 | a new bot keeps its settings and has no identity yet |
| JokeBot.JokeBotModel.OnStart | libs/jokebot.js:33-39 | the identity becomes the first user in the current directory whose name is the configured name, or none; each call recomputes it, so the last call wins |
| JokeBot.JokeBotModel.OnMessage | libs/jokebot.js:46-56 | a send is requested exactly when an identity is set and all four checks hold. It faults exactly when no identity is set and the first two checks pass. Events that are not messages, have an absent or empty text, or are outside a 'C' channel, and the bot's own messages, are ignored. A send implies a non-empty text that contains the bot's id. The identity is not changed |
| JokeBot.JokeBotModel.SendMessage | libs/jokebot.js:127-140 | a rejected fetch posts nothing. A successful fetch faults exactly when no directory channel has the event's channel id. Otherwise it posts the joke to the name of the first channel with that id |
| JokeBotScenarios.ReplyConditions | libs/jokebot.js:49-52 | a reply is due exactly when the type is "message", the text is non-empty, the channel starts with 'C', the sender is not the bot, and the text contains the bot's id |
| JokeBotScenarios.MentionIsAnswered | libs/jokebot.js:163-166 | "hello <@U999> tell me a joke" from U1 in C42 is a mention of the bot U999 and gets a reply |
| JokeBotScenarios.SelfAndDirectMentionsIgnored | libs/jokebot.js:77-94 | the same mention gets no reply when the bot sent it itself, or when it was posted in direct-message channel D7 |
| JokeBotScenarios.OtherMentionIgnored | libs/jokebot.js:163-166 | a text that mentions U998 is not a mention of U999 |
| JokeBotScenarios.RestartThenMessage | libs/jokebot.js:33-56 | after two session starts with different directories, the decision depends only on the identity taken from the second directory |
| JokeBotScenarios.MessageBeforeStart | libs/jokebot.js:91-94 | before the session starts, a channel message faults at the sender check and any other event is ignored |
| JokeBotScenarios.MentionEndToEnd | libs/jokebot.js:127-137 | a mention in C42 requests a send. A successful fetch posts the joke to "general", the name of C42. A rejected fetch posts nothing |
| JokeBotScenarios.DirectMessageEndToEnd | libs/jokebot.js:77-81 | a mention in direct-message channel D7 requests no send, so no fetch starts |

`IsMessage`, `IsChannelConversation`, `IsNotFromJokeBot` and `ShouldReply` are the
definitions of the checks at lines 65-94 and 49-52. What they imply is stated by
`OnMessage` and `ReplyConditions`.

## Left out

- The `SlackBot` superclass is left out: the connection, authentication, and the handler registration in `initialize` (lines 12, 22-26). The handlers are assumed to run with `this` bound to the bot, as the session's emitter calls them. The directory that the superclass fills in is set through `LoadDirectory`.
- The joke fetch in `_generateJokeMessage` (lines 102-119) is left out: the HTTP request, the status check, `JSON.parse` and the Promise. `SendMessage` receives the settled fetch as a parameter: `Some(joke)` when it resolves with a string joke, `None` on rejection. A body that fails to parse is not modelled.
- JokeBot.JokeBotModel.SendMessage: takes the joke as a string, but line 110 resolves with `JSON.parse(body).joke`. That value can be missing or of another type, and lines 129-132 still look up the channel and post it. Such a joke is not modelled.
- JsBuiltins.IndexOf: Dafny strings are sequences of Unicode characters, while JavaScript strings are UTF-16 code units. So the position it returns differs from JavaScript's on text with characters outside the Basic Multilingual Plane. Lone surrogates cannot be represented at all. Line 165 only tests `> -1`, so the mention decision is the same either way.
- JsBuiltins.IndexOfFrom: only starts at positions within the text. The two-argument `indexOf` clamps a start past the end, but line 165 always searches from the start.
- `postMessageToChannel` (line 132) is returned as `Posted(channelName, text)` and not performed. The `{as_user: true}` option is always passed, so it is not recorded.
- Console logging (lines 35, 130 and 136) is left out.
- Concurrency is left out. Fetches run independently and their continuations may finish in any order. `SendMessage` models one continuation, run against the directory as it is when the continuation runs.
- An event text that is present but not a string is not modelled. `Boolean(text)` and `text.indexOf` behave differently for those values. `Event.text` is a string or absent.
- `index.js` only reads the API token from the environment and builds the bot with the name "jokebot". It is not part of this model.
