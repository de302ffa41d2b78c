# DecaChat, modelled in Dafny

DecaChat is a small TypeScript client for OpenAI-compatible chat-completion
APIs. Its class `DecaChat` resolves a few settings with defaults, keeps the
conversation as an array of `{role, content}` messages, appends to that
array in place, and replaces it on a reset. `chat` appends the user turn,
sends the whole history to the completion endpoint, then appends and
returns the reply.

`decachat.dfy` holds one module, `DecaChat`:

- `Truthy`, `Or` and `ResolveSettings` model the constructor's `||` defaulting.
  `undefined` and the type's zero are falsy: `""` for strings, `0` for numbers.
- `Op`, `Step` and `Run` form a pure trace model of the history. Each
  operation that changes the conversation is one `Op`. A chat step carries the
  completion that the remote call ended in: a failure, or a list of choices.
- The class `DecaChat` has the source's fields except the `openai` client
  (see "## Left out"). Its methods update
  `conversation` in place. Each method's postcondition says the new history is
  `Step(old(conversation), op)`. `Valid()` is the class invariant: the settings
  are never falsy, and a system message can only be the first message.
- `Chat` takes the completion call as a function parameter,
  `complete: CompletionRequest -> Completion`. It promises what request is
  sent and what happens on success and on failure.
- `CliStart` is a client. It models the opening of the command-line chat in
  `test/cli.js`.

Behaviour of the code worth noting, which the model keeps:

- The constructor appends the intro to the history at once
  (src/index.ts:51-54), after the system message if there is one.
- `setIntro` appends an assistant message whenever it is called
  (src/index.ts:77), whatever the history holds.
- DecaChat's own code validates nothing, not the API key, not `maxTokens`,
  not `temperature`, and raises no error of its own at construction; the
  HTTP client built at src/index.ts:56-60 may still reject the options.
- `introMessage` is stored (src/index.ts:52 and 76) but never read.

## Model

| member | source | states |
|---|---|---|
| `DecaChat.Or` | src/index.ts:41-44 | JavaScript's logical-or fallback on an optional value: the given value is kept exactly when it is present and not the type's zero; otherwise the fallback is used |
| `DecaChat.ResolveSettings` | src/index.ts:41-44 | every resolved setting is non-falsy; each of model, baseUrl, maxTokens, temperature equals the given value when that is truthy, and equals `'gpt-4o-mini'`, `'https://api.openai.com/v1'`, 1000 or 0.7 when it is absent, `""` or 0 |
| `DecaChat.ResolveSettingsIdempotent` | src/index.ts:41-44 | resolving again with the resolved settings passed explicitly gives the same settings; any non-falsy settings passed explicitly come through unchanged |
| `DecaChat.ReplyText` | src/index.ts:96 | the reply is non-empty exactly when choice 0 exists, has a message, and that message has non-empty content; in that case the reply is that content; otherwise it is `""`, never null |
| `DecaChat.Step` | src/index.ts:67-109 | an appending operation keeps the old history as a prefix and adds exactly 1 message (intro, failed chat) or 2 (successful chat); `setSystemMessage` leaves exactly `[system message]` and `clearConversation` leaves `[]`; no step moves a system message out of first place |
| `DecaChat.RunKeepsSystemOnlyFirst` | src/index.ts:67-109 | over any sequence of operations, a system message can only be at index 0 |
| `DecaChat.RunWithoutResetExtends` | src/index.ts:75-98 | with no `setSystemMessage` and no `clearConversation`, the old history stays a prefix, and the length grows by the sum of each operation's growth |
| `DecaChat.RunForgetsBeforeReset` | src/index.ts:67-109 | once a `setSystemMessage` or `clearConversation` occurs, the final history does not depend on the history before |
| `DecaChat.RunCountsUserTurns` | src/index.ts:85-101 | with no reset, each chat adds exactly one user message, whether the completion succeeded or failed; a failed call is not rolled back |
| `DecaChat.ClearDoesNotReplayIntro` | src/index.ts:107-109 | a clear followed by a chat leaves exactly what that chat leaves on an empty history: `[user m, assistant reply]` on success, `[user m]` on failure; the intro does not come back |
| `DecaChat.InitialHistory` | src/index.ts:45-54 | the history after construction is `[]`, `[system s]`, `[assistant i]` or `[system s, assistant i]`, according to which of `systemMessage` and `intro` are non-empty; the system message always comes first |
| `DecaChat.DecaChat.constructor` | src/index.ts:40-54 | the fields hold `ResolveSettings(config)`; the conversation is `InitialHistory(config)`; `introMessage` is set exactly when the intro is non-empty; the class invariant holds |
| `DecaChat.DecaChat.SetSystemMessage` | src/index.ts:67-69 | the history becomes exactly `[system message]`, whatever it held before |
| `DecaChat.DecaChat.SetIntro` | src/index.ts:75-78 | exactly one message, `{assistant, message}`, is added at the end; earlier messages are unchanged; `introMessage` is recorded |
| `DecaChat.DecaChat.RequestFor` | src/index.ts:89-94 | the request carries the session's model, maxTokens and temperature, and its messages are the current history followed by exactly one user turn |
| `DecaChat.DecaChat.Chat` | src/index.ts:85-101 | the completion call receives the old history plus `{user, m}`, with no reply yet; on success the history is that plus `{assistant, r}` and `r` is returned, where `r` is `ReplyText` of the choices; on failure an error is raised and the history keeps the user turn |
| `DecaChat.DecaChat.ClearConversation` | src/index.ts:107-109 | the history becomes empty; the intro is not put back |
| `DecaChat.DecaChat.GetConversation` | src/index.ts:115-117 | returns a value equal to the history; as an immutable value, later changes to the session cannot reach it |
| `DecaChat.SnapshotSurvivesChange` | src/index.ts:115-117 | for any valid session and any operation applied after `getConversation`, the copy still equals the history before the operation, while the session's history becomes `Step` of it |
| `DecaChat.CliStart` | test/cli.js:14-26 | with a system message and an intro configured, the first `chat('')` sends `[system, assistant intro, user ""]`; the greeting returned is the completion's reply to that request, not the intro itself; the greeting is returned exactly when that completion succeeds, and then the history is those three messages plus `{assistant, greeting}`; it throws exactly when the completion fails |

## Left out

- The OpenAI client: its construction and the asynchronous HTTP call (src/index.ts:56-60 and 89-94). These belong to a foreign library and the network. The class takes the call as a function from the request to its completion.
- `apiKey` and `useBrowser`: they are only handed to the HTTP client. They appear in `DecaChatConfig` but have no effect in the model. The model therefore does not capture the HTTP client's constructor rejecting them (a missing API key, or a browser environment without `useBrowser`), which would make the `DecaChat` constructor throw.
- The error text `Failed to get response: …`: a failure is modelled only as `Threw`.
- A response with no `choices` array at all: a real call would throw a `TypeError` inside the `try` and report an error. The model treats such a response as a `Failed` completion.
- Floating point: `NaN` is falsy in JavaScript and would be replaced by the default. The model has no `NaN`. `temperature` is a real number, and the model says nothing about its range, because the code enforces none.
- DecaChat.ResolveSettings: `maxTokens` is modelled as an integer. A fractional JavaScript number is not modelled.
- DecaChat.DecaChat.GetConversation: the deep copy made by `structuredClone` is not modelled step by step. A Dafny sequence is already an independent value.
- Concurrency: overlapping `chat` calls across the `await` are not modelled. Each `chat` is one atomic step.
- DecaChat.CliStart: the first `chat('')` in test/cli.js:25 is not inside a `try`, so a failure there rejects the client's start routine; the model only returns `Threw` and does not model that escape.
- The rest of test/cli.js, after the first `chat`: the readline prompt loop, reading the environment variable, and console output. This is I/O glue with no logic of its own.
