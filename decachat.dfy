/** A model of DecaChat: a conversation-history manager in front of an
    OpenAI-compatible chat-completion API.

    The class `DecaChat` holds the resolved settings and the message history;
    it appends to the history in place and replaces it on a reset.  The
    remote completion call is not modelled: the class receives it as a
    function from the request it would send to the completion it gets back,
    and the pure trace model below
    (`Op`, `Step`, `Run`) records that completion as part of each chat step.
 */
module DecaChat {

  datatype Option<+T> = None | Some(value: T)

  // ---------------------------------------------------------------------------
  // Messages and configuration
  // ---------------------------------------------------------------------------

  datatype Role = System | User | Assistant

  /** One turn of the conversation. */
  datatype ChatMessage = ChatMessage(role: Role, content: string)

  /** The construction options.  `apiKey` and `useBrowser` are only handed
      on to the HTTP client, which is outside this model. */
  datatype DecaChatConfig = DecaChatConfig(
    apiKey: string,
    model: Option<string>,
    baseUrl: Option<string>,
    maxTokens: Option<int>,
    temperature: Option<real>,
    intro: Option<string>,
    systemMessage: Option<string>,
    useBrowser: Option<bool>)

  const DefaultModel: string := "gpt-4o-mini"
  const DefaultBaseUrl: string := "https://api.openai.com/v1"
  const DefaultMaxTokens: int := 1000
  const DefaultTemperature: real := 0.7

  /** JavaScript truthiness of an optional string or number: `undefined`
      and the type's zero ("" or 0) are falsy, every other value is truthy. */
  predicate Truthy<T(==)>(v: Option<T>, zero: T)
  {
    v.Some? && v.value != zero
  }

  /** JavaScript `given || fallback`. */
  function Or<T(==)>(given: Option<T>, zero: T, fallback: T): (r: T)
    ensures Truthy(given, zero) <==> given == Some(r) && r != zero
    ensures !Truthy(given, zero) ==> r == fallback
  {
    if Truthy(given, zero) then given.value else fallback
  }

  /** The settings a `DecaChat` keeps after defaulting. */
  datatype Settings = Settings(model: string, baseUrl: string, maxTokens: int, temperature: real)
  {
    /** No setting is falsy, so a second round of defaulting changes nothing. */
    predicate Resolved()
    {
      model != "" && baseUrl != "" && maxTokens != 0 && temperature != 0.0
    }
  }

  /** The `||` defaulting of the constructor.  Each setting is replaced by its
      default exactly when the given value is absent or falsy. */
  function ResolveSettings(config: DecaChatConfig): (s: Settings)
    ensures s.Resolved()
    ensures Truthy(config.model, "") ==> s.model == config.model.value
    ensures !Truthy(config.model, "") ==> s.model == DefaultModel
    ensures Truthy(config.baseUrl, "") ==> s.baseUrl == config.baseUrl.value
    ensures !Truthy(config.baseUrl, "") ==> s.baseUrl == DefaultBaseUrl
    ensures Truthy(config.maxTokens, 0) ==> s.maxTokens == config.maxTokens.value
    ensures !Truthy(config.maxTokens, 0) ==> s.maxTokens == DefaultMaxTokens
    ensures Truthy(config.temperature, 0.0) ==> s.temperature == config.temperature.value
    ensures !Truthy(config.temperature, 0.0) ==> s.temperature == DefaultTemperature
  {
    Settings(
      Or(config.model, "", DefaultModel),
      Or(config.baseUrl, "", DefaultBaseUrl),
      Or(config.maxTokens, 0, DefaultMaxTokens),
      Or(config.temperature, 0.0, DefaultTemperature))
  }

  /** A configuration that gives every setting explicitly. */
  function WithSettings(config: DecaChatConfig, s: Settings): DecaChatConfig
  {
    config.(model := Some(s.model), baseUrl := Some(s.baseUrl),
            maxTokens := Some(s.maxTokens), temperature := Some(s.temperature))
  }

  /** Defaulting is idempotent: feeding resolved settings back in as explicit
      options yields the same settings, and a configuration that already
      gives four truthy settings is kept as it is. */
  lemma ResolveSettingsIdempotent(config: DecaChatConfig)
    ensures ResolveSettings(WithSettings(config, ResolveSettings(config))) == ResolveSettings(config)
    ensures forall s: Settings :: s.Resolved() ==> ResolveSettings(WithSettings(config, s)) == s
  {
  }

  // ---------------------------------------------------------------------------
  // The completion call, as seen from the session
  // ---------------------------------------------------------------------------

  /** The arguments of `chat.completions.create`. */
  datatype CompletionRequest = CompletionRequest(
    model: string, messages: seq<ChatMessage>, maxTokens: int, temperature: real)

  /** The message of a choice, whose `content` may be null. */
  datatype ReplyMessage = ReplyMessage(content: Option<string>)

  /** One element of `response.choices`; its `message` may be missing. */
  datatype Choice = Choice(message: Option<ReplyMessage>)

  /** What the completion call ends in: it rejects, or it resolves to a
      response with a (possibly empty) list of choices. */
  datatype Completion = Failed | Succeeded(choices: seq<Choice>)

  /** What `chat` hands back to its caller: the reply, or a thrown error. */
  datatype ChatOutcome = Returned(reply: string) | Threw

  /** `response.choices[0]?.message?.content || ''`: the first choice's
      content when it is present and non-empty, and "" otherwise, never null. */
  function ReplyText(choices: seq<Choice>): (r: string)
    ensures r != "" <==>
      |choices| > 0 && choices[0].message.Some? && Truthy(choices[0].message.value.content, "")
    ensures r != "" ==> r == choices[0].message.value.content.value
  {
    if |choices| > 0 && choices[0].message.Some? then
      Or(choices[0].message.value.content, "", "")
    else
      ""
  }

  // ---------------------------------------------------------------------------
  // The history as a sequence of operations
  // ---------------------------------------------------------------------------

  /** The operations that change the history; a chat step carries the
      completion that the remote call ended in. */
  datatype Op =
    | SetSystemMessage(message: string)
    | SetIntro(message: string)
    | Chat(message: string, completion: Completion)
    | ClearConversation
  {
    /** The two operations that replace the history instead of appending. */
    predicate IsReset()
    {
      SetSystemMessage? || ClearConversation?
    }
  }

  /** How many messages an appending operation adds. */
  function Growth(op: Op): nat
  {
    match op
    case SetIntro(_) => 1
    case Chat(_, Failed) => 1
    case Chat(_, Succeeded(_)) => 2
    case _ => 0
  }

  /** A system message can only be the first message of a history. */
  predicate SystemOnlyFirst(h: seq<ChatMessage>)
  {
    forall i :: 0 < i < |h| ==> h[i].role != System
  }

  /** The history after one operation. */
  function Step(h: seq<ChatMessage>, op: Op): (h': seq<ChatMessage>)
    ensures !op.IsReset() ==> h <= h' && |h'| == |h| + Growth(op)
    ensures op.SetSystemMessage? ==> h' == [ChatMessage(System, op.message)]
    ensures op.ClearConversation? ==> h' == []
    ensures SystemOnlyFirst(h) ==> SystemOnlyFirst(h')
  {
    match op
    case SetSystemMessage(m) => [ChatMessage(System, m)]
    case SetIntro(m) => h + [ChatMessage(Assistant, m)]
    case Chat(m, Failed) => h + [ChatMessage(User, m)]
    case Chat(m, Succeeded(choices)) =>
      h + [ChatMessage(User, m), ChatMessage(Assistant, ReplyText(choices))]
    case ClearConversation => []
  }

  /** The history after a sequence of operations. */
  function Run(h: seq<ChatMessage>, ops: seq<Op>): seq<ChatMessage>
    decreases |ops|
  {
    if ops == [] then h else Run(Step(h, ops[0]), ops[1..])
  }

  /** No sequence of operations puts a system message anywhere but first. */
  lemma {:induction false} RunKeepsSystemOnlyFirst(h: seq<ChatMessage>, ops: seq<Op>)
    requires SystemOnlyFirst(h)
    ensures SystemOnlyFirst(Run(h, ops))
    decreases |ops|
  {
    if ops != [] {
      RunKeepsSystemOnlyFirst(Step(h, ops[0]), ops[1..]);
    }
  }

  /** The total number of messages a sequence of operations appends. */
  function TotalGrowth(ops: seq<Op>): nat
    decreases |ops|
  {
    if ops == [] then 0 else Growth(ops[0]) + TotalGrowth(ops[1..])
  }

  /** Without a reset the history only grows: every earlier message stays
      where it was, and exactly `TotalGrowth(ops)` messages are added. */
  lemma {:induction false} RunWithoutResetExtends(h: seq<ChatMessage>, ops: seq<Op>)
    requires forall i :: 0 <= i < |ops| ==> !ops[i].IsReset()
    ensures h <= Run(h, ops)
    ensures |Run(h, ops)| == |h| + TotalGrowth(ops)
    decreases |ops|
  {
    if ops != [] {
      RunWithoutResetExtends(Step(h, ops[0]), ops[1..]);
    }
  }

  /** Once a reset occurs, nothing of the earlier history survives: two
      histories that undergo the same operations end up equal. */
  lemma {:induction false} RunForgetsBeforeReset(h1: seq<ChatMessage>, h2: seq<ChatMessage>, ops: seq<Op>)
    requires exists i :: 0 <= i < |ops| && ops[i].IsReset()
    ensures Run(h1, ops) == Run(h2, ops)
    decreases |ops|
  {
    if !ops[0].IsReset() {
      var i :| 0 <= i < |ops| && ops[i].IsReset();
      assert ops[1..][i - 1] == ops[i];
      RunForgetsBeforeReset(Step(h1, ops[0]), Step(h2, ops[0]), ops[1..]);
    }
  }

  /** The number of messages of a role in a history. */
  function CountRole(h: seq<ChatMessage>, role: Role): nat
    decreases |h|
  {
    if h == [] then 0
    else CountRole(h[..|h| - 1], role) + (if h[|h| - 1].role == role then 1 else 0)
  }

  lemma {:induction false} CountRoleAppend(a: seq<ChatMessage>, b: seq<ChatMessage>, role: Role)
    ensures CountRole(a + b, role) == CountRole(a, role) + CountRole(b, role)
    decreases |b|
  {
    if b == [] {
      assert a + b == a;
    } else {
      var b' := b[..|b| - 1];
      assert (a + b)[..|a + b| - 1] == a + b';
      assert (a + b)[|a + b| - 1] == b[|b| - 1];
      CountRoleAppend(a, b', role);
    }
  }

  /** The number of chat steps in a sequence of operations. */
  function ChatCount(ops: seq<Op>): nat
    decreases |ops|
  {
    if ops == [] then 0 else (if ops[0].Chat? then 1 else 0) + ChatCount(ops[1..])
  }

  /** Every chat step leaves exactly one user turn behind, whether the
      completion succeeded or failed: a failed call is never rolled back. */
  lemma {:induction false} RunCountsUserTurns(h: seq<ChatMessage>, ops: seq<Op>)
    requires forall i :: 0 <= i < |ops| ==> !ops[i].IsReset()
    ensures CountRole(Run(h, ops), User) == CountRole(h, User) + ChatCount(ops)
    decreases |ops|
  {
    if ops != [] {
      var h' := Step(h, ops[0]);
      RunCountsUserTurns(h', ops[1..]);
      match ops[0] {
        case SetIntro(m) =>
          CountRoleAppend(h, [ChatMessage(Assistant, m)], User);
          assert CountRole([ChatMessage(Assistant, m)], User) == 0;
        case Chat(m, Failed) =>
          CountRoleAppend(h, [ChatMessage(User, m)], User);
          assert CountRole([ChatMessage(User, m)], User) == 1;
        case Chat(m, Succeeded(choices)) =>
          var turns := [ChatMessage(User, m), ChatMessage(Assistant, ReplyText(choices))];
          CountRoleAppend(h, turns, User);
          assert turns[..1] == [ChatMessage(User, m)];
          assert CountRole(turns[..1], User) == 1;
          assert CountRole(turns, User) == 1;
      }
    }
  }

  /** Clearing is a hard reset: the intro is not replayed before the next
      chat, which starts again from an empty history, whatever the
      completion ends in. */
  lemma ClearDoesNotReplayIntro(h: seq<ChatMessage>, m: string, c: Completion)
    ensures Run(h, [ClearConversation, Chat(m, c)]) == Step([], Chat(m, c))
    ensures c.Failed? ==> Run(h, [ClearConversation, Chat(m, c)]) == [ChatMessage(User, m)]
    ensures c.Succeeded? ==> Run(h, [ClearConversation, Chat(m, c)])
                             == [ChatMessage(User, m), ChatMessage(Assistant, ReplyText(c.choices))]
  {
    RunShort(h, [ClearConversation, Chat(m, c)]);
  }

  lemma RunShort(h: seq<ChatMessage>, ops: seq<Op>)
    requires |ops| <= 2
    ensures |ops| == 0 ==> Run(h, ops) == h
    ensures |ops| == 1 ==> Run(h, ops) == Step(h, ops[0])
    ensures |ops| == 2 ==> Run(h, ops) == Step(Step(h, ops[0]), ops[1])
  {
    if ops != [] {
      var rest := ops[1..];
      assert Run(h, ops) == Run(Step(h, ops[0]), rest);
      if |ops| == 2 {
        assert rest[0] == ops[1] && rest[1..] == [];
        assert Run(Step(h, ops[0]), rest) == Run(Step(Step(h, ops[0]), rest[0]), rest[1..]);
      }
    }
  }

  /** The operations the constructor performs on the empty history. */
  function SeedOps(config: DecaChatConfig): seq<Op>
  {
    (if Truthy(config.systemMessage, "") then [SetSystemMessage(config.systemMessage.value)] else [])
    + (if Truthy(config.intro, "") then [SetIntro(config.intro.value)] else [])
  }

  /** The history right after construction: at most a system message
      followed by the intro, each present exactly when its option is truthy,
      the system message first. */
  function InitialHistory(config: DecaChatConfig): (h: seq<ChatMessage>)
    ensures SystemOnlyFirst(h)
    ensures var sys, intro := Truthy(config.systemMessage, ""), Truthy(config.intro, "");
      && (!sys && !intro ==> h == [])
      && (sys && !intro ==> h == [ChatMessage(System, config.systemMessage.value)])
      && (!sys && intro ==> h == [ChatMessage(Assistant, config.intro.value)])
      && (sys && intro ==> h == [ChatMessage(System, config.systemMessage.value),
                                 ChatMessage(Assistant, config.intro.value)])
  {
    var ops := SeedOps(config);
    RunKeepsSystemOnlyFirst([], ops);
    RunShort([], ops);
    Run([], ops)
  }

  // ---------------------------------------------------------------------------
  // The session object
  // ---------------------------------------------------------------------------

  class DecaChat {
    var model: string
    var baseUrl: string
    var maxTokens: int
    var temperature: real
    var conversation: seq<ChatMessage>
    /** Stored by the constructor and by `SetIntro`, never read again. */
    var introMessage: Option<string>

    /** The settings are resolved and a system message only ever leads. */
    predicate Valid()
      reads this
    {
      CurrentSettings().Resolved() && SystemOnlyFirst(conversation)
    }

    function CurrentSettings(): Settings
      reads this
    {
      Settings(model, baseUrl, maxTokens, temperature)
    }

    /** The request `chat` sends for `message` from the current state. */
    function RequestFor(message: string): (req: CompletionRequest)
      reads this
      ensures |req.messages| == |conversation| + 1
      ensures req.messages[..|conversation|] == conversation
      ensures req.messages[|conversation|..] == [ChatMessage(User, message)]
      ensures req.model == model && req.maxTokens == maxTokens && req.temperature == temperature
    {
      CompletionRequest(model, conversation + [ChatMessage(User, message)], maxTokens, temperature)
    }

    constructor (config: DecaChatConfig)
      ensures Valid()
      ensures CurrentSettings() == ResolveSettings(config)
      ensures conversation == InitialHistory(config)
      ensures introMessage == (if Truthy(config.intro, "") then Some(config.intro.value) else None)
    {
      var s := ResolveSettings(config);
      model := s.model;
      baseUrl := s.baseUrl;
      maxTokens := s.maxTokens;
      temperature := s.temperature;
      conversation := [];
      introMessage := None;
      new;
      if Truthy(config.systemMessage, "") {
        SetSystemMessage(config.systemMessage.value);
      }
      if Truthy(config.intro, "") {
        introMessage := Some(config.intro.value);
        conversation := conversation + [ChatMessage(Assistant, config.intro.value)];
      }
    }

    /** Replaces the whole history by one system message. */
    method SetSystemMessage(message: string)
      requires Valid()
      modifies this`conversation
      ensures Valid()
      ensures conversation == Step(old(conversation), Op.SetSystemMessage(message))
      ensures conversation == [ChatMessage(System, message)]
    {
      conversation := [ChatMessage(System, message)];
    }

    /** Appends the intro as an assistant message and remembers it. */
    method SetIntro(message: string)
      requires Valid()
      modifies this`conversation, this`introMessage
      ensures Valid()
      ensures introMessage == Some(message)
      ensures conversation == Step(old(conversation), Op.SetIntro(message))
      ensures |conversation| == |old(conversation)| + 1 && old(conversation) <= conversation
    {
      introMessage := Some(message);
      conversation := conversation + [ChatMessage(Assistant, message)];
    }

    /** Sends `message`.  The user turn is appended first and the whole
        history, that turn included, goes to `complete`.  On success the
        reply is appended and returned; on failure the error is raised and
        the user turn stays. */
    method Chat(message: string, complete: CompletionRequest -> Completion) returns (result: ChatOutcome)
      requires Valid()
      modifies this`conversation
      ensures Valid()
      ensures var sent := complete(old(RequestFor(message)));
        && conversation == Step(old(conversation), Op.Chat(message, sent))
        && (sent.Failed? ==> result == Threw)
        && (sent.Succeeded? ==> result == Returned(ReplyText(sent.choices)))
      ensures old(conversation) + [ChatMessage(User, message)] <= conversation
      ensures result.Threw? ==> |conversation| == |old(conversation)| + 1
      ensures result.Returned? ==>
        |conversation| == |old(conversation)| + 2
        && conversation[|conversation| - 1] == ChatMessage(Assistant, result.reply)
    {
      conversation := conversation + [ChatMessage(User, message)];
      var response := complete(CompletionRequest(model, conversation, maxTokens, temperature));
      match response
      case Failed =>
        result := Threw;
      case Succeeded(choices) =>
        var reply := ReplyText(choices);
        conversation := conversation + [ChatMessage(Assistant, reply)];
        result := Returned(reply);
    }

    /** Empties the history; the intro is not put back. */
    method ClearConversation()
      requires Valid()
      modifies this`conversation
      ensures Valid()
      ensures conversation == Step(old(conversation), Op.ClearConversation)
      ensures conversation == []
    {
      conversation := [];
    }

    /** A copy of the history.  The copy is a value: nothing done to the
        session afterwards changes it. */
    method GetConversation() returns (copy: seq<ChatMessage>)
      ensures copy == conversation
    {
      copy := conversation;
    }
  }

  // ---------------------------------------------------------------------------
  // A client: the start of the command-line chat
  // ---------------------------------------------------------------------------

  const CliSystemMessage: string := "You are a helpful AI assistant."
  const CliIntro: string := "Hello! How can I help you today?"
  const CliModel: string := "mixtral-8x7b-32768"

  /** The command-line client builds a session with a system message and an
      intro, then sends an empty message.  The intro is already in the
      history, so what comes back is the model's answer to the request that
      carries the intro, not the intro itself.  The client does not guard
      this first call: when it throws, the error escapes the client's start
      routine instead of being reported and followed by the prompt loop; the
      model only returns `Threw`. */
  method CliStart(apiKey: string, complete: CompletionRequest -> Completion)
    returns (greeting: ChatOutcome, history: seq<ChatMessage>)
    ensures |history| >= 3
    ensures history[..3] == [ChatMessage(System, CliSystemMessage),
                             ChatMessage(Assistant, CliIntro), ChatMessage(User, "")]
    ensures greeting.Threw? <==> |history| == 3
    ensures greeting.Returned? ==> history == history[..3] + [ChatMessage(Assistant, greeting.reply)]
    ensures var sent := complete(CompletionRequest(CliModel, history[..3], DefaultMaxTokens, DefaultTemperature));
      greeting.Threw? <==> sent.Failed?
    ensures greeting.Returned? ==>
      var sent := complete(CompletionRequest(CliModel, history[..3], DefaultMaxTokens, DefaultTemperature));
      sent.Succeeded? && greeting.reply == ReplyText(sent.choices)
  {
    var chat := new DecaChat(DecaChatConfig(
      apiKey, Some(CliModel), Some("https://api.groq.com/openai/v1"), None, None,
      Some(CliIntro), Some(CliSystemMessage), None));
    ghost var request := chat.RequestFor("");
    greeting := chat.Chat("", complete);
    history := chat.GetConversation();
    assert request.messages == history[..3];
  }

  /** A copy returned by `GetConversation` is independent of the session:
      whichever operation is applied to the session afterwards, the copy
      keeps the history as it was, while the session's history becomes
      `Step` of it. */
  method SnapshotSurvivesChange(chat: DecaChat, op: Op) returns (snapshot: seq<ChatMessage>, later: seq<ChatMessage>)
    requires chat.Valid()
    modifies chat
    ensures chat.Valid()
    ensures snapshot == old(chat.conversation)
    ensures later == chat.conversation == Step(snapshot, op)
  {
    snapshot := chat.GetConversation();
    match op {
      case SetSystemMessage(m) =>
        chat.SetSystemMessage(m);
      case SetIntro(m) =>
        chat.SetIntro(m);
      case Chat(m, c) =>
        var _ := chat.Chat(m, req => c);
      case ClearConversation =>
        chat.ClearConversation();
    }
    later := chat.GetConversation();
  }
}
