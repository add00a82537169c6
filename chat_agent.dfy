/** The step loop of `POST /api/chat`: at most five rounds, each asking the
    LLM providers the user holds keys for, in a fixed priority order and
    falling through on quota errors, then running the first tool call the
    model asked for. Only a catalogue search whose continuation asks for
    further tools leads to another round. The LLM calls, `JSON.parse` of the
    tool arguments and the tool collaborators are parameters. */
module ChatAgent {
  import opened Wrappers
  import opened Seqs
  import opened Csv
  import opened ChatRoute

  // ---------------------------------------------------------------------
  // Collaborators and replies

  /** An entry of `availableProviders`. */
  datatype Provider = Provider(name: string, key: string)

  /** `{ content, toolCalls, error }` of an LLM call. */
  datatype LlmResponse = LlmResponse(content: Option<string>, toolCalls: seq<ToolCall>, error: Option<string>)

  /** `data` of the tool result sent back to the LLM for a table. */
  datatype DataSummary = DataSummary(rows: int, columns: seq<string>, source: string)

  /** The LLM calls and the argument decoder.
      - `withTools(p, messages)`: `callLLMWithTools(p.provider, p.key, messages, TOOLS)`;
      - `continueWith(p, messages, call, result)`: `callLLMWithToolResultAndContinue`;
      - `withResult(p, messages, call, summary)`: `callLLMWithToolResult`;
      - `parseArgs(text)`: `JSON.parse`, `None` when it throws. */
  datatype Llm = Llm(
    withTools: (Provider, seq<Message>) -> LlmResponse,
    continueWith: (Provider, seq<Message>, ToolCall, ToolResult) -> LlmResponse,
    withResult: (Provider, seq<Message>, ToolCall, DataSummary) -> string,
    parseArgs: string -> Option<map<string, string>>)

  /** `data` of the route's reply. */
  datatype ChatData = ChatData(table: Table, csv: string, source: string)

  /** 401 `{ error: 'Unauthorized' }`, or `{ message, data? }`. */
  datatype ChatReply = Unauthorized | Reply(message: string, data: Option<ChatData>)

  const MaxIterations := 5

  const NoLlmKeyMessage := "No tienes configurada ninguna API Key de LLM. Ve a Configuración y añade una API Key de OpenAI, Google o Groq."
  const AllQuotaMessage := "Todos los proveedores de LLM han excedido su cuota. Intenta más tarde o añade otra API Key."
  const LlmErrorPrefix := "Error del LLM: "
  const NoProcessMessage := "No pude procesar tu solicitud."
  const ArgsMessage := "Error al procesar los argumentos de la función."
  const GenericNullMessage := "No pude obtener los datos solicitados. Verifica que el indicador exista."
  const FoundMessage := "Encontré estos indicadores en el catálogo."
  const LimitMessage := "Se alcanzó el límite de iteraciones. Por favor, sé más específico en tu solicitud."

  function NotFoundMessage(id: string): string {
    "El indicador " + id + " no existe en INEGI o no está disponible. Intenta buscar con otros términos usando el catálogo."
  }

  function MissingKeyMessage(keyName: string): string {
    "No tienes configurada la API Key de " + keyName + ". Ve a Configuración y añade tu token de " + keyName + "."
  }

  function DataIntro(source: string): string {
    "Aquí están los datos de " + source + ":"
  }

  /** `text || fallback` for an optional text. */
  function OrElse(text: Option<string>, fallback: string): (r: string)
    ensures Truthy(text) ==> r == text.value
    ensures !Truthy(text) ==> r == fallback
  {
    if Truthy(text) then text.value else fallback
  }

  // ---------------------------------------------------------------------
  // Providers

  const ProviderOrder: seq<string> := ["groq", "openai", "google"]

  /** `[{ provider: name, key }]` when the user has a key for `name`. */
  function IfKeyed(name: string, apiKey: string -> Option<string>): seq<Provider> {
    if Truthy(apiKey(name)) then [Provider(name, apiKey(name).value)] else []
  }

  /** `availableProviders`. */
  function AvailableProviders(apiKey: string -> Option<string>): seq<Provider> {
    IfKeyed("groq", apiKey) + IfKeyed("openai", apiKey) + IfKeyed("google", apiKey)
  }

  function Names(ps: seq<Provider>): (r: seq<string>)
    ensures |r| == |ps| && forall i :: 0 <= i < |ps| ==> r[i] == ps[i].name
  {
    seq(|ps|, i requires 0 <= i < |ps| => ps[i].name)
  }

  predicate Keyed(name: string, apiKey: string -> Option<string>) {
    Truthy(apiKey(name))
  }

  function KeyedFilter(apiKey: string -> Option<string>): string -> bool {
    name => Keyed(name, apiKey)
  }

  /** The providers are exactly those of groq, openai, google that the user
      has a key for, in that order. */
  lemma {:induction false} AvailableProvidersSpec(apiKey: string -> Option<string>)
    ensures Names(AvailableProviders(apiKey)) == Filter(ProviderOrder, KeyedFilter(apiKey))
  {
    KeyedThree("groq", "openai", "google", apiKey);
  }

  /** The names of the keyed providers among three, taken in order. */
  lemma {:induction false} KeyedThree(n1: string, n2: string, n3: string, apiKey: string -> Option<string>)
    ensures Names(IfKeyed(n1, apiKey) + IfKeyed(n2, apiKey) + IfKeyed(n3, apiKey))
            == Filter([n1, n2, n3], KeyedFilter(apiKey))
  {
    var f := KeyedFilter(apiKey);
    var s1, s2, s3: seq<string> := [n1], [n2], [n3];
    assert [n1, n2, n3] == s1 + s2 + s3;
    FilterAppend(s1 + s2, s3, f);
    FilterAppend(s1, s2, f);
    FilterOne(n1, f);
    FilterOne(n2, f);
    FilterOne(n3, f);
    NamesIfKeyed(n1, apiKey);
    NamesIfKeyed(n2, apiKey);
    NamesIfKeyed(n3, apiKey);
    NamesAppend(IfKeyed(n1, apiKey), IfKeyed(n2, apiKey));
    NamesAppend(IfKeyed(n1, apiKey) + IfKeyed(n2, apiKey), IfKeyed(n3, apiKey));
  }

  /** Each provider carries the user's key for it, and there is none exactly
      when the user has no key for any of the three. */
  lemma AvailableProviderKeys(apiKey: string -> Option<string>)
    ensures forall p :: p in AvailableProviders(apiKey) ==> Keyed(p.name, apiKey) && p.key == apiKey(p.name).value
    ensures AvailableProviders(apiKey) == [] <==>
              !Keyed("groq", apiKey) && !Keyed("openai", apiKey) && !Keyed("google", apiKey)
  {
  }

  lemma FilterOne(x: string, f: string -> bool)
    ensures Filter([x], f) == if f(x) then [x] else []
  {
    assert [x][1..] == [];
  }

  lemma NamesIfKeyed(name: string, apiKey: string -> Option<string>)
    ensures Names(IfKeyed(name, apiKey)) == if Keyed(name, apiKey) then [name] else []
  {
  }

  lemma NamesAppend(a: seq<Provider>, b: seq<Provider>)
    ensures Names(a + b) == Names(a) + Names(b)
  {
  }

  // ---------------------------------------------------------------------
  // One round

  /** The response is taken: it has no error, or one that is not about quota. */
  predicate Accepted(r: LlmResponse) {
    !Truthy(r.error) || !IsQuotaError(r.error.value)
  }

  function AcceptFilter(messages: seq<Message>, llm: Llm): Provider -> bool {
    p => Accepted(llm.withTools(p, messages))
  }

  /** The index of the provider whose response is used, or -1. */
  function ChosenIndex(ps: seq<Provider>, messages: seq<Message>, llm: Llm): int {
    FindIndex(ps, AcceptFilter(messages, llm))
  }

  /** The scan always starts from the first provider and stops at the first
      accepted response; earlier providers all failed on quota. With none
      accepted, every provider answered with a quota error. */
  lemma FallbackSpec(ps: seq<Provider>, messages: seq<Message>, llm: Llm)
    ensures var i := ChosenIndex(ps, messages, llm);
            && -1 <= i < |ps|
            && (i >= 0 ==> Accepted(llm.withTools(ps[i], messages)))
            && (forall j :: 0 <= j < |ps| && (i < 0 || j < i) ==>
                  var e := llm.withTools(ps[j], messages).error;
                  Truthy(e) && IsQuotaError(e.value))
  {
    var i := ChosenIndex(ps, messages, llm);
    forall j | 0 <= j < |ps| && (i < 0 || j < i)
      ensures !Accepted(llm.withTools(ps[j], messages))
    {
      assert !AcceptFilter(messages, llm)(ps[j]);
    }
  }

  /** The message pushed after a tool call: `{ role: 'assistant', content:
      null }`, with the model's `tool_calls` attached for OpenAI and Groq. */
  function AssistantEntry(p: Provider, calls: seq<ToolCall>): Message {
    Message("assistant", None, if p.name == "openai" || p.name == "groq" then calls else [])
  }

  /** How a round ends: a reply, or another round after `assistant` is pushed. */
  datatype Step = Finish(message: string, data: Option<ChatData>) | Continue(assistant: Message)

  /** The message for a `null` tool result: the missing-key message when the
      tool needs a key the user lacks, the generic one otherwise. */
  function NullResultMessage(toolName: string, apiKey: string -> Option<string>): string {
    var missing := if toolName == "get_inegi_data" then Some("inegi")
                   else if toolName == "get_banxico_data" then Some("banxico") else None;
    if missing.Some? && !Truthy(apiKey(missing.value)) then
      MissingKeyMessage(if missing.value == "inegi" then "INEGI" else "BANXICO")
    else GenericNullMessage
  }

  /** The missing-key message names the source exactly when the data tool for
      it was asked for and the user has no key for it; any other `null`, from
      SHCP, from an unknown tool or with the key present, gives the generic
      message. */
  lemma NullResultMessageSpec(toolName: string, apiKey: string -> Option<string>)
    ensures toolName == "get_inegi_data" && !Truthy(apiKey("inegi")) ==>
              NullResultMessage(toolName, apiKey) == MissingKeyMessage("INEGI")
    ensures toolName == "get_banxico_data" && !Truthy(apiKey("banxico")) ==>
              NullResultMessage(toolName, apiKey) == MissingKeyMessage("BANXICO")
    ensures !(toolName == "get_inegi_data" && !Truthy(apiKey("inegi")))
            && !(toolName == "get_banxico_data" && !Truthy(apiKey("banxico"))) ==>
              NullResultMessage(toolName, apiKey) == GenericNullMessage
  {
  }

  /** The summary of a table sent to the LLM. */
  function SummaryOf(table: Table, source: string): DataSummary
    requires |table| >= 1
  {
    DataSummary(|table| - 1, table[0], source)
  }

  /** The result of the first tool call of `resp`, its arguments decoded;
      `None` also when they do not decode. */
  function FirstToolResult(resp: LlmResponse, llm: Llm, env: ToolEnv): (r: Option<ToolResult>)
    requires resp.toolCalls != []
    ensures r.Some? && r.value.Data? ==> |r.value.table| >= 1
  {
    var call := resp.toolCalls[0];
    match llm.parseArgs(call.arguments)
    case None => None
    case Some(args) => ExecuteToolCall(call.name, args, env)
  }

  /** The rest of a round once the search results or the table are in: the
      assistant entry is pushed, and the LLM is asked again. */
  function AfterTool(p: Provider, resp: LlmResponse, result: ToolResult, messages: seq<Message>, llm: Llm): (r: Step)
    requires resp.toolCalls != [] && !result.NotFound?
    requires result.Data? ==> |result.table| >= 1
    ensures r.Continue? ==> result.SearchResults? && r.assistant == AssistantEntry(p, resp.toolCalls)
    ensures result.Data? ==> r.Finish? && r.data == Some(ChatData(result.table, result.csv, result.source))
    ensures result.SearchResults? ==> !(r.Finish? && r.data.Some?)
  {
    var call := resp.toolCalls[0];
    var assistant := AssistantEntry(p, resp.toolCalls);
    var pushed := messages + [assistant];
    if result.SearchResults? then
      var next := llm.continueWith(p, pushed, call, result);
      if Truthy(next.error) then Finish(LlmErrorPrefix + next.error.value, None)
      else if |next.toolCalls| > 0 then Continue(assistant)
      else Finish(OrElse(next.content, FoundMessage), None)
    else
      var text := llm.withResult(p, pushed, call, SummaryOf(result.table, result.source));
      Finish(if text != "" then text else DataIntro(result.source),
                   Some(ChatData(result.table, result.csv, result.source)))
  }

  /** A round once the tool of the first call has given `result`. */
  function HandleResult(p: Provider, resp: LlmResponse, result: Option<ToolResult>, messages: seq<Message>,
                        llm: Llm, apiKey: string -> Option<string>): (r: Step)
    requires resp.toolCalls != []
    requires result.Some? && result.value.Data? ==> |result.value.table| >= 1
    ensures r.Continue? ==> result.Some? && result.value.SearchResults? && r.assistant == AssistantEntry(p, resp.toolCalls)
    ensures r.Finish? && r.data.Some? ==>
              result.Some? && result.value.Data?
              && r.data.value == ChatData(result.value.table, result.value.csv, result.value.source)
  {
    match result
    case None => Finish(NullResultMessage(resp.toolCalls[0].name, apiKey), None)
    case Some(t) => if t.NotFound? then Finish(NotFoundMessage(t.indicatorId), None) else AfterTool(p, resp, t, messages, llm)
  }

  /** A round once provider `p` answered `resp` without a quota error. */
  function Respond(p: Provider, resp: LlmResponse, messages: seq<Message>, llm: Llm, env: ToolEnv): (r: Step)
    ensures r.Continue? ==> r.assistant == AssistantEntry(p, resp.toolCalls)
    ensures r.Finish? && r.data.Some? ==>
              && resp.toolCalls != []
              && FirstToolResult(resp, llm, env) == Some(Data(r.data.value.table, r.data.value.csv, r.data.value.source))
  {
    if Truthy(resp.error) then Finish(LlmErrorPrefix + resp.error.value, None)
    else if resp.toolCalls == [] then Finish(OrElse(resp.content, NoProcessMessage), None)
    else if llm.parseArgs(resp.toolCalls[0].arguments).None? then Finish(ArgsMessage, None)
    else HandleResult(p, resp, FirstToolResult(resp, llm, env), messages, llm, env.apiKey)
  }

  /** One pass of the `while` body. */
  function StepOf(ps: seq<Provider>, messages: seq<Message>, llm: Llm, env: ToolEnv): Step {
    var i := ChosenIndex(ps, messages, llm);
    if i < 0 then Finish(AllQuotaMessage, None)
    else Respond(ps[i], llm.withTools(ps[i], messages), messages, llm, env)
  }

  /** A round leads to another only when the accepted response has no error
      and asks for a tool, its first call decodes and runs `search_indicator`
      to search results, and the continuation that sees them has no error and
      asks for a tool again. */
  lemma {:induction false} ContinueSpec(ps: seq<Provider>, messages: seq<Message>, llm: Llm, env: ToolEnv)
    ensures var i := ChosenIndex(ps, messages, llm);
            StepOf(ps, messages, llm, env).Continue? <==>
              && 0 <= i < |ps|
              && var resp := llm.withTools(ps[i], messages);
                 && !Truthy(resp.error) && resp.toolCalls != []
                 && var r := FirstToolResult(resp, llm, env);
                    && r.Some? && r.value.SearchResults?
                    && resp.toolCalls[0].name == "search_indicator"
                    && var next := llm.continueWith(ps[i], messages + [AssistantEntry(ps[i], resp.toolCalls)],
                                                    resp.toolCalls[0], r.value);
                       !Truthy(next.error) && |next.toolCalls| > 0
  {
    var i := ChosenIndex(ps, messages, llm);
    if 0 <= i < |ps| {
      var resp := llm.withTools(ps[i], messages);
      if !Truthy(resp.error) && resp.toolCalls != [] {
        var call := resp.toolCalls[0];
        if llm.parseArgs(call.arguments).Some? {
          ToolResultKinds(call.name, llm.parseArgs(call.arguments).value, env);
        }
      }
    }
  }

  /** The entry a continuing round pushes is an `assistant` entry without
      content. */
  lemma ContinueShape(ps: seq<Provider>, messages: seq<Message>, llm: Llm, env: ToolEnv)
    ensures var s := StepOf(ps, messages, llm, env);
            s.Continue? ==> s.assistant.role == "assistant" && s.assistant.content.None?
  {
  }

  /** A reply that carries data passes on, unchanged, the table, CSV and
      source of the first tool call of the accepted response, and that call
      is to one of the three data tools. */
  lemma {:induction false} DataPassthrough(ps: seq<Provider>, messages: seq<Message>, llm: Llm, env: ToolEnv)
    requires StepOf(ps, messages, llm, env).Finish?
    requires StepOf(ps, messages, llm, env).data.Some?
    ensures var d := StepOf(ps, messages, llm, env).data.value;
            var i := ChosenIndex(ps, messages, llm);
            && 0 <= i < |ps|
            && var resp := llm.withTools(ps[i], messages);
               && resp.toolCalls != []
               && FirstToolResult(resp, llm, env) == Some(Data(d.table, d.csv, d.source))
               && IsDataTool(resp.toolCalls[0].name)
               && |d.table| >= 1
  {
    var i := ChosenIndex(ps, messages, llm);
    var resp := llm.withTools(ps[i], messages);
    ToolResultKinds(resp.toolCalls[0].name, llm.parseArgs(resp.toolCalls[0].arguments).value, env);
  }

  /** With a table, the LLM is told only the number of data rows, the header
      and the source, and the reply is its text, or the standard introduction
      naming the source when the text is empty. */
  lemma {:induction false} DataRound(p: Provider, resp: LlmResponse, messages: seq<Message>, llm: Llm,
                                     table: Table, csv: string, source: string)
    requires resp.toolCalls != [] && |table| >= 1
    ensures var pushed := messages + [AssistantEntry(p, resp.toolCalls)];
            var text := llm.withResult(p, pushed, resp.toolCalls[0], DataSummary(|table| - 1, table[0], source));
            AfterTool(p, resp, Data(table, csv, source), messages, llm)
              == Finish(if text == "" then DataIntro(source) else text, Some(ChatData(table, csv, source)))
  {
  }

  /** The rounds that end the request before any tool runs: the accepted
      response carries an error (its text is reported), asks for no tool (its
      content, or the fallback text), or has arguments that do not decode. */
  lemma {:induction false} TerminalRounds(p: Provider, resp: LlmResponse, messages: seq<Message>, llm: Llm, env: ToolEnv)
    ensures Truthy(resp.error) ==>
              Respond(p, resp, messages, llm, env) == Finish(LlmErrorPrefix + resp.error.value, None)
    ensures !Truthy(resp.error) && resp.toolCalls == [] ==>
              Respond(p, resp, messages, llm, env) == Finish(OrElse(resp.content, NoProcessMessage), None)
    ensures !Truthy(resp.error) && resp.toolCalls != [] && llm.parseArgs(resp.toolCalls[0].arguments).None? ==>
              Respond(p, resp, messages, llm, env) == Finish(ArgsMessage, None)
  {
  }

  /** The rounds whose tool gives no table or search results: "not found"
      names the indicator, and `null` gives the message for a missing result. */
  lemma {:induction false} NoResultRounds(p: Provider, resp: LlmResponse, messages: seq<Message>, llm: Llm, env: ToolEnv)
    requires !Truthy(resp.error) && resp.toolCalls != [] && llm.parseArgs(resp.toolCalls[0].arguments).Some?
    ensures FirstToolResult(resp, llm, env).Some? && FirstToolResult(resp, llm, env).value.NotFound? ==>
              Respond(p, resp, messages, llm, env)
                == Finish(NotFoundMessage(FirstToolResult(resp, llm, env).value.indicatorId), None)
    ensures FirstToolResult(resp, llm, env).None? ==>
              Respond(p, resp, messages, llm, env)
                == Finish(NullResultMessage(resp.toolCalls[0].name, env.apiKey), None)
  {
    assert Respond(p, resp, messages, llm, env)
           == HandleResult(p, resp, FirstToolResult(resp, llm, env), messages, llm, env.apiKey);
  }

  /** Asking for INEGI or Banxico data without a key for that source ends the
      request with the missing-key message naming that source. */
  lemma {:induction false} MissingKeyRound(p: Provider, resp: LlmResponse, messages: seq<Message>, llm: Llm, env: ToolEnv)
    requires !Truthy(resp.error) && resp.toolCalls != []
    requires llm.parseArgs(resp.toolCalls[0].arguments).Some?
    requires || (resp.toolCalls[0].name == "get_inegi_data" && !Truthy(env.apiKey("inegi")))
             || (resp.toolCalls[0].name == "get_banxico_data" && !Truthy(env.apiKey("banxico")))
    ensures Respond(p, resp, messages, llm, env)
              == Finish(MissingKeyMessage(if resp.toolCalls[0].name == "get_inegi_data" then "INEGI" else "BANXICO"), None)
  {
    NoTokenNoData(resp.toolCalls[0].name, llm.parseArgs(resp.toolCalls[0].arguments).value, env);
    NullResultMessageSpec(resp.toolCalls[0].name, env.apiKey);
  }

  // ---------------------------------------------------------------------
  // The loop

  /** The end of the loop: the reply, the number of rounds run, and the
      `messages` the last round was prompted with. */
  datatype Outcome = Outcome(reply: ChatReply, rounds: nat, messages: seq<Message>)

  /** The loop from round `iteration` (0-based) with the given `messages`,
      each round being `round` of the messages so far. */
  function RunFrom(iteration: nat, messages: seq<Message>, round: seq<Message> -> Step): Outcome
    decreases MaxIterations - iteration
  {
    if iteration >= MaxIterations then Outcome(Reply(LimitMessage, None), iteration, messages)
    else match round(messages)
      case Finish(m, d) => Outcome(Reply(m, d), iteration + 1, messages)
      case Continue(a) => RunFrom(iteration + 1, messages + [a], round)
  }

  /** One unfolding of `RunFrom` below the limit, for a round's known step. */
  lemma RunFromStep(iteration: nat, messages: seq<Message>, round: seq<Message> -> Step, step: Step)
    requires iteration < MaxIterations && round(messages) == step
    ensures step.Finish? ==> RunFrom(iteration, messages, round) == Outcome(Reply(step.message, step.data), iteration + 1, messages)
    ensures step.Continue? ==> RunFrom(iteration, messages, round) == RunFrom(iteration + 1, messages + [step.assistant], round)
  {
  }

  /** The rounds of one request. */
  function Rounds(ps: seq<Provider>, llm: Llm, env: ToolEnv): seq<Message> -> Step {
    messages => StepOf(ps, messages, llm, env)
  }

  /** Every continuing round pushes a content-less assistant entry. */
  ghost predicate PushesAssistants(round: seq<Message> -> Step) {
    forall ms :: round(ms).Continue? ==> round(ms).assistant.role == "assistant" && round(ms).assistant.content.None?
  }

  lemma RoundsPushAssistants(ps: seq<Provider>, llm: Llm, env: ToolEnv)
    ensures PushesAssistants(Rounds(ps, llm, env))
  {
    forall ms ensures var s := Rounds(ps, llm, env)(ms); s.Continue? ==> s.assistant.role == "assistant" && s.assistant.content.None? {
      ContinueShape(ps, ms, llm, env);
    }
  }

  /** The two messages every conversation starts with. */
  function Initial(systemPrompt: string, message: Option<string>): seq<Message> {
    [Message("system", Some(systemPrompt), []), Message("user", message, [])]
  }

  /** `POST(request)` with session user `user` and body field `message`;
      `env.apiKey` is that user's key lookup. */
  function Chat(user: Option<string>, message: Option<string>, systemPrompt: string, llm: Llm, env: ToolEnv): Outcome {
    if !Truthy(user) then Outcome(Unauthorized, 0, [])
    else
      var ps := AvailableProviders(env.apiKey);
      if ps == [] then Outcome(Reply(NoLlmKeyMessage, None), 0, [])
      else RunFrom(0, Initial(systemPrompt, message), Rounds(ps, llm, env))
  }

  /** Every entry after the first `n` is an `assistant` entry without content. */
  predicate AssistantsAfter(ms: seq<Message>, n: nat) {
    n <= |ms| && forall i :: n <= i < |ms| ==> ms[i].role == "assistant" && ms[i].content.None?
  }

  /** From round `iteration`, the loop ends within the five rounds; every
      round that continues adds exactly one content-less assistant entry;
      and running out of rounds, which happens only after five continuing
      rounds, gives the iteration-limit message. */
  lemma {:induction false} RunFromSpec(iteration: nat, messages: seq<Message>, round: seq<Message> -> Step)
    requires iteration <= MaxIterations
    requires PushesAssistants(round)
    ensures var o := RunFrom(iteration, messages, round);
            && iteration <= o.rounds <= MaxIterations
            && (iteration < MaxIterations ==> iteration < o.rounds)
            && o.reply.Reply?
            && |messages| <= |o.messages|
            && o.messages[..|messages|] == messages
            && AssistantsAfter(o.messages, |messages|)
            && (|| |o.messages| - |messages| == o.rounds - iteration - 1
                || (&& |o.messages| - |messages| == o.rounds - iteration
                    && o.rounds == MaxIterations && o.reply == Reply(LimitMessage, None)))
    decreases MaxIterations - iteration
  {
    if iteration < MaxIterations && round(messages).Continue? {
      var a := round(messages).assistant;
      RunFromSpec(iteration + 1, messages + [a], round);
      var o := RunFrom(iteration + 1, messages + [a], round);
      assert o.messages[..|messages|] == (o.messages[..|messages| + 1])[..|messages|];
    }
  }

  /** The whole request: without a session the reply is 401, without any
      LLM key it is the no-key message, and neither calls an LLM; otherwise at
      most five rounds run, the first two messages stay the system prompt and
      the user's message, and every later one is a pushed assistant entry. */
  lemma {:induction false} ChatSpec(user: Option<string>, message: Option<string>, systemPrompt: string, llm: Llm, env: ToolEnv)
    ensures var o := Chat(user, message, systemPrompt, llm, env);
            && (o.reply == Unauthorized <==> !Truthy(user))
            && (Truthy(user) && AvailableProviders(env.apiKey) == [] ==> o.reply == Reply(NoLlmKeyMessage, None) && o.rounds == 0)
            && (Truthy(user) && AvailableProviders(env.apiKey) != [] ==>
                  && 1 <= o.rounds <= MaxIterations
                  && 2 <= |o.messages|
                  && o.messages[..2] == Initial(systemPrompt, message)
                  && AssistantsAfter(o.messages, 2)
                  && |o.messages| - 2 <= o.rounds)
  {
    if Truthy(user) && AvailableProviders(env.apiKey) != [] {
      var ps := AvailableProviders(env.apiKey);
      RoundsPushAssistants(ps, llm, env);
      RunFromSpec(0, Initial(systemPrompt, message), Rounds(ps, llm, env));
    }
  }

  // ---------------------------------------------------------------------
  // The handler, step by step

  /** The `for` over `availableProviders`: the first provider whose response
      is not a quota error, with that response; `-1` when all fail. */
  method ChooseProvider(ps: seq<Provider>, messages: seq<Message>, llm: Llm)
    returns (index: int, response: LlmResponse)
    ensures index == ChosenIndex(ps, messages, llm)
    ensures 0 <= index < |ps| ==> response == llm.withTools(ps[index], messages)
  {
    for i := 0 to |ps|
      invariant forall j :: 0 <= j < i ==> !AcceptFilter(messages, llm)(ps[j])
    {
      var r := llm.withTools(ps[i], messages);
      if !Truthy(r.error) || !IsQuotaError(r.error.value) {
        assert AcceptFilter(messages, llm)(ps[i]);
        return i, r;
      }
    }
    index, response := -1, LlmResponse(None, [], None);
  }

  /** The rest of the `while` body once the tool has run. */
  method Answer(p: Provider, resp: LlmResponse, result: Option<ToolResult>, messages: seq<Message>,
                llm: Llm, apiKey: string -> Option<string>) returns (step: Step)
    requires resp.toolCalls != []
    requires result.Some? && result.value.Data? ==> |result.value.table| >= 1
    ensures step == HandleResult(p, resp, result, messages, llm, apiKey)
  {
    var toolCall := resp.toolCalls[0];
    match result {
      case None =>
        return Finish(NullResultMessage(toolCall.name, apiKey), None);
      case Some(toolResult) =>
        if toolResult.NotFound? {
          return Finish(NotFoundMessage(toolResult.indicatorId), None);
        }
        step := FollowUp(p, resp, toolResult, messages, llm);
    }
  }

  /** The assistant entry is pushed and the LLM is asked again, with the
      search results or with the table's summary. */
  method FollowUp(p: Provider, resp: LlmResponse, toolResult: ToolResult, messages: seq<Message>, llm: Llm)
    returns (step: Step)
    requires resp.toolCalls != [] && !toolResult.NotFound?
    requires toolResult.Data? ==> |toolResult.table| >= 1
    ensures step == AfterTool(p, resp, toolResult, messages, llm)
  {
    var toolCall := resp.toolCalls[0];
    var assistant := AssistantEntry(p, resp.toolCalls);
    var pushed := messages + [assistant];
    if toolResult.SearchResults? {
      var nextResponse := llm.continueWith(p, pushed, toolCall, toolResult);
      if Truthy(nextResponse.error) {
        return Finish(LlmErrorPrefix + nextResponse.error.value, None);
      }
      if |nextResponse.toolCalls| > 0 {
        return Continue(assistant);
      }
      return Finish(OrElse(nextResponse.content, FoundMessage), None);
    }
    var finalResponse := llm.withResult(p, pushed, toolCall, SummaryOf(toolResult.table, toolResult.source));
    var text := if finalResponse != "" then finalResponse else DataIntro(toolResult.source);
    step := Finish(text, Some(ChatData(toolResult.table, toolResult.csv, toolResult.source)));
  }

  /** The body of the `while`, from the provider scan to the `continue` or
      the `return`. */
  method Round(ps: seq<Provider>, messages: seq<Message>, llm: Llm, env: ToolEnv) returns (step: Step)
    ensures step == StepOf(ps, messages, llm, env)
  {
    var index, llmResponse := ChooseProvider(ps, messages, llm);
    if index < 0 {
      return Finish(AllQuotaMessage, None);
    }
    if Truthy(llmResponse.error) {
      return Finish(LlmErrorPrefix + llmResponse.error.value, None);
    }
    if |llmResponse.toolCalls| == 0 {
      return Finish(OrElse(llmResponse.content, NoProcessMessage), None);
    }
    var toolCall := llmResponse.toolCalls[0];
    var toolArgs := llm.parseArgs(toolCall.arguments);
    if toolArgs.None? {
      return Finish(ArgsMessage, None);
    }
    var toolResult := ExecuteToolCall(toolCall.name, toolArgs.value, env);
    step := Answer(ps[index], llmResponse, toolResult, messages, llm, env.apiKey);
  }

  /** `POST(request)`: the `while` loop over at most five rounds, pushing the
      assistant entry of each round that continues. */
  method Post(user: Option<string>, message: Option<string>, systemPrompt: string, llm: Llm, env: ToolEnv)
    returns (reply: ChatReply, rounds: nat)
    ensures reply == Chat(user, message, systemPrompt, llm, env).reply
    ensures rounds == Chat(user, message, systemPrompt, llm, env).rounds
  {
    if !Truthy(user) {
      return Unauthorized, 0;
    }
    var availableProviders := AvailableProviders(env.apiKey);
    if |availableProviders| == 0 {
      return Reply(NoLlmKeyMessage, None), 0;
    }
    var messages := Initial(systemPrompt, message);
    ghost var round := Rounds(availableProviders, llm, env);
    ghost var target := RunFrom(0, messages, round);
    var iteration := 0;
    while iteration < MaxIterations
      invariant iteration <= MaxIterations
      invariant RunFrom(iteration, messages, round) == target
      decreases MaxIterations - iteration
    {
      iteration := iteration + 1;
      var step := Round(availableProviders, messages, llm, env);
      RunFromStep(iteration - 1, messages, round, step);
      if step.Finish? {
        return Reply(step.message, step.data), iteration;
      }
      messages := messages + [step.assistant];
    }
    reply, rounds := Reply(LimitMessage, None), iteration;
  }
}
