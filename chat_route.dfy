/** The expression-level parts of the chat route: quota-error detection, the
    Gemini message mapping, the catalogue search tool, the data-source labels
    and `executeToolCall`, which dispatches a tool call to the source adapters.
    The database, the network and the JSON decoder are parameters. */
module ChatRoute {
  import opened Wrappers
  import opened Text
  import opened Seqs
  import opened Csv
  import Http
  import Inegi
  import Banxico
  import Shcp

  // ---------------------------------------------------------------------
  // isQuotaError

  const QuotaKeywords: seq<string> := ["quota", "rate limit", "exceeded", "limit: 0", "429"]

  /** `isQuotaError(error)`: some keyword occurs in the lower-cased error. */
  predicate IsQuotaError(error: string) {
    exists k :: k in QuotaKeywords && Contains(Lower(error), k)
  }

  /** The five keywords, written out. */
  lemma QuotaErrorIff(error: string)
    ensures IsQuotaError(error) <==>
              || Contains(Lower(error), "quota")
              || Contains(Lower(error), "rate limit")
              || Contains(Lower(error), "exceeded")
              || Contains(Lower(error), "limit: 0")
              || Contains(Lower(error), "429")
  {
    assert QuotaKeywords[0] == "quota" && QuotaKeywords[1] == "rate limit" && QuotaKeywords[2] == "exceeded";
    assert QuotaKeywords[3] == "limit: 0" && QuotaKeywords[4] == "429";
  }

  /** An HTTP status 429 mentioned anywhere in the error makes it a quota
      error: lower-casing leaves digits alone. */
  lemma StatusTooManyRequests(error: string)
    requires Contains(error, "429")
    ensures IsQuotaError(error)
  {
    ContainsIff(error, "429");
    var i: nat :| OccursAt(error, "429", i);
    assert Lower(error)[i..i + 3] == "429";
    ContainsAt(Lower(error), "429", i);
    assert QuotaKeywords[4] == "429";
  }

  // ---------------------------------------------------------------------
  // Messages and the Gemini request

  /** A call the model asks for: `{ id, function: { name, arguments } }`. */
  datatype ToolCall = ToolCall(id: string, name: string, arguments: string)

  /** An entry of `messages`; `toolCalls` is the `tool_calls` field that the
      route attaches to an `assistant` entry (empty when absent). */
  datatype Message = Message(role: string, content: Option<string>, toolCalls: seq<ToolCall>)

  /** An element of the Gemini `contents` array: a role and the text of its
      one part. */
  datatype GeminiContent = GeminiContent(role: string, text: string)

  /** `m.content || ''`. */
  function ContentText(m: Message): string {
    if Truthy(m.content) then m.content.value else ""
  }

  predicate IsSystem(m: Message) {
    m.role == "system"
  }

  function SystemFilter(): Message -> bool {
    m => IsSystem(m)
  }

  function NonSystemFilter(): Message -> bool {
    m => !IsSystem(m)
  }

  /** `assistant` becomes `model`; every other role becomes `user`. */
  function GeminiRole(role: string): string {
    if role == "assistant" then "model" else "user"
  }

  function ToGemini(ms: seq<Message>): (r: seq<GeminiContent>)
    ensures |r| == |ms|
    ensures forall k :: 0 <= k < |ms| ==> r[k] == GeminiContent(GeminiRole(ms[k].role), ContentText(ms[k]))
  {
    seq(|ms|, k requires 0 <= k < |ms| => GeminiContent(GeminiRole(ms[k].role), ContentText(ms[k])))
  }

  /** `contents`: the messages other than `system` ones, mapped. */
  function GeminiContents(ms: seq<Message>): seq<GeminiContent> {
    ToGemini(Filter(ms, NonSystemFilter()))
  }

  /** `systemInstruction`: the content of the first `system` message, or `""`. */
  function SystemInstruction(ms: seq<Message>): string {
    var i := FindIndex(ms, SystemFilter());
    if i < 0 then "" else ContentText(ms[i])
  }

  /** The contents are the non-system messages in their original order, each
      with role `model` exactly when it was `assistant`, `user` otherwise, and
      its content or `""` as text. */
  lemma {:induction false} GeminiContentsSpec(ms: seq<Message>)
    ensures var kept := Filter(ms, NonSystemFilter());
            var r := GeminiContents(ms);
            && Subseq(kept, ms)
            && |r| == |kept|
            && (forall k :: 0 <= k < |r| ==> kept[k] in ms && !IsSystem(kept[k]))
            && (forall k :: 0 <= k < |r| ==> (r[k].role == "model" <==> kept[k].role == "assistant"))
            && (forall k :: 0 <= k < |r| ==> r[k].role == "model" || r[k].role == "user")
            && (forall k :: 0 <= k < |r| ==> r[k].text == ContentText(kept[k]))
  {
    var kept := Filter(ms, NonSystemFilter());
    FilterIsSubseq(ms, NonSystemFilter());
    forall k | 0 <= k < |kept|
      ensures kept[k] in ms && !IsSystem(kept[k])
    {
      FilterMembership(ms, NonSystemFilter(), kept[k]);
    }
  }

  /** A conversation without `system` messages is sent whole. */
  lemma {:induction false} NoSystemMessages(ms: seq<Message>)
    requires forall i :: 0 <= i < |ms| ==> !IsSystem(ms[i])
    ensures |GeminiContents(ms)| == |ms|
    ensures SystemInstruction(ms) == ""
  {
    FilterAll(ms, NonSystemFilter());
  }

  /** The instruction is the first `system` message's content: when message
      `i` is the first of role `system`, the instruction is its text. */
  lemma {:induction false} SystemInstructionIsFirst(ms: seq<Message>, i: int)
    requires 0 <= i < |ms| && IsSystem(ms[i])
    requires forall j :: 0 <= j < i ==> !IsSystem(ms[j])
    ensures SystemInstruction(ms) == ContentText(ms[i])
  {
    var k := FindIndex(ms, SystemFilter());
    assert SystemFilter()(ms[i]);
  }

  // ---------------------------------------------------------------------
  // Tool results

  /** A `{ id, descripcion }` row of the catalogue search. */
  datatype CatalogHit = CatalogHit(id: string, descripcion: string)

  /** What `executeToolCall` returns when it does not return `null`. */
  datatype ToolResult =
    | SearchResults(results: seq<CatalogHit>)            // `{ results }`
    | Data(table: Table, csv: string, source: string)      // `{ ...parsed, source }`
    | NotFound(indicatorId: string)                        // `{ error: 'not_found', indicator_id }`

  /** What the route's collaborators answer.
      - `rank(table, query)`: the rows of catalogue table `inegi` or `banxico`
        that the full-text or `ILIKE` condition selects, best rank first;
      - `apiKey(provider)`: `getApiKey(userId, provider)` for the session user;
      - `inegiHttp`, `banxicoHttp`, `shcpHttp`: the network;
      - `inegiJson`, `banxicoJson`: `response.json()`; `None` when it throws;
      - `inegiInfo(id)`, `banxicoInfo(id)`: the `descripcion` of the indicator
        row and the `titulo` of the series row, or `None`. */
  datatype ToolEnv = ToolEnv(
    rank: (string, string) -> seq<CatalogHit>,
    apiKey: string -> Option<string>,
    inegiHttp: string -> Http.Outcome,
    inegiJson: string -> Option<Inegi.Response>,
    inegiInfo: string -> Option<string>,
    banxicoHttp: (string, string) -> Http.Outcome,
    banxicoJson: string -> Option<Banxico.Response>,
    banxicoInfo: string -> Option<string>,
    shcpHttp: string -> Http.Outcome)

  const SearchLimit := 10

  /** `searchCatalog(query, source)`: the first ten ranked rows of the chosen
      table; no rows for any other source. */
  function SearchCatalog(query: string, source: string, rank: (string, string) -> seq<CatalogHit>): (r: seq<CatalogHit>)
    ensures |r| <= SearchLimit
    ensures source != "inegi" && source != "banxico" ==> r == []
    ensures |r| <= |rank(source, query)| && r == rank(source, query)[..|r|]
    ensures |rank(source, query)| <= SearchLimit && (source == "inegi" || source == "banxico") ==> r == rank(source, query)
  {
    if source == "inegi" || source == "banxico" then Take(rank(source, query), SearchLimit) else []
  }

  /** `descripcion?.split(sep)[0]?.trim() || id`. */
  function NameOf(id: string, description: Option<string>, sep: char): string {
    var n := if description.Some? then Trim(BeforeFirst(description.value, sep)) else "";
    if n != "" then n else id
  }

  /** `s.trim()` occurs in `s`, after the leading white space. */
  lemma TrimOccurs(s: string)
    ensures OccursAt(s, Trim(s), |s| - |TrimStart(s)|)
    ensures Trim(s) == [] || (!IsSpace(Trim(s)[0]) && !IsSpace(Trim(s)[|Trim(s)| - 1]))
  {
    var t := TrimStart(s);
    var r := TrimEnd(t);
    PrefixOfSuffix(s, t, r);
  }

  /** A prefix `r` of a suffix `t` of `s` occurs in `s` where `t` starts,
      and begins with `t`'s first character. */
  lemma PrefixOfSuffix(s: string, t: string, r: string)
    requires |t| <= |s| && t == s[|s| - |t|..] && |r| <= |t| && r == t[..|r|]
    ensures OccursAt(s, r, |s| - |t|)
    ensures r != [] ==> r[0] == t[0]
  {
    assert s[|s| - |t|..][..|r|] == s[|s| - |t|..|s| - |t| + |r|];
  }

  /** The trimmed form of a prefix of `d` occurs in `d`, holds only
      characters of the prefix, and is its own trim. */
  lemma TrimmedPrefix(d: string, p: string)
    requires StartsWith(d, p) && Trim(p) != ""
    ensures Contains(d, Trim(p))
    ensures forall c :: c in Trim(p) ==> c in p
    ensures Trim(Trim(p)) == Trim(p)
  {
    var n := Trim(p);
    var off := |p| - |TrimStart(p)|;
    TrimOccurs(p);
    OccursInLonger(d, p, n, off);
    ContainsAt(d, n, off);
    OccursChars(p, n, off);
    TrimNoEdgeSpace(n);
  }

  lemma OccursInLonger(d: string, p: string, n: string, off: nat)
    requires StartsWith(d, p) && OccursAt(p, n, off)
    ensures OccursAt(d, n, off)
  {
    assert d[off..off + |n|] == d[..|p|][off..off + |n|];
  }

  lemma OccursChars(p: string, n: string, off: nat)
    requires OccursAt(p, n, off)
    ensures forall c :: c in n ==> c in p
  {
    forall c | c in n
      ensures c in p
    {
      var j :| 0 <= j < |n| && n[j] == c;
      assert p[off..off + |n|][j] == p[off + j];
    }
  }

  /** The label's name is the raw id, or else a non-empty, already trimmed
      piece of the description that holds no separator; the id is used
      exactly when there is no description or its first piece is blank. */
  lemma NameOfSpec(id: string, description: Option<string>, sep: char)
    ensures var r := NameOf(id, description, sep);
            && (description.None? ==> r == id)
            && (description.Some? && Trim(BeforeFirst(description.value, sep)) == "" ==> r == id)
            && (description.Some? && Trim(BeforeFirst(description.value, sep)) != "" ==>
                  && r != "" && sep !in r && Trim(r) == r
                  && Contains(description.value, r))
  {
    if description.Some? {
      var p := BeforeFirst(description.value, sep);
      if Trim(p) != "" {
        TrimmedPrefix(description.value, p);
      }
    }
  }

  const InegiPrefix := "INEGI - "
  const BanxicoPrefix := "Banxico - "
  const ShcpSource := "SHCP"

  /** `args[name]`, when the model supplied it. */
  function Arg(args: map<string, string>, name: string): Option<string> {
    if name in args then Some(args[name]) else None
  }

  /** The `search_indicator` branch; a missing `query` makes `toLowerCase`
      throw, which the surrounding `catch` turns into `null`. */
  function SearchTool(args: map<string, string>, env: ToolEnv): Option<ToolResult> {
    match Arg(args, "query")
    case None => None
    case Some(q) =>
      // an absent `source` is `undefined`, equal to neither table name
      var source := if "source" in args then args["source"] else "";
      Some(SearchResults(SearchCatalog(q, source, env.rank)))
  }

  /** The `get_inegi_data` branch. */
  function InegiTool(args: map<string, string>, env: ToolEnv): (r: Option<ToolResult>)
    ensures r.Some? && r.value.Data? ==>
              |r.value.table| >= 1 && StartsWith(r.value.source, InegiPrefix) && r.value.csv == Render(r.value.table)
    ensures r.Some? && r.value.NotFound? ==> "indicator_id" in args && r.value.indicatorId == args["indicator_id"]
    ensures r.Some? ==> r.value.Data? || r.value.NotFound?
  {
    var token := env.apiKey("inegi");
    if !Truthy(token) then None
    else match Arg(args, "indicator_id")
      case None => None
      case Some(id) =>
        match Inegi.FetchInegiIndicator(id, token.value, Inegi.DefaultArea, false, env.inegiHttp, env.inegiJson)
        case NotFound => Some(NotFound(id))
        case Failed => None
        case Fetched(data) => InegiData(id, data, env)
  }

  function InegiData(id: string, data: Inegi.Response, env: ToolEnv): (r: Option<ToolResult>)
    ensures r.Some? ==>
              r.value.Data? && |r.value.table| >= 1 && StartsWith(r.value.source, InegiPrefix)
              && r.value.csv == Render(r.value.table)
  {
    match Inegi.InegiTable(data)
    case None => None
    case Some(p) =>
      var source := InegiPrefix + NameOf(id, env.inegiInfo(id), '/');
      assert source[..|InegiPrefix|] == InegiPrefix;
      Some(Data(p.table, p.csv, source))
  }

  /** The `get_banxico_data` branch. */
  function BanxicoTool(args: map<string, string>, env: ToolEnv): (r: Option<ToolResult>)
    ensures r.Some? ==>
              r.value.Data? && |r.value.table| >= 1 && StartsWith(r.value.source, BanxicoPrefix)
              && r.value.csv == Render(r.value.table)
  {
    var token := env.apiKey("banxico");
    if !Truthy(token) then None
    else match Arg(args, "series_id")
      case None => None
      case Some(id) =>
        match Banxico.FetchBanxicoSeries(id, token.value, None, None, false, env.banxicoHttp, env.banxicoJson)
        case None => None
        case Some(data) =>
          match Banxico.BanxicoTable(data)
          case None => None
          case Some(p) =>
            var source := BanxicoPrefix + NameOf(id, env.banxicoInfo(id), '.');
            assert source[..|BanxicoPrefix|] == BanxicoPrefix;
            Some(Data(p.table, p.csv, source))
  }

  /** The `get_shcp_data` branch: an empty body is falsy and gives `null`. */
  function ShcpTool(args: map<string, string>, env: ToolEnv): (r: Option<ToolResult>)
    ensures r.Some? ==>
              r.value.Data? && |r.value.table| >= 1 && r.value.source == ShcpSource
              && r.value.csv == Render(r.value.table)
  {
    match Arg(args, "dataset_id")
    case None => None
    case Some(id) =>
      var text := Shcp.FetchShcpData(id, env.shcpHttp);
      if !Truthy(text) then None
      else
        Shcp.TableNeverEmpty(text.value, Shcp.NoFilters);
        var p := Shcp.ParseShcpData(text.value, Shcp.NoFilters);
        Some(Data(p.table, p.csv, ShcpSource))
  }

  /** `executeToolCall(toolName, args, userId)`. `None` is `null`: an unknown
      tool, a missing token, a failed fetch or parse, an empty SHCP body, or a
      thrown error. */
  function ExecuteToolCall(toolName: string, args: map<string, string>, env: ToolEnv): (r: Option<ToolResult>)
    ensures r.Some? && r.value.Data? ==> |r.value.table| >= 1
  {
    if toolName == "search_indicator" then SearchTool(args, env)
    else if toolName == "get_inegi_data" then InegiTool(args, env)
    else if toolName == "get_banxico_data" then BanxicoTool(args, env)
    else if toolName == "get_shcp_data" then ShcpTool(args, env)
    else None
  }

  predicate IsDataTool(toolName: string) {
    toolName == "get_inegi_data" || toolName == "get_banxico_data" || toolName == "get_shcp_data"
  }

  /** Which tool produces which kind of result: search results come only from
      `search_indicator` and hold at most ten rows; "not found" only from
      `get_inegi_data`, naming the indicator asked for; tables only from the
      three data tools, labelled by their source, with the CSV rendering of
      the table; any other tool gives `null`. */
  lemma ToolResultKinds(toolName: string, args: map<string, string>, env: ToolEnv)
    ensures var r := ExecuteToolCall(toolName, args, env);
            && (r.Some? && r.value.SearchResults? <==> toolName == "search_indicator" && "query" in args)
            && (r.Some? && r.value.SearchResults? ==> |r.value.results| <= SearchLimit)
            && (r.Some? && r.value.NotFound? ==>
                  toolName == "get_inegi_data" && "indicator_id" in args && r.value.indicatorId == args["indicator_id"])
            && (r.Some? && r.value.Data? ==> IsDataTool(toolName) && r.value.csv == Render(r.value.table))
            && (r.Some? && r.value.Data? && toolName == "get_inegi_data" ==> StartsWith(r.value.source, InegiPrefix))
            && (r.Some? && r.value.Data? && toolName == "get_banxico_data" ==> StartsWith(r.value.source, BanxicoPrefix))
            && (r.Some? && r.value.Data? && toolName == "get_shcp_data" ==> r.value.source == ShcpSource)
            && (toolName != "search_indicator" && !IsDataTool(toolName) ==> r.None?)
  {
  }

  /** Without a token for the source the data tools return `null` before any
      request is made. */
  lemma NoTokenNoData(toolName: string, args: map<string, string>, env: ToolEnv)
    requires || (toolName == "get_inegi_data" && !Truthy(env.apiKey("inegi")))
             || (toolName == "get_banxico_data" && !Truthy(env.apiKey("banxico")))
    ensures ExecuteToolCall(toolName, args, env).None?
  {
  }

  /** The INEGI table the tool returns is the parsed payload, unchanged, with
      the header `Periodo, Valor, Unidad, UltimaActualizacion`. */
  lemma InegiToolTable(args: map<string, string>, env: ToolEnv)
    requires ExecuteToolCall("get_inegi_data", args, env).Some?
    requires ExecuteToolCall("get_inegi_data", args, env).value.Data?
    ensures var t := ExecuteToolCall("get_inegi_data", args, env).value.table;
            var id := args["indicator_id"];
            var f := Inegi.FetchInegiIndicator(id, env.apiKey("inegi").value, Inegi.DefaultArea, false,
                                               env.inegiHttp, env.inegiJson);
            && f.Fetched?
            && Inegi.InegiTable(f.data).Some?
            && t == Inegi.InegiTable(f.data).value.table
            && t[0] == Inegi.Header
  {
  }
}
