# EconoNexo core, modelled in Dafny

EconoNexo is a chat assistant for Mexican economic data. The user asks a
question; the chat route sends it to an LLM provider (Groq, OpenAI or Google
Gemini) with four tools. The tools are:

- a catalogue search;
- INEGI indicators;
- Banxico SIE series;
- SHCP open-data files.

The route runs the tool the model picks, turns the source's payload into a
table and a quoted CSV text, and answers with the model's explanation and
the table. Around that loop the project also models:

- the per-user store of provider keys (`/api/keys`), base64-encoded;
- the catalogue search endpoint (`/api/search-indicators`) with its
  in-process cache;
- the two built-in catalogues and their text search;
- the script that builds the catalogue files from the Banxico CSV and the
  INEGI sheet.

The modules follow the program's files:

| module | models |
|---|---|
| `ChatAgent` | the `POST` loop of `src/app/api/chat/route.ts`: provider choice with quota fall-through, one round per tool call, at most five rounds |
| `ChatRoute` | the same file's expression-level parts: `isQuotaError`, the Gemini request body, `searchCatalog`, `executeToolCall` |
| `Inegi`, `Banxico`, `Shcp` | the three source adapters in `src/lib/sources/` |
| `InegiIndicadores`, `BanxicoSeries` | the catalogues in `src/data/` |
| `SearchIndicators` | `src/app/api/search-indicators/route.ts` |
| `ParseCatalogs` | `scripts/parse-catalogs.js` |
| `ApiKeys` | `src/app/api/keys/route.ts` |
| `Csv`, `Text`, `Seqs`, `Utf8`, `Base64`, `Wrappers`, `Http` | what the code takes from JavaScript and Node: see below |

The shared modules cover:

- `Csv`: the CSV rendering the three adapters share;
- `Text`: `trim`, `toLowerCase`, `includes`, `split`/`join`;
- `Seqs`: `filter`, `slice`, `findIndex`;
- `Utf8` and `Base64`: `Buffer`'s UTF-8 and base64 conversions;
- `Wrappers`: JavaScript truthiness of optional values;
- `Http`: the outcome of a `fetch`.

How the code is modelled:

- **Imperative code is modelled imperatively.**
  - The chat loop is `ChatAgent.Post`, a `while` loop. Its body is
    `ChatAgent.Round`, and the provider scan inside it is
    `ChatAgent.ChooseProvider`, a `for` loop.
  - The parsers' loops are `Inegi.BuildTable` (called by
    `Inegi.ParseInegiData`), `Banxico.BuildTable`, `ParseCatalogs.CollectBanxicoLines` and
    `ParseCatalogs.ParseInegiRows`.
  - The key table and the catalogue cache are classes whose methods change
    their fields (`ApiKeys.KeyTable`, `SearchIndicators.CatalogCache`).
  - Each method is proved equal to a function of its inputs. The
    properties are proved about those functions.
- **Collaborators are parameters.** These are the LLM calls, `JSON.parse`,
  the network, the database queries and the key lookup:
  - `ChatAgent.Llm` holds the LLM calls and `JSON.parse`;
  - `ChatRoute.ToolEnv` holds the network, the database queries and the key
    lookup.

## Model

| member | source | states |
|---|---|---|
| `ChatAgent.Post` | src/app/api/chat/route.ts:617-813 | the handler's reply and its number of rounds are those of `Chat`, the reference definition of the loop |
| `ChatAgent.Round` | src/app/api/chat/route.ts:665-808 | one pass of the loop body ends the request or asks for another round exactly as `StepOf` says |
| `ChatAgent.ChooseProvider` | src/app/api/chat/route.ts:667-684 | the scan returns the first provider whose response is not a quota error, together with that response; -1 when every provider failed on quota |
| `ChatAgent.Answer` | src/app/api/chat/route.ts:717-808 | once the tool has run, the round's end is `HandleResult`'s |
| `ChatAgent.FollowUp` | src/app/api/chat/route.ts:743-808 | after search results or a table the round's end is `AfterTool`'s |
| `ChatAgent.ChatSpec` | src/app/api/chat/route.ts:617-654 | the reply is 401 exactly without a session; without LLM keys it is the no-key message and no round runs; otherwise 1 to 5 rounds run, the conversation starts with the system prompt and the user's message, and every later entry is a content-less assistant entry, at most one per round |
| `ChatAgent.RunFromSpec` | src/app/api/chat/route.ts:657-813 | from any round the loop ends within five rounds, always with a reply; each continuing round adds exactly one assistant entry and keeps the earlier ones; the iteration-limit message comes only after five continuing rounds |
| `ChatAgent.ContinueSpec` | src/app/api/chat/route.ts:686-776 | a round leads to another if and only if the accepted response has no error and asks for a tool, its first call decodes and is `search_indicator`, and the continuation that sees the results has no error and asks for a tool again |
| `ChatAgent.ContinueShape` | src/app/api/chat/route.ts:743-746 | the entry a continuing round pushes has role `assistant` and no content |
| `ChatAgent.RoundsPushAssistants` | src/app/api/chat/route.ts:743-746 | every round of a request pushes only content-less assistant entries |
| `ChatAgent.DataPassthrough` | src/app/api/chat/route.ts:784-808 | a reply with data carries, unchanged, the table, CSV and source that the first tool call of the accepted response produced, and that call named one of the three data tools |
| `ChatAgent.DataRound` | src/app/api/chat/route.ts:784-808 | for a table the LLM sees only the row count without the header, the header and the source; the reply text is the LLM's, or the introduction naming the source when the LLM's text is empty |
| `ChatAgent.TerminalRounds` | src/app/api/chat/route.ts:686-711 | an error in the accepted response is reported with its text; a response without tool calls gives its content or the fallback; undecodable arguments give the argument-error message |
| `ChatAgent.NoResultRounds` | src/app/api/chat/route.ts:717-741 | a not-found result names the indicator asked for; a `null` result gives the null-result message |
| `ChatAgent.MissingKeyRound` | src/app/api/chat/route.ts:723-741 | asking for INEGI or Banxico data without a key for that source ends the request with the message naming that source's key |
| `ChatAgent.NullResultMessageSpec` | src/app/api/chat/route.ts:723-741 | the missing-key message appears exactly when the INEGI or Banxico tool was asked for without its key; every other `null` gives the generic message |
| `ChatAgent.FallbackSpec` | src/app/api/chat/route.ts:667-691 | the chosen provider's response is accepted, and every provider before it (every provider, when none is chosen) answered with a quota error |
| `ChatAgent.AvailableProvidersSpec` | src/app/api/chat/route.ts:631-647 | the providers tried are exactly those of groq, openai, google the user has a key for, in that order |
| `ChatAgent.AvailableProviderKeys` | src/app/api/chat/route.ts:631-647 | each provider carries the user's key for it; the list is empty exactly when the user has no key for any of the three |
| `ChatAgent.KeyedThree` | src/app/api/chat/route.ts:631-647 | building the list provider by provider keeps exactly the keyed names, in order |
| `ChatAgent.FirstToolResult` | src/app/api/chat/route.ts:700-715 | a table that a tool returns has its header row |
| `ChatAgent.AfterTool` | src/app/api/chat/route.ts:743-808 | only search results lead to another round, which pushes the assistant entry; a table always ends the round and is returned as the reply's data; search results never produce data |
| `ChatAgent.HandleResult` | src/app/api/chat/route.ts:717-808 | another round only follows search results; a reply with data carries the tool's table, CSV and source |
| `ChatAgent.Respond` | src/app/api/chat/route.ts:686-808 | a continuing round pushes the assistant entry for the response's calls; a reply with data carries exactly what the first tool call returned |
| `ChatRoute.QuotaErrorIff` | src/app/api/chat/route.ts:166-169 | an error is a quota error exactly when its lower-cased text contains one of the five keywords |
| `ChatRoute.StatusTooManyRequests` | src/app/api/chat/route.ts:166-169 | an error mentioning 429 is always a quota error |
| `ChatRoute.GeminiContentsSpec` | src/app/api/chat/route.ts:233-239 | Gemini receives the non-system messages in their order, `assistant` as `model` and every other role as `user`, with the content or the empty text |
| `ChatRoute.NoSystemMessages` | src/app/api/chat/route.ts:233-243 | a conversation without system messages is sent whole, with an empty instruction |
| `ChatRoute.SystemInstructionIsFirst` | src/app/api/chat/route.ts:240-242 | the system instruction is the content of the first system message |
| `ChatRoute.SearchCatalog` | src/app/api/chat/route.ts:10-46 | at most ten rows, a prefix of the ranked rows, all of them when there are at most ten; no rows for a source other than `inegi` or `banxico` |
| `ChatRoute.NameOfSpec` | src/app/api/chat/route.ts:326-330 | the label is the raw id without a description or when its first piece is blank; otherwise it is a non-empty, trimmed piece of the description without the separator |
| `ChatRoute.InegiTool` | src/app/api/chat/route.ts:313-343 | the INEGI tool returns a table labelled `INEGI - ` with its CSV rendering, or not-found for the indicator asked for, or `null` |
| `ChatRoute.BanxicoTool` | src/app/api/chat/route.ts:345-366 | the Banxico tool returns a table labelled `Banxico - ` with its CSV rendering, or `null` |
| `ChatRoute.ShcpTool` | src/app/api/chat/route.ts:368-379 | the SHCP tool returns a table labelled `SHCP` with its CSV rendering, or `null` |
| `ChatRoute.ExecuteToolCall` | src/app/api/chat/route.ts:299-387 | a table returned by any tool has a header row |
| `ChatRoute.ToolResultKinds` | src/app/api/chat/route.ts:299-387 | search results come only from `search_indicator` (at most ten); not-found only from `get_inegi_data`, naming the indicator asked for; tables only from the three data tools, with their source labels and their CSV; any other tool gives `null` |
| `ChatRoute.NoTokenNoData` | src/app/api/chat/route.ts:313-350 | without a token for its source a data tool returns `null` |
| `ChatRoute.InegiToolTable` | src/app/api/chat/route.ts:320-331 | the INEGI tool's table is the parsed payload unchanged, headed `Periodo, Valor, Unidad, UltimaActualizacion` |
| `Inegi.InegiUrlInjective` | src/lib/sources/inegi.ts:30-31 | the request URL determines the indicator, the area, the recent flag and the token, when the first two hold no `/` |
| `Inegi.ClassifyFetch` | src/lib/sources/inegi.ts:35-54 | not-found exactly for an error response whose body holds `ErrorCode:100`; the payload exactly for an OK response whose body parses |
| `Inegi.OnlyErrorCode100IsNotFound` | src/lib/sources/inegi.ts:37-54 | a network failure, any other error response and an unparsable body all give `null` |
| `Inegi.InegiTable` | src/lib/sources/inegi.ts:57-83 | `null` exactly without a first series holding observations; otherwise the header, then one four-cell row per observation of the first series in order, and the CSV rendering of that table |
| `Inegi.ParseInegiData` | src/lib/sources/inegi.ts:57-83 | the loop builds the table `InegiTable` defines |
| `Inegi.BuildTable` | src/lib/sources/inegi.ts:73-78 | the pushes give the header, then row `j + 1` built from observation `j`, one row per observation |
| `Inegi.InegiCsvLines` | src/lib/sources/inegi.ts:80-82 | the CSV text has one line per table row, the header first |
| `Banxico.BanxicoUrl` | src/lib/sources/banxico.ts:25-33 | every URL is under the series' `/datos` path |
| `Banxico.LatestIgnoresDates` | src/lib/sources/banxico.ts:28-29 | with `latest` set the dates make no difference |
| `Banxico.OneDateIsIgnored` | src/lib/sources/banxico.ts:30-33 | with a date missing or empty the whole series is asked for |
| `Banxico.RangeUrl` | src/lib/sources/banxico.ts:30-31 | with both dates the URL ends in `/start/end` |
| `Banxico.ClassifyFetch` | src/lib/sources/banxico.ts:37-56 | the payload exactly for an OK response whose body parses; `null` otherwise |
| `Banxico.BanxicoTable` | src/lib/sources/banxico.ts:59-87 | `null` exactly without a first series holding data; otherwise the header, then one four-cell row per observation in order, and the CSV rendering of that table |
| `Banxico.ParseBanxicoData` | src/lib/sources/banxico.ts:59-87 | the loop builds the table `BanxicoTable` defines |
| `Banxico.BuildTable` | src/lib/sources/banxico.ts:77-82 | the pushes give the header, then row `j + 1` built from observation `j`, one row per observation |
| `Banxico.RowsNameTheirSeries` | src/lib/sources/banxico.ts:80-82 | every data row ends with the series id and title |
| `Shcp.FromId` | src/lib/sources/shcp.ts:1-12 | a string names a dataset exactly when it is that dataset's key |
| `Shcp.DatasetTablesAgree` | src/lib/sources/shcp.ts:1-30 | the URL table, the name table and the dataset list describe the same five datasets, each listed once |
| `Shcp.SearchShcpDatasetSpec` | src/lib/sources/shcp.ts:32-39 | the search returns, in list order, exactly the datasets whose lower-cased name or description, or whose id, contains the lower-cased query |
| `Shcp.DeudaWithoutAmplia` | src/lib/sources/shcp.ts:103-108 | any query with `deuda` and without `amplia` is public debt |
| `Shcp.DeudaAmpliaPhrase` | src/lib/sources/shcp.ts:103-123 | `deuda amplia` reaches the historical-balance dataset unless a keyword of rules 2 to 4 comes first |
| `Shcp.SaldoHistorico` | src/lib/sources/shcp.ts:119-123 | `saldo histórico` without the earlier keywords is the historical-balance dataset |
| `Shcp.FetchShcpData` | src/lib/sources/shcp.ts:41-57 | a body exactly for a known dataset whose URL answers OK, and then that body |
| `Shcp.StripQuotesSpec` | src/lib/sources/shcp.ts:73-75 | the cell is unchanged exactly when it neither starts nor ends with a double quote; otherwise what is left is the slice after dropping the one leading and/or the one trailing quote, and a cell quoted at both ends loses both |
| `Shcp.ParseShcpData` | src/lib/sources/shcp.ts:59-101 | the CSV text is the rendering of the returned table |
| `Shcp.OutputIsSubseqOfInput` | src/lib/sources/shcp.ts:59-101 | every output row is an input row, in input order |
| `Shcp.TableNeverEmpty` | src/lib/sources/shcp.ts:67-71 | with no limit or a limit that is not negative the table has at least its header row (a limit of -1 slices to `slice(0, 0)`, the empty table); the `lines.length === 0` branch is dead for every limit, since the split lines are never empty (`Shcp.ParseLines`) |
| `Shcp.Unfiltered` | src/lib/sources/shcp.ts:79-96 | without a usable filter the table is the first `limit + 1` lines |
| `Shcp.DefaultLimit` | src/lib/sources/shcp.ts:95-96 | with no options the table is the header and at most 100 data rows |
| `Shcp.FilteredTable` | src/lib/sources/shcp.ts:79-96 | with a column found in the header, the table is the header followed by the matching rows, cut at the limit |
| `Shcp.FilteredByColumn` | src/lib/sources/shcp.ts:79-96 | the header stays first; every other row's cell in that column contains the value, ignoring case; order is kept; when the limit leaves room every matching row is present |
| `Shcp.RoundTrip` | src/lib/sources/shcp.ts:59-101 | parsing the CSV rendering of a table gives the table back, when no cell holds a comma or newline and the table fits the limit |
| `Shcp.ParseRenderedRow` | src/lib/sources/shcp.ts:73-75 | a rendered row without commas in its cells parses back to itself |
| `Shcp.ParseRenderedLines` | src/lib/sources/shcp.ts:67 | a rendered table splits back into its rows |
| `Shcp.StripQuotesOfQuote` | src/lib/sources/shcp.ts:73-75 | removing the quotes of a quoted cell gives the cell |
| `Csv.RenderLines` | src/lib/sources/inegi.ts:80-82 | the CSV text splits at newlines into the rendered rows, one per table row |
| `Csv.RenderRowFields` | src/lib/sources/shcp.ts:98 | a rendered row splits at commas into its quoted cells |
| `Csv.RenderRowEdges` | src/lib/sources/shcp.ts:98 | a rendered row starts and ends with a double quote |
| `Csv.RenderTrimmed` | src/lib/sources/shcp.ts:98 | trimming a rendered table changes nothing |
| `InegiIndicadores.SearchSpec` | src/data/inegi-indicadores.ts:144-153 | the result is, in catalogue order, exactly the entries whose name or topic contains the query ignoring case, or whose id contains it as typed |
| `InegiIndicadores.EmptyQuery` | src/data/inegi-indicadores.ts:144-153 | the empty query returns the whole catalogue |
| `InegiIndicadores.FindsById` | src/data/inegi-indicadores.ts:144-153 | searching for an entry's id finds that entry |
| `InegiIndicadores.CatalogIds` | src/data/inegi-indicadores.ts:1-142 | the catalogue has 20 entries with distinct ids |
| `BanxicoSeries.SearchSpec` | src/data/banxico-series.ts:116-125 | the result is, in catalogue order, exactly the series whose lower-cased name, description or id contains the lower-cased query |
| `BanxicoSeries.CaseInsensitive` | src/data/banxico-series.ts:116-125 | queries that differ only in case give the same result |
| `BanxicoSeries.FindsByIdAnyCase` | src/data/banxico-series.ts:116-125 | an id spelled in any case finds its series |
| `BanxicoSeries.EmptyQuery` | src/data/banxico-series.ts:116-125 | the empty query returns the whole catalogue |
| `BanxicoSeries.CatalogIds` | src/data/banxico-series.ts:1-114 | the catalogue has 16 series with distinct ids |
| `SearchIndicators.InegiResultsSpec` | src/app/api/search-indicators/route.ts:49-54 | the results are the first matching entries in catalogue order, at most ten, all matches when there are no more, each with its id and description |
| `SearchIndicators.BanxicoResultsSpec` | src/app/api/search-indicators/route.ts:55-60 | the same for Banxico, with the title given as the description |
| `SearchIndicators.ResponseCases` | src/app/api/search-indicators/route.ts:36-68 | an empty query or an unknown source gives no results; a failed load gives no results and the error message; at most ten results otherwise |
| `SearchIndicators.DefaultSourceIsInegi` | src/app/api/search-indicators/route.ts:39 | a missing or empty source gives the same response as `inegi` |
| `SearchIndicators.QueryOf` | src/app/api/search-indicators/route.ts:38 | a missing query is empty; otherwise the lower-cased query, of the same length |
| `SearchIndicators.CatalogCache.LoadInegi` | src/app/api/search-indicators/route.ts:18-25 | the file is used only while the cache is empty; a successful load fills the cache, and a filled cache never changes |
| `SearchIndicators.CatalogCache.LoadBanxico` | src/app/api/search-indicators/route.ts:27-34 | the same for the Banxico catalogue |
| `SearchIndicators.CatalogCache.Get` | src/app/api/search-indicators/route.ts:36-68 | the response is `Response` of what the loaders give; only the chosen catalogue's cache may change, and only for a non-empty query; after a non-empty query the chosen cache holds what its loader returned |
| `SearchIndicators.TwoInegiRequests` | src/app/api/search-indicators/route.ts:15-34 | once one INEGI request has loaded the file, a later request answers from that catalogue whatever the file then holds |
| `ParseCatalogs.CollectKeysDistinct` | scripts/parse-catalogs.js:28-31 | the `seen` check keeps at most one entry per id |
| `ParseCatalogs.CollectSound` | scripts/parse-catalogs.js:17-32 | every kept entry is what some input line yields |
| `ParseCatalogs.CollectKeepsFirst` | scripts/parse-catalogs.js:28-31 | the first entry for each new id is kept |
| `ParseCatalogs.CollectInOrder` | scripts/parse-catalogs.js:28-31 | the kept entries are a subsequence of all the yielded entries, so input order is kept |
| `ParseCatalogs.Clean` | scripts/parse-catalogs.js:22-26 | the cleaned field holds no double quote |
| `ParseCatalogs.BanxicoEntry` | scripts/parse-catalogs.js:19-27 | an entry has a non-empty id without commas or quotes and a non-empty title without quotes; a line without a comma yields nothing |
| `ParseCatalogs.ParseBanxicoCsv` | scripts/parse-catalogs.js:7-36 | the script's result for the file is `BanxicoCatalog` |
| `ParseCatalogs.CollectBanxicoLines` | scripts/parse-catalogs.js:17-32 | the loop over the lines after the first collects what `Collect` defines |
| `ParseCatalogs.ParseBanxicoLine` | scripts/parse-catalogs.js:18-27 | one line yields `BanxicoEntry` of it |
| `ParseCatalogs.BanxicoIdsUnique` | scripts/parse-catalogs.js:28-31 | no two Banxico entries share an id |
| `ParseCatalogs.BanxicoEntriesFromLines` | scripts/parse-catalogs.js:12-17 | every entry comes from a non-blank line after the first |
| `ParseCatalogs.BanxicoEntriesClean` | scripts/parse-catalogs.js:22-27 | every entry has a non-empty id and title, neither with a double quote |
| `ParseCatalogs.BanxicoInOrder` | scripts/parse-catalogs.js:17-32 | the series come in the order of their lines |
| `ParseCatalogs.BanxicoFirstWins` | scripts/parse-catalogs.js:28-31 | the first line yielding an id gives the kept entry |
| `ParseCatalogs.BanxicoLineRoundTrip` | scripts/parse-catalogs.js:19-27 | a line `...,nombre,clave` with clean fields yields exactly that entry |
| `ParseCatalogs.InegiDescriptions` | scripts/parse-catalogs.js:66-71 | every indicator of the catalogue comes from a data row: its id is the row's trimmed id cell, and its description the trimmed route cell, or `Indicador <id>` when that cell is empty |
| `ParseCatalogs.ParseInegiRows` | scripts/parse-catalogs.js:38-77 | the loop over the sheet's data rows collects `InegiCatalog` |
| `ParseCatalogs.InegiIdsUnique` | scripts/parse-catalogs.js:69-72 | no two INEGI entries share an id |
| `ParseCatalogs.InegiEntriesFromRows` | scripts/parse-catalogs.js:64-73 | every entry comes from a data row, not the header |
| `ParseCatalogs.InegiEntriesClean` | scripts/parse-catalogs.js:66-71 | every entry has a non-empty id and description |
| `ParseCatalogs.InegiInOrder` | scripts/parse-catalogs.js:64-73 | the indicators come in the order of their rows |
| `ParseCatalogs.InegiFirstWins` | scripts/parse-catalogs.js:69-72 | the first row yielding an id gives the kept entry |
| `ParseCatalogs.NoIdColumnNoEntries` | scripts/parse-catalogs.js:55-66 | a header without an id column yields no entries |
| `ApiKeys.DecryptEncrypt` | src/app/api/keys/route.ts:7-13 | decrypting an encrypted key gives the key back |
| `ApiKeys.EncryptShape` | src/app/api/keys/route.ts:7-9 | the stored form is padded base64, empty only for the empty key |
| `ApiKeys.Upsert` | src/app/api/keys/route.ts:48-61 | the pair gets the new key; an existing row keeps its id and creation time, a new row gets the assigned ones; no other row changes |
| `ApiKeys.SummariesSpec` | src/app/api/keys/route.ts:21-26 | the listing is exactly the user's rows, each with its id, provider and creation time, and without the key |
| `ApiKeys.PostChecks` | src/app/api/keys/route.ts:29-44 | 401 exactly without a session; then 400 for a missing provider or key; then 400 for a provider outside the five; every rejection leaves the table unchanged |
| `ApiKeys.PostStoresKey` | src/app/api/keys/route.ts:46-63 | a saved key is stored encrypted under the pair and decrypts back; the reply is the row's id; no other row changes |
| `ApiKeys.DeleteOne` | src/app/api/keys/route.ts:66-79 | only the user's row for that provider is removed; nothing changes without a session |
| `ApiKeys.DeleteAll` | src/app/api/keys/route.ts:72-76 | without a provider every row of the user goes, and only those |
| `ApiKeys.GetApiKey` | src/app/api/chat/route.ts:159-164 | a key exactly when the pair has a row |
| `ApiKeys.SavedKeyIsUsed` | src/app/api/chat/route.ts:159-164 | the chat route reads back what `POST` saved, and reads nothing after `DELETE` of the pair |
| `ApiKeys.KeyTable.Get` | src/app/api/keys/route.ts:15-27 | the reply is `GetReply` of the table |
| `ApiKeys.KeyTable.Post` | src/app/api/keys/route.ts:29-64 | the reply and the new table are `PostResult` of the old table |
| `ApiKeys.KeyTable.Delete` | src/app/api/keys/route.ts:66-79 | the reply and the new table are `DeleteResult` of the old table |
| `Utf8.DecodeEncode` | src/app/api/keys/route.ts:8-12 | every string survives the round trip through its UTF-8 bytes |
| `Utf8.Encode` | src/app/api/keys/route.ts:8 | each character takes one to four bytes |
| `Utf8.EncodeAscii` | src/app/api/keys/route.ts:8 | ASCII text takes one byte per character, each its code point |
| `Base64.DecodeEncode` | src/app/api/keys/route.ts:8-12 | base64 decoding undoes encoding |
| `Base64.EncodeShape` | src/app/api/keys/route.ts:8 | the encoding is padded: a multiple of four characters of the alphabet, with `=` only at the end |

## Left out

- The LLM calls (`callLLMWithTools`, `callLLMWithToolResult`,
  `callLLMWithToolResultAndContinue`) and their HTTP requests are
  parameters (`ChatAgent.Llm`). Only the Gemini request body is modelled
  (`ChatRoute.GeminiContents`).
- `JSON.parse` of the tool arguments and `response.json()` are partial
  decoders given as parameters. A throw is `None`.
- The Postgres full-text and `ILIKE` ranking in `searchCatalog` is a
  parameter (`rank`). The accent stripping by `normalize('NFD')` is part of
  that query and is not modelled.
- Sessions are an optional user id. The Prisma tables are a map
  (`ApiKeys.Store`). The indicator and series lookups for labels are
  parameters.
- Reading the catalogue files (`fs`) and the XLSX sheet: their parsed
  contents are inputs. Sheet cells are modelled as text. A numeric cell
  such as `0`, which `row[idx] || ''` reads as empty, is not modelled.
- Logging, and the `Date.now` ids of the Gemini tool calls.
- Concurrency: two requests sharing the catalogue cache or the key table.
- The system prompt and the tool declarations are a parameter and are not
  modelled as text.
- The outer `catch` of the chat route: a thrown `request.json()` or
  database error gives the message `Error al procesar la solicitud...`.
  The errors a malformed request body or a failing database raise in the
  key routes are also not modelled.
- The variables `lastToolCallId` and `lastToolName` of the chat route: they
  are written and never read.
- The `Error inesperado` branch of the chat route: a tool result is always
  search results, a table, not-found or `null` (`ChatRoute.ToolResultKinds`).
  The branch is unreachable and is not modelled.
- The tool-result message is added by the continuation call to a local copy
  of the conversation. The tool calls of a continuing response are not run
  in the round that received them. The next round asks the providers again
  with the conversation holding only the pushed assistant entries. This is
  modelled as written.
- `ChatRoute.InegiTool`: an `indicator_id` missing from the model's
  arguments is modelled as `null`. The source would build the URL with the
  text `undefined`. It could report not-found for `undefined`, or fail in
  the label lookup.
- `ChatRoute.BanxicoTool`: a `series_id` missing from the arguments is
  likewise `null`. The source would request the series `undefined`.
- A missing `dataset_id` or `query` is also `null` in `ChatRoute.ShcpTool`
  and `ChatRoute.SearchTool`. This agrees with the source: `fetch` of an
  undefined URL throws inside `fetchSHCPData`'s `try`, and lower-casing an
  undefined query throws into the `catch` of `executeToolCall`.
- `Text.Lower`: `toLowerCase` is modelled for ASCII and Latin-1 letters
  only.
- `Base64.Decode`: the lenient reading of text the encoder never writes is
  modelled but nothing is proved about it. That covers the URL-safe `-` and
  `_`, missing padding and skipped characters. Only the round trip of the
  encoder's own output is proved (`Base64.DecodeEncode`).
- `ApiKeys.DecryptEncrypt`: the round trip is proved for Dafny strings, whose
  characters are Unicode scalar values. A JavaScript string can hold a lone
  surrogate. `Buffer.from` encodes one as EF BF BD, so it comes back as
  U+FFFD. Such keys are not modelled.
- `ApiKeys.GetReply`: the listing of `GET` is a set. The order the database
  returns is not modelled.
- Only the Banxico and SHCP requests' outcomes are modelled. The headers
  they send are not modelled, except the token.
- Concrete catalogue queries, such as the series of `tipo de cambio` or the
  indicator `444456`, have no lemma. Evaluating the literal search over the
  whole catalogue is beyond what the verifier does within its resource
  bound. `SearchSpec` covers every query.
- `DELETE /api/keys` without a provider removes every key of the user
  (`ApiKeys.DeleteAll`). This is what the code does, since Prisma ignores
  an undefined condition, and it is modelled as written.
