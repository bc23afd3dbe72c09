# DataFormatX conversion core in Dafny

DataFormatX is a browser application that converts text between formats
(JSON, CSV, XML, YAML, SQL, Markdown, HTML, plain text, LaTeX, Python,
JavaScript, TypeScript) by asking a large language model to do it. This
project models the logic around that model call and proves properties of it:

- **the format registry** (`constants.ts`, `types.ts`): the format enumeration,
  the twelve registry entries with their groups, extensions and MIME types, the
  input size limit and the sample inputs;
- **the shared prompt and clean-up**: the system instruction, the prompt
  template, and the code-fence sanitiser both services apply to the model's
  answer, written twice — once as a function on lines (`Sanitizer.Sanitized`)
  and once as the step-by-step `shift`/`pop`/`join` the services run
  (`Sanitizer.Sanitize`);
- **the configurable service** (`services/llmService.ts`): the blank-input and
  missing-key checks, the provider dispatch, base-address normalisation for
  chat-completions endpoints, the mapping of HTTP answers to results and
  errors, and the catch block;
- **the fixed service** (`services/geminiService.ts`) the application actually
  imports: fixed model, fixed key, one catch-all failure message;
- **the application component** (`App.tsx`): a class holding the six pieces of
  state, with the initial state, the effect that runs when the source format
  changes, the swap handler and the convert handler.

The SDK call and `fetch` are not executed: a service function takes the
reply as a value (`Backend.Reply`), and a service method takes the two calls
as function parameters. The method is proved to return what the function
gives on the reply to the call the configuration selects
(`LlmService.SelectedCall`). A thrown JavaScript error is a
`Failure(message)`.

Modules: `Wrappers` (Option, Result), `JsString` (the string built-ins
`trim`, `startsWith`, `endsWith`, `includes`, `indexOf`, `split`, `join` and
number formatting), `Types`, `Constants`, `Prompt`, `Backend`, `Sanitizer`,
`LlmService`, `GeminiService`, `App` and `ServiceAgreement` (how the two
services relate).

Behaviour of the code worth noting:

- The 100,000-character limit and the `ERROR:` refusal check are in
  `App.tsx`, not in the services.
- Base-address normalisation is not idempotent in general
  (`LlmService.NormalizeNotIdempotent`). It is idempotent for local-server
  results and for non-empty results without a trailing slash or whitespace.
- A base address of `/` normalises to the empty address, so the request
  goes to the relative URL `/chat/completions`
  (`LlmService.SlashOnlyRequestIsRelative`); normalising the empty address
  again gives the public endpoint (`LlmService.SlashOnlyBaseUrl`).
- The fence test looks at the untrimmed answer (`Sanitizer.IndentedFenceKept`).
- A fenced answer with no line break makes the sanitiser throw rather than
  return (`Sanitizer.OneLineFenceThrows`).

## Model

| member | source | states |
|---|---|---|
| Types.FormatType.Value | types.ts:1-11 | a definition: each format's string value, the declared enum string for the nine members `types.ts` declares |
| Types.FormatType.RuntimeValue | types.ts:1-11 | a member has a run-time string value exactly when the enum declares it, and that value is its declared string; the four registry formats the enum lacks evaluate to undefined |
| Types.ParseFormatType | types.ts:1-11 | a string that parses names the member whose value it is |
| Types.ParseValue | types.ts:1-11 | every member's value parses back to that member |
| Types.ValuesDistinct | types.ts:1-11 | two different members never share a string value |
| Constants.Entry | constants.ts:5-20 | the registry entry declared for a format carries that format as its value |
| Constants.RegistryLayout | constants.ts:3-21 | the registry has twelve entries, JSON first, CSV second, and the Markdown entry is `md` / `text/markdown` in the Document group |
| Constants.RegistryValuesDistinct | constants.ts:5-20 | no two registry entries share a format value |
| Constants.RegistryExtensionsDistinct | constants.ts:5-20 | no two registry entries share a file extension |
| Constants.SupportedFormats | constants.ts:3-21 | a definition: the twelve registry entries in source order |
| Constants.MaxInputChars | constants.ts:23 | a definition: the 100,000-character input limit |
| Constants.SampleData | constants.ts:25-40 | a definition: the JSON, Markdown and CSV samples |
| Constants.FindIn | components/FormatSelector.tsx:23 | `find` by value returns an entry of the list that has that value, and finds nothing exactly when no entry has it |
| Constants.FindEntry | components/FormatSelector.tsx:23 | looking up any registry entry's value yields exactly that entry |
| Constants.DocxTextNotListed | constants.ts:3-21 | the `DOCX_TEXT` format has no registry entry |
| Constants.FilterIn | components/FormatSelector.tsx:30 | filtering never lengthens the list |
| Constants.FilterInMembers | components/FormatSelector.tsx:30-40 | `filter` returns only entries of the list in the group, and every entry of the list in the group |
| Constants.FilterAppend | components/FormatSelector.tsx:30-40 | filtering a concatenation filters each part and concatenates the results |
| Constants.FilterRegistry | constants.ts:4-20 | filtering the registry by a group filters its data, document and code blocks in order |
| Constants.FilterGroup | constants.ts:4-20 | each group filter yields exactly that group's block of the registry, in order |
| Constants.CategoriesPartition | constants.ts:4-20 | the Data (5), Document (4) and Code (3) filters together give back the whole registry in order |
| Constants.RuntimeFindIn | components/FormatSelector.tsx:23 | a lookup with values as they evaluate at run time returns an entry of the list whose run-time value is the string sought, and finds nothing exactly when no entry's run-time value is that string |
| Constants.UndeclaredValuesCollide | constants.ts:9-20 | as written, the SQL and Python entries both carry an undefined value, and looking up `Python` finds nothing |
| Constants.SampleDataShape | constants.ts:25-40 | samples exist for exactly JSON, Markdown and CSV; each is non-empty and no two are equal |
| JsString.TrimStart | services/llmService.ts:53 | `trimStart` removes a prefix made only of whitespace and leaves a string that is empty or starts with a non-whitespace character |
| JsString.TrimEnd | services/llmService.ts:53 | `trimEnd` removes a suffix made only of whitespace and leaves a string that is empty or ends with a non-whitespace character |
| JsString.Trim | services/llmService.ts:111 | `trim()` leaves no whitespace at either end, and gives the empty string exactly for blank input |
| JsString.TrimOfTrimmed | services/llmService.ts:111 | trimming a string with no whitespace at either end leaves it unchanged |
| JsString.StartsWith | services/llmService.ts:102 | a definition: `startsWith` holds when the prefix is at least as short as the string and equals its start |
| JsString.EndsWith | services/llmService.ts:68 | a definition: `endsWith` holds when the suffix is at least as short as the string and equals its end |
| JsString.Includes | services/llmService.ts:67 | `includes` holds when the pattern starts at some position; the pattern is then no longer than the string |
| JsString.IndexOf | services/llmService.ts:103 | `indexOf` returns -1 or a position in the string holding the character |
| JsString.Join | services/llmService.ts:108 | a definition: `join` puts the separator between consecutive parts; `JsString.JoinSplit` is its partner |
| JsString.IndexOfFound | services/llmService.ts:103 | `indexOf` finds a position exactly when the character occurs |
| JsString.Split | services/llmService.ts:103 | `split` always yields at least one piece |
| JsString.JoinSplit | services/llmService.ts:103-108 | joining the pieces of `split` with the same separator gives back the text |
| JsString.SplitConcat | services/llmService.ts:103 | splitting `x`, separator, `y` gives the pieces of `x` followed by the pieces of `y` |
| JsString.NatToString | services/llmService.ts:94 | a status number prints as one or more decimal digits without a leading zero |
| JsString.NatToStringValue | services/llmService.ts:94 | the digits printed for a status number denote that number |
| Prompt.SystemInstruction | services/llmService.ts:4-11 | a definition: the instruction text, the same in services/geminiService.ts:6-13 |
| Prompt.Template | services/llmService.ts:24-32 | the prompt's length is the fixed text's length plus the lengths of the two format names and the content, so nothing is added or dropped around them |
| Prompt.BuildPrompt | services/llmService.ts:24-32 | the prompt either service sends (two-space indents here, four at services/geminiService.ts:23-31) is the fixed text with the source format's value, the target format's value and the content verbatim at their positions |
| Prompt.TemplatePlacement | services/llmService.ts:24-32 | the prompt holds the source format name, then the target format name, then the content, each verbatim at a fixed position, followed only by the fixed tail |
| Backend.GeneratedText | services/llmService.ts:49 | a managed-API response yields its text, or the empty string when it has none; a thrown call yields a failure carrying the thrown message |
| Backend.IsOk | services/llmService.ts:92 | a definition: `response.ok` is a 2xx status |
| Backend.Answer | services/llmService.ts:37-99 | the reply comes from the managed API exactly when the call was made to it |
| Sanitizer.Sanitized | services/llmService.ts:101-111 | text not starting with the fence comes back as its trim; fenced text without a line break fails with the TypeError message; every other text succeeds with a result that has no whitespace at either end |
| Sanitizer.Sanitize | services/geminiService.ts:47-58 | the step-by-step `shift`, conditional `pop`, `join`, `trim` computes exactly the clean-up on lines |
| Sanitizer.LinesAfterFirstEmpty | services/llmService.ts:103-105 | no line is left after dropping the first exactly when the text has no line break |
| Sanitizer.FenceRoundTrip | services/llmService.ts:101-111 | an answer wrapped as fence, tag, line break, content, line break, fence cleans up to the content, for any tag without line breaks and any content without surrounding whitespace |
| Sanitizer.UnclosedFenceKept | services/llmService.ts:104-108 | a fenced answer whose last line does not trim to the fence keeps that line: only the opening line goes and the rest comes back trimmed |
| Sanitizer.OpenedLines | services/llmService.ts:103-104 | the lines of a fenced answer after the opening line are the lines of what follows the first line break |
| Sanitizer.FencedLines | services/llmService.ts:103-104 | the lines of such an answer after the opening line are the content's lines, then the closing fence |
| Sanitizer.OneLineFenceThrows | services/llmService.ts:105 | a fenced answer on one line makes reading the last line throw |
| Sanitizer.IndentedFenceKept | services/llmService.ts:102 | a fence after leading whitespace is not recognised; the answer is only trimmed and keeps its fence |
| LlmService.IsLocalAddress | services/llmService.ts:67 | an address counts as local when it contains one of the five markers; any local address has at least five characters (a definition otherwise) |
| LlmService.DropTrailingSlash | services/llmService.ts:61 | one trailing slash is removed and nothing else changes; a string not ending in a slash is unchanged |
| LlmService.CleanedBaseUrl | services/llmService.ts:53-61 | a blank setting gives the public endpoint; otherwise the result is the trimmed setting, with one trailing slash removed if it had one; it never starts with whitespace |
| LlmService.NormalizedBaseUrl | services/llmService.ts:53-71 | a blank setting gives the public endpoint, a local result always ends in `/v1`, the result never starts with whitespace, and it differs from the cleaned address exactly when that is local and does not end in `/v1`, in which case `/v1` is appended |
| LlmService.NormalizeTrimmed | services/llmService.ts:53 | surrounding whitespace in the setting does not affect the normalised address |
| LlmService.SlashOnlyBaseUrl | services/llmService.ts:53-71 | the setting `/` normalises to the empty address, and the empty address normalises to the public endpoint |
| LlmService.SlashOnlyRequestIsRelative | services/llmService.ts:53-73 | with the setting `/` the request goes to the relative URL `/chat/completions` |
| LlmService.NormalizeBaseUrl | services/llmService.ts:53-71 | the step-by-step reassignment of `baseUrl` computes exactly the normalised address |
| LlmService.LocalAfterAppend | services/llmService.ts:66-71 | appending any text, the version path included, keeps a local address local |
| LlmService.NormalizeLocalIdempotent | services/llmService.ts:66-71 | normalising a local-server result again changes nothing |
| LlmService.CleanAddressFixed | services/llmService.ts:53-71 | a non-empty address with no surrounding whitespace, no trailing slash, and the version path if local, is its own normalisation |
| LlmService.NormalizeIdempotentWhenClean | services/llmService.ts:53-71 | normalising again changes nothing when the result is non-empty and ends in neither a slash nor whitespace |
| LlmService.NormalizeNotIdempotent | services/llmService.ts:61 | only one trailing slash is removed, so any non-local address without surrounding whitespace that ends in two slashes normalises to itself with one slash, and that normalises again to the address without slashes |
| LlmService.LocalServerGetsVersion | services/llmService.ts:63-71 | a local address such as `http://localhost:1234`, given with or without one trailing slash, becomes that address plus `/v1` |
| LlmService.HttpErrorMessage | services/llmService.ts:93-94 | the error of a non-2xx answer is the body's non-empty `error.message`, else `API Error: <status> <statusText>`; never empty |
| LlmService.FetchedText | services/llmService.ts:75-98 | an endpoint answer yields text exactly when it is 2xx with a parseable body; the text is the first choice's content or empty; a non-2xx answer fails with its error message; a thrown `fetch` and an unparseable 2xx body fail with their own messages |
| LlmService.ReplyText | services/llmService.ts:37-98 | the raw text is available exactly when the managed API produced a response or the endpoint gave a parseable 2xx answer |
| LlmService.Rethrown | services/llmService.ts:113-116 | the catch block rethrows a non-empty message unchanged and replaces an empty one with the fallback, so it never rethrows an empty message |
| LlmService.GeminiRequest | services/llmService.ts:39-48 | the managed-API request carries the configured key, the prompt, the configured model or the default when it is empty, the instruction, temperature 0.1 and 8192 output tokens |
| LlmService.ChatRequestFor | services/llmService.ts:73-90 | the chat request goes to the normalised address plus `/chat/completions`, as JSON with the bearer key, the configured model, the instruction as the system message and the prompt as the user message, temperature 0.1 and 8192 tokens |
| LlmService.SelectedCall | services/llmService.ts:37-90 | the managed API is called exactly under `gemini`, with the configured key and model (the default when empty), and the prompt; otherwise the chat endpoint at the normalised address plus `/chat/completions`, with the bearer key, the configured model, and the prompt as the user message; a blank address means the public endpoint |
| LlmService.Finished | services/llmService.ts:101-116 | a result is the clean-up of text that arrived and has no surrounding whitespace; a failure always carries a message; a thrown call is rethrown |
| LlmService.Converted | services/llmService.ts:19-116 | blank content gives the empty text whatever the reply; a missing key under `gemini` fails with the missing-key message; every failure carries a non-empty message; every result has no surrounding whitespace |
| LlmService.ConvertContent | services/llmService.ts:13-117 | the service body step by step returns `Converted` on the reply to the call `SelectedCall` makes for this prompt |
| LlmService.AwaitRawText | services/llmService.ts:37-99 | the awaited call, with the address normalised step by step, yields the reply's raw text or what it threw |
| LlmService.FinishedAfterCleanUp | services/llmService.ts:101-115 | arrived text yields its clean-up, a clean-up failure being rethrown |
| LlmService.ConvertedAfterChecks | services/llmService.ts:19-22 | past the blank and key checks (an empty key passes under `openai`) the result depends only on the reply |
| LlmService.FencedAnswerFromEndpoint | services/llmService.ts:97-111 | a 2xx endpoint answer whose first choice is fenced content yields that content |
| LlmService.HttpErrorSurfaces | services/llmService.ts:92-95 | a non-2xx endpoint answer fails with its error message through the catch block unchanged |
| LlmService.MissingTextIsEmpty | services/llmService.ts:49 | a managed-API response without text converts to the empty text, not an error |
| GeminiService.RequestFor | services/geminiService.ts:33-41 | every request uses the environment key, the fixed model, the instruction and the fixed generation settings; only the prompt depends on the input |
| GeminiService.Converted | services/geminiService.ts:20-62 | blank content gives the empty text whatever the reply; every failure is exactly the fixed message; every result has no surrounding whitespace; a thrown call fails |
| GeminiService.ConvertContent | services/geminiService.ts:15-63 | the service body step by step returns `Converted` on the response to `RequestFor` |
| GeminiService.ConvertedAfterCheck | services/geminiService.ts:43-62 | past the blank check a thrown call fails with the fixed message, and a response's text is cleaned up, a clean-up failure becoming the fixed message |
| GeminiService.FencedAnswer | services/geminiService.ts:43-58 | a response whose text is fenced content yields that content |
| GeminiService.MissingTextIsEmpty | services/geminiService.ts:43 | a response without text converts to the empty text |
| GeminiService.OneLineFenceFails | services/geminiService.ts:52-61 | a one-line fenced response fails with the fixed message |
| ServiceAgreement.SameCleanUp | services/geminiService.ts:43-62 | with a configured key, both services succeed on the same managed-API response together and with the same text; they differ only in the failure message |
| App.Initial | App.tsx:10-17 | from the first registry entry (JSON) to the second (CSV), the input the JSON sample, the output empty, not converting, no banner |
| App.InputAfterSourceChange | App.tsx:21-24 | the input after a source change is the old input or a sample, and it is the old input whenever the new source has no sample |
| App.AfterSourceChange | App.tsx:20-28 | the effect clears output and banner, keeps formats and busy flag, and leaves the input or puts a sample there |
| App.Swapped | App.tsx:30-36 | the swap exchanges the two formats and the input and output panes, all from the values before the swap, and changes nothing else |
| App.SwapRendered | App.tsx:20-36 | a swap as rendered exchanges the formats and keeps the busy flag; between equal formats it is the bare swap, between different ones the effect also clears output and banner |
| App.ConvertStart | App.tsx:39-47 | the call is made exactly for non-blank input of at most 100,000 characters; blank input changes nothing; oversized input only sets the limit banner; a dispatched call clears the banner and sets the busy flag |
| App.ConvertFinish | App.tsx:50-60 | the busy flag drops; a result starting `ERROR:` goes to the banner with the output untouched; any other result replaces the output; a thrown call sets the generic banner; formats and input are untouched |
| App.Converted | App.tsx:38-61 | the whole handler keeps the formats and the input; a dispatched call ends with the busy flag down; an undispatched one leaves the state `ConvertStart` gives |
| App.App.constructor | App.tsx:10-17 | the fields start in the initial state |
| App.App.SourceChanged | App.tsx:20-28 | the effect updates the fields as `AfterSourceChange` describes |
| App.App.SelectSource | App.tsx:97 | choosing a different source format runs the effect on the new state; choosing the same one changes nothing |
| App.App.SelectTarget | App.tsx:113 | choosing a target format changes only the target |
| App.App.EditInput | App.tsx:157 | typing changes only the input |
| App.App.HandleSwap | App.tsx:30-36 | the swap, followed by the effect when the source format changed |
| App.App.BeginConvert | App.tsx:39-47 | updates the fields as `ConvertStart` does and reports whether the call is made |
| App.App.FinishConvert | App.tsx:50-60 | updates the fields as `ConvertFinish` does |
| App.App.HandleConvert | App.tsx:38-61 | the whole handler, the awaited service call included, moves the fields to `Converted` of the old state and the response |
| App.MountEffectNoOp | App.tsx:20-28 | the effect's run after the first render leaves the initial state unchanged |
| App.SwapTwice | App.tsx:30-36 | two swaps before any effect restore the state |
| App.SwapClearsOutput | App.tsx:20-36 | a swap between different formats ends with an empty output pane and no banner |
| App.SwapKeepsRealOutput | App.tsx:20-36 | a real (non-empty, non-sample) output moves into the input on a swap and is not replaced by a sample |
| App.TypedInputKept | App.tsx:21-24 | text the user typed survives any change of source format |
| App.SampleFollowsSource | App.tsx:21-24 | an empty or sample input becomes the new source's sample when it has one |
| App.BlankInputIgnored | App.tsx:39 | converting blank input changes no state at all |
| App.OversizedInputRefused | App.tsx:41-44 | input over the limit only sets the limit banner; the busy flag and output are untouched |
| App.SentConversionSettles | App.tsx:46-60 | after a dispatched conversion the busy flag is down, formats and input are unchanged, and either the output holds a trimmed non-refusal result with no banner, or the output is untouched and the banner shows the refusal or the generic error |

## Left out

- The network: the SDK client and `fetch` are parameters of the service methods, and the service functions take the reply as a value. Request headers other than content type and authorization, and the HTTP method, are not modelled.
- `process.env.API_KEY` is the opaque `EnvironmentKey` credential; `console.error` is not modelled.
- Asynchrony: each handler awaits one call and nothing else runs in between; React's batching of state updates and its re-render between the swap and the effect are modelled as one step (`App.App.HandleSwap`).
- The temperature 0.1 is the constant 1 in tenths; floating point is not modelled.
- The size-limit banner is the text `toLocaleString` gives in an English locale; other locales are not modelled.
- String lengths count Unicode scalar values, not UTF-16 code units, so the 100,000-character limit differs for text outside the Basic Multilingual Plane.
- Response bodies are modelled by the two fields the service reads. A JSON body that is `null`, not an object, or holds a non-string `error.message` or first-choice `content` is not modelled.
- `LlmService.Rethrown`: an `error.message` that is not a string, or an error without one, is modelled only as an empty message.
- `Sanitizer.OneLineFenceThrows`: the thrown message is V8's wording for reading `trim` of undefined; other engines word it differently.
- Rendering, styling and the Editor, FormatSelector, SettingsModal and FAQ components: only the registry lookup and group filters the selector performs are modelled (`Constants.FindIn`, `Constants.FilterIn`).
- bin/cli.js, which starts a development server, is not part of this model.

## Findings

| source | as written | input that shows it | evidently intended | confidence | as-written member | corrected member |
|---|---|---|---|---|---|---|
| constants.ts:9-20 | the registry uses `FormatType.SQL`, `PYTHON`, `JAVASCRIPT` and `TYPESCRIPT`, which types.ts:1-11 does not declare, so those four entries carry an undefined value | selecting Python in the source selector: `find` compares against undefined and finds nothing; SQL and Python entries are indistinguishable by value | each format has its own string value, like the other nine (taken here to be its label) | not executed | Constants.UndeclaredValuesCollide | Constants.RegistryValuesDistinct |

The rest of the model uses the corrected enumeration (`Types.FormatType`
with thirteen members); `Constants.FindEntry` proves that lookup by value
then finds every entry.
