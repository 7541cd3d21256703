# Amplitude Architect — a Dafny model of its core

Amplitude Architect turns a feature description or a UI screenshot into a tracking plan of
Amplitude events (action, view, click, event name, event properties). The user refines the plan
through a chat. This project models the core of that application and proves properties of the
model:

- **The session** (`app.dfy`, module `App`). `App.tsx` holds the event list, the conversation,
  the processing state and the "has generated" flag. Its two handlers are methods of the class
  `Session`. Each handler is split at its `await`. The first half runs the guard and the
  optimistic updates. The second half takes the backend's outcome as a parameter and always ends
  idle. The class invariant says that every message carries a distinct identifier and that the
  `ERROR` state is never entered.
- **The CSV export** (`event_table.dfy`, module `EventTable`). Every field is quoted as in
  section 2 of RFC 4180, and records are separated by a bare line feed. A reader for that format
  is defined alongside. The export is proved to read back as the header plus one five-field
  record per event, in order.
- **The dashboard statistics** (`dashboard.dfy`, module `Dashboard`). This covers the two
  `reduce` tallies, which update an accumulator in place, and the first-match type classifier.
  It also covers `Object.entries` ordering: integer-like keys come first in ascending order, and
  the other keys follow in insertion order.
- **The browser's model client** (`gemini_service.dfy`, module `GeminiService`). It strips the
  data-URI header and builds the request parts by `push`. For a refinement it removes the
  identifiers before sending, and it gives every returned event a fresh identifier.
- **The two edge functions** (`generate_events.dfy` and `refine_events.dfy`, sharing
  `edge.dfy`). Each covers the validation order, the status codes, the text-extraction fallback,
  the `events` check or the default filling, and identifier assignment. Each handler is a
  function `Respond`, and an imperative method `Handle` follows the source's early returns and
  reassigned `let`s and is proved equal to it.

The supporting modules are these:

- `strings.dfy`: trimming, `includes`, `join`, `substring` and decimal numerals.
- `js.dfy`: the JavaScript values the handlers inspect. It covers truthiness, `typeof`,
  template-literal conversion, property reads that throw on `undefined` or `null`, optional
  chaining, object spread and `Object.keys` order.
- `ids.dfy`: `crypto.randomUUID`, modelled as an oracle whose n-th call returns a distinct
  identifier. Callers thread the number of identifiers issued so far (`seed`, `issued`).
- `stamping.dfy`: the two ways an identifier is attached to an event. One overwrites the
  identifier; the other keeps a truthy one and draws a fresh one only where it is missing.
- `types.dfy`: the records of `types.ts`.

The code behaves as follows, and the model captures it:

- Each refinement from the browser client returns the fixed message "I've updated the event list
  based on your feedback.". It never passes on a message from the model.
- The edge refinement function fills in a missing `message` with the empty string.
- There is no "stop" signal, no cancellation and no deletion in the code.
- The chat box sends a message whenever no refinement is running (`appState !== REFINING`), not
  only when the session is idle.
- The browser client calls the model directly. The edge functions are separate handlers; no
  code path in the model connects the two.
- The edge generation function passes the image to the model as it receives it. It strips no
  data-URI header.

In `supabase/functions/refineEvents/index.ts`, `const events` is declared twice in one block
(see "## Findings"). The rest of the model reads the second declaration as a separate binding,
which is evidently what was meant.

## Model

| member | source | states |
|---|---|---|
| App.Session.constructor | App.tsx:10-17 | The session starts with no events, no messages, idle, not generated and with empty input; the invariant holds. |
| App.Session.SetInput | App.tsx:16-17 | Setting the input changes only the description and the image; the events and the conversation survive. |
| App.Session.BeginGenerate | App.tsx:19-23 | Returns at once and changes nothing exactly when the trimmed description is empty and the image is absent or empty; otherwise sets "has generated" and `GENERATING` before the backend call, touching neither the events nor the conversation. |
| App.Session.FinishGenerate | App.tsx:24-39 | A success replaces the events with exactly the returned list and replaces the conversation with one model message that counts them, under a fresh identifier; a failure raises the fixed alert and keeps the events and the conversation; either way the state ends `IDLE`, and the identifiers stay distinct. |
| App.Session.HandleGenerate | App.tsx:19-40 | The whole handler: no backend call and no change without input; otherwise the backend receives the current description and the image (an empty image as none), the outcome is applied as above, ending idle, and the input is kept. |
| App.SentImage | App.tsx:25 | `inputImage \|\| undefined` sends the image exactly when it is present and not empty. |
| App.Session.BeginChat | App.tsx:42-51 | Appends exactly one user message with the given text and a fresh identifier, then sets `REFINING`; the events are unchanged. |
| App.Session.FinishChat | App.tsx:53-75 | A success replaces the events and appends exactly one model message with the returned text; a failure keeps the events and appends exactly one model message with the fixed apology; the state ends `IDLE`. |
| App.Session.HandleChat | App.tsx:42-76 | The whole handler: the backend receives the events in place when the message was sent; the conversation grows by the user message and then one model message (returned text or apology, timestamped `now`, no image), the input is kept, and the session ends idle. |
| App.GeneratedTextInjective | App.tsx:31 | The greeting after a generation determines the number of events it names. |
| App.NumberedDistinct | App.tsx:44-49 | Messages whose identifiers come from distinct oracle calls have pairwise distinct identifiers. |
| Strings.TrimEmptyIff | App.tsx:20 | A description trims to empty exactly when every character is whitespace. |
| Strings.Includes | components/Dashboard.tsx:25-28 | `includes` holds exactly when the substring occurs at some position. |
| EventTable.GenerateCsv | components/EventTable.tsx:13-27 | Definition of the export; its properties are stated by EventTable.GenerateCsvRoundTrip, EventTable.GenerateCsvSnoc and EventTable.GenerateCsvHeader. |
| EventTable.DoubleQuotes | components/EventTable.tsx:16-20 | Doubling quotes lengthens a field by its number of double quotes. |
| EventTable.QuoteField | components/EventTable.tsx:16 | An escaped field is the original length plus two plus the number of quotes, and it opens and closes with a double quote. |
| EventTable.ExportContent | components/EventTable.tsx:29-44 | Download and copy produce nothing exactly when the list is empty; otherwise they produce the CSV. |
| EventTable.UnquoteQuoteField | components/EventTable.tsx:16-20 | Removing the outer quotes and collapsing doubled quotes gives back the original field. |
| EventTable.QuoteFieldRoundTrip | components/EventTable.tsx:16-20 | A quoted field, followed by anything that does not start with a quote, reads back as the field and the rest. |
| EventTable.RecordRoundTrip | components/EventTable.tsx:25 | Fields joined by commas read back as the same fields. |
| EventTable.FileRoundTrip | components/EventTable.tsx:23-26 | Lines joined by line feeds read back as the same records. |
| EventTable.HeaderReads | components/EventTable.tsx:14 | The header line reads back as the five column titles. |
| EventTable.EventLineReads | components/EventTable.tsx:15-21 | An event's line reads back as exactly its five exported fields, in order, without `id`. |
| EventTable.GenerateCsvRoundTrip | components/EventTable.tsx:13-27 | The whole export reads back as the header followed by one record per event, in order. |
| EventTable.GenerateCsvSnoc | components/EventTable.tsx:23-26 | Appending an event appends a line feed and its line, so there is no trailing separator. |
| EventTable.GenerateCsvHeader | components/EventTable.tsx:23-24 | The export opens with the header line; with no events it is exactly that line, otherwise a line feed follows it. |
| Dashboard.TypeOf | components/Dashboard.tsx:24-29 | Definition of the first-match classification; its properties are stated by Dashboard.ClickNameIsClick, Dashboard.PageViewName, Dashboard.PricingViewIsOther and Dashboard.TypeCounts. |
| Dashboard.ClickNameIsClick | components/Dashboard.tsx:25 | A name of the form `view:<page>:click:<element>` is classified as a click. |
| Dashboard.ColonPattern | components/Dashboard.tsx:25-28 | For a page without colons, `view:<page>` contains `:<word>` exactly when the page starts with the word. |
| Dashboard.NoClickPattern | components/Dashboard.tsx:25 | A view-only name never matches the click rule. |
| Dashboard.PageViewName | components/Dashboard.tsx:24-30 | A view-only name is classified by the first rule its page matches, and falls back to other when the click column is empty. |
| Dashboard.PricingViewIsOther | components/Dashboard.tsx:24-30 | `view:pricing` with no click is other, not view: the `:view` rule looks for the word after a colon. |
| Dashboard.Bump | components/Dashboard.tsx:15 | One increment adds one to the total and leaves the key present. |
| Dashboard.TalliesStep | components/Dashboard.tsx:14-17 | Counting one more key keeps the accumulator an exact tally: distinct keys in first-seen order, each counted as often as it occurs, total equal to the number of keys. |
| Dashboard.CountZero | components/Dashboard.tsx:15 | A key has count zero exactly when it never occurs. |
| Dashboard.ViewCounts | components/Dashboard.tsx:14-17 | The view reduction is an exact tally of the events' views. |
| Dashboard.TypeCounts | components/Dashboard.tsx:22-33 | The type reduction is an exact tally of the events' first-match labels. |
| Dashboard.InViews | components/Dashboard.tsx:14-17 | A name is among the tallied views exactly when some event has that view. |
| Dashboard.SortSorted | components/Dashboard.tsx:19 | The integer-like keys are enumerated in ascending numeric order, each once. |
| Dashboard.EntriesPermutes | components/Dashboard.tsx:19 | `Object.entries` enumerates exactly the accumulator's entries, each once, with the same total; without integer-like keys it keeps insertion order. |
| Dashboard.Entries | components/Dashboard.tsx:19 | Definition of `Object.entries` on the accumulator; its properties are stated by Dashboard.SortSorted, Dashboard.EntriesPermutes and Dashboard.TallyEntries. |
| Dashboard.TallyEntries | components/Dashboard.tsx:19 | Every enumerated entry counts its name's occurrences and is at least one; the names are exactly the keys seen; the total is the number of events. |
| Dashboard.LabelsNotIndices | components/Dashboard.tsx:35 | No type label is integer-like, so the type entries keep first-seen order. |
| Dashboard.Stats | components/Dashboard.tsx:12-38 | `viewData` has one entry per distinct view, counting its events, and the counts sum to the number of events; `typeData` has one entry per label in first-seen order, counting its events, with the same total. |
| Ids.FreshIdInjective | services/geminiService.ts:85 | Distinct oracle calls give distinct identifiers. |
| Js.SetProp | services/geminiService.ts:83-86 | Writing `id` after a spread makes `id` read the new value and leaves every other property as it was. |
| Js.SetPropKeys | services/geminiService.ts:83-86 | An existing key keeps its position, and an absent key is appended last. |
| Js.Get | supabase/functions/refineEvents/index.ts:134 | A property read throws exactly on `undefined` or `null`, and otherwise returns the property. |
| Stamping.WithId | services/geminiService.ts:83-86 | `{...e, id}` is an object whose `id` is the new one and whose other properties are `e`'s own. |
| Stamping.Elements | services/geminiService.ts:83 | `map` succeeds exactly on an array, over its elements. |
| Stamping.StampFresh | services/geminiService.ts:83-86 | Every event keeps its fields and gets the identifier of its own oracle call, in order. |
| Stamping.StampFreshDistinct | services/geminiService.ts:83-86 | The new identifiers are pairwise distinct and differ from every identifier issued before. |
| Stamping.KeptIds | supabase/functions/refineEvents/index.ts:138-141 | The mapping throws exactly when some element is `undefined` or `null`, and otherwise keeps the length. |
| Stamping.StampMissing | supabase/functions/refineEvents/index.ts:138-141 | Same failure condition and the same length, for the stamped events. |
| Stamping.KeptIdAt | supabase/functions/refineEvents/index.ts:140 | The i-th identifier is the event's own when truthy, and otherwise the oracle's call numbered by the missing identifiers before it. |
| Stamping.StampMissingAt | supabase/functions/refineEvents/index.ts:138-141 | Each stamped event keeps every other field and its truthy identifier, and otherwise gets the next fresh one. |
| Stamping.StampMissingFresh | supabase/functions/refineEvents/index.ts:140 | When no event has an identifier, preserving identifiers is the same as assigning fresh ones to all. |
| Stamping.KeepsPresentIds | supabase/functions/refineEvents/index.ts:140 | When every event has an identifier, no oracle call is made and every identifier is kept. |
| Stamping.StampMissingDistinct | supabase/functions/refineEvents/index.ts:140 | The identifiers drawn for two different events differ. |
| GeminiService.StripDataUriHeader | services/geminiService.ts:46 | The result is a suffix; without a header for one of the four image types the string is unchanged; when it changes, exactly one such header was removed. |
| GeminiService.HeadersDiffer | services/geminiService.ts:46 | No header for one image type starts with the header for another. |
| GeminiService.StripsHeader | services/geminiService.ts:46 | A header for any of the four types is removed, whatever follows it. |
| GeminiService.StripsOnce | services/geminiService.ts:46 | The header is removed once: a doubled header leaves one behind. |
| GeminiService.BuildParts | services/geminiService.ts:42-65 | It throws "No input provided" exactly when there is neither a description nor an image; otherwise the cleaned image comes first when there is one, followed by one text part, which quotes the description when there is one. |
| GeminiService.FreshEvents | services/geminiService.ts:80-86 | A parsed array gives every element a fresh identifier; a parse error propagates. |
| GeminiService.GenerateEventsFromInput | services/geminiService.ts:37-92 | Nothing is sent without input; an empty reply is an empty list; otherwise the reply is parsed and every event gets a fresh identifier; errors propagate. |
| GeminiService.StripId | services/geminiService.ts:101 | Removing the identifier loses nothing else: adding it back restores the event. |
| GeminiService.StripIds | services/geminiService.ts:101 | Every event is sent without its identifier, in order. |
| GeminiService.RefineEventsWithChat | services/geminiService.ts:94-139 | The prompt holds the events without identifiers and the instruction; an empty reply is the "No response from AI" error; a success holds freshly identified events and always the fixed message. |
| Edge.ModelOutput | supabase/functions/generateEvents/index.ts:140-169 | Definition of the extraction chain; its properties are stated by Edge.ReadModelOutput, Edge.TextMethodFirst, Edge.TextStringParsed, Edge.CandidateTextParsed, Edge.WrappedIsUnwrapped and Edge.NoSourceFails. |
| Edge.TextMethodFirst | supabase/functions/generateEvents/index.ts:147-149 | A `text()` method is tried first: what it throws propagates, a string it returns is parsed, any other value is the output. |
| Edge.TextStringParsed | supabase/functions/generateEvents/index.ts:150-152 | A `text` string is parsed as JSON, whatever candidates the response also holds. |
| Edge.CandidateTextParsed | supabase/functions/generateEvents/index.ts:153-156 | Without a `text` property, the first candidate's first part's non-empty text is parsed. |
| Edge.WrappedIsUnwrapped | supabase/functions/generateEvents/index.ts:141 | A truthy `response` property is read in place of the response itself. |
| Edge.NoSourceFails | supabase/functions/generateEvents/index.ts:157-159 | With no `text` and no candidates, the answer is the missing-text error for the response. |
| Edge.ReadModelOutput | supabase/functions/generateEvents/index.ts:141-169 | The reassignment of `text` and `eventData` computes the model output: unwrapped response, then the `text()` method, then a `text` string, then the first candidate's text, with strings parsed as JSON. |
| Edge.LoadSdk | supabase/functions/generateEvents/index.ts:53-61 | A failed import propagates its error; a truthy `GoogleGenerativeAI` export is the loaded constructor; a falsy one is the fixed import error. |
| GenerateEvents.Parts | supabase/functions/generateEvents/index.ts:113-126 | The image, as received, comes first when truthy; the text part, quoting the description, always comes last. |
| GenerateEvents.BuildParts | supabase/functions/generateEvents/index.ts:113-126 | The parts pushed one by one are those parts. |
| GenerateEvents.CheckEvents | supabase/functions/generateEvents/index.ts:174-178 | The output is accepted exactly when its `events` is an array, and a non-array is an error quoting the output, never a partial result; a function-valued output, which `JSON.stringify` makes undefined, fails instead on reading `.substring`. |
| GenerateEvents.FunctionOutputFails | supabase/functions/generateEvents/index.ts:174-176 | A `text()` that returns a function is answered with "Cannot read properties of undefined (reading 'substring')", not the invalid-events error. |
| GenerateEvents.ErrorResponse | supabase/functions/generateEvents/index.ts:193-207 | Every caught error answers 500 with a JSON body of exactly `error` and `type`: an `Error` gives its message and "Error", any other thrown value its string form and its `typeof`. |
| GenerateEvents.Answer | supabase/functions/generateEvents/index.ts:138-186 | Definition of the answer to the model's reply; its properties are stated by GenerateEvents.SuccessStatus and GenerateEvents.FreshIdsOnSuccess. |
| GenerateEvents.Respond | supabase/functions/generateEvents/index.ts:9-209 | Definition of the handler's result; its properties are stated by GenerateEvents.SuccessStatus, GenerateEvents.BadRequestStatus, GenerateEvents.ServerErrorStatus, GenerateEvents.InputCheckedFirst, GenerateEvents.KeyCheckedSecond, GenerateEvents.SentOnlyWhenValid, GenerateEvents.ReachesModel and GenerateEvents.FreshIdsOnSuccess. |
| GenerateEvents.SuccessStatus | supabase/functions/generateEvents/index.ts:181-192 | 200 answers exactly a preflight or a request that reached the model and whose events came back well formed. |
| GenerateEvents.BadRequestStatus | supabase/functions/generateEvents/index.ts:23-32 | 400 answers exactly a request with neither a truthy description nor a truthy image. |
| GenerateEvents.ServerErrorStatus | supabase/functions/generateEvents/index.ts:193-207 | Every other answer is 500 with a JSON body. |
| GenerateEvents.InputCheckedFirst | supabase/functions/generateEvents/index.ts:21-32 | A 400 does not depend on the key, the client library or the model, and nothing is sent. |
| GenerateEvents.KeyCheckedSecond | supabase/functions/generateEvents/index.ts:36-49 | With valid input and no key, the answer is the key error and the model is not reached. |
| GenerateEvents.SentOnlyWhenValid | supabase/functions/generateEvents/index.ts:113-136 | The model is reached only with valid input, a key and a loaded library, and receives exactly the built parts. |
| GenerateEvents.ReachesModel | supabase/functions/generateEvents/index.ts:21-136 | Conversely, valid input with a key and a loaded library reaches the model with exactly the built parts and is answered from its reply; a successful answer is a 200. |
| GenerateEvents.FreshIdsOnSuccess | supabase/functions/generateEvents/index.ts:181-186 | A success answers with the model's events, each given a fresh identifier that overwrites any it had. |
| GenerateEvents.Handle | supabase/functions/generateEvents/index.ts:9-209 | The handler with its early returns gives exactly the specified parts and response. |
| RefineEvents.Defaults | supabase/functions/refineEvents/index.ts:134-135 | A truthy `events` and a truthy `message` are passed on as the model gave them; a missing or falsy `events` becomes an empty list and a missing or falsy `message` becomes ""; only a null or undefined output throws, with the read error. |
| RefineEvents.MakePrompt | supabase/functions/refineEvents/index.ts:85-101 | Definition of the prompt; its properties are stated by RefineEvents.PromptCarriesEventsVerbatim and RefineEvents.ReachesModel. |
| RefineEvents.Answer | supabase/functions/refineEvents/index.ts:110-143 | Definition of the answer to the model's reply; its properties are stated by RefineEvents.Defaults, RefineEvents.MissingFieldsDefault and RefineEvents.KeepsIdsOnSuccess. |
| RefineEvents.Respond | supabase/functions/refineEvents/index.ts:9-159 | Definition of the handler's result; its properties are stated by RefineEvents.BadRequestStatus, RefineEvents.EmptyListPasses, RefineEvents.KeyCheckedSecond, RefineEvents.PromptCarriesEventsVerbatim, RefineEvents.ReachesModel and RefineEvents.KeepsIdsOnSuccess. |
| RefineEvents.ErrorResponse | supabase/functions/refineEvents/index.ts:149-158 | Every caught error answers 500 with a JSON body of exactly `error`: an `Error` gives its message, any other thrown value "Unknown error". |
| RefineEvents.BadRequestStatus | supabase/functions/refineEvents/index.ts:18-26 | 400 answers exactly a request whose `events` or `instruction` is falsy. |
| RefineEvents.EmptyListPasses | supabase/functions/refineEvents/index.ts:18 | An empty event list passes the check, because an array is truthy; an empty instruction fails it. |
| RefineEvents.KeyCheckedSecond | supabase/functions/refineEvents/index.ts:29-38 | With valid input and no key, the answer is the key error and the model is not reached. |
| RefineEvents.PromptCarriesEventsVerbatim | supabase/functions/refineEvents/index.ts:86-98 | The model receives the events exactly as given, identifiers included, and the instruction, and only after both checks pass. |
| RefineEvents.ReachesModel | supabase/functions/refineEvents/index.ts:15-108 | Conversely, valid input with a key and a loaded library reaches the model with the request's events and instruction and is answered from its reply; a successful answer is a 200. |
| RefineEvents.MissingFieldsDefault | supabase/functions/refineEvents/index.ts:134-143 | Every output whose `events` and `message` are missing or falsy is answered with an empty list and an empty message, not an error. |
| RefineEvents.Serve | supabase/functions/refineEvents/index.ts:15-148 | The deployed function answers nothing exactly when its `try` block declares a name twice, and otherwise answers as the handler does. |
| RefineEvents.AsWrittenAnswersNothing | supabase/functions/refineEvents/index.ts:134 | As written, `events` is declared twice in the block, so the module does not load and no request is answered. |
| RefineEvents.IntendedAnswers | supabase/functions/refineEvents/index.ts:134 | With the second binding named apart, every name is declared once and every request gets the handler's response. |
| RefineEvents.KeepsIdsOnSuccess | supabase/functions/refineEvents/index.ts:137-148 | A success answers with the model's events, keeping truthy identifiers and drawing fresh ones only where missing, plus the model's message or "". |
| RefineEvents.Handle | supabase/functions/refineEvents/index.ts:9-159 | The handler with its early returns gives exactly the specified prompt and response. |

## Left out

- Rendering is not modelled. That covers the JSX, the input section, the chat interface's
  animation, the dashboard charts, and the `copied` flag with its two-second timer.
- Login, the passcode check and `localStorage` are not part of this model. They are a fixed
  string comparison plus storage I/O.
- The side effects of download and copy are not modelled: Blob, object URL, DOM link and
  clipboard. Only the empty-list guard and the content are.
- `console` logging and CORS headers are not modelled. The alert dialog is not modelled either;
  each call is recorded in `Session.alerts`.
- The network, the model and the client library are parameters. Each is modelled by its outcome:
  the reply, the import result and `JSON.parse`.
- The system instructions, the response schemas and the model names are not modelled. They are
  constant text sent to the model.
- Refinement prompts are modelled by their content (events and instruction), not their layout.
  The text layout and the indentation `JSON.stringify(…, null, 2)` produces are left out.
- Response bodies are modelled as JSON values, not JSON text.
- `GenerateEvents.CheckEvents`: the text of the error that quotes the output depends on
  `JSON.stringify`. That function is a parameter, so the quoted text is not pinned down further.
  The one case where `JSON.stringify` gives undefined, a function-valued output, is modelled.
  A cyclic output, on which `JSON.stringify` throws, is not.
- Message identifiers (`Session.issued`) and event identifiers (`seed`) are drawn from two
  counters that are never linked, though the source has one `crypto.randomUUID`. So the model
  does not show that a message identifier differs from an event identifier.
- `Date.now()` is a parameter, and `crypto.randomUUID()` is an oracle that never repeats an
  identifier. Collisions of real UUIDs are not modelled.
- JavaScript numbers are modelled as integers. Fractions, NaN and the infinities are not
  modelled, so numeric-to-string conversion is covered only for integers.
- Strings are sequences of characters, with no UTF-16 surrogate pairs. `substring(0, 200)`
  counts characters.
- The dashboard accumulators are modelled as plain records. Keys that collide with
  `Object.prototype` members, such as `__proto__`, are not modelled.
- The handlers run sequentially: each half of a handler is one atomic step. React's batching of
  state updates is left out, and so are interleavings of two handlers that are both waiting on
  the backend.
- `DashboardStats` in `types.ts` is declared but never used, and is not modelled.
- `supabase/functions/lib/geminiClient.ts` is not part of this model. The two handlers repeat
  its logic inline.
- Non-array `map` targets: the model throws a "not a function" error for any value that is not
  an array, since parsed JSON carries no functions. A non-array object that defines its own
  `map` method is not modelled.
- The image size check and the file reading of the input section are not modelled. That section
  is browser I/O, and its submit guard repeats the one `BeginGenerate` models.

## Findings

| source | as written | input that shows it | evidently intended | confidence | as-written member | corrected member |
|---|---|---|---|---|---|---|
| supabase/functions/refineEvents/index.ts:134 | `const events = eventData.events \|\| []` declares `events` again in the `try` block that already declared it at line 16; that is an early SyntaxError, so the module does not load and the function answers no request | any request, including an `OPTIONS` preflight | a separate binding for the model's events, with defaults and identifiers as `RefineEvents.Respond` specifies | not executed | RefineEvents.AsWrittenAnswersNothing | RefineEvents.IntendedAnswers |
