# Email client front end: compose validation and the AI drafting pipeline

This project models the logic of a small web email client and proves properties of the model. The client is a Next.js page with its services and two API routes. Five parts are modelled:

- **The inbox page** (`Home`, `src/pages/index.js`). Its state is a class `HomePage` with one method per handler:
  - `fetchEmails` loads the list;
  - `handleSend` checks the five compose fields, then posts and reloads;
  - `handleAiGenerate` asks the classifier route for a persona and, when it names one of the two personas, asks the generator route for a subject and a body, which are merged into the form;
  - the compose dialog's field reducer and its close handler.

  The `selectedEmail` lookup is a function over the list. The form checks are built field by field, as the page builds its `errors` object.
- **The email service** (`src/services/emailService.js`). It covers:
  - `validateComposeData` (the zod schema, the issue-to-error map built by a loop, then the cc and bcc list checks keyed `general`);
  - `sendEmail` and `fetchEmails`, as methods of a class `EmailService` that records the requests it issues;
  - the response schemas with their transforms, which normalise `id`, `cc`, `bcc` and `created_at`.
- **The address rules.** The regular expression `/^[^\s@]+@[^\s@]+\.[^\s@]+$/` is written as a string predicate and proved equal to its shape. The comma-separated list check is also modelled. Both copies of these rules, the page's and the service's, are one definition here, because the two copies are the same function of their input.
- **The AI service** (`src/services/aiService.js`). `getAssistantType`, `generateEmail` and `handleAiGenerate` are functions. Each takes the reply its request would receive and returns its result together with the requests it made.
- **The API handlers** (`src/pages/api/ai/route.js`, `src/pages/api/ai/generate.js`). These are guard chains:
  - 405 with `Allow: POST` (section 15.5.6 of RFC 9110);
  - 400 for a missing or blank prompt;
  - 200 with the model's answer;
  - 500 when the model call throws.

  Also modelled: the persona table and the two prompt templates. The language model is an oracle parameter, from the call made (model id and prompt text) to what it returns or `Throws`. `AiPipeline` connects the handlers to the client and proves the end-to-end outcome.

Environment inputs are parameters of the model:

| in the source | in the model |
|---|---|
| `fetch` and `response.json()` | an `HttpReply` value (a rejection with a message, or a status with a parsed body or a parse error) |
| the current time | the parameter `now` |
| zod's email check | the uninterpreted predicate `zodEmail` |
| the text zod renders for a ZodError | the parameter `schemaMessage` |

The `requests` logs are ghost state that record the requests in order.

The files are:

- `wrappers.dfy` and `json.dfy`: JavaScript values, truthiness, property reads that throw on `null`/`undefined`, and `||` and `===`;
- `text.dfy`: `trim`, `split(',')` and `String(n)`;
- `http.dfy`;
- `address.dfy`;
- `compose.dfy`: the page's form checks, the field reducer and the AI merge;
- `compose_validator.dfy`;
- `email_gateway.dfy`;
- `ai_routes.dfy`;
- `ai_service.dfy`;
- `ai_pipeline.dfy`;
- `home.dfy`.

## Model

| member | source | states |
|---|---|---|
| Json.Or | src/services/aiService.js:60-61 | `a \|\| b` is always one of its operands, truthy exactly when either operand is, and `a` whenever `a` is truthy; so a truthy default can never come back falsy |
| Http.MessageOr | src/services/emailService.js:152 | `error.message \|\| fallback` is the message or the fallback, non-empty whenever either is, so a failure always carries a message; an error's own non-empty message takes precedence |
| Text.TrimSplitsOffWhitespace | src/services/emailService.js:44-45 | `trim` removes only whitespace: the input is blank prefix + trimmed text + blank suffix, and the trimmed text neither starts nor ends with whitespace |
| Text.TrimEmptyIffBlank | src/services/emailService.js:44 | A string trims to `''` exactly when it is empty or whitespace-only |
| Text.TrimPadded | src/pages/index.js:106 | Whitespace padding around a whitespace-free string is trimmed off exactly |
| Text.TrimNoWs | src/pages/index.js:106 | Trimming leaves a whitespace-free string unchanged |
| Text.SplitPiecesCommaFree | src/services/emailService.js:45 | No piece of `split(',')` contains a comma |
| Text.JoinSplit | src/services/emailService.js:45 | Joining the pieces with commas gives back the input |
| Text.SplitJoin | src/services/emailService.js:45 | Comma-free pieces joined with commas split back into the same pieces |
| Text.SplitAtComma | src/services/emailService.js:45 | Splitting `a + ',' + b` gives the pieces of `a` followed by those of `b` |
| Text.SplitCommaFree | src/services/emailService.js:45 | A comma-free string is one piece |
| Text.TrailingCommaPiece | src/services/emailService.js:45 | The last piece of a string ending in a comma is empty |
| Text.NatToString | src/services/emailService.js:131 | `String(n)` of a natural number is a non-empty run of decimal digits without a leading zero |
| Text.DecimalRoundTrip | src/services/emailService.js:131 | Reading the decimal digits of `String(n)` back gives `n` |
| Text.IntToStringInjective | src/services/emailService.js:131 | Different statuses give different messages: `String` is injective on integers |
| Address.ValidAddressIffPattern | src/pages/index.js:91-93 | `validateEmail` holds exactly when the string matches the regular expression: a non-empty run of non-space, non-`@` characters, one `@`, a non-empty run, a `.`, and a non-empty run to the end |
| Address.IndexOf | src/pages/index.js:92 | The index of the first `@`: it holds `@` and no `@` comes before it |
| Address.EmptyIsNoAddress | src/pages/index.js:92 | The empty string is no address |
| Address.BlankListValid | src/services/emailService.js:44 | An empty or whitespace-only list is valid |
| Address.NonBlankListValid | src/services/emailService.js:45-47 | A non-blank list is valid exactly when every trimmed piece is an address |
| Address.EmptyPieceRejected | src/services/emailService.js:45-47 | A non-blank list with an empty piece is invalid |
| Address.TrailingCommaRejected | src/services/emailService.js:45-47 | Any list ending in a comma, such as `"a@b.com,"`, is invalid |
| Address.DoubleCommaRejected | src/services/emailService.js:45-47 | Any list containing two consecutive commas, such as `"a@b.com,,c@d.com"`, is invalid |
| Address.JoinedAddressesValid | src/services/emailService.js:45-47 | Valid comma-free addresses joined with commas form a valid list |
| Compose.With | src/components/ComposeDialog.js:24 | `{...d, [f]: v}` sets field `f` to `v` and keeps every other field |
| Compose.FormErrorsMeaning | src/pages/index.js:104-124 | The page reports `to` exactly when its trimmed value is no address; `cc`/`bcc` exactly when the list is not blank and some trimmed piece is no address; `subject`/`body` exactly when blank; each under its own message |
| Compose.FormErrorsAt | src/pages/index.js:104-124 | Each field's entry is present exactly when that field's check fails, and holds that field's message |
| Compose.EmptyDraftErrors | src/pages/index.js:104-124 | Sending the untouched form reports to, subject and body, and neither cc nor bcc |
| Compose.BlankSubjectRejected | src/pages/index.js:118-120 | A whitespace-only subject is reported by the page |
| Compose.PaddedToAccepted | src/pages/index.js:106-108 | The to field is judged after trimming: a valid address with surrounding whitespace is not reported |
| Compose.Shown | src/pages/index.js:126-127 | `setValidationErrors(errors)` keeps every reported field and message, clears none, and a field shows an error exactly when it was reported with a non-empty message |
| Compose.ShownFormErrors | src/pages/index.js:104-127 | After the form is rejected, the fields showing an error are exactly the fields whose check failed |
| Compose.FieldChange | src/components/ComposeDialog.js:23-28 | The changed field takes the new value and the other fields are kept. A truthy error on that field becomes `undefined` with its key kept. Every other entry is untouched, and a falsy error leaves the map unchanged. |
| Compose.FieldChangeIdempotent | src/components/ComposeDialog.js:23-28 | Applying the same change twice is the same as applying it once |
| Compose.MergeAiDraft | src/pages/index.js:182-186 | The AI merge replaces only subject and body, a falsy value by `''`, and keeps to, cc and bcc |
| Compose.MergeKeepsAddressChecks | src/pages/index.js:182-186 | The merge changes none of the page's address verdicts |
| Compose.MergedTextAccepted | src/pages/index.js:182-186 | A non-blank generated subject and body leave no subject or body error |
| ComposeValidator.SchemaIssues | src/services/emailService.js:4-10 | The schema raises issues only about to, subject and body |
| ComposeValidator.IssueMapMeaning | src/services/emailService.js:66-71 | The issue map has a key for exactly the fields some issue concerns, never `general`, and under each key the message of the last issue about that field |
| ComposeValidator.IssueMapKeys | src/services/emailService.js:68-70 | The keys of the issue map are exactly the fields some issue concerns, and never `general` |
| ComposeValidator.IssueMapLast | src/services/emailService.js:68-70 | The key of an issue that no later issue shares holds that issue's message |
| ComposeValidator.CollectIssues | src/services/emailService.js:67-70 | The `forEach` loop builds exactly the issue map |
| ComposeValidator.Verdict | src/services/emailService.js:51-78 | `isValid` holds exactly when the error map is empty, never a mixture; when the schema fails, the errors are exactly the schema's messages keyed by field |
| ComposeValidator.ValidateComposeData | src/services/emailService.js:51-78 | The method returns the verdict: the schema's issues first, then the cc list and then the bcc list under `general` |
| ComposeValidator.SchemaErrorAt | src/services/emailService.js:5-9 | The schema reports `to` exactly when zod's email check fails and `subject`/`body` exactly when EMPTY; a whitespace-only value passes. Each entry carries its field's message. |
| ComposeValidator.IssueMapSnoc | src/services/emailService.js:68-70 | One more issue sets just its own field's key to its message, overwriting an earlier one |
| ComposeValidator.SchemaIssuesMap | src/services/emailService.js:5-9 | The error map of the schema's issues is the `to` entry when zod refuses the address, then the `subject` and `body` entries when they are empty |
| ComposeValidator.ListsIgnoredOnSchemaFailure | src/services/emailService.js:53-62 | While the schema fails, the cc and bcc values do not affect the result |
| ComposeValidator.BadCcIsGeneral | src/services/emailService.js:56-73 | After the schema passes, a bad non-empty cc list gives exactly `{general: 'CC must …'}` and bcc is not examined |
| ComposeValidator.BadBccIsGeneral | src/services/emailService.js:60-73 | After the schema passes with a valid cc list, a bad non-empty bcc list gives exactly `{general: 'BCC must …'}` |
| ComposeValidator.ServiceAccepts | src/services/emailService.js:53-64 | A draft passing the schema and both list checks is valid with an empty map |
| ComposeValidator.PageAcceptedPassesService | src/services/emailService.js:51-78 | A draft the page accepts is accepted by the service whenever zod accepts its to field |
| ComposeValidator.BlankSubjectDisagreement | src/services/emailService.js:8-9 | A whitespace-only subject passes the service but is reported by the page |
| ComposeValidator.BadCcKeyDisagreement | src/services/emailService.js:56-58 | A bad cc list is reported under `cc` by the page but under `general`, never `cc`, by the service |
| EmailGateway.StringValue | src/services/emailService.js:29 | `z.string()` accepts a value exactly when it is a string, and yields that very string |
| EmailGateway.SentNormalisation | src/services/emailService.js:28-34 | An accepted send response has the id as `String(id)`; a string cc/bcc kept and a falsy one as `''`; a truthy created_at as its string form and a falsy or missing one as the current time; to, subject and body unchanged |
| EmailGateway.SendResponseRoundTrip | src/services/emailService.js:25-36 | A stored email with a non-empty creation time passes the response schema unchanged |
| EmailGateway.SendResponseNormalForm | src/services/emailService.js:28-34 | The normalisation is idempotent: its output, sent again, is returned unchanged |
| EmailGateway.ParseListedEmail | src/services/emailService.js:14-22 | An email the item schema accepts has a string or number id and created_at, a to field zod accepts, and a cc/bcc that is a string, null or missing |
| EmailGateway.ParseListedEmails | src/services/emailService.js:14 | `z.array` accepts exactly when every element is accepted, and then keeps every element in order |
| EmailGateway.ListedEmailRoundTrip | src/services/emailService.js:14-22 | A well-formed listed email passes the item schema unchanged |
| EmailGateway.ListedEmailsRoundTrip | src/services/emailService.js:14-22 | A list of well-formed emails passes the array schema unchanged, in order |
| EmailGateway.EmailListRoundTrip | src/services/emailService.js:12-23 | A whole listing response passes the list schema unchanged |
| EmailGateway.InvalidDraftNotSent | src/services/emailService.js:114-122 | An invalid draft gives `success: false`, `'Validation failed'` and the non-empty validation map, issues no request, and is independent of the backend's reply |
| EmailGateway.ValidDraftPostedOnce | src/services/emailService.js:124-128 | A valid draft is posted exactly once, as it is, and the result carries no validation map |
| EmailGateway.SendSucceedsIff | src/services/emailService.js:112-155 | A send succeeds exactly when the draft is valid, the status is ok, the body parses and passes the schema, and `success` is true; the data is then the normalised email |
| EmailGateway.SendResultShape | src/services/emailService.js:142-154 | Every send result is either success with data and no error, or failure with no data and a non-empty error |
| EmailGateway.SendStatusReported | src/services/emailService.js:130-132 | A non-ok status gives `'Failed to send email: <status>'` |
| EmailGateway.FetchAllOrNothing | src/services/emailService.js:81-110 | A listing succeeds exactly when the status is ok, the body parses, the schema accepts it whole and `success` is true; then it holds the schema's list. Every failure has `data: []` and a non-empty error |
| EmailGateway.OneBadEmailFailsListing | src/services/emailService.js:89-91 | One email the item schema refuses makes the whole listing fail with the schema error |
| EmailGateway.FetchReturnsListing | src/services/emailService.js:97-101 | A backend listing of well-formed emails is returned exactly |
| EmailGateway.EmailService.constructor | src/services/emailService.js:38-41 | A new service has issued no request |
| EmailGateway.EmailService.SendEmail | src/services/emailService.js:112-155 | The method returns the send outcome and appends exactly the requests that outcome issues (none or one POST) |
| EmailGateway.EmailService.FetchEmails | src/services/emailService.js:81-110 | The method returns the fetch outcome and appends exactly one GET |
| AiService.AssistantTypeStatusReported | src/services/aiService.js:14-16 | A non-ok status fails with `'Failed to get assistant type: <status>'` |
| AiService.AssistantTypeSucceedsIff | src/services/aiService.js:6-37 | Classification succeeds exactly for an ok, parsed reply with a truthy `assistant`, which is returned unchanged and not checked against the persona names; every result is well shaped |
| AiService.FalsyAssistantRejected | src/services/aiService.js:20-22 | A falsy `assistant` fails with `'Invalid assistant type response'` |
| AiService.GenerateStatusReported | src/services/aiService.js:47-49 | A non-ok status fails with `'Failed to generate email: <status>'` |
| AiService.GenerateSucceedsIff | src/services/aiService.js:39-73 | Generation succeeds exactly for an ok, parsed reply with a truthy subject and body, and its data is exactly those two values; every result is well shaped |
| AiService.EmptyTextRejected | src/services/aiService.js:53-55 | An empty or missing subject or body fails with `'Invalid email generation response'` |
| AiService.ClassificationFailurePropagates | src/services/aiService.js:79-87 | A failed classification is returned with its own error, only the classifier is asked, and the generator's reply is irrelevant |
| AiService.UnknownPersonaStops | src/services/aiService.js:89-98 | A persona other than `'sales'`/`'followup'` gives `'Invalid assistant type'` without a generator request |
| AiService.GenerationFailurePropagates | src/services/aiService.js:101-109 | A failed generation is returned with its own error, after exactly the two requests |
| AiService.PipelineSucceedsIff | src/services/aiService.js:76-128 | The pipeline succeeds exactly when classification gives one of the two personas and generation succeeds. The draft then has that persona and the generated text, after exactly two requests with the same prompt, route first. Every result is well shaped. |
| AiRoutes.PersonaName | src/pages/api/ai/route.js:15-16 | The classifier's enum output is `'sales'` or `'followup'` |
| AiRoutes.NoBodyNoPrompt | src/pages/api/ai/route.js:30-31 | A falsy body, or an object body without `prompt`, carries no prompt |
| AiRoutes.PromptBodyMeaning | src/pages/api/ai/route.js:30-31 | A body `{prompt: s}` carries a prompt exactly when `s` is not blank, and the prompt read is `s` |
| AiRoutes.PromptOfObject | src/pages/api/ai/route.js:30 | The prompt of an object body is its `prompt` member, or `undefined` |
| AiRoutes.Between | src/pages/api/ai/route.js:10 | Taking known delimiters off a text returns what lies between them |
| AiRoutes.BetweenRoundTrip | src/pages/api/ai/route.js:10 | Taking the delimiters off recovers exactly what was put between them |
| AiRoutes.ClassifyPromptQuotesMessage | src/pages/api/ai/route.js:5-11 | The classification prompt holds the message verbatim between `"""` delimiters, from where it is read back |
| AiRoutes.ClassifyPromptInjective | src/pages/api/ai/route.js:5-11 | Different messages give different classification prompts |
| AiRoutes.AssistantPromptsKeys | src/pages/api/ai/generate.js:5-18 | The persona table has exactly the keys `sales` and `followup`, with two distinct texts |
| AiRoutes.PersonaText | src/pages/api/ai/generate.js:23 | `${assistantPrompts[assistant]}` is the table's text for a known key and `"undefined"` otherwise; the prompt gets a persona text from the table exactly when the key is known |
| AiRoutes.PersonaQueries | src/pages/api/ai/generate.js:5-23 | Each persona's query selects its own text |
| AiRoutes.GeneratePromptMeaning | src/pages/api/ai/generate.js:22-38 | The generation prompt opens, after its first line break and indent, with the persona text, and holds the message verbatim between `"""` delimiters |
| AiRoutes.GeneratorModel | src/pages/api/ai/generate.js:41 | The model id is `"gpt-4o-mini"` for every persona |
| AiRoutes.RouteWrongMethodRefused | src/pages/api/ai/route.js:24-27 | A method other than POST gets 405 with `Allow: POST`, before any classifier call |
| AiRoutes.GenerateWrongMethodRefused | src/pages/api/ai/generate.js:53-56 | A method other than POST gets 405 with `Allow: POST`, before any generator call |
| AiRoutes.RoutePromptMissing | src/pages/api/ai/route.js:30-33 | A POST whose body is missing, or whose prompt is not a string or is blank, gets 400 `'Missing prompt'`, with no model call |
| AiRoutes.GeneratePromptMissing | src/pages/api/ai/generate.js:59-63 | The generator route gives 400 `'Missing assistant'` for a missing, non-string or blank prompt, with no model call, whatever the `assistant` query holds |
| AiRoutes.RouteAnswersWithPersona | src/pages/api/ai/route.js:35-43 | A POST with a prompt makes exactly one classifier call on the classification prompt. The answer is 200 `{assistant}` naming one of the two personas exactly when the call returns, and 500 `'Internal error'` when it throws. |
| AiRoutes.GenerateAnswersWithEmail | src/pages/api/ai/generate.js:65-72 | A POST with a prompt makes exactly one generator call. The answer is 200 with a body of exactly the fields subject and body from the generated object exactly when the call returns, and 500 when it throws. |
| AiRoutes.RouteStatuses | src/pages/api/ai/route.js:23-44 | Every classifier-route response is 200, 400, 405 or 500, and only 405 carries `Allow` |
| AiRoutes.GenerateStatuses | src/pages/api/ai/generate.js:52-73 | Every generator-route response is 200, 400, 405 or 500, and only 405 carries `Allow` |
| AiPipeline.BlankPromptSeen | src/pages/api/ai/route.js:31-33 | The client reports the route's 400 for a blank prompt with its status |
| AiPipeline.ClassifierFailureSeen | src/pages/api/ai/route.js:40-43 | The client reports the route's 500 for a failing classifier with its status |
| AiPipeline.ClassifierAnswerSeen | src/pages/api/ai/route.js:35-39 | The client reads the classifier's persona name as its result |
| AiPipeline.GeneratorFailureSeen | src/pages/api/ai/generate.js:70-72 | The client reports the generator route's 500 with its status |
| AiPipeline.GeneratorAnswerSeen | src/pages/api/ai/generate.js:65-69 | The client accepts the generated text exactly when subject and body are both non-empty, and then keeps it unchanged |
| AiPipeline.GeneratedTextRead | src/services/aiService.js:51-63 | A 200 `{subject, body}` is accepted exactly when neither is empty |
| AiPipeline.EndToEndSucceedsIff | src/services/aiService.js:76-128 | With both routes served by the handlers, a draft is produced exactly when the prompt is not blank, the classifier answers, and the generator prompted for that persona answers with non-empty subject and body. The draft carries that persona and text, after one request to each route. |
| AiPipeline.ServiceOutcome | src/services/aiService.js:101-119 | Once a persona is classified, the pipeline succeeds exactly when generation does, with the persona and text combined |
| AiPipeline.BlankPromptEndToEnd | src/services/aiService.js:79-87 | A blank prompt ends with `'Failed to get assistant type: 400'` after one request |
| Home.FindById | src/pages/index.js:31 | `find` returns the first email whose id equals `selectedId`. It is `null` exactly when no id matches, and it throws when a read of `e.id` on an earlier element throws. |
| Home.SelectedEmail | src/pages/index.js:28-34 | `selectedEmail` is null for an empty list, and otherwise the result of `find` by the selected id |
| Home.FirstMatchShown | src/pages/index.js:31 | The first email carrying the selected id is shown, whatever follows it |
| Home.CheckField | src/pages/index.js:106-124 | Each check adds the field's message exactly when the field is rejected |
| Home.CollectFormErrors | src/pages/index.js:104-124 | The `errors` object built check by check is the page's error map |
| Home.HomePage.constructor | src/pages/index.js:22-47 | The initial state: no emails, loading, no error, no selection, dialogs closed, empty prompt and empty draft |
| Home.HomePage.FetchEmails | src/pages/index.js:50-77 | The list is replaced only by an ok, parsed listing with a truthy `success`. Any failure keeps the list and sets `'Failed to load emails.'`. Loading is off on every path; one GET is made. |
| Home.HomePage.HandleSend | src/pages/index.js:101-159 | With a form error, the errors are shown and nothing is sent or changed. Otherwise the draft is posted once. An ok status resets the form to five empty strings, closes it and reloads the list. A failing POST sets `'Failed to send email. Please try again.'` and keeps the draft. |
| Home.HomePage.HandleAiGenerate | src/pages/index.js:191-207 | The generator is asked and its text merged only for `'sales'`/`'followup'`. Another readable persona sets `'Invalid assistant type'`. A read that throws changes nothing. Every path ends with generation off, the prompt dialog closed and the prompt cleared. |
| Home.HomePage.ChangeField | src/pages/index.js:257-262 | The page's inline change handler is the field reducer, and nothing else changes |
| Home.HomePage.CloseCompose | src/pages/index.js:84-88 | Closing the dialog turns generation off and clears the inline errors, and nothing else changes |
| Home.FailedRouteReadDifferently | src/pages/index.js:162-171 | The page checks no status. It reads a 500 from the classifier route as an invalid assistant type, where the service reports the status. Neither asks the generator. |
| Home.PageAgreesWithService | src/pages/index.js:191-207 | When the service's pipeline succeeds, the page merges exactly the service's text and makes the same two requests |

## Left out

- Rendering: all JSX, including `EmailSidebar`, `EmailDetail` and `AiPromptDialog`, and the `disabled` expressions of the buttons.
- `fetch`, headers, URLs and the base URL taken from the environment. Each request's reply is an input value, and the requests made are a ghost log.
- The OpenAI calls. Each is an oracle parameter, from the model call to its result or a throw. The enum and object output contracts are built into the result types.
- zod's own email check is a library regular expression: the parameter `zodEmail`, deliberately not equated with the page's regular expression. The text zod renders for a ZodError is the parameter `schemaMessage`.
- `new Date().toISOString()` is the parameter `now`; `console.log` and `console.error` are not modelled.
- Async scheduling, React state batching, `useMemo` and `useEffect`. Each handler is one atomic step over the page's state. The mount-time fetch is a separate call of `Home.HomePage.FetchEmails`.
- The trivial state setters of the page (`handleOpenCompose`, opening and closing the AI prompt dialog, `setSelectedId`, `setAiPrompt` as the prompt is typed) are not modelled.
- Numbers are integers; fractional and non-finite statuses and ids are not modelled.
- EmailGateway.SentNormalisation: a numeric `id` or `created_at` is turned into its decimal digits. JavaScript's `String` gives that only for integers of magnitude below 10^21 (it writes `1e+21` and beyond in exponent form), and `JSON.parse` is exact only below 2^53. The model reads larger numbers exactly and writes them in digits, so the contract is faithful only for ids and timestamps below 2^53.
- Json.Prop: reading a property of a string, number, boolean or array gives `undefined` in the model. That is right for the keys the core reads this way: `assistant`, `subject`, `body`, `prompt`, `success`, `data` and `id`. The response schemas read object members directly. Own and inherited properties of primitives and arrays (`"abc".length`, `arr[0]`, `String.prototype` methods) are not modelled. The `Json.Prop` contract is stated only for that reading.
- Keys inherited from `Object.prototype` are not modelled. In `assistantPrompts[assistant]`, a query such as `toString` yields `"undefined"` here rather than the inherited function's text.
- A property explicitly set to `undefined` and an absent property read the same. The serialise-and-parse step between the handlers and the client is the identity on the JSON values used.
- `Home.HomePage.HandleAiGenerate` requires the generated subject and body to be strings or falsy. A truthy non-string could not be stored in the string-typed draft. The handlers only produce strings.
- `Home.HomePage.HandleAiGenerate` does not model the outer `catch` beyond "nothing is set": a read that throws ends the step with only the `finally` updates, and the logged error is not modelled. The page reads `email.subject` and `email.body` inside the `setCompose` updater, which React runs later at render time, outside the `try`. A generate reply whose JSON is `null` would therefore make the render throw instead of changing nothing. Since each handler is modelled as one atomic step, the model reads those fields in the handler. The generator route never answers `null`.
- Compose.Draft: all five fields are strings, because the page only ever holds strings in its form. So zod's `invalid_type` issue ("Required", or "Expected string") for a missing or non-string field cannot arise in the model, and `cc`/`bcc` are never absent. Only the `email` and `min(1)` issues are modelled.
- Home.FindById: object identity is not modelled, so `===` is exact only for primitive ids. The sidebar passes `email.id` itself as the selected id. An id that is an object or array is therefore `===` to the element it came from, and `find` returns that element. The model never matches such an id and gives no selection. `Home.SelectedEmail` inherits this. The backend's ids are strings or numbers (the listing schema's `id` union), but the page stores `data` unchecked.
- `Home.SelectedEmail` is stated over a sequence of emails. The page's `emails` state is any JSON value, since `setEmails` stores the unchecked `data`; `find` on a non-array is not modelled.
- The V8 text of a thrown TypeError is modelled by `AiService.ReadError` in its current wording only.
