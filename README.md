# ProHire core, modelled in Dafny

ProHire is a React directory of freelance professionals with an AI assistant panel. This
project models the logic behind that front end:

- **The directory** (`App`). A case-insensitive search filter over name, title, location
  and skills. The modal state that a card's Hire button opens and Cancel or submit closes.
- **The hiring form** (`HiringModal`). The submit check: every field filled, then the
  e-mail pattern `^[^\s@]+@[^\s@]+\.[^\s@]+$`. The confirmation alert, which quotes the
  first 50 characters of the brief. Clearing the form when the modal closes.
- **The star row** (`ProfessionalCard`). Star `i` of five is filled exactly when
  `i < rating`, so a fractional rating rounds up (4.2 shows five stars).
- **The assistant panel** (`GeminiChat`). The state cells of the component become the
  fields of the `ChatPanel` class.
  - `HandleSendMessage` handles a send. It builds the request for the mode and calls the
    provider. It shows the reply text and its grounding chunks, then runs each function
    call in order. If the provider throws, it turns the error into one of three texts.
  - `HandleModeChange` switches mode.
  - `FetchGeolocation` caches the location Maps search needs.
- **The service layer** (`GeminiService`):
  - assembling a request
  - splitting a reply into text, grounding chunks and function calls
  - the single-image data URI
  - the geolocation lookup
  - the simulated `controlLight` tool and its declaration

`JsText` holds the JavaScript string built-ins the core relies on: `trim`, `includes`,
`toLowerCase` and the decimal text of a number. `Types` and `Constants` hold the records
and constants the core uses.

Each handler is modelled as an imperative method that works step by step like the source.
Three of the loops and branches are proved against a pure function that specifies them:

- the mode `switch` against `DescribeRequest`
- the tool-dispatch loop against `DispatchTrace`
- the star loop against `IsStarRow`

Two handlers call the pure function that models their step directly:

- the `catch` block of `HandleSendMessage` calls `ErrorText`
- `HandleSearchChange` computes the list with `Keep` on the lower-cased term, which is
  `FilterProfessionals`

The pure functions carry lemmas of their own: round trips, iff characterisations, order
and multiplicity preservation, monotonicity of the search.

Outside effects are parameters:

- The language-model provider is a function from request to outcome. The outcome is
  either a reply, or a thrown error whose message may be absent.
- The host's geolocation answer is a value. It is unsupported, an error, or a position.
- `JSON.stringify` of tool arguments is a function parameter.
- `alert` and `onClose` become a returned text and a returned call count.

## Model

| member | source | states |
|---|---|---|
| GeminiService.BuildRequest | services/geminiService.ts:17-24 | the request carries the prompt as its single text part; model, config, toolConfig and tools pass through unchanged |
| GeminiService.ShapeTextResponse | services/geminiService.ts:28-34 | the text is the reply's text, or "No text response." when it is missing or empty, so never empty. The grounding chunks are those of the first candidate's metadata, present only when that metadata is. The function calls are absent exactly when the first candidate has no parts; otherwise they are the calls extracted from the parts |
| GeminiService.FunctionCallsOf | services/geminiService.ts:30-32 | the calls carried by the parts, never more than there are parts; which calls, and in which order, the two lemmas below state |
| GeminiService.FunctionCallsOfMember | services/geminiService.ts:30-32 | a call is extracted exactly when some part carries it |
| GeminiService.FunctionCallsOfAppend | services/geminiService.ts:30-32 | extraction keeps the parts' order: it distributes over concatenation |
| GeminiService.GenerateTextContent | services/geminiService.ts:14-38 | the provider is called on the assembled request. A thrown error is rethrown with the same message (possibly absent); a reply is shaped as above |
| GeminiService.BuildImageRequest | services/geminiService.ts:44-52 | an image request asks for exactly one JPEG image from imagen-4.0-generate-001, with the caller's prompt and aspect ratio |
| GeminiService.ShapeImageResponse | services/geminiService.ts:54-63 | no images gives no URL. A first image without its image record raises the TypeError, which is rethrown. Otherwise exactly one URL: a JPEG data URI whose payload is the first image's bytes, or "undefined" when the bytes are missing |
| GeminiService.GenerateImage | services/geminiService.ts:41-65 | an error the provider throws is rethrown with the same message; a reply is shaped as above, including the error it may raise |
| GeminiService.GetGeolocation | services/geminiService.ts:67-91 | the lookup never fails. It yields a coordinate exactly when the host reports a position, and then it is that position's latitude and longitude |
| GeminiService.TemplateText | services/geminiService.ts:106 | an absent argument shows as "undefined", a string argument as itself, and an integral number as decimal text that reads back as that number |
| GeminiService.ControlLight | services/geminiService.ts:101-107 | the result always opens with "Light control successful: Brightness ", whatever the arguments hold; `ControlLightReportsArgs` states what follows |
| GeminiService.ControlLightReportsArgs | services/geminiService.ts:101-108 | for an integral brightness and a string colour temperature, the result string reads back as exactly that brightness and colour |
| GeminiService.ControlLightDeclarationShape | services/geminiService.ts:111-129 | the declaration is named like the tool the chat dispatches. It requires exactly `brightness` and `colorTemperature`, and every required property is described |
| GeminiChat.DescribeRequest | components/GeminiChat.tsx:54-94 | the request fails exactly in Maps search without a cached location, with the geolocation-required text. Maps search sends only the Maps tool, with the location as retrieval config. Every other mode offers only the `controlLight` declaration, so the two tools never mix. The Pro model and the 32768 thinking budget are used exactly in the Pro and Thinking modes; otherwise Flash and an empty config |
| GeminiChat.ErrorText | components/GeminiChat.tsx:124-132 | a message containing "API key not valid" gives the invalid-key text. Otherwise one containing "Requested entity was not found." gives the not-found text with the billing documentation URL. Otherwise the generic prefix followed by the message, or by "Unknown error" when there is none |
| GeminiChat.ClassifyError | components/GeminiChat.tsx:126-131 | definition (no contract): the catch block's two tests in order; an absent or empty message passes neither. `ErrorTextIdentifiesKind` ties it to the shown text |
| GeminiChat.DisplayedMessage | components/GeminiChat.tsx:131 | definition (no contract): `err.message || 'Unknown error'`, used by the contract of `ErrorText` |
| GeminiChat.ErrorTextIdentifiesKind | components/GeminiChat.tsx:126-131 | the three error texts are distinguishable: the shown text determines which class the error fell in |
| GeminiChat.ToolTrace | components/GeminiChat.tsx:112-120 | a block is never empty. For `controlLight` it ends with the tool's result; for any other name it is exactly the unknown-tool notice followed by the name. `ControlLightTrace` states the whole `controlLight` block |
| GeminiChat.ControlLightTrace | components/GeminiChat.tsx:112-115 | a `controlLight` block is exactly "\n\nTool Call: controlLight with args " followed by the stringified arguments, "\nTool Result: " and the tool's result: it opens with those words, and after them come exactly the arguments' text and the result |
| GeminiChat.DispatchTrace | components/GeminiChat.tsx:111-121 | definition (no contract): the blocks of all calls in the order received. `ShowReply` is proved to produce it; `DispatchTraceAppend` and `UnknownToolDoesNotStopDispatch` state its properties |
| GeminiChat.DispatchTraceAppend | components/GeminiChat.tsx:109-121 | dispatch is sequential: the trace of a concatenation of call lists is the concatenation of their traces |
| GeminiChat.UnknownToolDoesNotStopDispatch | components/GeminiChat.tsx:118-120 | an unknown tool adds exactly its notice, and the calls after it are still processed |
| GeminiChat.IsBlankPrompt | components/GeminiChat.tsx:37 | definition (no contract): `!prompt.trim()`. `JsText.TrimEmptyIff` shows it holds exactly when every character is whitespace |
| GeminiChat.ChatPanel.constructor | components/GeminiChat.tsx:10-16 | the panel starts empty, not loading, without error or grounding, in Flash mode, with no location |
| GeminiChat.ChatPanel.SetPrompt | components/GeminiChat.tsx:188 | editing the text area sets the prompt |
| GeminiChat.ChatPanel.HandleSendMessage | components/GeminiChat.tsx:36-136 | a blank or whitespace-only prompt is refused with "Please enter a prompt." and changes nothing else. Otherwise response, error and grounding are reset. Maps search without a location stops with the geolocation-required error and sends nothing. Otherwise exactly the request `DescribeRequest` calls for is sent. A reply leaves the reply text followed by the dispatch trace, no error, and the reply's grounding chunks. A thrown error leaves an empty response and `ErrorText` of its message. Loading is off at the end |
| GeminiChat.ChatPanel.ShowReply | components/GeminiChat.tsx:104-122 | the response becomes the reply text followed by one block per function call, in order, and the grounding chunks are the reply's |
| GeminiChat.ChatPanel.HandleModeChange | components/GeminiChat.tsx:138-143 | the mode is set and response, error and grounding are cleared; the prompt and a cached location survive |
| GeminiChat.ChatPanel.FetchGeolocation | components/GeminiChat.tsx:18-34 | a lookup happens exactly in Maps search with no cached location. A found location is cached and clears the error; a failed one leaves the failure text. A cached location is never replaced |
| JsText.Trim | components/GeminiChat.tsx:37 | definition (no contract): `trim` over the JavaScript whitespace set; `TrimEmptyIff` states when it is empty |
| JsText.TrimEmptyIff | components/GeminiChat.tsx:37 | a prompt trims to nothing exactly when every character is whitespace |
| JsText.ToLowerKeepsContains | App.tsx:19-24 | lower-casing keeps every occurrence of a substring |
| JsText.ToLower | App.tsx:19 | the lower-cased text has the same length, and each character is lower-cased on its own (ASCII letters only) |
| JsText.Contains | App.tsx:21-24 | definition (no contract): `includes`; `ContainsIff` characterises it as an occurrence at some index |
| JsText.ContainsIff | App.tsx:21-24 | `includes` holds exactly when the term occurs at some index |
| JsText.IntToString | services/geminiService.ts:106 | the text holds only digits and a minus sign; `IntToStringRoundTrip` shows it reads back as the number |
| JsText.IntToStringRoundTrip | services/geminiService.ts:106 | the decimal text of an integer reads back as that integer |
| App.Matches | App.tsx:21-24 | definition (no contract): the term occurs in the lower-cased name, title or location, or in some lower-cased skill |
| App.Keep | App.tsx:20-25 | a professional is kept exactly when it is in the list and matches. Each matching professional is kept as many times as it occurs, and a non-matching one never is |
| App.FilterProfessionals | App.tsx:19-25 | definition (no contract): `Keep` with the lower-cased term; the lemmas below state its properties |
| App.FilterMembership | App.tsx:18-27 | a professional is listed exactly when it is in the directory and the lower-cased search term occurs in its lower-cased name, title, location or one of its skills |
| App.FilterIsSubsequence | App.tsx:20-25 | the listed professionals keep the directory's order |
| App.EmptySearchKeepsAll | App.tsx:13 | the empty search lists the whole directory, in order, which is also the initial list |
| App.Narrowing | App.tsx:18-27 | typing more narrows the list: a term containing another lists a subsequence of what the other lists |
| App.CaseInsensitive | App.tsx:19 | terms that differ only in letter case list the same professionals |
| App.Directory.constructor | App.tsx:12-15 | the app starts with an empty term, the whole directory shown and no modal |
| App.Directory.HandleSearchChange | App.tsx:18-31 | after a search change the shown list is the filter of the directory by the new term (`Valid`), and the modal state is untouched |
| App.Directory.HandleHireClick | App.tsx:33-36 | Hire selects that professional and opens the modal; the search state is untouched, so the shown list stays the filter of the directory |
| App.Directory.HandleCloseModal | App.tsx:38-41 | closing clears the selection and closes the modal; the search state is untouched, so the shown list stays the filter of the directory |
| HiringModal.MatchesEmailRegex | components/HiringModal.tsx:52 | definition (no contract): a literal reading of `^[^\s@]+@[^\s@]+\.[^\s@]+$`, with an `@` and a later `.` separating three non-empty runs free of whitespace and `@` |
| HiringModal.IsValidEmail | components/HiringModal.tsx:52-53 | definition (no contract): the check the form runs, split at the first `@`; `EmailCheckIsRegex` proves it equivalent to the pattern |
| HiringModal.EmailCheckIsRegex | components/HiringModal.tsx:52-53 | the executable e-mail check accepts exactly the strings the pattern matches |
| HiringModal.AcceptedEmailShape | components/HiringModal.tsx:52 | every accepted address holds exactly one `@` and no whitespace |
| HiringModal.BriefExcerpt | components/HiringModal.tsx:58 | the excerpt is the first min(50, length) characters of the brief |
| HiringModal.ProfessionalLabel | components/HiringModal.tsx:58 | definition (no contract): `professional?.name || 'a professional'` |
| HiringModal.QuotedBrief | components/HiringModal.tsx:58 | definition (no contract): `Project: "` followed by the excerpt and `..."` |
| HiringModal.Confirmation | components/HiringModal.tsx:58 | the confirmation names the client and quotes the brief's excerpt followed by "..." |
| HiringModal.HiringForm.constructor | components/HiringModal.tsx:11-13 | the form starts with all three fields empty |
| HiringModal.HiringForm.Edit | components/HiringModal.tsx:79-100 | each input sets its own field and no other |
| HiringModal.HiringForm.SetOpen | components/HiringModal.tsx:16-25 | closing the modal clears all three fields; opening keeps them |
| HiringModal.HiringForm.HandleSubmit | components/HiringModal.tsx:45-60 | an empty field (not trimmed) gives "Please fill in all fields." and no close. Then an address the pattern rejects gives "Please enter a valid email address." and no close. Otherwise the confirmation is shown and `onClose` is called once |
| ProfessionalCard.IsStarRow | components/ProfessionalCard.tsx:12-17 | definition (no contract): five stars keyed 0 to 4, star `i` filled exactly when `i < rating` |
| ProfessionalCard.RenderStars | components/ProfessionalCard.tsx:10-26 | five stars keyed 0 to 4; star `i` is filled exactly when `i < rating` |
| ProfessionalCard.FilledStarsFirst | components/ProfessionalCard.tsx:12-17 | no empty star precedes a filled one |
| ProfessionalCard.FilledCount | components/ProfessionalCard.tsx:12-17 | the number of filled stars is the rating rounded up, clamped to 0..5; an integral rating from 0 to 5 fills exactly that many |

## Left out

- Asynchrony:
  - Each handler runs as one atomic method.
  - Overlapping runs are not modelled: two mode changes whose lookups resolve out of order, or a reply arriving after a mode switch.
  - The one-second delay of `controlLight` is not modelled.
- The geolocation lookup's options (high accuracy, a 5-second timeout, no cached position) are not modelled: the host's answer is a parameter.
- Intermediate renders are not modelled: the "Fetching geolocation..." notice while a lookup is pending, the loading spinner, and each `setResponse` in the dispatch loop. The model keeps the state the panel settles in.
- The send button is disabled while loading. `HandleSendMessage` requires `!loading` for this reason.
- The `default` branch of the mode switch cannot be reached: the mode is a four-valued enumeration.
- `JSON.stringify` is a function parameter; its key order and escaping are not modelled.
- Tool arguments hold only integral numbers, strings, booleans and null; fractional numbers, nested objects and arrays are not modelled.
- Strings:
  - `toLowerCase` is modelled on ASCII letters only.
  - Strings are sequences of code points, not UTF-16 units, so `substring(0, 50)` may cut differently around astral characters.
- Coordinates and ratings are real numbers, passed through or compared, never rounded as floating point.
- A reply part is taken to carry a function call when its `functionCall` is present. A part holding the key `functionCall` with an undefined value is not modelled.
- The browser's own form validation is not modelled. The three inputs are `required` and the e-mail input has `type="email"` (components/HiringModal.tsx:81, 87, 92, 103), so a browser refuses an empty field or an address such as `a@b..c` before `handleSubmit` runs. `HandleSubmit` models the handler's own checks.
- Rendering is not modelled: JSX, the DOM, the outside-click listener of the modal, the body scroll lock, console logging, and the modal returning nothing while closed. `alert` and `onClose` are returned values.
- JsText.IntToString: it matches the text JavaScript shows for a number only when the number's magnitude is below 10^21. Larger numbers print in exponent form: a `controlLight` call with brightness 1e21 shows "1e+21". Integers above 2^53 are not exact in JavaScript. `JNum` is unbounded, so neither effect is modelled.
- GeminiChat.ChatPanel.HandleSendMessage: a thrown `null` or `undefined` is not modelled; the provider's outcome only holds errors with an optional message. For such a value, reading `err.message` throws inside the catch block. No error text is set, loading ends in `finally`, and the rejection escapes the handler.
- GeminiService.ShapeImageResponse: the message of the TypeError for a missing image record is the V8 engine's wording; other engines word it differently.
- The aspect-ratio choices of constants.ts belong to the image-generator panel and are not modelled.
- Not modelled: the Header and SearchInput components, the image-generator panel that calls `GenerateImage`, and the switch between assistant features in `App`. They hold no logic beyond passing values on.
- The fixed list of professionals in constants.ts is not modelled: the filter is stated over any list.
- The Hire button of a card (components/ProfessionalCard.tsx:58) calls `App.Directory.HandleHireClick`, which models it.
- The API key lookup and the client construction are left to the provider parameter.
