# Recording-session state machine of the kana summary app

This project models, in Dafny, the session logic of a small speech-to-kana web app.
The user presses a record button and speaks. The browser's speech recogniser delivers
interim and final transcript fragments, and when the stream ends the transcript goes to a
summarization service. The service answers with a short bullet list in hiragana and
katakana, which the page shows line by line.

The repository holds two variants of the page component, and both are modelled:

- `LiveApp` models the root `App.tsx`, the variant the app runs.
  - `LiveSession` holds the five-way phase (`Idle`, `Listening`, `Processing`, `Result`,
    `Error`) and the four strings `transcript`, `interimTranscript`, `geminiResult` and
    `error`.
  - Each event that reaches the page is one method: mount, start, a result delivery, the
    end of the stream, a recogniser error, the summarizer settling, stop, record-button
    click and reset.
  - The class invariant `Valid()` keeps the error panel consistent with the
    phase. There is no error text while idle, listening or summarizing, and there is always
    one in the error phase.
- `LegacyApp` models `src/App.tsx` as `LegacySession`. It differs from the live variant:
  - it keeps only the last result, and only if it is final;
  - it replaces the transcript rather than appending;
  - it sends every recogniser error to the error phase, with the message classified by
    error code;
  - it forces `Idle` on stop;
  - it sends the untrimmed text to the summarizer.
- `Recognition` holds the result deliveries as values (a result list plus `resultIndex`).
  - `CollectBatch` is the live variant's accumulation loop, proved against the
    specification function `Texts`.
  - `ApplyBatchesAccumulates` states what any run of deliveries does to the transcript.
- `JsStrings` models JavaScript `trim()` with ECMAScript's white-space set, including the
  ideographic space U+3000. It also models `split('\n')`, with its round trip, and the
  filter that drops blank summary lines.
- `Summarizer` holds the outcome of the summarize call and the service's fallback reply.
- `Types` holds the phase type, `Option` and the record-button enabling rule.

The summarizer call is a pair of events. The method that issues it returns the request, the
text handed to the service, or `None` when the service is not called. A later
`ResolveSummary(outcome)` applies the answer, which is either `Replied(response)`, the
model's reply, or `Failed`. The service turns an empty reply into its fallback text, so the
result phase always has a summary to show, which both session invariants state.

Some behaviour of the code that is easy to miss:

- Recogniser errors are handled in every phase, whatever the page is doing.
- The older variant's stop goes straight to `Idle`, and its `no-speech` error goes to
  `Error`.
- The older variant sends the heard text to the summarizer untrimmed.
- A summary that arrives late is applied in whatever phase the page is in.

The older variant's `onend` closure reads the `appState` of the render that started
recording. That is the phase before the start, and the record button starts only when the
page is not listening. So `LegacySession.StreamEnd` changes nothing in every reachable state.
`ClickRecordButton` keeps the captured phase away from `Listening`, and `StreamEnd` states
"unchanged" under that condition.

## Model

| member | source | states |
|---|---|---|
| `JsStrings.LeadingBlanks` | App.tsx:70 | the counted run lies inside the text and is all JS white space, and the character after it is not white space |
| `JsStrings.TrailingBlanks` | App.tsx:70 | the counted run at the end is all JS white space, and the character before it is not white space |
| `JsStrings.Trim` | App.tsx:70-71 | `trim()` never lengthens the text, its result neither starts nor ends with white space, and it is empty exactly when every character is JS white space (U+3000 included) |
| `JsStrings.TrimMiddle` | App.tsx:70 | what `trim()` keeps is the contiguous middle of the text, preceded and followed only by white space |
| `JsStrings.TrimIdempotent` | App.tsx:70 | trimming twice equals trimming once |
| `JsStrings.Split` | App.tsx:238 | `split('\n')` yields at least one piece, and no piece contains a line feed |
| `JsStrings.JoinSplit` | App.tsx:238 | joining the split pieces with line feeds gives back the original text |
| `JsStrings.SplitJoin` | App.tsx:238 | splitting a join of line-feed-free pieces gives back those pieces |
| `JsStrings.KeepNonBlank` | App.tsx:238-239 | the filter never adds lines, and every kept line is shown (its trim is non-empty) |
| `JsStrings.KeepNonBlankMembers` | App.tsx:238-239 | a line is kept exactly when it is one of the input lines and it is shown |
| `JsStrings.KeepNonBlankAppend` | App.tsx:238-239 | the filter commutes with concatenation, so kept lines stay in their original order |
| `JsStrings.KeepNonBlankKeepsAll` | App.tsx:238-239 | lines that are all non-blank pass the filter unchanged |
| `JsStrings.VisibleLines` | App.tsx:238-239 | a line is displayed exactly when it is a piece of the summary's `split('\n')` and it is shown; no displayed line holds a line feed (the older variant filters its summary the same way at src/App.tsx:241-247) |
| `JsStrings.VisibleLinesDropsBlankLine` | App.tsx:238-239 | two shown lines around a blank one (empty, or only ideographic spaces) display as exactly those two lines, verbatim and in order, in both variants (src/App.tsx:241-247 too) |
| `Recognition.TextsAppend` | App.tsx:110-116 | concatenating the fragment texts distributes over concatenating result lists |
| `Recognition.CollectBatch` | App.tsx:108-116 | the loop visits the entries from `resultIndex` to the end (none when the index is past the end); its `finalPart` is the in-order concatenation of their final fragments, and `interim` that of their non-final ones |
| `Recognition.ApplyBatchesAccumulates` | App.tsx:107-117 | after any run of deliveries, the transcript is the old one followed by every final fragment delivered, in arrival order |
| `Recognition.ApplyBatchesKeepsLastInterim` | App.tsx:108-118 | after a non-empty run of deliveries, the interim transcript is the non-final text of the last delivery alone |
| `Summarizer.ReplyText` | services/geminiService.ts:28 | the service answers with the model's reply, or the fixed fallback when the reply is empty, so its answer is never empty |
| `LiveApp.MicErrorMessageInjective` | App.tsx:128-132 | two error codes give the same message exactly when they are the same code, so the message shown identifies the code (`no-speech` alone gives none) |
| `LiveApp.Submission` | App.tsx:69-78 | blank text is not sent (iff); other text is sent trimmed, and is non-empty with no white space at either end |
| `LiveApp.LiveSession.constructor` | App.tsx:48-67 | mounting gives idle with all strings empty, or the error phase with the API-key message when the key is missing |
| `LiveApp.LiveSession.Start` | App.tsx:88-105 | without recognition: error phase with the unsupported-browser message, never listening; with it: listening with all four strings empty, and the `onend` closure keeps the prior text |
| `LiveApp.LiveSession.OnResult` | App.tsx:107-119 | the transcript is extended by exactly the delivery's final fragments; the interim transcript is replaced by its non-final ones; phase, error and summary are unchanged |
| `LiveApp.LiveSession.OnError` | App.tsx:128-132 | `no-speech` leaves everything unchanged; any other code gives the error phase with a message naming the code; the transcripts are untouched |
| `LiveApp.LiveSession.ProcessTranscript` | App.tsx:69-76 | blank text goes to idle with no request; other text goes to processing with the error cleared, and exactly one request carrying the trimmed text |
| `LiveApp.LiveSession.StreamEndAsWritten` | App.tsx:121-126 | while listening, it submits the text captured at start; in any other phase it submits nothing and changes nothing |
| `LiveApp.LiveSession.StreamEnd` | App.tsx:121-126 | while listening, it submits the current transcript plus interim; otherwise there is no request and the phase is unchanged, so a second end cannot submit again |
| `LiveApp.LiveSession.ResolveSummary` | App.tsx:77-85 | a reply is stored as the service answers it (the fallback for an empty reply) and the phase becomes result, which keeps "the result phase has a summary"; a failure gives the error phase with the fixed retry message |
| `LiveApp.LiveSession.StopRecording` | App.tsx:137-141 | a stop request is sent exactly when a recogniser exists; the page state does not change |
| `LiveApp.LiveSession.ClickRecordButton` | App.tsx:143-149 | a click changes nothing and sends no stop request while processing (the button is disabled); while listening it changes nothing and only asks the recogniser, if there is one, to stop; otherwise it starts, with the whole new state of `Start` in each of its two branches |
| `LiveApp.LiveSession.Reset` | App.tsx:151-157 | the phase becomes idle with all four strings empty |
| `LiveApp.GreetingIsSummarized` | App.tsx:107-126 | interim "おはよう", interim "おはようございます", then final "おはようございます", then stream end: the summarizer receives "おはようございます" |
| `LiveApp.GreetingIsLostAsWritten` | App.tsx:121-124 | the same session with `onend` as written sends nothing and returns to idle |
| `LegacyApp.ErrorMessage` | src/App.tsx:117-126 | the permission message iff the code is `not-allowed` or `service-not-allowed`; the not-heard message iff `no-speech`; the generic message iff neither |
| `LegacyApp.StatusMessage` | src/App.tsx:153-168 | each of the five phases has a non-empty status line |
| `LegacyApp.StatusMessageInjective` | src/App.tsx:153-168 | distinct phases have distinct status lines |
| `LegacyApp.LastFinalOnlyLast` | src/App.tsx:102-105 | only the last result of a delivery matters: the earlier results and `resultIndex` never change what is kept |
| `LegacyApp.LastFinalAgreesWithAccumulation` | src/App.tsx:102-109 | for a delivery whose only new result is final, both variants take the same final text |
| `LegacyApp.Submission` | src/App.tsx:66-74 | blank text is not sent (iff); other text is sent untrimmed |
| `LegacyApp.LegacySession.constructor` | src/App.tsx:59-62 | the page starts idle with all strings empty |
| `LegacyApp.LegacySession.Start` | src/App.tsx:84-100 | error, transcript and summary are cleared; without recognition: the error phase with the unsupported message; otherwise listening, with the prior phase captured for `onend` |
| `LegacyApp.LegacySession.ProcessTranscript` | src/App.tsx:66-81 | blank text goes to idle with no request; other text goes to processing with the error cleared and a request carrying the untrimmed text |
| `LegacyApp.LegacySession.OnResult` | src/App.tsx:102-109 | a final last result replaces the transcript and is submitted; otherwise nothing changes |
| `LegacyApp.LegacySession.StreamEnd` | src/App.tsx:111-115 | it moves to processing only if the captured phase is listening; with any other captured phase nothing changes |
| `LegacyApp.LegacySession.OnError` | src/App.tsx:117-126 | every code, `no-speech` included, gives the error phase with the classified message |
| `LegacyApp.LegacySession.ResolveSummary` | src/App.tsx:73-81 | a reply is stored as the service answers it (the fallback for an empty reply) and the phase becomes result, which keeps "the result phase has a summary"; a failure gives the error phase with the communication message |
| `LegacyApp.LegacySession.StopRecording` | src/App.tsx:131-136 | a stop request is sent exactly when a recogniser exists, and the phase becomes idle whatever result is pending |
| `LegacyApp.LegacySession.ClickRecordButton` | src/App.tsx:138-144 | a click is ignored while processing; while listening it stops and goes to idle, keeping transcript, summary and error; otherwise it starts, with the whole new state of `Start`; the phase captured for `onend` is never listening |
| `LegacyApp.LegacySession.Reset` | src/App.tsx:146-151 | the phase becomes idle with transcript, summary and error empty |

## Findings

| source | as written | input that shows it | evidently intended | confidence | as-written member | corrected member |
|---|---|---|---|---|---|---|
| App.tsx:121-124 | The `onend` closure reads `transcript` and `interimTranscript` from the render that ran `startRecording`. That is the text from before the session started, which the start is about to clear. | A freshly mounted page: start, then deliveries of interim "おはよう", interim "おはようございます" and final "おはようございます", then the end of the stream. The page returns to idle and the summarizer is never called. | Submit the transcript and interim text heard in this session. | high, not executed | `LiveApp.GreetingIsLostAsWritten` (over `LiveApp.LiveSession.StreamEndAsWritten`) | `LiveApp.GreetingIsSummarized` (over `LiveApp.LiveSession.StreamEnd`) |

## Left out

- Rendering, styling and icons are not modelled (App.tsx:159-254, src/App.tsx:170-256). Only the summary line filter (`VisibleLines`) is kept.
- The Web Speech API objects are not modelled: their construction, the `lang`, `interimResults` and `continuous` settings, and `start()`. Deliveries, end-of-stream and errors are injected as method calls. Availability is a `speechSupported` parameter.
- Only the first alternative of each result is modelled, because that is all either variant reads.
- Late events from an older recogniser object are not modelled. The model assumes one recogniser at a time.
- The summarization service and the network are not modelled: the prompts, the model choice and `console.error` logging. The answer is an injected `SummaryOutcome`. The only part of the service kept is its empty-reply fallback, as `ReplyText` (services/geminiService.ts:28 and src/services/geminiService.ts:24 use the same text), which both sessions apply to a reply.
- The `process.env.API_KEY` lookup itself is not modelled. The mount check takes its result as the constructor's `apiKeyPresent` parameter.
- React scheduling is not modelled: batched `setState`, and the one-render lag of `appStateRef`. Each handler is atomic, and the live `onend` guard reads the current phase.
- The live `onend` stale closure is modelled both as written and as intended (see Findings). The older variant's stale `appState` is modelled as written.
- Only the synchronous half of `processTranscript` is modelled. Whatever follows the `await` is modelled as `ResolveSummary`, which can arrive in any phase.
- Cancellation and generation stamps are not modelled, because the code has none.
- `LiveApp.LiveSession.ProcessTranscript` requires the listening phase, because its only caller, `onend`, checks that phase first.
- The older `getStatusMessage` has a `default: ''` branch that is not modelled. It cannot be reached with five phases.
- An older-variant delivery with an empty result list is modelled as changing nothing. In JavaScript, reading the last result throws before any state is set.
- The older variant's transcript panel is not modelled. It is shown only while processing, and the summary only when non-empty; both are rendering conditions.
