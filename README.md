# Speech-to-text session hook and background-colour loader, in Dafny

This project models the two pieces of logic in the `web6-react` front end.

1. `useSpeech` is the React hook that drives the browser's speech recogniser (the `SpeechRecognition` interface of the W3C Web Speech API). It turns recognition events into a transcript:
   - final text is committed and only grows;
   - interim text is pending and is replaced, never accumulated;
   - the consumer sees committed text followed by interim text.

   The hook also maps engine error codes to fixed messages. It guards the listening lifecycle (`startListening`, `stopListening`, `toggleListening`) and checks once, at mount, whether the browser offers an engine.
2. `bgColorLoader` is the router's loader. It takes the last non-empty `/`-segment of the pathname as the page name, or `default` when there is none. It then looks up the page's background colour in a fixed table, with a fallback colour.

Modules:

- `Maybe` (`maybe.dfy`): `Option`, for `string | null` and `string | undefined`.
- `SpeechTranscript` (`transcript.dfy`): the `onresult` loop as a method, proved against `FinalText`/`InterimText`. Also the pure transitions of the transcript state `(committed, interim)` for result, start and end events, and the lemmas about them.
- `SpeechErrors` (`errors.dfy`): the messages, the code-to-message function, and its inverse.
- `SpeechSession` (`session.dfy`): class `Session`, with the hook's state as fields. It has one method per engine event and per consumer call. Each method is proved against the transitions of `SpeechTranscript` and keeps the invariant `Valid()`:
  - support status and engine agree;
  - listening implies an engine;
  - committed text is empty or ends in a space.

  The module also holds the default options and three client scenarios.
- `Routes` (`routes.dfy`): JavaScript's `split('/')` and `filter`, the page name, and the colour lookup, as pure functions.

Modelling choices:

- Each React state setter is a direct field assignment, applied in the order the handler calls them.
- The engine is abstracted away:
  - events are method calls;
  - the outcome of `start()` (returns, throws `InvalidStateError`, or throws another error with a message) is a parameter;
  - the calls made on the engine are logged in `engineCalls`.
- Only alternative 0 of each result is read, so a result is a `(text, isFinal)` pair.
- Browser detection is the boolean `available` given to `Session.Mount`.
- The `onresult` handler filters interim text by the `interimResults` option it captured at mount (`handlerInterimResults`). It does not use the option of later renders: those only reach the engine's fields (`Session.Configure`). This is how the source behaves.
- `onend` flushes the live interim buffer, which is what the flush code evidently intends. The source tests a value captured at mount instead; see "## Findings".
- Three behaviours of the code may surprise a reader; the model keeps them:
  - `onerror` sets `isListening` to false itself, without waiting for `onend`;
  - a restart while listening still calls `start()`, and the `InvalidStateError` it throws becomes the already-active message (`Session.StartListening`, `RestartWhileListening`);
  - several final results in one event are joined with no space between them, and one trailing space is added per event (`ReplayAppends`, `OneFinalPerEvent`).

## Model

| member | source | states |
|---|---|---|
| `SpeechSession.ResolveOptions` | web6-react/src/hooks/useSpeech.ts:29 | an absent option takes its default (continuous off, interim results on, language "ko-KR"); a given option is kept |
| `SpeechSession.Session.constructor` | web6-react/src/hooks/useSpeech.ts:31-44 | first render: empty transcript and interim text, not listening, no error, not supported with a null message, no engine, no engine calls |
| `SpeechSession.Session.Mount` | web6-react/src/hooks/useSpeech.ts:47-70 | without an engine: unsupported with the fixed browser message and no engine. With one: supported, null message, an engine with the current options, and the handlers capture `interimResults` |
| `SpeechSession.Session.Configure` | web6-react/src/hooks/useSpeech.ts:147-154 | after the mount effect, new options reach the engine only if it exists; transcript, listening state and the handlers' captured flag are unchanged |
| `SpeechTranscript.CollectResults` | web6-react/src/hooks/useSpeech.ts:72-84 | the loop's final and interim accumulators are the concatenated alternative-0 texts of the final and non-final results from `resultIndex` to the end; earlier results are never read, and an index past the end reads nothing |
| `SpeechTranscript.FinalTextConcat` | web6-react/src/hooks/useSpeech.ts:77-84 | final text of a sequence of results is the final text of its parts, in order |
| `SpeechTranscript.InterimTextConcat` | web6-react/src/hooks/useSpeech.ts:77-84 | interim text of a sequence of results is the interim text of its parts, in order |
| `SpeechTranscript.FinalInterimPartition` | web6-react/src/hooks/useSpeech.ts:79-83 | all-final results give all their text as final and none as interim; all-interim results the reverse |
| `SpeechSession.Session.OnResult` | web6-react/src/hooks/useSpeech.ts:72-96 | new state is `AfterEvent` of the old one with the captured interim flag; old committed text is a prefix of the new; `Valid()` kept |
| `SpeechTranscript.EventAppendsCommitted` | web6-react/src/hooks/useSpeech.ts:87-90 | committed text becomes old + final + one space when final text is non-empty and is otherwise unchanged; ending in a space is preserved |
| `SpeechTranscript.EventReplacesInterim` | web6-react/src/hooks/useSpeech.ts:87-95 | the interim buffer becomes the event's interim text when that text is non-empty and the flag is on; otherwise final text empties it, or it is kept. It becomes the event's interim text itself, never that text appended to the old buffer |
| `SpeechTranscript.EmptyEventChangesNothing` | web6-react/src/hooks/useSpeech.ts:87-95 | an event whose new results all have empty text leaves the state unchanged |
| `SpeechTranscript.InterimDroppedWhenDisabled` | web6-react/src/hooks/useSpeech.ts:93-95 | with interim results off, the buffer after an event is the old buffer or empty, never the event's interim text |
| `SpeechTranscript.InterimReplacedNotAccumulated` | web6-react/src/hooks/useSpeech.ts:92-95 | two interim-only events leave exactly the second one's text pending and commit nothing |
| `SpeechTranscript.ReplayAppends` | web6-react/src/hooks/useSpeech.ts:86-90 | after any run of events, committed text is the old text followed by each event's final text plus one space, in order |
| `SpeechTranscript.FinalOnlyReplay` | web6-react/src/hooks/useSpeech.ts:86-90 | a run of final-only events, starting with nothing pending, leaves nothing pending and appends exactly what the events commit |
| `SpeechTranscript.OneFinalPerEvent` | web6-react/src/hooks/useSpeech.ts:88 | when each event brings one non-empty final result, committed text is each result's text followed by one space |
| `SpeechSession.Session.OnStart` | web6-react/src/hooks/useSpeech.ts:99-105 | listening, error cleared, committed and interim text both empty, nothing displayed |
| `SpeechSession.Session.OnEnd` | web6-react/src/hooks/useSpeech.ts:108-116 | not listening; new state is `AfterEnd` of the old (pending text committed with one space, buffer emptied); committed text only grows |
| `SpeechTranscript.EndFlushIdempotent` | web6-react/src/hooks/useSpeech.ts:112-115 | after the end flush nothing is pending, and a second flush changes nothing |
| `SpeechTranscript.EndKeepsDisplay` | web6-react/src/hooks/useSpeech.ts:108-116 | the end of a session changes the displayed text only by the space after flushed interim text |
| `SpeechTranscript.StaleEndKeepsInterim` | web6-react/src/hooks/useSpeech.ts:112-115 | with the captured empty value, pending "wor" is not flushed, where the live flush commits "hello wor " |
| `SpeechSession.Session.OnError` | web6-react/src/hooks/useSpeech.ts:119-134 | not listening, and the error is the code's message |
| `SpeechErrors.ErrorMessageClassifies` | web6-react/src/hooks/useSpeech.ts:121-131 | each of the four known codes has its fixed message; a code gets the generic "Speech recognition error: " message, quoting the code, exactly when it is not a known code |
| `SpeechErrors.FixedMessagesAreNotGeneric` | web6-react/src/hooks/useSpeech.ts:121-131 | no fixed message begins with the generic prefix |
| `SpeechErrors.ErrorMessageRoundTrip` | web6-react/src/hooks/useSpeech.ts:121-131 | reading the code back from a code's message gives the code |
| `SpeechErrors.ErrorMessageInjective` | web6-react/src/hooks/useSpeech.ts:121-131 | distinct codes give distinct messages |
| `SpeechSession.Session.StartListening` | web6-react/src/hooks/useSpeech.ts:156-171 | supported: one `start()` call; an invalid-state exception gives the already-active message, any other exception "Error starting speech recognition: " + its message, a normal return keeps the error. Unsupported: no engine call, error := support message (null before the check). Transcript and listening never change |
| `SpeechSession.Session.StopListening` | web6-react/src/hooks/useSpeech.ts:173-177 | one `stop()` call exactly when listening, otherwise no engine call |
| `SpeechSession.Session.ToggleListening` | web6-react/src/hooks/useSpeech.ts:179-185 | when listening, it behaves as stop; otherwise as start with the given outcome |
| `SpeechSession.HelloStep` | web6-react/src/hooks/useSpeech.ts:87-90 | from an empty start, an event with the final result "hello" gives ("hello ", "") |
| `SpeechSession.WorStep` | web6-react/src/hooks/useSpeech.ts:77-95 | an event that resends "hello" and adds the interim "wor" from index 1 gives ("hello ", "wor"): the resent result is skipped |
| `SpeechSession.WorldStep` | web6-react/src/hooks/useSpeech.ts:77-95 | the final "world" from index 1 then gives ("hello world ", ""): committed, and the pending "wor" is dropped |
| `SpeechSession.HelloWorldSession` | web6-react/src/hooks/useSpeech.ts:72-116 | the session shows "hello ", "hello wor", "hello world ", ends with "hello world ", and is no longer listening |
| `SpeechSession.RestartWhileListening` | web6-react/src/hooks/useSpeech.ts:156-171 | starting again while listening leaves the displayed text and listening state alone and sets the already-active message |
| `SpeechSession.StartWithoutSupport` | web6-react/src/hooks/useSpeech.ts:156-171 | in an unsupported browser a toggle makes no engine call and reports the browser message |
| `Routes.Split` | web6-react/src/router/routes.tsx:18 | `split('/')` always gives at least one piece, the empty string giving [""] |
| `Routes.SplitAtSeparator` | web6-react/src/router/routes.tsx:18 | `split('/')` of a + "/" + b is the pieces of a followed by those of b |
| `Routes.SplitWithoutSeparator` | web6-react/src/router/routes.tsx:18 | a string without '/' splits into itself alone |
| `Routes.NonEmptyConcat` | web6-react/src/router/routes.tsx:18 | filtering out empty pieces distributes over concatenation |
| `Routes.SegmentsAtSeparator` | web6-react/src/router/routes.tsx:18 | the segments of a + "/" + b are those of a followed by those of b |
| `Routes.SegmentsOfName` | web6-react/src/router/routes.tsx:18 | a non-empty name without '/' is a single segment |
| `Routes.SlashesIgnored` | web6-react/src/router/routes.tsx:18 | leading, trailing and doubled slashes do not change the segments |
| `Routes.SegmentsAreNames` | web6-react/src/router/routes.tsx:18 | every segment is non-empty and contains no '/' |
| `Routes.NoSegmentsIffOnlySlashes` | web6-react/src/router/routes.tsx:18-19 | a pathname has no segments exactly when it is made of slashes only |
| `Routes.LastSegmentIsPage` | web6-react/src/router/routes.tsx:19 | the page name of prefix + "/" + name is that name, whatever the prefix |
| `Routes.OnlySlashesIsDefault` | web6-react/src/router/routes.tsx:19 | a pathname of slashes only names the "default" page |
| `Routes.BackgroundColor` | web6-react/src/router/routes.tsx:14-34 | the loader's colour is always one of the table's values and never empty |
| `Routes.KeyGetsItsColor` | web6-react/src/router/routes.tsx:23-29 | a page name that is a table key gets that key's colour |
| `Routes.OtherPageGetsFallback` | web6-react/src/router/routes.tsx:31 | any other page name gets "#f0f0f0" |
| `Routes.KeyAfterPrefix` | web6-react/src/router/routes.tsx:17-29 | a table key without '/' after any prefix and a separator gets that key's colour |
| `Routes.PageColors` | web6-react/src/router/routes.tsx:6-12 | after any prefix, page1 is red, page2 green, dashboard purple, settings darkblue and default "#f0f0f0" |
| `Routes.EarlierSegmentsIgnored` | web6-react/src/router/routes.tsx:17-33 | "/page1/x" names page x and gets the fallback; "/" gets the fallback |

## Findings

| source | as written | input that shows it | evidently intended | confidence | as-written member | corrected member |
|---|---|---|---|---|---|---|
| web6-react/src/hooks/useSpeech.ts:112-115 | `onend` tests and flushes `currentInterimTranscript` as the handler captured it when it was installed by the mount-only effect (line 145). That value is always the initial empty string, so pending interim text is never committed at the end of a session | pending interim "wor" after committed "hello ": as written the state stays ("hello ", "wor"); the intended flush gives ("hello wor ", "") | flush the live interim buffer: commit it with one trailing space and empty the buffer | not executed; high (the effect's empty dependency list freezes the closure) | `SpeechTranscript.StaleEndKeepsInterim` | `SpeechTranscript.EndFlushIdempotent` |

`SpeechSession.Session.OnEnd` uses the corrected flush (`AfterEnd`).

## Left out

- React scheduling is not modelled: batching of state updates, re-render timing, `useCallback` memoisation and functional `prev =>` updates. Setters are applied immediately, in handler order.
- The recognition engine itself is not modelled: audio capture, recognition, and the delay between `start()` and `onstart`. Events are explicit method calls. A start failure is a parameter.
- Browser detection through `window` (`webkitSpeechRecognition` / `SpeechRecognition`) is the boolean given to `Session.Mount`.
- Detaching the handlers on unmount is host lifecycle plumbing and is not modelled. The event methods require that an engine exists, because only an installed handler receives events.
- `Session.Configure` records the options pushed into the engine as a value. The engine's reaction to `continuous` and `lang` is not modelled.
- `console.log` and `console.error` are left out.
- The UI components (`ChatInput`, `Speech`, the pages and `main`) only render or forward calls, and are not part of this model.
- In the router, `createBrowserRouter`/`RouterProvider` wiring and `new URL(...)` parsing are left out: the model starts from the pathname string. The async `Promise` shape of the loader and its `{ backgroundColor }` wrapper are also left out.
- Strings are sequences of Unicode scalar values, not JavaScript's UTF-16 code units, and lone surrogates are not represented. Splitting on '/' and concatenation give the same pieces either way.
