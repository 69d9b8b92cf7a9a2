# Gembot-AI: live session, streaming chat and grounded search, in Dafny

This project models the three parts of the Gembot-AI web app (NimbusIQ/Gembot-AI) that
hold logic rather than layout, and proves properties of them.

- **The live conversation** (`LiveConversation` in `features/AudioStudio.tsx`) is
  modelled as the class `AudioStudio.LiveConversation`. Its fields are the component's
  state: the `isConnecting`/`isActive` flags, the error, the turn log and the two live
  buffers, the six nullable resource refs, and `nextStartTimeRef`. Each callback is one
  method that runs atomically: start, open, message, error, close, unmount and stop.
  Devices, the transport and the audio clock appear only as inputs. Those inputs are
  the answer to each acquisition request, whether the video element is mounted, the
  device time, and the length of a decoded fragment. Each obtained resource becomes a
  `Handle` with a fresh serial. The object also keeps three logs of its effects on the
  outside world: the requests made, the handles released and the fragments scheduled.
  The object invariant `Valid()` says four things:
  - the connecting and active flags are never both set;
  - no handle is released twice;
  - every ref holds an obtained, unreleased handle of its own kind;
  - the playback schedule never overlaps, and the counter marks its end.
- **The chat panel** (`Chatbot` in `features/Chatbot.tsx`) is the class
  `Chatbot.ChatPanel`. It models the history list, the input, the loading flag, the
  error, the model, and the `chatRef` cache.
  - `handleSendMessage` is split at its first `await`. `Send` is the synchronous part.
    `Receive` is the settled reply, whose `for await` loop is the loop in `Stream`.
  - Chunk texts are folded by `Concat`.
  - `ai.chats.create` and `sendMessageStream` are recorded in two logs.
- **The search panel** (`Search` in `features/Search.tsx`) is the class
  `Search.SearchPanel`, plus the pure extraction of `{title, uri}` sources from
  grounding chunks.
  - `handleSearch` is split into `Submit`, which builds the tools and the retrieval
    location and logs the request, and `Settle`, which runs when the request settles.
  - Nothing stops a second search while one is in flight, so the panel counts the
    pending requests.
- `JsText` holds the JavaScript string behaviour the three share:
  - `String.prototype.trim` over the ECMAScript whitespace set;
  - `undefined` read as text;
  - the truthiness of a string that may be `undefined` (used by `Search.TitleOr` for
    `title || fallback`);
  - the `err instanceof Error ? err.message : fallback` idiom.

Some facts of the source that the model states as they are:

- **Stale captured turn.** On turn-complete, `features/AudioStudio.tsx:153` appends the
  `currentTurn` that was captured when the conversation started. It does not append the
  live buffers. The model keeps both and proves which one is logged
  (`LogHoldsOnlyCapturedTurns`, `HelloWorldTurn`).
- **A failed start keeps its streams.** The `catch` of `startConversation` does not tear
  down, so a refused camera or connect leaves the microphone held
  (`CameraRefusalKeepsMicrophone`). The next start then overwrites the microphone ref,
  and the old stream can never be released (`RestartLosesFirstMicrophone`).
- **No camera preview or frames on the first open.** The video element renders only
  while the session is active (`features/AudioStudio.tsx:230-233`). At the first
  `onopen` it is not mounted yet, so line 95 never attaches the camera stream and
  line 124 never starts the frame timer. This relies on React rendering after the
  callback has returned, as it does for the batched `setIsActive(true)` at line 105;
  were that render synchronous, the element would already be mounted at line 124.
  `OnOpen` therefore takes whether the element is mounted as an input, and the model
  covers both cases.
- **The counter survives teardown.** `stopConversation` never resets `nextStartTimeRef`
  (`CounterSurvivesTeardown`).
- **Teardown order.** `stopConversation` releases the session first and the frame
  timer last (`features/AudioStudio.tsx:48-71`). `Stop` releases in that order.
- **Leaks on failure.** A failed start releases nothing it obtained
  (`features/AudioStudio.tsx:187-190`), as above.
- **A failed chat creation loses the input.** If creating the chat throws, the input
  has already been cleared, and the `catch` removes the user's message again. The typed
  text is then gone (`Chatbot.ChatPanel.Send`).
- **Overlapping searches.** Unlike `handleSendMessage`, `handleSearch` has no loading
  guard. Only the disabled controls, after React re-renders, stand between two calls.
  The model therefore lets a second search start while one is in flight. The first
  reply to settle then clears loading while the other is still pending
  (`Search.OverlappingSearches`).

## Model

| member | source | states |
|---|---|---|
| JsText.TrimStart | features/Chatbot.tsx:44 | the result is the suffix of the input starting at its first non-whitespace character; everything cut is ECMAScript whitespace |
| JsText.TrimEnd | features/Chatbot.tsx:44 | the result is the prefix ending at the last non-whitespace character; everything cut is whitespace |
| JsText.TrimEmptyIffBlank | features/Search.tsx:44 | `!s.trim()` holds exactly when every character of `s` is whitespace |
| JsText.TrimIsSlice | features/Search.tsx:44 | `trim` returns a slice of the input with only whitespace cut from either end |
| JsText.Trim | features/Chatbot.tsx:44 | `s.trim()` as `TrimEnd(TrimStart(s))`: by `TrimEmptyIffBlank` empty exactly for blank input, by `TrimIsSlice` a slice of the input with only whitespace cut |
| JsText.ErrorText | features/Chatbot.tsx:68 | the message of an `Error`, or the fallback for any other thrown value; `Catch`, `Request` and `Settle` state the error texts in its terms |
| JsText.AsText | features/Chatbot.tsx:60 | a string that may be `undefined`, used in `+`: an absent text reads "undefined"; `UndefinedChunkShowsAsText` shows it in a stream |
| JsText.Truthy | features/Search.tsx:81-85 | `chunk.web?.uri` as a condition: false for undefined and for ""; `RefSource` states it decides whether a reference yields a source |
| AudioStudio.LiveConversation.constructor | features/AudioStudio.tsx:30-45 | the first render is idle: both flags clear, no error, empty transcript, every ref null, counter 0 |
| AudioStudio.LiveConversation.SetEnableVision | features/AudioStudio.tsx:207 | the vision checkbox sets `enableVision` and keeps the invariant |
| AudioStudio.LiveConversation.Start | features/AudioStudio.tsx:80-191 | a no-op iff already active or connecting; otherwise connecting is set, the error cleared, the log and buffers emptied, the turn and vision flag captured, and the requests, grants, refs, connecting flag and error are exactly those determined by the three answers; nothing is released |
| AudioStudio.LiveConversation.Begin | features/AudioStudio.tsx:83-86 | connecting set, error cleared, log and both buffers empty, the pre-reset turn captured |
| AudioStudio.LiveConversation.Capture | features/AudioStudio.tsx:88-190 | microphone first, camera only with vision on, connect last; stops at the first refusal, which sets the error (message or "Environment capture failed.") and clears connecting |
| AudioStudio.LiveConversation.Request | features/AudioStudio.tsx:89-94 | one awaited request is logged; a grant stores a fresh handle in its ref; a refusal leaves the refs and sets the error |
| AudioStudio.LiveConversation.Acquire | features/AudioStudio.tsx:90 | a newly obtained resource is stored in its ref under a fresh serial, keeping the no-double-release invariant |
| AudioStudio.RequestOrder | features/AudioStudio.tsx:89-100 | the microphone is requested first; the camera iff vision is on and the microphone was granted; the connect iff every stream asked for was granted; every request but the last was granted |
| AudioStudio.GrantsAreRequestsUpToRefusal | features/AudioStudio.tsx:88-190 | the grants are the requests minus a refused last one, and the `catch` receives exactly that refusal |
| AudioStudio.FailedStartKeepsMicrophone | features/AudioStudio.tsx:187-190 | after the microphone is granted, any later refusal leaves it among the grants and no session is obtained |
| AudioStudio.StartRequests | features/AudioStudio.tsx:89-100 | the requests a start issues; `RequestOrder` states their order and when each is made |
| AudioStudio.StartGrants | features/AudioStudio.tsx:89-100 | the requests that were granted; `GrantsAreRequestsUpToRefusal` states they are the requests minus a refused last one |
| AudioStudio.FirstRefusal | features/AudioStudio.tsx:187-188 | the value the `catch` receives; `GrantsAreRequestsUpToRefusal` states it is the answer to the last request exactly when that was refused |
| AudioStudio.StartRefs | features/AudioStudio.tsx:89-185 | the refs after a start: microphone, camera and session overwritten by what was granted, the rest kept; `Start` states its refs are these |
| AudioStudio.LiveConversation.OnOpen | features/AudioStudio.tsx:103-143 | connecting becomes active; an input context is created; a frame timer exactly when the captured vision flag is on and the video element is mounted |
| AudioStudio.LiveConversation.OnMessage | features/AudioStudio.tsx:145-170 | the transcript moves as `Transcribe` says; audio gets an output context (created only if none is held) and, when decoded, is scheduled at `max(counter, device time)` with the counter moved to its end |
| AudioStudio.LiveConversation.Caption | features/AudioStudio.tsx:146-155 | input delta to the user buffer, output delta to the model buffer; turn-complete appends the captured turn and empties both buffers |
| AudioStudio.LiveConversation.Play | features/AudioStudio.tsx:157-169 | a decoded fragment starts at `StartTime(counter, device time)` on the held or new output context; an undecodable one changes neither schedule nor counter |
| AudioStudio.Transcribe | features/AudioStudio.tsx:146-155 | one message's effect on the transcript; `Caption` is proved to compute it, and `LogHoldsOnlyCapturedTurns` states a marker logs the captured turn |
| AudioStudio.TranscribeAll | features/AudioStudio.tsx:145-155 | a run of messages; `LiveBuffersConcatenateDeltas` states each buffer gains its own channel's deltas in order, `LogHoldsOnlyCapturedTurns` that the log gains one captured turn per marker |
| AudioStudio.StartTime | features/AudioStudio.tsx:163 | the start is at or after both the counter and the device time, and equals one of them |
| AudioStudio.ScheduleRun | features/AudioStudio.tsx:163-169 | the start times of a run of fragments; `ScheduleRunIsGapless` states each is at or after its arrival and the previous end, and they never decrease; `ScheduleRunIsTight` that each is exactly the later of the two |
| AudioStudio.CounterAfter | features/AudioStudio.tsx:169 | the counter after a run; `ScheduleRunIsGapless` states it never decreases and ends where the last fragment ends |
| AudioStudio.ScheduleRunIsGapless | features/AudioStudio.tsx:157-169 | over any run of fragments: each starts at or after its arrival time and after the previous fragment ends; starts never decrease; the counter never decreases and ends where the last fragment ends |
| AudioStudio.ScheduleRunIsTight | features/AudioStudio.tsx:163-169 | no unforced gap: each fragment starts exactly at the later of the previous fragment's end and its own arrival time, the first at the later of the counter and its arrival |
| AudioStudio.BackToBackFragments | features/AudioStudio.tsx:163-169 | fragments of 0.5 s and 0.3 s arriving 0.1 s apart play back to back, 0.8 s in all |
| AudioStudio.ScheduleAppend | features/AudioStudio.tsx:168-169 | appending a fragment that starts at or after the counter keeps the schedule free of overlaps and moves the counter to its end |
| AudioStudio.LiveBuffersConcatenateDeltas | features/AudioStudio.tsx:146-151 | between turn boundaries each buffer is its old text followed by its own channel's deltas in arrival order; the log is untouched |
| AudioStudio.LogHoldsOnlyCapturedTurns | features/AudioStudio.tsx:152-155 | the log only gains copies of the captured turn, one per turn-complete marker, whatever the deltas |
| AudioStudio.HelloWorldTurn | features/AudioStudio.tsx:149-155 | deltas "Hel", "lo wo", "rld" build "Hello world"; the following turn-complete logs the captured turn, not "Hello world" |
| AudioStudio.LiveConversation.Stop | features/AudioStudio.tsx:47-74 | every held handle is released once, in the order session, microphone, camera, input context, output context, frame timer; all refs null; both flags false; transcript, error and counter untouched |
| AudioStudio.ReleaseSlot | features/AudioStudio.tsx:48-51 | releasing one non-null ref never releases a handle twice |
| AudioStudio.ReleaseAll | features/AudioStudio.tsx:47-71 | releasing the six refs in turn keeps the release log free of repeats and leaves every ref null |
| AudioStudio.LiveConversation.OnError | features/AudioStudio.tsx:172-175 | the error becomes "Neural connection interrupted: " and the message, then teardown exactly as `Stop` |
| AudioStudio.LiveConversation.OnClose | features/AudioStudio.tsx:176 | remote close tears down exactly as `Stop` |
| AudioStudio.LiveConversation.Unmount | features/AudioStudio.tsx:76-78 | unmount tears down exactly as `Stop` |
| AudioStudio.StopTwiceReleasesOnce | features/AudioStudio.tsx:47-74 | two stops end in the same state as one: the held handles released once, every ref null, both flags clear; the second stop releases nothing |
| AudioStudio.CleanSessionRefs | features/AudioStudio.tsx:90-185 | the refs of a session that started cleanly, opened and played once: every resource obtained, numbered in the order obtained; `CleanSession` states the refs are these |
| AudioStudio.OpenSession | features/AudioStudio.tsx:80-143 | a fresh conversation whose three requests are granted and which opens is active, not connecting, error-free, has released nothing, and holds each obtained resource in its ref; 2 or 3 requests granted as vision is off or on, an input context, and a frame timer iff vision is on and the video element is mounted |
| AudioStudio.CleanSession | features/AudioStudio.tsx:80-169 | the same session after one decoded fragment also holds the newly created output context, and still has released nothing |
| AudioStudio.CleanSessionHoldsEverySerial | features/AudioStudio.tsx:89-185 | the refs of a clean session hold exactly one handle per resource obtained, and some handle for every serial from 0 to the number obtained |
| AudioStudio.ErrorAfterCleanStartReleasesAll | features/AudioStudio.tsx:172-174 | after such a session a transport error sets the error text, nulls every ref, clears both flags, and the release log is exactly the handles the session obtained, in teardown order: one entry per resource and every serial obtained released |
| AudioStudio.CameraRefusalKeepsMicrophone | features/AudioStudio.tsx:88-190 | a refused camera leaves the microphone held and unreleased, no connect issued, both flags clear, the error set to the refusal's message |
| AudioStudio.RestartLosesFirstMicrophone | features/AudioStudio.tsx:80-191 | from that state a new start and a stop leave the old microphone obtained, never released and held by no ref |
| AudioStudio.CounterSurvivesTeardown | features/AudioStudio.tsx:42-74 | after stop, start and open, the next fragment is still scheduled at `max(old counter, device time)`, on a newly created output context |
| Chatbot.ChatPanel.constructor | features/Chatbot.tsx:11-17 | empty history and input, not loading, no error, model "gemini-3-pro-preview", no cached chat |
| Chatbot.ChatPanel.SetInput | features/Chatbot.tsx:125 | the textarea sets the input |
| Chatbot.ChatPanel.SelectModel | features/Chatbot.tsx:24-26 | a different model drops the cached chat; the same model keeps it; the cached chat always belongs to the current model |
| Chatbot.ChatPanel.GetChat | features/Chatbot.tsx:28-40 | a cached chat is returned unchanged; otherwise exactly one chat is created for the current model with the given seed and cached, or nothing is cached if creation throws |
| Chatbot.ChatPanel.Send | features/Chatbot.tsx:42-54 | a no-op iff the input is blank or a reply is awaited; otherwise the user message holding the input is appended, the input cleared, loading set, the error cleared, and the text sent on the cached or a new chat seeded with the prior history; a throwing creation removes the message, sets the error and clears loading |
| Chatbot.ChatPanel.Dispatch | features/Chatbot.tsx:46-54 | the state after the guard passes, on the success and the creation-failure paths |
| Chatbot.ChatPanel.Submit | features/Chatbot.tsx:46-50 | one user message appended, input cleared, loading set, error cleared |
| Chatbot.ChatPanel.Catch | features/Chatbot.tsx:67-69 | the error is the message or "An unknown error occurred.", and exactly one trailing entry is dropped |
| Chatbot.ChatPanel.Receive | features/Chatbot.tsx:54-72 | an unopened stream drops the user message; a completed one appends one model entry holding all chunk texts; an interrupted one leaves the history as before the stream; loading is cleared on every path |
| Chatbot.ChatPanel.Stream | features/Chatbot.tsx:56-69 | after each chunk the last entry holds the concatenation so far and earlier entries are unchanged; the final history ends with the whole text, or, on interruption, without the model entry |
| Chatbot.Concat | features/Chatbot.tsx:56-60 | `currentResponse` after the chunks so far; `ConcatAppend` states it distributes over runs of chunks, `StreamedTextGrows` that the text only grows |
| Chatbot.ConcatAppend | features/Chatbot.tsx:59-60 | folding two runs of chunks gives the two texts joined |
| Chatbot.StreamedTextGrows | features/Chatbot.tsx:59-65 | the streamed text after `i` chunks is a prefix of the text after any later chunk |
| Chatbot.UndefinedChunkShowsAsText | features/Chatbot.tsx:60 | a chunk without text appends the word "undefined" |
| Chatbot.ReplaceLast | features/Chatbot.tsx:61-64 | the last entry is replaced; the length and all earlier entries are unchanged |
| Chatbot.DropLast | features/Chatbot.tsx:69 | `slice(0, -1)` removes exactly the last entry, and leaves an empty list empty |
| Chatbot.DropLastUndoesAppend | features/Chatbot.tsx:67-69 | dropping the last entry undoes the append made just before |
| Chatbot.SecondSendReusesChat | features/Chatbot.tsx:28-40 | two exchanges create at most one chat, and both messages go to the same chat |
| Chatbot.ModelChangeStartsNewChat | features/Chatbot.tsx:24-40 | after a model change the next send creates one new chat for that model, seeded with the history before the message |
| Search.RetrievalLocation | features/Search.tsx:64-71 | the location is sent iff maps grounding is on and a location is known, and it is that location |
| Search.BuildTools | features/Search.tsx:54-57 | Google Search always and first; Google Maps after it iff maps grounding is on |
| Search.RefSource | features/Search.tsx:81-86 | a reference gives one source iff its uri is non-empty, titled by its title or the fallback |
| Search.TitleOr | features/Search.tsx:82-85 | the title, or the fallback when it is undefined or empty; `RefSource` and `ChunkSourcesShape` state the defaults "Web Source" and "Map Location" |
| Search.ChunkSources | features/Search.tsx:80-87 | the `flatMap` callback; `ChunkSourcesShape` states its length, order, titles and non-empty uris |
| Search.ChunkSourcesShape | features/Search.tsx:79-87 | a chunk gives at most two sources, the web one first and the maps one last, each with a non-empty uri and defaults "Web Source" / "Map Location" |
| Search.FlatSources | features/Search.tsx:79-87 | at most two sources per chunk, each with a non-empty uri |
| Search.ExtractSources | features/Search.tsx:79-89 | the sources stored; `ExtractedSourceOrigin` states a source is extracted iff some chunk contributes it and it is not "#", `ExtractSourcesAppend` that chunk order is kept |
| Search.WithoutPlaceholders | features/Search.tsx:88 | the filter never lengthens the list |
| Search.WithoutPlaceholdersMembers | features/Search.tsx:88 | a source is kept iff its uri is not "#" |
| Search.WithoutPlaceholdersKeepsTheRest | features/Search.tsx:88 | a list without "#" passes unchanged, in order |
| Search.FlatSourcesAppend | features/Search.tsx:79-87 | flattening works chunk by chunk |
| Search.WithoutPlaceholdersAppend | features/Search.tsx:88 | filtering works piece by piece |
| Search.ExtractSourcesAppend | features/Search.tsx:79-88 | chunk order is preserved in the extracted sources |
| Search.FlatSourceOrigin | features/Search.tsx:79-87 | a source is flattened iff some chunk contributes it |
| Search.ExtractedSourceOrigin | features/Search.tsx:79-88 | a source is extracted iff it is not "#" and some chunk contributes it |
| Search.ExtractedSourcesAreReal | features/Search.tsx:79-88 | no extracted source has uri "#" or an empty uri |
| Search.ExtractionExample | features/Search.tsx:79-88 | an untitled web reference becomes "Web Source", a "#" reference is dropped, an empty uri gives nothing |
| Search.SearchPanel.constructor | features/Search.tsx:15-23 | query empty, maps grounding on, no location, nothing shown, model "gemini-2.5-flash" |
| Search.SearchPanel.SetQuery | features/Search.tsx:107 | the textarea sets the query |
| Search.SearchPanel.SetUseMaps | features/Search.tsx:136 | the toggle sets maps grounding |
| Search.SearchPanel.SetLocation | features/Search.tsx:30-33 | the geolocation callback stores the position |
| Search.SearchPanel.Submit | features/Search.tsx:43-73 | a no-op iff the query is blank; otherwise loading set, error, result and sources cleared, and one request logged with the model, the query, exactly the tools `[googleSearch]` or `[googleSearch, googleMaps]` as maps grounding is off or on, and the retrieval location |
| Search.SearchPanel.Request | features/Search.tsx:46-73 | once the guard passes: the same cleared state, one more pending request, and the same logged request with its exact tools list |
| Search.SearchPanel.Settle | features/Search.tsx:75-97 | an answer stores its text and, when chunks came back, the extracted sources; a rejection stores the error; loading is cleared on both paths; stored sources are never "#" |
| Search.OverlappingSearches | features/Search.tsx:43-97 | with two searches in flight, the first to settle clears loading while the other is still pending; the last to settle decides the result |

## Left out

- PCM and base64 framing (`features/AudioStudio.tsx:113-118`) and `decodeAudioData` are floating-point and foreign code. A fragment is reduced to its decoded length, or to "undecodable".
- Video frame capture (`features/AudioStudio.tsx:124-143`): the canvas, JPEG encoding, the FileReader and the frames sent. These are browser I/O. Only the frame timer's handle, held or cleared, is modelled.
- Audio upload through the script processor (`features/AudioStudio.tsx:110-121`) is not modelled. Neither is the `connect` configuration (model name, modalities, system instruction, lines 178-183).
- Interleaving inside callbacks is not modelled. `onmessage` reads the counter before `await decodeAudioData` and writes it afterwards, and `startConversation` awaits three times. Each callback is modelled as one atomic step, so the race between concurrent messages is not captured.
- `getUserMedia`, `ai.live.connect`, `AudioContext`, `ai.chats.create`, `sendMessageStream` and `generateContent` are foreign APIs. Their outcomes are method parameters. Their calls appear only as log entries.
- AudioStudio.Refs: the six refs are grouped in one record field instead of six fields, so a ref is updated by replacing the record.
- AudioStudio.LiveConversation.Acquire: the handle a device or context would return is modelled by a serial counter. Two acquisitions therefore never yield the same handle.
- Search.SearchPanel.Settle: overlapping searches are modelled by counting pending requests. Which reply belongs to which request is not tracked.
- The geolocation effect (`features/Search.tsx:26-41`) is reduced to `SetLocation`. Its error message and the effect's trigger conditions are not modelled.
- Chatbot.ChatPanel.SelectModel: no control of the chat panel calls `setModel`. The method models a model change made by other means, followed by the effect at `features/Chatbot.tsx:24-26`.
- The search panel's model select (`features/Search.tsx:130`) and its settings toggle are not modelled as operations. The model is a field that `Submit` copies into the request.
- An empty audio payload is falsy at `features/AudioStudio.tsx:158`. The model folds it into a message without audio.
- The chat's system instruction, the SDK chat's own history, Markdown rendering and the scroll effect (`features/Chatbot.tsx:20-22`) are not modelled.
- `TextToSpeech`, `features/VideoStudio.tsx`, `features/ImageStudio.tsx`, `features/NeuralStudio.tsx`, `App.tsx` and the components are not part of this model. They are one-shot requests and static UI.
- JSX rendering and React's batching of state updates are not modelled. Each setter is an immediate, sequential update. There are four exceptions, where a handler reads a value its closure captured rather than the state as updated:
  - the turn appended on turn-complete (`features/AudioStudio.tsx:153`), which is `capturedTurn`;
  - the vision flag read after the awaits of `startConversation` and in `onopen` (`features/AudioStudio.tsx:92`, `:124`), which is `capturedVision`. The checkbox stays usable while connecting;
  - the history a new chat is seeded with (`features/Chatbot.tsx:33`), which is the history before the user's message;
  - the text sent (`features/Chatbot.tsx:54`), which is the input before `setInput('')` cleared it.
