# Azure speech-to-text demo application — Dafny model

This project models the deterministic rules of a Python application that
transcribes speech with Azure services: the Azure Speech SDK (microphone
and file recognition), Azure Fast Transcription, GPT-4o file
transcription, and GPT-4o realtime transcription over a websocket (Azure
OpenAI or OpenAI). It also models two MP3-to-WAV command-line utilities.
The Gradio UI, threads, asyncio tasks, sockets, SDKs and the clock are
not modelled. Their outcomes are parameters, and the model describes what
the application does with them:

- how streamed messages fold into partial text and transcript history;
- how a completed transcript is decoded;
- which queued event each protocol message becomes;
- the start/stop/clear guards of every session object;
- parameter validation;
- the status lines and results the file services return;
- output naming, filtering, accounting and exit codes of the converters.

Modules follow the source files:

| module | models |
|---|---|
| `Common`, `Text`, `Paths` | `None`/truthiness, the `str` methods used, POSIX `os.path.splitext`/`join` |
| `Protocol`, `SessionConfig` | realtime message fields, completed-transcript decoding, accepted parameter values, credentials |
| `GradioService` | gradio/services/gradio_transcription_service.py |
| `StreamingService` | gradio/services/streaming_transcription_service.py |
| `RealtimeTab` | gradio/tabs/gpt4o_realtime_tab.py |
| `RealtimeService` | gradio/services/gpt4o_realtime_service.py |
| `SpeechRecognition` | gradio/services/speech_recognition.py |
| `MicrophoneTab`, `FileTab` | gradio/tabs/microphone_tab.py, gradio/tabs/file_tab.py |
| `FastTranscription`, `Gpt4oFile`, `ProcessingInfo` | gradio/services/fast_transcription.py, gradio/services/gpt4o_file_service.py, gradio/utils.py |
| `Mp3ToWav` | mp3_to_wav.py, mp3_to_wav_utility.py |

Only the realtime tab's fold drops blank completed transcripts
(`RealtimeTab.FoldHistory`). The Gradio-enhanced service's completed
handler appends every decoded transcript, the empty one too
(`GradioService.OnCompleted`, `GradioService.RunHistory`).

## Model

| member | source | states |
|---|---|---|
| Text.Strip | gradio/services/fast_transcription.py:86 | `str.strip()`: the result is empty exactly when the input is empty or whitespace only |
| Text.StripSlice | gradio/services/fast_transcription.py:86 | the stripped text is the slice of the input between a leading and a trailing run of whitespace |
| Text.StripTrims | gradio/services/fast_transcription.py:86 | the stripped text neither starts nor ends with whitespace, so the runs cut off are the longest ones; an already trimmed input is returned unchanged |
| Text.Contains | gradio/tabs/gpt4o_realtime_tab.py:225-236 | `sub in s` holds exactly when `sub` occurs at some position of `s` |
| Text.BeforeFirst | gradio/services/gpt4o_file_service.py:59 | `s.split(sep)[0]` is a prefix of `s` that contains no occurrence of `sep` and is followed by one, unless it is all of `s` |
| Text.BeforeFirstWhole | gradio/services/gpt4o_file_service.py:59 | the split keeps the whole string if and only if the separator does not occur in it |
| Text.JoinSnoc | gradio/services/gradio_transcription_service.py:354 | joining one more history entry extends the joined text at its end only, by a separator and that entry |
| Paths.SplitExt | mp3_to_wav_utility.py:26 | `os.path.splitext`: root and extension concatenate back to the path; the extension is empty or one '.' followed by no '.' or '/'; the extension is non-empty exactly when the last '.' comes after the last '/' and the part of the last component before it is not all dots |
| Paths.SplitExtOfNamed | mp3_to_wav_utility.py:84 | a plain name "stem.ext" splits into the stem and ".ext" |
| Paths.SplitExtOfDotName | mp3_to_wav_utility.py:26 | a leading-dot name such as ".mp3" has no extension |
| Paths.Join | mp3_to_wav_utility.py:81-85 | two-argument `os.path.join`: an absolute second part wins; otherwise the result ends with the second part, with one '/' inserted unless the first part is empty or ends with '/' |
| Common.Option.GetOr | gradio/services/gradio_transcription_service.py:126 | `dict.get(key, default)`: the stored value when there is one, the default otherwise |
| Protocol.CompletedTranscript | gradio/services/gradio_transcription_service.py:142-150 | for Azure, the `text` member of the JSON-decoded transcript (`""` if missing), or the raw transcript when decoding fails or gives no object; for OpenAI, the raw transcript; a missing transcript reads as `""` |
| SessionConfig.ServiceOf | gradio/services/gradio_transcription_service.py:401-402 | exactly "azure" and "openai" are accepted service types, naming the Azure OpenAI and the OpenAI service respectively |
| SessionConfig.ModelOf | gradio/services/gradio_transcription_service.py:404-405 | exactly the two GPT-4o transcribe model ids are accepted: "gpt-4o-transcribe" gives the full model and "gpt-4o-mini-transcribe" the mini model |
| SessionConfig.NoiseOf | gradio/services/gpt4o_realtime_service.py:310 | exactly "near_field" and "far_field" name a noise-reduction mode, the near-field and the far-field one respectively |
| GradioService.Init | gradio/services/gradio_transcription_service.py:48-104 | a new service is idle, not terminated, with empty history, partial text and queue |
| GradioService.OnDelta | gradio/services/gradio_transcription_service.py:119-133 | a delta extends the partial text by the delta (default `""`) and queues the new text; history and flags are untouched |
| GradioService.OnCompleted | gradio/services/gradio_transcription_service.py:135-160 | a completion clears the partial text, appends the decoded transcript to history even when empty, and queues both |
| GradioService.LastCut | gradio/services/gradio_transcription_service.py:156 | the position after the last completed message: everything after it is not a completion |
| GradioService.RunHistory | gradio/services/gradio_transcription_service.py:119-160 | over any message stream, history grows by exactly the decoded completed transcripts, in arrival order; deltas never reach it |
| GradioService.RunCurrent | gradio/services/gradio_transcription_service.py:119-160 | the partial text is exactly the deltas received since the last completed message |
| GradioService.DeltasThenCompleted | gradio/services/gradio_transcription_service.py:119-160 | deltas then one completion leave one new history entry, the completion's transcript, and an empty partial text |
| GradioService.Start | gradio/services/gradio_transcription_service.py:164-196 | starting always succeeds and resets termination, history, partial text and the UI queue while keeping service type and duration |
| GradioService.Stop | gradio/services/gradio_transcription_service.py:313-337 | stopping an idle service is refused with no change; otherwise termination is signalled, recording ends and the transcript is kept |
| GradioService.StopTwice | gradio/services/gradio_transcription_service.py:320-326 | a second stop right after a successful one is refused and changes nothing |
| GradioService.CurrentStateAsWritten | gradio/services/gradio_transcription_service.py:339-356 | the snapshot as the code builds it reports the partial text and the history joined by newlines (its status is stated by DoubledStatusPrefix) |
| GradioService.DoubledStatusPrefix | gradio/services/gradio_transcription_service.py:356 | the status as written always begins "Status: Status: " and differs from the intended one |
| GradioService.CurrentState | gradio/services/gradio_transcription_service.py:346-354 | the intended snapshot: the recording status if and only if recording, the ready status otherwise, the partial text, and the history joined by newlines (empty for an empty history) |
| GradioService.SinglePrefix | gradio/services/gradio_transcription_service.py:346-356 | the corrected status carries "Status: " once, followed directly by the recording or ready text |
| GradioService.CompletedExtendsHistoryText | gradio/services/gradio_transcription_service.py:157 | after a completion the displayed history gains one line at its end |
| GradioService.ClearHistory | gradio/services/gradio_transcription_service.py:358-366 | clearing empties history and partial text and keeps the flags and the pending queue |
| GradioService.EndReasonOf | gradio/services/gradio_transcription_service.py:289-294 | a run ended by the user exactly when the termination event was set, else by the time limit |
| GradioService.WaitForEnd | gradio/services/gradio_transcription_service.py:284-286 | the wait loop stops at the first check where the duration is used up or termination is set; all earlier checks had neither |
| GradioService.RunEnd | gradio/services/gradio_transcription_service.py:288-309 | at the end of a run the reason (stopped by user exactly when the termination event is set, else the time limit) is queued; an exception raised before that queues only the error status, one raised while cancelling the websocket task queues it after the reason; recording is off in every case, and the transcript is kept |
| GradioService.Validate | gradio/services/gradio_transcription_service.py:400-410 | rejects an unknown service type first, then an unknown model, then an unknown noise setting; accepts exactly the valid triples, with "none" normalised to no noise reduction; an accepted triple carries the service, model and noise mode the names denote |
| GradioService.StartRealtime | gradio/services/gradio_transcription_service.py:374-450 | "recording started" is reported if and only if the parameters validate and the chosen service has credentials; an invalid service type, model or noise setting gives its own status, checked in that order before any credential; valid parameters without the chosen service's credentials give the missing-Azure or missing-OpenAI status; on any failure the module's service is unchanged; on success the new service is recording with empty history |
| GradioService.StopRealtime | gradio/services/gradio_transcription_service.py:453-472 | no service gives a notice; an idle one gives the refusal; a recording one is stopped and its partial text and history are returned |
| GradioService.GetRealtimeStatus | gradio/services/gradio_transcription_service.py:476-488 | ready status without a service; otherwise the service's snapshot as written: its status line doubled to "Status: Status: …" (recording or ready), its partial text and its history joined by newlines |
| GradioService.ClearRealtimeHistory | gradio/services/gradio_transcription_service.py:491-505 | an existing service's transcript is cleared without touching its recording flag; the reply never carries text |
| GradioService.StopThenStatus | gradio/services/gradio_transcription_service.py:453-488 | after a stop the status query reads "Status: " followed by the ready status, and a further stop is refused |
| StreamingService.Dispatch | gradio/services/streaming_transcription_service.py:86-172 | each of the seven handled message types becomes its specific queued event; every other type, or none, enqueues nothing |
| StreamingService.Receive | gradio/services/streaming_transcription_service.py:174-241 | whatever happens, the receive loop's last queued event is "Message receiving complete" |
| StreamingService.ReceiveOrder | gradio/services/streaming_transcription_service.py:176-208 | while the connection stays up, the queue holds exactly the events of the decoded objects in arrival order; non-JSON frames are skipped |
| StreamingService.BodyIsObjectEvents | gradio/services/streaming_transcription_service.py:176-208 | before the `finally` clause, the loop enqueues the decoded objects' events and nothing else |
| StreamingService.ReceiveStopsAtFailure | gradio/services/streaming_transcription_service.py:210-241 | a close or exception ends receiving: its status or error event is queued and nothing after it is read |
| StreamingService.FailureBody | gradio/services/streaming_transcription_service.py:210-234 | the events before the `finally` clause end with the failure's event |
| StreamingService.TimeRemaining | gradio/services/streaming_transcription_service.py:277-279 | the remaining time is never negative, never more than the duration, exact while time is left, and 0 once the duration is used up |
| StreamingService.Annotate | gradio/services/streaming_transcription_service.py:275-279 | only status events gain a time-remaining value; other events pass through unchanged |
| StreamingService.DeliveredSnoc | gradio/services/streaming_transcription_service.py:266-297 | yielding a queued event extends the delivered events by it; a tick delivers nothing |
| StreamingService.Consume | gradio/services/streaming_transcription_service.py:266-297 | the consumer passes on a prefix of the queue in order; each yielded item comes from a distinct poll, in poll order, made before the deadline: a queued event only from a poll that found the queue ready, annotated with the time remaining at that poll's clock, and a tick showing that poll's clock and remaining time; ticks are at strictly increasing seconds; it stops before running out of polls only at a poll past the deadline or when the timer had fired at a poll that yielded, and by then has taken one queued event per ready poll as far as the queue reaches |
| StreamingService.RenderAll | gradio/services/streaming_transcription_service.py:286-297 | one event per consumer item, each rendered in place |
| StreamingService.ReadyPollsAll | gradio/services/streaming_transcription_service.py:270-283 | when every poll comes before the deadline and finds an event ready, every poll counts as one taken event |
| StreamingService.Framed | gradio/services/streaming_transcription_service.py:377-389 | a stream between the opening status and the final "Transcription session ended" holds that final status exactly once when nothing in between is one, and the events in between are passed on unchanged |
| StreamingService.StreamTranscription | gradio/services/streaming_transcription_service.py:32-391 | a second start yields only "Already recording"; otherwise the stream opens with the starting status, ends with "Transcription session ended" exactly once, and recording is off afterwards; a refused connection yields its error second; a failed configuration yields connection, error and end; once configured, the opening, the two configuration statuses, then exactly the consumer's rendered output and the end reach the caller, and what the consumer passes on is a prefix of the received queue |
| StreamingService.CountSessionEndsAppend | gradio/services/streaming_transcription_service.py:377-389 | session-end events of concatenated streams add up |
| StreamingService.NoSessionEndCount | gradio/services/streaming_transcription_service.py:377-389 | a stream without the terminal status counts none |
| StreamingService.QueueUnannotated | gradio/services/streaming_transcription_service.py:174-241 | events from the receive loop carry no time remaining |
| StreamingService.BodyUnannotated | gradio/services/streaming_transcription_service.py:86-208 | no handler attaches a time remaining |
| StreamingService.NoSessionEndInQueue | gradio/services/streaming_transcription_service.py:174-241 | the receive loop never produces "Transcription session ended" |
| StreamingService.NoSessionEndInBody | gradio/services/streaming_transcription_service.py:127-172 | none of the handlers' status texts is the terminal status |
| StreamingService.NoSessionEndInRendered | gradio/services/streaming_transcription_service.py:286-297 | ticks and forwarded queue events never render as the terminal status |
| StreamingService.DeliveredMember | gradio/services/streaming_transcription_service.py:286-289 | every event the consumer yielded from the queue is among the delivered events |
| RealtimeTab.Classify | gradio/tabs/gpt4o_realtime_tab.py:225-236 | a status text selects the speech-detected line, else the waiting line, else a warning showing it verbatim, exactly when it contains (case-insensitively) "speech detected", "speech stopped", "error" or "closed"; nothing else is ever selected |
| RealtimeTab.ClassifiesSpeechDetected | gradio/tabs/gpt4o_realtime_tab.py:225-226 | the service's speech-detected status lands on the speech-detected line |
| RealtimeTab.ClassifiesConnectionClosed | gradio/tabs/gpt4o_realtime_tab.py:233-234 | the connection-closed status is shown verbatim as a warning |
| RealtimeTab.AbsentSecondLetter | gradio/tabs/gpt4o_realtime_tab.py:225-233 | a text lacking the second letter of a pattern does not contain it |
| RealtimeTab.NoLetterP | gradio/tabs/gpt4o_realtime_tab.py:225 | lower-casing introduces no 'p' into a text that has none in either case |
| RealtimeTab.Step | gradio/tabs/gpt4o_realtime_tab.py:193-247 | one event: a non-blank transcript is appended to history and shown, a blank one only clears the partial text; a delta sets the partial text; an error shows the error; an update is yielded exactly for visible transcripts, classified statuses and errors, and earlier updates are kept; a classified status becomes the displayed status, other events (errors aside) leave it; a new update shows the new status and history text |
| RealtimeTab.NonBlankSnoc | gradio/tabs/gpt4o_realtime_tab.py:208-217 | the visible transcripts of a longer stream extend those of the shorter one |
| RealtimeTab.FoldHistory | gradio/tabs/gpt4o_realtime_tab.py:203-217 | history gains exactly the non-blank transcripts, in arrival order |
| RealtimeTab.FoldKeepsHistoryNonBlank | gradio/tabs/gpt4o_realtime_tab.py:208-210 | no blank entry ever enters the history |
| RealtimeTab.FoldHistoryText | gradio/tabs/gpt4o_realtime_tab.py:211-217 | once a visible transcript has arrived, the shown history text is the history joined by newlines; before that it is unchanged |
| RealtimeTab.FoldReportsEvents | gradio/tabs/gpt4o_realtime_tab.py:180-252 | the fold over the events never yields the no-events update itself; only the check after the stream does |
| RealtimeTab.RunTranscription | gradio/tabs/gpt4o_realtime_tab.py:126-278 | the last update says stopped-by-user exactly when a stop was seen, else complete; afterwards nothing is recording and no termination event exists; history holds the processed visible transcripts; the first update reports that no events arrived exactly when no event was processed and no stop was seen by the check made after an event had arrived |
| RealtimeTab.Processed | gradio/tabs/gpt4o_realtime_tab.py:163-191 | the fold processes the events before the first one at which a stop is visible, or all of them |
| RealtimeTab.StopBeforeFirstEvent | gradio/tabs/gpt4o_realtime_tab.py:249-262 | a stop seen by the generator before the first event yields "no events received" and then "stopped by user" |
| RealtimeTab.StartRecording | gradio/tabs/gpt4o_realtime_tab.py:281-298 | refused with no change while recording; otherwise partial text, history and the cancel request are cleared |
| RealtimeTab.StopRecording | gradio/tabs/gpt4o_realtime_tab.py:301-327 | refused with no change when idle; otherwise cancellation is requested, an existing termination event is set and recording is off, keeping the transcript |
| RealtimeTab.StopTwice | gradio/tabs/gpt4o_realtime_tab.py:301-327 | a second stop right after a successful one is refused |
| RealtimeTab.ClearResults | gradio/tabs/gpt4o_realtime_tab.py:107-111 | clearing empties partial text and history and keeps the flags |
| RealtimeService.Init | gradio/services/gpt4o_realtime_service.py:35-43 | a new wrapper is idle with empty history and no underlying service |
| RealtimeService.KindOf | gradio/services/gpt4o_realtime_service.py:79 | only "azure" selects Azure; any other type takes the OpenAI branch |
| RealtimeService.Start | gradio/services/gpt4o_realtime_service.py:45-119 | a start succeeds if and only if nothing is recording and the chosen service has credentials; refusals change nothing; success resets the transcript and installs the new underlying service without yet setting the recording flag |
| RealtimeService.RunBegins | gradio/services/gpt4o_realtime_service.py:157 | the recording thread sets the flag and keeps the transcript |
| RealtimeService.RunEnds | gradio/services/gpt4o_realtime_service.py:183-196 | whatever the outcome recording ends; a normal end stores the final list (empty when missing), an exception keeps the history |
| RealtimeService.CompletedHook | gradio/services/gpt4o_realtime_service.py:121-138 | after a completion the partial text is the decoded transcript and the history mirrors the underlying list |
| RealtimeService.MonitorTick | gradio/services/gpt4o_realtime_service.py:207-222 | while recording, the wrapper mirrors the underlying service; otherwise nothing changes |
| RealtimeService.Stop | gradio/services/gpt4o_realtime_service.py:233-250 | refused with no change when idle; otherwise only the recording flag drops |
| RealtimeService.StopTwice | gradio/services/gpt4o_realtime_service.py:233-250 | a second stop is refused and changes nothing |
| RealtimeService.StartWhileRunning | gradio/services/gpt4o_realtime_service.py:75-76 | once the recording thread runs, starts are refused and a stop succeeds |
| RealtimeService.GetStatus | gradio/services/gpt4o_realtime_service.py:252-266 | the status follows the recording flag alone; the partial text comes from the underlying service (`""` without one); the history is the wrapper's own |
| RealtimeService.ClearHistory | gradio/services/gpt4o_realtime_service.py:268-271 | clearing empties the wrapper's history and partial text and leaves the underlying service alone |
| RealtimeService.ClearKeepsReportedCurrent | gradio/services/gpt4o_realtime_service.py:252-271 | clearing does not change the partial text a later status read reports |
| RealtimeService.Validate | gradio/services/gpt4o_realtime_service.py:302-315 | membership checks for service, model and noise value, in that order; the noise mode is absent exactly for `None` or "none"; an accepted triple carries the service, model and noise mode the names denote |
| RealtimeService.ValidateAgrees | gradio/services/gpt4o_realtime_service.py:302-315 | both realtime front ends accept and reject exactly the same parameters, for the same reason, with the same settings |
| RealtimeService.StartRealtime | gradio/services/gpt4o_realtime_service.py:278-330 | a rejection reports its reason and changes nothing; "recording started" is reported exactly when validation passes and the wrapper's start succeeds, else the start's refusal |
| RealtimeService.StopRealtime | gradio/services/gpt4o_realtime_service.py:333-351 | the wrapper is stopped; the status says stopped or not recording; the history is joined by newlines |
| RealtimeService.GetRealtimeStatus | gradio/services/gpt4o_realtime_service.py:354-366 | the status follows the recording flag; the partial text is the underlying service's, or empty when there is none, as `get_status` reports it; the history is joined by newlines, empty for no entries |
| RealtimeService.ClearRealtimeHistory | gradio/services/gpt4o_realtime_service.py:369-377 | the wrapper's transcript is cleared, recording untouched, and the reply carries no text |
| SpeechRecognition.Init | gradio/services/speech_recognition.py:18-41 | a new recogniser satisfies "stopping implies listening", with empty history and no file run |
| SpeechRecognition.Rendered | gradio/services/speech_recognition.py:43-73 | a result shows its text, prefixed "Speaker " + the result's own speaker id + ": " exactly when diarizing with a non-empty speaker id |
| SpeechRecognition.OnRecognizing | gradio/services/speech_recognition.py:43-55 | a partial result replaces the partial text with its rendering and changes nothing else |
| SpeechRecognition.OnRecognized | gradio/services/speech_recognition.py:57-73 | a final result with visible text appends its rendered line and clears the partial text; a blank one changes nothing |
| SpeechRecognition.OnSessionStopped | gradio/services/speech_recognition.py:79-87 | the session ends only if a stop was requested; otherwise nothing changes |
| SpeechRecognition.OnFileCompleted | gradio/services/speech_recognition.py:97-102 | file completion only marks the file session stopped |
| SpeechRecognition.Deliver | gradio/services/speech_recognition.py:104-120 | history grows only by a visible final result's line; a file recogniser's end always marks the file session stopped, and when the recogniser was not wired for diarization it first runs the session-stopped rule, which ends a stopping microphone session; a microphone's end runs the session-stopped rule |
| SpeechRecognition.LinesSnoc | gradio/services/speech_recognition.py:57-73 | the lines of a longer callback sequence extend those of the shorter one |
| SpeechRecognition.DeliverAllHistory | gradio/services/speech_recognition.py:57-73 | the history grows by exactly the rendered non-blank final results, each ending in "\n", in delivery order |
| SpeechRecognition.LinesTerminated | gradio/services/speech_recognition.py:66-72 | the added lines are empty or end with a newline |
| SpeechRecognition.DeliverAllKeepsLines | gradio/services/speech_recognition.py:57-73 | the history stays a sequence of newline-terminated lines |
| SpeechRecognition.StartMic | gradio/services/speech_recognition.py:147-210 | starting succeeds if and only if neither listening nor stopping and the SDK start works; only then does listening begin |
| SpeechRecognition.StopMic | gradio/services/speech_recognition.py:212-241 | a stop is accepted if and only if listening, not already stopping, and the SDK call works; then only the stopping flag is set; an SDK failure drops both flags |
| SpeechRecognition.StopThenSessionStopped | gradio/services/speech_recognition.py:212-241 | after an accepted stop the recogniser still listens until the session-stopped callback ends the session |
| SpeechRecognition.ConfigureDiarization | gradio/services/speech_recognition.py:122-129 | only the diarization setting changes |
| SpeechRecognition.RecognitionStatus | gradio/services/speech_recognition.py:243-266 | "stopping" takes priority over "listening", which takes priority over "not listening"; the texts are reported as stored |
| SpeechRecognition.ClearHistory | gradio/services/speech_recognition.py:268-273 | only the history and partial text are emptied |
| SpeechRecognition.StartFile | gradio/services/speech_recognition.py:275-347 | a file run clears both texts and the stopped flag, is wired for the current diarization setting, and processes exactly when the SDK start works; the microphone flags are kept |
| SpeechRecognition.StopFile | gradio/services/speech_recognition.py:349-379 | refused with no change when no file is processing; otherwise processing ends and the session counts as stopped even when the SDK call failed |
| SpeechRecognition.StopFileEnds | gradio/services/speech_recognition.py:357-379 | after any stop attempt no file is processing |
| SpeechRecognition.FileProcessingStatus | gradio/services/speech_recognition.py:381-397 | processing or complete, with the diarization note, and the audio length exactly when it is truthy |
| SpeechRecognition.StepConsistent | gradio/services/speech_recognition.py:147-379 | every operation keeps "stopping implies listening" |
| SpeechRecognition.RunConsistent | gradio/services/speech_recognition.py:147-379 | any sequence of operations from a consistent state keeps "stopping implies listening" |
| MicrophoneTab.Toggle | gradio/tabs/microphone_tab.py:14-51 | when idle, diarization is configured and the timer starts exactly when the start succeeds, else a fixed failure screen; when listening, a stop is requested and the stopping screen keeps the timer on |
| MicrophoneTab.Refresh | gradio/tabs/microphone_tab.py:54-70 | the timer switches off and the button resets exactly when neither listening nor stopping; the texts are the service's status |
| MicrophoneTab.StopKeepsPollingUntilSessionStopped | gradio/tabs/microphone_tab.py:43-70 | a stop keeps the timer polling until the session-stopped callback, after which the next refresh turns it off |
| MicrophoneTab.Clear | gradio/tabs/microphone_tab.py:73-76 | the service is cleared and the reply shows empty texts with the unchanged status |
| FileTab.StopActive | gradio/tabs/file_tab.py:40-43 | afterwards no file run is active and any microphone session is stopping; the transcript is untouched and consistency is kept |
| FileTab.ProcessFile | gradio/tabs/file_tab.py:16-58 | without a file nothing changes; otherwise the audio length and diarization are recorded, active sessions are stopped, and the file run starts exactly when the SDK start works, with the matching status |
| FileTab.Refresh | gradio/tabs/file_tab.py:61-86 | processing continues exactly while the SDK has not reported the session stopped; the timer follows processing |
| FileTab.StopProcessing | gradio/tabs/file_tab.py:89-99 | the stop always reports stopped, switches the timer off, and ends processing |
| FileTab.CompletionEndsPolling | gradio/tabs/file_tab.py:61-86 | once the SDK reports completion, the next refresh ends processing and polling |
| FileTab.StopThenRefresh | gradio/tabs/file_tab.py:61-99 | after the stop button the refresh keeps the timer off |
| FileTab.DisplayFileInfo | gradio/tabs/file_tab.py:102-124 | the upload preview: ready without a file, the length when it is truthy, else the unknown-length notice |
| ProcessingInfo.NonEmpty | gradio/utils.py:57 | the kept parts are all non-empty and no more than the given ones |
| ProcessingInfo.FormatProcessingInfo | gradio/utils.py:32-58 | the prefix, length and time segments joined by " \| ", each present exactly when given (zero values included) and the prefix dropped when empty |
| ProcessingInfo.PrefixLeads | gradio/utils.py:48-58 | with a prefix and a processing time, the line opens with the prefix and reports more after it |
| ProcessingInfo.NonEmptyOfThree | gradio/utils.py:57 | filtering three parts keeps the non-empty ones in order |
| FastTranscription.BuildDefinition | gradio/services/fast_transcription.py:45-49 | the request always names en-US and carries diarization settings exactly when diarization is enabled |
| FastTranscription.FormatPlain | gradio/services/fast_transcription.py:78-80 | plain formatting succeeds exactly when every phrase has text |
| FastTranscription.FormatDiarized | gradio/services/fast_transcription.py:70-77 | diarized formatting succeeds exactly when every phrase has text and remembers the last phrase's speaker |
| FastTranscription.DiarizedIsPieces | gradio/services/fast_transcription.py:70-77 | the loop with its remembered speaker emits a speaker header exactly at the first phrase and at each speaker change |
| FastTranscription.LinesSnoc | gradio/services/fast_transcription.py:78-80 | the plain text of a longer phrase list extends that of the shorter one by one line |
| FastTranscription.PlainIsLines | gradio/services/fast_transcription.py:78-80 | plain formatting is every phrase text followed by a newline |
| FastTranscription.Transcript | gradio/services/fast_transcription.py:65-80 | a reply without `phrases` gives an empty transcript; otherwise the transcript exists exactly when every phrase has text and is the diarized or plain reference |
| FastTranscription.ProcessFast | gradio/services/fast_transcription.py:31-101 | no file gives the no-file status; an exception its message; a non-200 reply the failure status with the body; a 200 reply the completion status with the stripped transcript, or the KeyError message for a phrase without text |
| FastTranscription.ResultTrimmed | gradio/services/fast_transcription.py:86 | a returned transcript never starts or ends with whitespace |
| Gpt4oFile.AzureEndpoint | gradio/services/gpt4o_file_service.py:59 | the client endpoint is "https://" and the configured endpoint up to its first "/openai/deployments", or all of it exactly when that is absent |
| Gpt4oFile.EndpointOfDeploymentUrl | gradio/services/gpt4o_file_service.py:59 | a deployment URL yields its host part as the client endpoint |
| Gpt4oFile.BuildParams | gradio/services/gpt4o_file_service.py:63-75 | log probabilities force JSON replies and add `include`; the prompt is sent exactly when non-empty |
| Gpt4oFile.ProcessGpt4oFile | gradio/services/gpt4o_file_service.py:22-104 | the client and request parameters are built exactly when a file is given and all three settings are present; otherwise the no-file or missing-configuration reply; an exception gives the error status and its message; success gives the timing status and the confidence rendering, the JSON form or the text |
| Gpt4oFile.CompletionStatusLeads | gradio/services/gpt4o_file_service.py:84-100 | a successful call's status starts with the completion status and reports more |
| Mp3ToWav.Adjustments | mp3_to_wav_utility.py:32-37 | each parameter is changed exactly when it differs from its default (width as bits // 8), in rate, channels, width order; no change exactly for the defaults |
| Mp3ToWav.DefaultOutput | mp3_to_wav_utility.py:25-26 | the default output is the input's root with ".wav" |
| Mp3ToWav.DefaultOutputReplacesExtension | mp3_to_wav_utility.py:25-26 | "stem.ext" becomes "stem.wav" |
| Mp3ToWav.DefaultOutputOfDotName | mp3_to_wav_utility.py:25-26 | a leading-dot name keeps its whole name: ".mp3" becomes ".mp3.wav" |
| Mp3ToWav.Convert | mp3_to_wav_utility.py:6-42 | a missing input fails first with FileNotFoundError; success exactly when the input exists and decoding and export work; the output is the given path or the default one; the changes are the adjustments |
| Mp3ToWav.SelectMp3 | mp3_to_wav_utility.py:73 | the selected names are exactly the listed ones whose lower-cased name ends with ".mp3"; a single listed name is kept exactly when it passes |
| Mp3ToWav.SelectMp3Append | mp3_to_wav_utility.py:73 | the filter keeps listing order and repeats: filtering two listings one after the other gives the two filtered results one after the other |
| Mp3ToWav.UpperCaseSelected | mp3_to_wav_utility.py:73 | an upper-case ".MP3" name is selected |
| Mp3ToWav.TargetFor | mp3_to_wav_utility.py:83-87 | an explicit output path exists exactly when an output directory is given, and it ends with ".wav" |
| Mp3ToWav.TargetInOutputDir | mp3_to_wav_utility.py:83-85 | "stem.ext" is written as "dir/stem.wav" |
| Mp3ToWav.Accounting | mp3_to_wav_utility.py:80-101 | every selected file is either converted or reported, never both |
| Mp3ToWav.AllFailing | mp3_to_wav_utility.py:80-101 | when every conversion fails, nothing is converted and every file is reported |
| Mp3ToWav.ProcessDirectory | mp3_to_wav_utility.py:44-114 | a missing or non-directory input raises its error; otherwise the output directory is created exactly when given and absent, a failure to create it or to list the input directory raises that `OSError`, and the converted and failed lists are exactly those of the selected files, in listing order |
| Mp3ToWav.UtilityMain | mp3_to_wav_utility.py:116-146 | the exit code is 0 exactly when the directory run gets to the conversions: the input is an existing directory, creating the output directory (when needed) works, and the input directory can be listed; an unlistable directory gives 1 |
| Mp3ToWav.ConverterMain | mp3_to_wav.py:44-75 | the exit code is 0 exactly when the conversion succeeds, else 1 |

## Left out

- Threads, locks, asyncio tasks, queues between threads, and UI polling timers are not modelled. Interleavings are fixed by event sequences, and a stop's visibility is an index (`RealtimeTab.RunTranscription`'s `stopAt`).
- The websocket transport and the base realtime service from the notebooks directory are not part of this model. Their own handlers and `transcribed_text` are opaque inputs (`Underlying`, `baseCurrent`).
- JSON parsing is not modelled. A decoded message is a `Fields` record, and the result of `json.loads` on a transcript is a `Parsed` value. A JSON `null` phrase speaker or text is not distinguished from a string.
- The clock, `round`, and float formatting are inputs. Durations are whole seconds, and a measured float is a `Number` with its `:.2f` text and its truthiness.
- Gradio components and `gr.update` calls are plain records of the properties set. Emoji glyphs in status strings are omitted.
- The realtime tab's "(Ns remaining)" suffix and `update_duration_info` depend on the wall clock and are left out.
- `RealtimeTab.RunTranscription`: a stop is located by the first event index at which it is visible and by which of the two checks saw it (`StopCheck`), not by wall-clock timing between the generator and the fold.
- `Text.Strip`: its own contract states only when the result is empty; `Text.StripSlice` and `Text.StripTrims` state which slice it keeps, kept apart because the whitespace test makes a single contract expensive to prove.
- `StreamingService.Consume`: does not promise that an idle poll in a new second yields a tick, only that every tick it yields is well formed and in order.
- The `event_callback` parameter and the credential fallbacks of `async_stream_transcription` are not modelled.
- `str.lower()` is modelled for ASCII letters only.
- `get_audio_length`, the pydub decoder, the SDK recognisers, the HTTP post, and the OpenAI client call are inputs. Their outcomes are parameters (`sdkOk`, `Outcome`, `Env`).
- `process_transcription_with_confidence` is not part of this model. Its rendering is an input of `Gpt4oFile.ProcessGpt4oFile`.
- The request URL, headers, and API key of fast transcription are not modelled; only the definition sent is.
- `Mp3ToWav.ProcessDirectory`: the progress prints and the error summary are not modelled.
- `gradio/config.py`, the Whisper service and tab, the fast-transcription and GPT-4o file tabs, and `app.py` are not part of this model.
- Logging is not modelled.

## Findings

| source | as written | input that shows it | evidently intended | confidence | as-written member | corrected member |
|---|---|---|---|---|---|---|
| gradio/services/gradio_transcription_service.py:356 | `get_current_state` wraps a status that already starts with "Status: " in another `f"Status: {status}"` | any service state, e.g. an idle one: "Status: Status: Ready for transcription" | one "Status: " prefix, as every other status line has | not executed | GradioService.CurrentStateAsWritten, GradioService.DoubledStatusPrefix | GradioService.CurrentState, GradioService.SinglePrefix |

`GradioService.GetRealtimeStatus` keeps the as-written snapshot, because
that is what the status query returns. The corrected
`GradioService.CurrentState` supplies the partial text and history that
`GradioService.StopRealtime` returns.
