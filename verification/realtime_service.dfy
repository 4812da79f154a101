/** The thread-based GPT-4o realtime wrapper
    (gradio/services/gpt4o_realtime_service.py): start/stop guards, the
    completed-message hook, status reads and the module-level entry points.
    The recording thread, the monitor thread and the underlying websocket
    service are abstracted: what they do to the wrapper is a transition that
    takes their outcome as a parameter. */
module RealtimeService {
  import opened Common
  import opened Text
  import opened Protocol
  import opened SessionConfig
  import GradioService

  /** What the wrapper can see of the underlying service: its partial text and
      its list of finished transcripts (maintained by code not modelled). */
  datatype Underlying = Underlying(current: string, transcribed: seq<string>)

  /** `GradioTranscriptionService` of this file. `kind` is the service type the
      running session was started with; `underlying` is absent until the first
      successful start. */
  datatype Wrapper = Wrapper(
    isRecording: bool,
    kind: ServiceKind,
    current: string,
    history: seq<string>,
    underlying: Option<Underlying>)

  function Init(): (w: Wrapper)
    ensures !w.isRecording && w.history == [] && w.underlying.None?
  {
    Wrapper(false, Azure, "", [], None)
  }

  const AlreadyRecordingMessage := "Already recording"
  const MissingAzureMessage := "Missing Azure OpenAI GPT-4o credentials"
  const MissingOpenAIMessage := "Missing OpenAI API key"
  const StartedMessage := "Transcription started"
  const StoppedMessage := "Transcription stopped"
  const NotRecordingMessage := "Not currently recording"

  /** Every service type other than "azure" takes the OpenAI branch. */
  function KindOf(serviceType: string): (k: ServiceKind)
    ensures k == Azure <==> serviceType == "azure"
  {
    if serviceType == "azure" then Azure else OpenAI
  }

  /** `start_transcription`: refused while recording, then refused when the
      chosen service lacks credentials, both without any change; otherwise
      resets history and partial text and creates a new underlying service
      (whose starting view `initial` is decided by code not modelled). The flag
      `is_recording` is set later, by the recording thread (`RunBegins`). */
  function Start(w: Wrapper, serviceType: string, creds: Credentials, initial: Underlying)
    : (r: (bool, string, Wrapper))
    ensures w.isRecording ==> r == (false, AlreadyRecordingMessage, w)
    ensures !w.isRecording && !CredentialsReady(creds, KindOf(serviceType)) ==>
              r == (false, if serviceType == "azure" then MissingAzureMessage else MissingOpenAIMessage, w)
    ensures r.0 <==> !w.isRecording && CredentialsReady(creds, KindOf(serviceType))
    ensures r.0 ==> r.1 == StartedMessage && r.2.history == [] && r.2.current == ""
                    && r.2.underlying == Some(initial) && r.2.kind == KindOf(serviceType)
                    && !r.2.isRecording
  {
    if w.isRecording then (false, AlreadyRecordingMessage, w)
    else if !CredentialsReady(creds, KindOf(serviceType)) then
      (false, if serviceType == "azure" then MissingAzureMessage else MissingOpenAIMessage, w)
    else
      (true, StartedMessage, w.(kind := KindOf(serviceType), history := [], current := "", underlying := Some(initial)))
  }

  /** The recording thread begins. */
  function RunBegins(w: Wrapper): (v: Wrapper)
    ensures v.isRecording && v.history == w.history && v.current == w.current
  {
    w.(isRecording := true)
  }

  /** The recording thread ends: with the final list of transcripts (an empty
      or missing list stores `[]`), or by an exception (`None`), which keeps
      the history. Either way recording is over. */
  function RunEnds(w: Wrapper, outcome: Option<Option<seq<string>>>): (v: Wrapper)
    ensures !v.isRecording
    ensures outcome.None? ==> v.history == w.history
    ensures outcome.Some? ==>
              v.history == (if outcome.value.Some? then outcome.value.value else [])
  {
    match outcome
    case None => w.(isRecording := false)
    case Some(t) => w.(isRecording := false, history := if t.Some? && t.value != [] then t.value else [])
  }

  /** `handle_completed_hook`: after the underlying handler has run (leaving
      `after`), the partial text becomes the decoded transcript and the
      history a copy of the underlying list. */
  function CompletedHook(w: Wrapper, msg: Fields, after: Underlying): (v: Wrapper)
    ensures v.current == CompletedTranscript(w.kind, msg)
    ensures v.history == after.transcribed
    ensures v.isRecording == w.isRecording && v.kind == w.kind
  {
    w.(current := CompletedTranscript(w.kind, msg), history := after.transcribed, underlying := Some(after))
  }

  /** One pass of the monitor thread: while recording, mirror the underlying
      service's view. */
  function MonitorTick(w: Wrapper): (v: Wrapper)
    ensures w.isRecording && w.underlying.Some? ==>
              v.current == w.underlying.value.current && v.history == w.underlying.value.transcribed
    ensures !(w.isRecording && w.underlying.Some?) ==> v == w
  {
    if w.isRecording && w.underlying.Some? then
      w.(current := w.underlying.value.current, history := w.underlying.value.transcribed)
    else w
  }

  /** `stop_transcription`: refused when not recording; otherwise clears the
      flag. */
  function Stop(w: Wrapper): (r: (bool, string, Wrapper))
    ensures !w.isRecording ==> r == (false, NotRecordingMessage, w)
    ensures w.isRecording ==> r.0 && r.1 == StoppedMessage && r.2 == w.(isRecording := false)
  {
    if !w.isRecording then (false, NotRecordingMessage, w)
    else (true, StoppedMessage, w.(isRecording := false))
  }

  /** An immediate second stop is refused and changes nothing. */
  lemma StopTwice(w: Wrapper)
    requires w.isRecording
    ensures Stop(Stop(w).2) == (false, NotRecordingMessage, Stop(w).2)
  {
  }

  /** A start is refused from the moment the recording thread runs until a
      stop or the thread's end. */
  lemma StartWhileRunning(w: Wrapper, serviceType: string, creds: Credentials, initial: Underlying)
    ensures Start(RunBegins(w), serviceType, creds, initial).0 == false
    ensures Stop(RunBegins(w)).0
  {
  }

  const RecordingStatus := "Status: Recording in progress..."
  const ReadyStatus := "Status: Ready for transcription"

  /** `get_status`: the status follows `is_recording` alone; the partial text
      is read from the underlying service ("" when there is none); the
      history is the wrapper's own copy. */
  function GetStatus(w: Wrapper): (r: (string, string, seq<string>))
    ensures r.0 == (if w.isRecording then RecordingStatus else ReadyStatus)
    ensures w.underlying.None? ==> r.1 == ""
    ensures w.underlying.Some? ==> r.1 == w.underlying.value.current
    ensures r.2 == w.history
  {
    (if w.isRecording then RecordingStatus else ReadyStatus,
     if w.underlying.Some? then w.underlying.value.current else "",
     w.history)
  }

  /** `clear_history`: empties the wrapper's history and partial text. */
  function ClearHistory(w: Wrapper): (v: Wrapper)
    ensures v.history == [] && v.current == ""
    ensures v.isRecording == w.isRecording && v.underlying == w.underlying
  {
    w.(history := [], current := "")
  }

  /** Clearing does not reach the underlying service, so the partial text a
      later status read reports is unchanged by it. */
  lemma ClearKeepsReportedCurrent(w: Wrapper)
    ensures GetStatus(ClearHistory(w)).1 == GetStatus(w).1
    ensures GetStatus(ClearHistory(w)).2 == []
  {
  }

  /** Validation of `start_realtime_transcription` in this file: membership
      tests first (with "none" among the accepted noise values), then the
      "none" normalisation. */
  function Validate(serviceType: string, model: string, noise: Option<string>): (r: Validated)
    ensures ServiceOf(serviceType).None? ==> r == Rejected(InvalidServiceType)
    ensures ServiceOf(serviceType).Some? && ModelOf(model).None? ==> r == Rejected(InvalidModel)
    ensures ServiceOf(serviceType).Some? && ModelOf(model).Some? ==>
              (r == Rejected(InvalidNoiseReduction) <==>
                 noise.Some? && noise.value != "none" && NoiseOf(noise.value).None?)
    ensures r.Accepted? ==> (r.settings.noise.None? <==> noise.None? || noise.value == "none")
    ensures r.Accepted? ==>
              r.settings.service == ServiceOf(serviceType).value && r.settings.model == ModelOf(model).value
    ensures r.Accepted? && noise.Some? && noise.value != "none" ==> r.settings.noise == NoiseOf(noise.value)
  {
    if ServiceOf(serviceType).None? then Rejected(InvalidServiceType)
    else if ModelOf(model).None? then Rejected(InvalidModel)
    else if noise.Some? && noise.value != "none" && NoiseOf(noise.value).None? then Rejected(InvalidNoiseReduction)
    else
      var mode := if noise.None? || noise.value == "none" then None else NoiseOf(noise.value);
      Accepted(Settings(ServiceOf(serviceType).value, ModelOf(model).value, mode))
  }

  /** Both realtime front ends accept and reject exactly the same parameters,
      for the same reason, with the same normalised settings. */
  lemma ValidateAgrees(serviceType: string, model: string, noise: Option<string>)
    ensures Validate(serviceType, model, noise) == GradioService.Validate(serviceType, model, noise)
  {
  }

  const InvalidServiceStatus := "Status: Invalid service type. Choose 'azure' or 'openai'"
  const InvalidModelStatus := "Status: Invalid model. Choose 'gpt-4o-transcribe' or 'gpt-4o-mini-transcribe'"
  const InvalidNoiseStatus := "Status: Invalid noise reduction. Choose None, 'near_field', or 'far_field'"
  const RecordingStartedStatus := "Status: Recording started. Speak into your microphone..."
  const FailedToStartPrefix := "Status: Failed to start recording: "

  function RejectionStatus(reason: Rejection): string {
    match reason
    case InvalidServiceType => InvalidServiceStatus
    case InvalidModel => InvalidModelStatus
    case InvalidNoiseReduction => InvalidNoiseStatus
  }

  /** `start_realtime_transcription`: validation, then the wrapper's start.
      Returns the status line, the (always empty) partial text and the
      wrapper afterwards. */
  function StartRealtime(w: Wrapper, serviceType: string, model: string, noise: Option<string>,
                         creds: Credentials, initial: Underlying): (r: (string, string, Wrapper))
    ensures r.1 == ""
    ensures Validate(serviceType, model, noise).Rejected? ==>
              r.0 == RejectionStatus(Validate(serviceType, model, noise).reason) && r.2 == w
    ensures Validate(serviceType, model, noise).Accepted? ==>
              var (ok, msg, v) := Start(w, serviceType, creds, initial);
              r.2 == v && r.0 == (if ok then RecordingStartedStatus else FailedToStartPrefix + msg)
    ensures r.0 == RecordingStartedStatus <==>
              Validate(serviceType, model, noise).Accepted? && Start(w, serviceType, creds, initial).0
  {
    match Validate(serviceType, model, noise)
    case Rejected(reason) => (RejectionStatus(reason), "", w)
    case Accepted(_) =>
      var (ok, msg, v) := Start(w, serviceType, creds, initial);
      assert !ok ==> (FailedToStartPrefix + msg)[8] == 'F';
      (if ok then RecordingStartedStatus else FailedToStartPrefix + msg, "", v)
  }

  const RecordingStoppedStatus := "Status: Recording stopped"

  /** `stop_realtime_transcription`: stop, then report the status read's
      partial text and the history joined by newlines. */
  function StopRealtime(w: Wrapper): (r: (string, string, string, Wrapper))
    ensures r.3 == Stop(w).2
    ensures r.0 == (if w.isRecording then RecordingStoppedStatus else "Status: " + NotRecordingMessage)
    ensures r.1 == GetStatus(r.3).1
    ensures r.2 == Join(w.history, "\n")
  {
    var (ok, msg, v) := Stop(w);
    var (_, current, history) := GetStatus(v);
    (if ok then RecordingStoppedStatus else "Status: " + msg, current, Join(history, "\n"), v)
  }

  /** `get_realtime_transcription_status`. */
  function GetRealtimeStatus(w: Wrapper): (r: (string, string, string))
    ensures r.0 == (if w.isRecording then RecordingStatus else ReadyStatus)
    ensures w.underlying.None? ==> r.1 == ""
    ensures w.underlying.Some? ==> r.1 == w.underlying.value.current
    ensures r.1 == GetStatus(w).1
    ensures r.2 == Join(w.history, "\n")
    ensures w.history == [] ==> r.2 == ""
  {
    var (status, current, history) := GetStatus(w);
    (status, current, Join(history, "\n"))
  }

  const ClearedStatus := "Status: Transcription history cleared"

  /** `clear_realtime_transcription_history`. */
  function ClearRealtimeHistory(w: Wrapper): (r: (string, string, string, Wrapper))
    ensures r.0 == ClearedStatus && r.1 == "" && r.2 == ""
    ensures r.3.history == [] && r.3.current == "" && r.3.isRecording == w.isRecording
  {
    (ClearedStatus, "", "", ClearHistory(w))
  }
}
