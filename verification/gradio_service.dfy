/** The Gradio-enhanced realtime transcription service
    (gradio/services/gradio_transcription_service.py): the state its hooked
    delta/completed handlers keep for the UI, its start/stop guards, the
    state snapshot, the wait loop's end reason, and parameter validation.
    The base websocket service it extends is not part of this model; its
    own handlers and `transcribed_text` are left opaque. */
module GradioService {
  import opened Common
  import opened Text
  import opened Protocol
  import opened SessionConfig

  // Status strings (emoji glyphs of the UI are omitted).
  const ReadyText := "Ready for transcription"
  const RecordingText := "Recording in progress..."
  const RecordingStatus := "Status: Recording in progress..."
  const ReadyStatus := "Status: Ready for transcription"
  const StoppedByUserStatus := "Status: Recording stopped by user"
  const TimeLimitStatus := "Status: Recording reached time limit"
  const RunErrorPrefix := "Status: Error: "
  const StartedMessage := "Transcription started"
  const StoppedMessage := "Transcription stopped"
  const NotRecordingMessage := "Not currently recording"

  /** Items the handlers put on the output queue for the UI worker. */
  datatype UiItem =
    | UpdateCurrent(current: string)
    | UpdateCompleted(transcript: string, history: seq<string>)
    | StatusItem(status: string)

  /** The service's observable state: recording flags, the termination
      event, the `gradio_state` dictionary and the pending output queue. */
  datatype Service = Service(
    kind: ServiceKind,
    maxDuration: int,
    isRecording: bool,
    terminationSet: bool,
    uiActive: bool,
    status: string,
    currentText: string,
    history: seq<string>,
    queue: seq<UiItem>)

  /** A freshly constructed service. */
  function Init(kind: ServiceKind, maxDuration: int): (s: Service)
    ensures !s.isRecording && !s.terminationSet && !s.uiActive
    ensures s.currentText == "" && s.history == [] && s.queue == []
  {
    Service(kind, maxDuration, false, false, false, ReadyText, "", [], [])
  }

  predicate IsDelta(m: Fields) { m.msgType == Some(DeltaType) }
  predicate IsCompleted(m: Fields) { m.msgType == Some(CompletedType) }

  /** `_enhanced_delta_handler`: the delta (default "") is appended to the
      partial text, which is queued for display; history is untouched. */
  function OnDelta(s: Service, msg: Fields): (t: Service)
    ensures t.currentText == s.currentText + msg.delta.GetOr("")
    ensures t.history == s.history
    ensures t.queue == s.queue + [UpdateCurrent(t.currentText)]
    ensures t.isRecording == s.isRecording && t.terminationSet == s.terminationSet
  {
    var cur := s.currentText + msg.delta.GetOr("");
    s.(currentText := cur, queue := s.queue + [UpdateCurrent(cur)])
  }

  /** `_enhanced_completed_handler`: the decoded transcript is appended to
      history unconditionally (an empty one too) and the partial text is
      cleared in the same step. */
  function OnCompleted(s: Service, msg: Fields): (t: Service)
    ensures t.currentText == ""
    ensures t.history == s.history + [CompletedTranscript(s.kind, msg)]
    ensures t.queue == s.queue + [UpdateCompleted(CompletedTranscript(s.kind, msg), t.history)]
    ensures t.isRecording == s.isRecording && t.terminationSet == s.terminationSet
  {
    var transcript := CompletedTranscript(s.kind, msg);
    var h := s.history + [transcript];
    s.(currentText := "", history := h, queue := s.queue + [UpdateCompleted(transcript, h)])
  }

  /** Handler dispatch for one inbound message. Only the two hooked types
      touch `gradio_state`; every other type goes to the base handlers. */
  function Apply(s: Service, msg: Fields): Service {
    if IsDelta(msg) then OnDelta(s, msg)
    else if IsCompleted(msg) then OnCompleted(s, msg)
    else s
  }

  /** Apply a stream of inbound messages in arrival order. */
  function Run(s: Service, msgs: seq<Fields>): Service
    decreases |msgs|
  {
    if |msgs| == 0 then s else Apply(Run(s, msgs[..|msgs| - 1]), msgs[|msgs| - 1])
  }

  /** Reference: the decoded transcripts of the completed messages, in order. */
  function Completions(kind: ServiceKind, msgs: seq<Fields>): seq<string> {
    if |msgs| == 0 then []
    else (if IsCompleted(msgs[0]) then [CompletedTranscript(kind, msgs[0])] else [])
         + Completions(kind, msgs[1..])
  }

  /** Reference: the concatenated `delta` fields of the delta messages. */
  function DeltaText(msgs: seq<Fields>): string {
    if |msgs| == 0 then ""
    else (if IsDelta(msgs[0]) then msgs[0].delta.GetOr("") else "") + DeltaText(msgs[1..])
  }

  /** The position just after the last completed message (0 if none). */
  function LastCut(msgs: seq<Fields>): (k: nat)
    ensures k <= |msgs|
    ensures k > 0 ==> IsCompleted(msgs[k - 1])
    ensures forall i :: k <= i < |msgs| ==> !IsCompleted(msgs[i])
    decreases |msgs|
  {
    if |msgs| == 0 then 0
    else if IsCompleted(msgs[|msgs| - 1]) then |msgs|
    else LastCut(msgs[..|msgs| - 1])
  }

  lemma {:induction false} CompletionsSnoc(kind: ServiceKind, msgs: seq<Fields>, m: Fields)
    ensures Completions(kind, msgs + [m])
         == Completions(kind, msgs) + (if IsCompleted(m) then [CompletedTranscript(kind, m)] else [])
  {
    if |msgs| == 0 {
      assert msgs + [m] == [m];
    } else {
      assert (msgs + [m])[1..] == msgs[1..] + [m];
      CompletionsSnoc(kind, msgs[1..], m);
    }
  }

  lemma {:induction false} DeltaTextSnoc(msgs: seq<Fields>, m: Fields)
    ensures DeltaText(msgs + [m]) == DeltaText(msgs) + (if IsDelta(m) then m.delta.GetOr("") else "")
  {
    if |msgs| == 0 {
      assert msgs + [m] == [m];
    } else {
      assert (msgs + [m])[1..] == msgs[1..] + [m];
      DeltaTextSnoc(msgs[1..], m);
    }
  }

  /** Over any message stream, history gains exactly the decoded completed
      transcripts, in arrival order; deltas never reach history. */
  lemma {:induction false} RunHistory(s: Service, msgs: seq<Fields>)
    ensures Run(s, msgs).history == s.history + Completions(s.kind, msgs)
    ensures Run(s, msgs).kind == s.kind
    decreases |msgs|
  {
    if |msgs| > 0 {
      var init := msgs[..|msgs| - 1];
      var m := msgs[|msgs| - 1];
      assert msgs == init + [m];
      RunHistory(s, init);
      CompletionsSnoc(s.kind, init, m);
    }
  }

  /** The partial text is exactly the deltas received since the last
      completed message (on top of the initial partial text if none came). */
  lemma {:induction false} RunCurrent(s: Service, msgs: seq<Fields>)
    ensures Run(s, msgs).currentText
         == (if LastCut(msgs) == 0 then s.currentText else "") + DeltaText(msgs[LastCut(msgs)..])
    ensures Run(s, msgs).kind == s.kind
    decreases |msgs|
  {
    if |msgs| > 0 {
      var init := msgs[..|msgs| - 1];
      var m := msgs[|msgs| - 1];
      assert msgs == init + [m];
      RunCurrent(s, init);
      if IsCompleted(m) {
        assert msgs[|msgs|..] == [];
      } else {
        assert LastCut(msgs) == LastCut(init);
        assert msgs[LastCut(msgs)..] == init[LastCut(init)..] + [m];
        DeltaTextSnoc(init[LastCut(init)..], m);
      }
    }
  }

  /** Deltas followed by one completion leave one new history
      entry equal to the completion's payload and an empty partial text. */
  lemma DeltasThenCompleted(s: Service, deltas: seq<Fields>, done: Fields)
    requires forall i :: 0 <= i < |deltas| ==> IsDelta(deltas[i])
    requires IsCompleted(done)
    ensures Run(s, deltas + [done]).history == s.history + [CompletedTranscript(s.kind, done)]
    ensures Run(s, deltas + [done]).currentText == ""
  {
    var msgs := deltas + [done];
    RunHistory(s, msgs);
    CompletionsSnoc(s.kind, deltas, done);
    assert Completions(s.kind, deltas) == [] by {
      NoCompletions(s.kind, deltas);
    }
    assert msgs[..|msgs| - 1] == deltas;
  }

  lemma {:induction false} NoCompletions(kind: ServiceKind, msgs: seq<Fields>)
    requires forall i :: 0 <= i < |msgs| ==> !IsCompleted(msgs[i])
    ensures Completions(kind, msgs) == []
  {
    if |msgs| > 0 {
      NoCompletions(kind, msgs[1..]);
    }
  }

  /** `start_transcription`: always succeeds, clearing the termination
      event, history, partial text and any queued UI items. */
  function Start(s: Service): (r: (bool, string, Service))
    ensures r.0 && r.1 == StartedMessage
    ensures r.2.isRecording && r.2.uiActive && !r.2.terminationSet
    ensures r.2.currentText == "" && r.2.history == [] && r.2.queue == []
    ensures r.2.kind == s.kind && r.2.maxDuration == s.maxDuration
  {
    (true, StartedMessage,
     s.(terminationSet := false, isRecording := true, uiActive := true,
        status := RecordingText, currentText := "", history := [], queue := []))
  }

  /** `stop_transcription`: refused with "Not currently recording" and no
      change when idle; otherwise signals termination and stops recording.
      Transcript state is kept. */
  function Stop(s: Service): (r: (bool, string, Service))
    ensures !s.isRecording ==> r == (false, NotRecordingMessage, s)
    ensures s.isRecording ==> r.0 && r.1 == StoppedMessage
    ensures s.isRecording ==>
              r.2 == s.(terminationSet := true, isRecording := false, uiActive := false)
  {
    if !s.isRecording then (false, NotRecordingMessage, s)
    else (true, StoppedMessage, s.(terminationSet := true, isRecording := false, uiActive := false))
  }

  /** Stopping twice in a row: the second stop is refused and changes nothing. */
  lemma StopTwice(s: Service)
    requires s.isRecording
    ensures Stop(s).0
    ensures Stop(Stop(s).2) == (false, NotRecordingMessage, Stop(s).2)
  {
  }

  /** The history text shown to the user: entries joined by newlines. */
  function HistoryText(h: seq<string>): string {
    Join(h, "\n")
  }

  /** `get_current_state` as written: the already prefixed status is wrapped
      in a second `f"Status: {status}"`. */
  function CurrentStateAsWritten(s: Service): (r: (string, string, string))
    ensures r.1 == s.currentText && r.2 == HistoryText(s.history)
  {
    var status := if s.isRecording then RecordingStatus else ReadyStatus;
    ("Status: " + status, s.currentText, HistoryText(s.history))
  }

  /** The snapshot as evidently intended: one "Status: " prefix. */
  function CurrentState(s: Service): (r: (string, string, string))
    ensures r.0 == RecordingStatus <==> s.isRecording
    ensures r.0 == ReadyStatus <==> !s.isRecording
    ensures r.1 == s.currentText
    ensures r.2 == HistoryText(s.history)
    ensures s.history == [] ==> r.2 == ""
  {
    (if s.isRecording then RecordingStatus else ReadyStatus, s.currentText, HistoryText(s.history))
  }

  /** The status reported as written always starts "Status: Status: ". */
  lemma DoubledStatusPrefix(s: Service)
    ensures CurrentStateAsWritten(s).0[..16] == "Status: Status: "
    ensures CurrentStateAsWritten(s).0 != CurrentState(s).0
  {
  }

  /** The corrected status carries the prefix once: it never begins with a
      doubled prefix, and the recording/ready word follows it directly. */
  lemma SinglePrefix(s: Service)
    ensures CurrentState(s).0[..8] == "Status: "
    ensures CurrentState(s).0[8..] == if s.isRecording then RecordingText else ReadyText
    ensures CurrentState(s).0[..16] != "Status: Status: "
  {
    assert CurrentState(s).0[..16][8] == 'R';
  }

  /** After a completion the shown history grows by one line at its end. */
  lemma CompletedExtendsHistoryText(s: Service, msg: Fields)
    requires s.history != []
    ensures HistoryText(OnCompleted(s, msg).history)
         == HistoryText(s.history) + "\n" + CompletedTranscript(s.kind, msg)
  {
    JoinSnoc(s.history, CompletedTranscript(s.kind, msg), "\n");
  }

  /** `clear_history`: empties history and partial text, keeps the flags. */
  function ClearHistory(s: Service): (t: Service)
    ensures t.history == [] && t.currentText == ""
    ensures t.isRecording == s.isRecording && t.terminationSet == s.terminationSet
    ensures t.queue == s.queue
  {
    s.(status := ReadyText, currentText := "", history := [])
  }

  /** Why a run ended: the termination event, else the time limit. */
  datatype EndReason = StoppedByUser | ReachedTimeLimit

  function EndReasonOf(terminationSet: bool): (r: EndReason)
    ensures r == StoppedByUser <==> terminationSet
  {
    if terminationSet then StoppedByUser else ReachedTimeLimit
  }

  /** One evaluation of the wait loop's condition: elapsed whole seconds
      and whether the termination event was set. */
  datatype Check = Check(elapsed: int, terminated: bool)

  /** The wait loop of `_run_transcription`: index of the first check at
      which the duration is used up or termination is set, or the number of
      checks if the loop is still waiting after all of them. */
  method WaitForEnd(maxDuration: int, checks: seq<Check>) returns (k: nat)
    ensures k <= |checks|
    ensures forall j :: 0 <= j < k ==> checks[j].elapsed < maxDuration && !checks[j].terminated
    ensures k < |checks| ==> checks[k].elapsed >= maxDuration || checks[k].terminated
  {
    k := 0;
    while k < |checks| && checks[k].elapsed < maxDuration && !checks[k].terminated
      invariant k <= |checks|
      invariant forall j :: 0 <= j < k ==> checks[j].elapsed < maxDuration && !checks[j].terminated
    {
      k := k + 1;
    }
  }

  /** An exception inside `_run_transcription`'s `try`: none, one raised
      before the end reason is queued (starting the connection task or the
      wait loop), or one raised after it (cancelling the websocket task);
      `message` is its `str()`. */
  datatype RunFault = NoFault | FailedBeforeReason(message: string) | FailedAfterReason(message: string)

  /** The end of `_run_transcription`: unless an exception cut the wait
      short, the loop has exited at check `c` and the end reason is queued;
      an exception queues its error status; the `finally` clause turns
      recording off whatever happened. */
  function RunEnd(s: Service, c: Check, fault: RunFault): (t: Service)
    requires fault.FailedBeforeReason? || c.elapsed >= s.maxDuration || c.terminated
    ensures !t.isRecording
    ensures fault.NoFault? ==>
              t.queue == s.queue + [StatusItem(if c.terminated then StoppedByUserStatus else TimeLimitStatus)]
    ensures fault.FailedBeforeReason? ==> t.queue == s.queue + [StatusItem(RunErrorPrefix + fault.message)]
    ensures fault.FailedAfterReason? ==>
              t.queue == s.queue + [StatusItem(if c.terminated then StoppedByUserStatus else TimeLimitStatus),
                                    StatusItem(RunErrorPrefix + fault.message)]
    ensures !fault.FailedBeforeReason? && !c.terminated ==> c.elapsed >= s.maxDuration
    ensures t.history == s.history && t.currentText == s.currentText
  {
    var reason := match EndReasonOf(c.terminated)
      case StoppedByUser => [StatusItem(StoppedByUserStatus)]
      case ReachedTimeLimit => [StatusItem(TimeLimitStatus)];
    var queued := match fault
      case NoFault => reason
      case FailedBeforeReason(m) => [StatusItem(RunErrorPrefix + m)]
      case FailedAfterReason(m) => reason + [StatusItem(RunErrorPrefix + m)];
    s.(isRecording := false, queue := s.queue + queued)
  }

  /** Validation in `start_realtime_transcription`: service type, then model,
      then noise reduction, with "none" mapped to `None` before the check. */
  function Validate(serviceType: string, model: string, noise: Option<string>): (r: Validated)
    ensures ServiceOf(serviceType).None? ==> r == Rejected(InvalidServiceType)
    ensures ServiceOf(serviceType).Some? && ModelOf(model).None? ==> r == Rejected(InvalidModel)
    ensures r.Accepted? <==>
              ServiceOf(serviceType).Some? && ModelOf(model).Some?
              && (noise.None? || noise.value == "none" || NoiseOf(noise.value).Some?)
    ensures r.Accepted? ==>
              r.settings.service == ServiceOf(serviceType).value && r.settings.model == ModelOf(model).value
    ensures ServiceOf(serviceType).Some? && ModelOf(model).Some? ==>
              (r == Rejected(InvalidNoiseReduction) <==>
                 noise.Some? && noise.value != "none" && NoiseOf(noise.value).None?)
    ensures r.Accepted? ==> (r.settings.noise.None? <==> noise.None? || noise.value == "none")
    ensures r.Accepted? && noise.Some? && noise.value != "none" ==> r.settings.noise == NoiseOf(noise.value)
  {
    if ServiceOf(serviceType).None? then Rejected(InvalidServiceType)
    else if ModelOf(model).None? then Rejected(InvalidModel)
    else
      var normalised := if noise == Some("none") then None else noise;
      if normalised.Some? && NoiseOf(normalised.value).None? then Rejected(InvalidNoiseReduction)
      else
        var mode := if normalised.None? then None else NoiseOf(normalised.value);
        Accepted(Settings(ServiceOf(serviceType).value, ModelOf(model).value, mode))
  }

  const InvalidServiceStatus := "Status: Invalid service type"
  const InvalidModelStatus := "Status: Invalid model"
  const InvalidNoiseStatus := "Status: Invalid noise reduction setting"
  const MissingAzureStatus := "Status: Missing Azure OpenAI credentials"
  const MissingOpenAIStatus := "Status: Missing OpenAI API key"
  const RecordingStartedStatus := "Status: Recording started. Speak into your microphone..."

  /** `start_realtime_transcription`: validation first, then the credential
      check, then a fresh service that is started. Returns the status
      triple and the module-level service afterwards (unchanged on error). */
  function StartRealtime(current: Option<Service>, serviceType: string, model: string,
                         noise: Option<string>, maxDuration: int, creds: Credentials)
    : (r: (string, string, string, Option<Service>))
    ensures r.1 == "" && r.2 == ""
    ensures Validate(serviceType, model, noise).Rejected? ==> r.3 == current
    ensures r.3 != current ==>
              && Validate(serviceType, model, noise).Accepted?
              && CredentialsReady(creds, Validate(serviceType, model, noise).settings.service)
    ensures r.0 == RecordingStartedStatus <==>
              Validate(serviceType, model, noise).Accepted?
              && CredentialsReady(creds, Validate(serviceType, model, noise).settings.service)
    ensures r.0 == RecordingStartedStatus ==>
              r.3.Some? && r.3.value.isRecording && r.3.value.history == []
    ensures Validate(serviceType, model, noise) == Rejected(InvalidServiceType) ==> r.0 == InvalidServiceStatus
    ensures Validate(serviceType, model, noise) == Rejected(InvalidModel) ==> r.0 == InvalidModelStatus
    ensures Validate(serviceType, model, noise) == Rejected(InvalidNoiseReduction) ==> r.0 == InvalidNoiseStatus
    ensures Validate(serviceType, model, noise).Accepted?
            && !CredentialsReady(creds, Validate(serviceType, model, noise).settings.service) ==>
              r.0 == if Validate(serviceType, model, noise).settings.service == Azure then MissingAzureStatus
                     else MissingOpenAIStatus
  {
    match Validate(serviceType, model, noise)
    case Rejected(InvalidServiceType) => (InvalidServiceStatus, "", "", current)
    case Rejected(InvalidModel) => (InvalidModelStatus, "", "", current)
    case Rejected(InvalidNoiseReduction) => (InvalidNoiseStatus, "", "", current)
    case Accepted(settings) =>
      if !CredentialsReady(creds, settings.service) then
        (if settings.service == Azure then MissingAzureStatus else MissingOpenAIStatus, "", "", current)
      else
        (RecordingStartedStatus, "", "", Some(Start(Init(settings.service, maxDuration)).2))
  }

  const NoSessionStatus := "Status: No active transcription session"
  const RecordingStoppedStatus := "Status: Recording stopped"
  const HistoryClearedStatus := "Status: Transcription history cleared"

  /** `stop_realtime_transcription`: without a service, a notice; otherwise
      a stop, reporting the transcript on success and the refusal message
      when the service was not recording. */
  function StopRealtime(current: Option<Service>): (r: (string, string, string, Option<Service>))
    ensures current.None? ==> r == (NoSessionStatus, "", "", None)
    ensures current.Some? && !current.value.isRecording ==>
              r == ("Status: " + NotRecordingMessage, "", "", current)
    ensures current.Some? && current.value.isRecording ==>
              && r.3.Some? && !r.3.value.isRecording && r.3.value.terminationSet
              && r.0 == RecordingStoppedStatus
              && r.1 == current.value.currentText && r.2 == HistoryText(current.value.history)
  {
    match current
    case None => (NoSessionStatus, "", "", None)
    case Some(s) =>
      var (ok, message, stopped) := Stop(s);
      if ok then
        var (_, cur, hist) := CurrentState(stopped);
        (RecordingStoppedStatus, cur, hist, Some(stopped))
      else ("Status: " + message, "", "", current)
  }

  /** `get_realtime_transcription_status`: the ready status without a
      service, else the service's snapshot as `get_current_state` builds it,
      so with its doubled prefix. */
  function GetRealtimeStatus(current: Option<Service>): (r: (string, string, string))
    ensures current.None? ==> r == (ReadyStatus, "", "")
    ensures current.Some? ==>
              r.0 == "Status: " + (if current.value.isRecording then RecordingStatus else ReadyStatus)
    ensures current.Some? ==> r.1 == current.value.currentText && r.2 == HistoryText(current.value.history)
    ensures current.Some? ==> r.0 == "Status: " + CurrentState(current.value).0
  {
    match current
    case None => (ReadyStatus, "", "")
    case Some(s) => CurrentStateAsWritten(s)
  }

  /** `clear_realtime_transcription_history`: clears an existing service's
      transcript; the reply never carries text. */
  function ClearRealtimeHistory(current: Option<Service>): (r: (string, string, string, Option<Service>))
    ensures r.1 == "" && r.2 == ""
    ensures current.None? ==> r == (ReadyStatus, "", "", None)
    ensures current.Some? ==>
              r.0 == HistoryClearedStatus && r.3.Some? && r.3.value.history == [] && r.3.value.currentText == ""
              && r.3.value.isRecording == current.value.isRecording
  {
    match current
    case None => (ReadyStatus, "", "", None)
    case Some(s) => (HistoryClearedStatus, "", "", Some(ClearHistory(s)))
  }

  /** After a stop the status reads "ready" (behind the doubled prefix) and
      a second stop is refused. */
  lemma StopThenStatus(s: Service)
    requires s.isRecording
    ensures GetRealtimeStatus(StopRealtime(Some(s)).3).0 == "Status: " + ReadyStatus
    ensures StopRealtime(StopRealtime(Some(s)).3).0 == "Status: " + NotRecordingMessage
  {
  }
}
