/** The Azure Speech recogniser state (gradio/services/speech_recognition.py):
    the recognizing/recognized/session-stopped callbacks, the microphone
    start/stop guards over `is_listening`/`is_stopping`, file recognition over
    `is_file_processing`/`file_session_stopped`, and the status readers. Every
    SDK call is abstracted as a flag saying whether it raised. */
module SpeechRecognition {
  import opened Common
  import opened Text

  /** One SDK recognition result: its text and `speaker_id` (absent or empty
      when the recogniser does not diarize). */
  datatype Result = Result(text: string, speakerId: Option<string>)

  /** `SpeechRecognitionService`. `history` is `recognized_history`, one
      string of "\n"-terminated lines. `fileWiredForDiarization` records which
      callbacks the current file recogniser was connected with. */
  datatype Recognition = Recognition(
    recognizingText: string,
    history: string,
    isListening: bool,
    isStopping: bool,
    isFileProcessing: bool,
    fileSessionStopped: bool,
    useDiarization: bool,
    fileWiredForDiarization: bool,
    fileAudioLength: Option<Number>)

  function Init(): (s: Recognition)
    ensures Consistent(s) && s.history == "" && !s.isFileProcessing
  {
    Recognition("", "", false, false, false, false, false, false, None)
  }

  /** The microphone flags' invariant: stopping only ever happens while listening. */
  predicate Consistent(s: Recognition) {
    s.isStopping ==> s.isListening
  }

  /** The text a result shows: prefixed by its speaker when diarizing and the
      speaker id is non-empty. */
  function Rendered(r: Result, diarization: bool): (t: string)
    ensures EndsWith(t, r.text)
    ensures t == r.text <==> !(diarization && Present(r.speakerId))
    ensures diarization && Present(r.speakerId) ==> |t| > |r.text| + 8 && t[..8] == "Speaker "
    ensures diarization && Present(r.speakerId) ==> t == "Speaker " + r.speakerId.value + ": " + r.text
  {
    if diarization && Present(r.speakerId) then
      var t := "Speaker " + r.speakerId.value + ": " + r.text;
      assert t[|t| - |r.text|..] == r.text;
      t
    else r.text
  }

  /** `recognizing_callback`: the partial text becomes the rendered result. */
  function OnRecognizing(s: Recognition, r: Result): (v: Recognition)
    ensures v == s.(recognizingText := Rendered(r, s.useDiarization))
  {
    s.(recognizingText := Rendered(r, s.useDiarization))
  }

  /** The history line a final result adds. */
  function LineOf(r: Result, diarization: bool): string {
    Rendered(r, diarization) + "\n"
  }

  /** `recognized_callback`: a result with visible text is appended as one
      "\n"-terminated line and clears the partial text; a blank one changes
      nothing. */
  function OnRecognized(s: Recognition, r: Result): (v: Recognition)
    ensures IsBlank(r.text) ==> v == s
    ensures !IsBlank(r.text) ==>
              v == s.(history := s.history + LineOf(r, s.useDiarization), recognizingText := "")
  {
    if Strip(r.text) != "" then
      s.(history := s.history + LineOf(r, s.useDiarization), recognizingText := "")
    else s
  }

  /** `session_stopped_callback` (also wired to `canceled`): ends the
      microphone session only if a stop was requested. */
  function OnSessionStopped(s: Recognition): (v: Recognition)
    ensures s.isStopping ==> v == s.(isListening := false, isStopping := false)
    ensures !s.isStopping ==> v == s
  {
    if s.isStopping then s.(isListening := false, isStopping := false) else s
  }

  /** `file_processing_completed_callback`. */
  function OnFileCompleted(s: Recognition): (v: Recognition)
    ensures v == s.(fileSessionStopped := true)
  {
    s.(fileSessionStopped := true)
  }

  /** An SDK callback: a partial result, a final result, or the end of the
      session (`session_stopped` or `canceled`). */
  datatype Callback = Recognizing(result: Result) | Recognized(result: Result) | Stopped

  /** Which recogniser fired the callback. */
  datatype Source = Microphone | File

  /** Delivery of a callback. A file recogniser without diarization is wired
      through `connect_file_callbacks`, so its end runs the session-stopped
      callback and then the file-completed one; a diarizing file transcriber
      runs only the latter. */
  function Deliver(s: Recognition, source: Source, c: Callback): (v: Recognition)
    ensures v.useDiarization == s.useDiarization && v.isFileProcessing == s.isFileProcessing
    ensures v.history == s.history + Added(c, s.useDiarization)
    ensures c.Stopped? && source == File ==> v.fileSessionStopped
    ensures c.Stopped? && source == Microphone ==> v == OnSessionStopped(s)
    ensures c.Stopped? && source == File ==>
              v == (if s.fileWiredForDiarization then OnFileCompleted(s) else OnFileCompleted(OnSessionStopped(s)))
    ensures c.Stopped? && source == File && !s.fileWiredForDiarization && s.isStopping ==>
              !v.isListening && !v.isStopping
    ensures c.Stopped? && source == File && (s.fileWiredForDiarization || !s.isStopping) ==>
              v.isListening == s.isListening && v.isStopping == s.isStopping
    ensures !c.Stopped? ==> v.isListening == s.isListening && v.isStopping == s.isStopping
  {
    match c
    case Recognizing(r) => OnRecognizing(s, r)
    case Recognized(r) => OnRecognized(s, r)
    case Stopped =>
      match source
      case Microphone => OnSessionStopped(s)
      case File =>
        if s.fileWiredForDiarization then OnFileCompleted(s)
        else OnFileCompleted(OnSessionStopped(s))
  }

  /** Delivery of a sequence of callbacks from one recogniser. */
  function DeliverAll(s: Recognition, source: Source, cs: seq<Callback>): Recognition
    decreases |cs|
  {
    if |cs| == 0 then s else Deliver(DeliverAll(s, source, cs[..|cs| - 1]), source, cs[|cs| - 1])
  }

  /** What one callback adds to the history: the line of a final result
      with visible text, nothing otherwise. */
  function Added(c: Callback, diarization: bool): string {
    if c.Recognized? && !IsBlank(c.result.text) then LineOf(c.result, diarization) else ""
  }

  /** Reference: the lines the callbacks add to the history, in order. */
  function Lines(cs: seq<Callback>, diarization: bool): string {
    if |cs| == 0 then "" else Added(cs[0], diarization) + Lines(cs[1..], diarization)
  }

  lemma {:induction false} LinesSnoc(cs: seq<Callback>, c: Callback, diarization: bool)
    ensures Lines(cs + [c], diarization) == Lines(cs, diarization) + Added(c, diarization)
  {
    if |cs| == 0 {
      assert cs + [c] == [c];
    } else {
      var longer := cs + [c];
      assert longer[1..] == cs[1..] + [c];
      assert longer[0] == cs[0];
      LinesSnoc(cs[1..], c, diarization);
      var a := Added(cs[0], diarization);
      assert Lines(longer, diarization) == a + Lines(cs[1..] + [c], diarization);
      Combine(a, Lines(cs[1..], diarization), Added(c, diarization),
              Lines(cs, diarization) + Added(c, diarization), Lines(cs[1..] + [c], diarization));
    }
  }

  /** The history grows by exactly the rendered non-blank final results,
      each followed by "\n", in delivery order. */
  lemma {:induction false} DeliverAllHistory(s: Recognition, source: Source, cs: seq<Callback>)
    ensures DeliverAll(s, source, cs).history == s.history + Lines(cs, s.useDiarization)
    ensures DeliverAll(s, source, cs).useDiarization == s.useDiarization
    decreases |cs|
  {
    if |cs| > 0 {
      var init := cs[..|cs| - 1];
      var c := cs[|cs| - 1];
      DeliverAllHistory(s, source, init);
      LinesLast(cs, s.useDiarization);
      DeliverLast(s, source, cs);
      Combine(s.history, Lines(init, s.useDiarization), Added(c, s.useDiarization),
              DeliverAll(s, source, cs).history, Lines(cs, s.useDiarization));
    }
  }

  /** Regrouping of the three parts of the history. */
  lemma Combine(h: string, lines: string, added: string, after: string, all: string)
    requires after == (h + lines) + added && all == lines + added
    ensures after == h + all
  {
  }

  /** One more callback extends the history by what that callback adds. */
  lemma DeliverLast(s: Recognition, source: Source, cs: seq<Callback>)
    requires |cs| > 0
    ensures var before := DeliverAll(s, source, cs[..|cs| - 1]);
            && DeliverAll(s, source, cs).history == before.history + Added(cs[|cs| - 1], before.useDiarization)
            && DeliverAll(s, source, cs).useDiarization == before.useDiarization
  {
  }

  /** The lines of a non-empty callback sequence, split off at its last one. */
  lemma LinesLast(cs: seq<Callback>, diarization: bool)
    requires |cs| > 0
    ensures Lines(cs, diarization) == Lines(cs[..|cs| - 1], diarization) + Added(cs[|cs| - 1], diarization)
  {
    LinesSnoc(cs[..|cs| - 1], cs[|cs| - 1], diarization);
    assert cs[..|cs| - 1] + [cs[|cs| - 1]] == cs;
  }

  /** The added lines are empty or end in "\n". */
  lemma {:induction false} LinesTerminated(cs: seq<Callback>, diarization: bool)
    ensures Lines(cs, diarization) == "" || EndsWith(Lines(cs, diarization), "\n")
  {
    if |cs| > 0 {
      LinesTerminated(cs[1..], diarization);
      var a := Added(cs[0], diarization);
      var rest := Lines(cs[1..], diarization);
      if rest == "" {
        assert a + rest == a;
        if a != "" {
          assert a[|a| - 1..] == "\n";
        }
      } else {
        assert (a + rest)[|a + rest| - 1..] == rest[|rest| - 1..];
      }
    }
  }

  /** The history stays a sequence of "\n"-terminated lines. */
  lemma DeliverAllKeepsLines(s: Recognition, source: Source, cs: seq<Callback>)
    requires s.history == "" || EndsWith(s.history, "\n")
    ensures DeliverAll(s, source, cs).history == "" || EndsWith(DeliverAll(s, source, cs).history, "\n")
  {
    DeliverAllHistory(s, source, cs);
    var l := Lines(cs, s.useDiarization);
    LinesTerminated(cs, s.useDiarization);
    if l == "" {
      assert s.history + l == s.history;
    } else {
      var h := s.history + l;
      assert h[|h| - 1..] == l[|l| - 1..];
    }
  }

  /** `start_microphone_recognition`. Refused while listening or stopping;
      `sdkOk` says whether creating and starting the recogniser succeeded. */
  function StartMic(s: Recognition, sdkOk: bool): (r: (bool, Recognition))
    ensures s.isListening || s.isStopping ==> r == (false, s)
    ensures r.0 <==> !s.isListening && !s.isStopping && sdkOk
    ensures r.0 ==> r.1 == s.(isListening := true)
    ensures !r.0 ==> r.1 == s
  {
    if s.isListening || s.isStopping then (false, s)
    else if !sdkOk then (false, s)
    else (true, s.(isListening := true))
  }

  /** `stop_microphone_recognition`. Refused when not listening or already
      stopping; otherwise requests the stop and leaves `is_listening` to the
      session-stopped callback. When the SDK call raises, both flags drop. */
  function StopMic(s: Recognition, sdkOk: bool): (r: (bool, Recognition))
    ensures !s.isListening || s.isStopping ==> r == (false, s)
    ensures r.0 <==> s.isListening && !s.isStopping && sdkOk
    ensures r.0 ==> r.1 == s.(isStopping := true)
    ensures s.isListening && !s.isStopping && !sdkOk ==> r == (false, s.(isListening := false, isStopping := false))
  {
    if !s.isListening || s.isStopping then (false, s)
    else if sdkOk then (true, s.(isStopping := true))
    else (false, s.(isListening := false, isStopping := false))
  }

  /** A successful stop keeps listening until the session-stopped callback,
      which then ends the session. */
  lemma StopThenSessionStopped(s: Recognition)
    requires s.isListening && !s.isStopping
    ensures StopMic(s, true).1.isListening
    ensures !OnSessionStopped(StopMic(s, true).1).isListening
    ensures !OnSessionStopped(StopMic(s, true).1).isStopping
  {
  }

  /** `configure_diarization`. */
  function ConfigureDiarization(s: Recognition, enable: bool): (v: Recognition)
    ensures v.useDiarization == enable && v.(useDiarization := s.useDiarization) == s
  {
    s.(useDiarization := enable)
  }

  const StoppingStatus := "Status: Stopping recognition..."
  const ListeningStatus := "Status: Listening"
  const NotListeningStatus := "Status: Not listening"

  /** `get_recognition_status`: stopping takes priority over listening. */
  function RecognitionStatus(s: Recognition): (r: (string, string, string))
    ensures r.0 == StoppingStatus <==> s.isStopping
    ensures r.0 == ListeningStatus <==> !s.isStopping && s.isListening
    ensures r.0 == NotListeningStatus <==> !s.isStopping && !s.isListening
    ensures r.1 == s.recognizingText && r.2 == s.history
  {
    var status := if s.isStopping then StoppingStatus
                  else if s.isListening then ListeningStatus
                  else NotListeningStatus;
    (status, s.recognizingText, s.history)
  }

  /** `clear_history`. */
  function ClearHistory(s: Recognition): (v: Recognition)
    ensures v.history == "" && v.recognizingText == ""
    ensures v.(history := s.history, recognizingText := s.recognizingText) == s
  {
    s.(history := "", recognizingText := "")
  }

  /** `start_file_recognition`: clears both texts and the session-stopped
      flag, wires the recogniser for the current diarization setting, and is
      processing exactly when the SDK start succeeded. */
  function StartFile(s: Recognition, sdkOk: bool): (r: (bool, Recognition))
    ensures r.0 == sdkOk && r.1.isFileProcessing == sdkOk
    ensures r.1.history == "" && r.1.recognizingText == "" && !r.1.fileSessionStopped
    ensures r.1.fileWiredForDiarization == s.useDiarization
    ensures r.1.isListening == s.isListening && r.1.isStopping == s.isStopping
  {
    var cleared := s.(recognizingText := "", history := "", fileSessionStopped := false,
                      fileWiredForDiarization := s.useDiarization);
    (sdkOk, cleared.(isFileProcessing := sdkOk))
  }

  /** `stop_file_recognition`: refused when no file is processing; otherwise
      processing ends and the session counts as stopped even if the SDK call
      raised (then the result is `false`). */
  function StopFile(s: Recognition, sdkOk: bool): (r: (bool, Recognition))
    ensures !s.isFileProcessing ==> r == (false, s)
    ensures s.isFileProcessing ==>
              r == (sdkOk, s.(isFileProcessing := false, fileSessionStopped := true))
  {
    if !s.isFileProcessing then (false, s)
    else (sdkOk, s.(isFileProcessing := false, fileSessionStopped := true))
  }

  /** After any stop attempt no file is processing. */
  lemma StopFileEnds(s: Recognition, sdkOk: bool)
    ensures !StopFile(s, sdkOk).1.isFileProcessing
    ensures s.isFileProcessing ==> StopFile(s, sdkOk).1.fileSessionStopped
  {
  }

  /** The note status lines add when diarization is on. */
  function DiarizationSuffix(enable: bool): string {
    if enable then " with diarization" else ""
  }

  /** `get_file_processing_status`: processing or complete, with the
      diarization note and, when the audio length is truthy, the length. */
  function FileProcessingStatus(s: Recognition): (t: string)
    ensures s.isFileProcessing && !Truthy(s.fileAudioLength) ==>
              t == "Status: Processing file" + DiarizationSuffix(s.useDiarization) + "..."
    ensures s.isFileProcessing && Truthy(s.fileAudioLength) ==>
              t == "Status: Processing file" + DiarizationSuffix(s.useDiarization) + "... (Audio length: "
                   + s.fileAudioLength.value.formatted + " seconds)"
    ensures !s.isFileProcessing && !Truthy(s.fileAudioLength) ==>
              t == "Status: File processing" + DiarizationSuffix(s.useDiarization) + " complete"
    ensures !s.isFileProcessing && Truthy(s.fileAudioLength) ==>
              t == "Status: File processing" + DiarizationSuffix(s.useDiarization) + " complete (Audio length: "
                   + s.fileAudioLength.value.formatted + " seconds)"
  {
    if s.isFileProcessing then
      if Truthy(s.fileAudioLength) then
        "Status: Processing file" + DiarizationSuffix(s.useDiarization) + "... (Audio length: " + s.fileAudioLength.value.formatted + " seconds)"
      else "Status: Processing file" + DiarizationSuffix(s.useDiarization) + "..."
    else
      if Truthy(s.fileAudioLength) then
        "Status: File processing" + DiarizationSuffix(s.useDiarization) + " complete (Audio length: " + s.fileAudioLength.value.formatted + " seconds)"
      else "Status: File processing" + DiarizationSuffix(s.useDiarization) + " complete"
  }

  /** Every operation on the service, for stating what all of them keep. */
  datatype Op =
    | StartMicOp(micOk: bool)
    | StopMicOp(stopOk: bool)
    | DeliverOp(source: Source, callback: Callback)
    | ConfigureOp(enable: bool)
    | ClearOp
    | StartFileOp(fileOk: bool)
    | StopFileOp(fileStopOk: bool)
    | SetAudioLengthOp(length: Option<Number>)

  function Step(s: Recognition, op: Op): Recognition {
    match op
    case StartMicOp(ok) => StartMic(s, ok).1
    case StopMicOp(ok) => StopMic(s, ok).1
    case DeliverOp(source, c) => Deliver(s, source, c)
    case ConfigureOp(enable) => ConfigureDiarization(s, enable)
    case ClearOp => ClearHistory(s)
    case StartFileOp(ok) => StartFile(s, ok).1
    case StopFileOp(ok) => StopFile(s, ok).1
    case SetAudioLengthOp(n) => s.(fileAudioLength := n)
  }

  function Run(s: Recognition, ops: seq<Op>): Recognition
    decreases |ops|
  {
    if |ops| == 0 then s else Step(Run(s, ops[..|ops| - 1]), ops[|ops| - 1])
  }

  /** Each operation keeps "stopping implies listening". */
  lemma StepConsistent(s: Recognition, op: Op)
    requires Consistent(s)
    ensures Consistent(Step(s, op))
  {
  }

  /** So does every sequence of operations, from any consistent state. */
  lemma {:induction false} RunConsistent(s: Recognition, ops: seq<Op>)
    requires Consistent(s)
    ensures Consistent(Run(s, ops))
    decreases |ops|
  {
    if |ops| > 0 {
      RunConsistent(s, ops[..|ops| - 1]);
      StepConsistent(Run(s, ops[..|ops| - 1]), ops[|ops| - 1]);
    }
  }
}
