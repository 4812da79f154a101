/** Decision logic of the file tab (gradio/tabs/file_tab.py): starting a file
    run, the periodic refresh that detects the end of processing, the stop
    button, and the upload preview. The audio length (`get_audio_length`) and
    the outcome of each SDK call are inputs. */
module FileTab {
  import opened Common
  import opened SpeechRecognition

  const NoFileStatus := "Status: No file uploaded"
  const FailedStatus := "Status: Failed to process file"
  const StoppedStatus := "Status: File processing stopped"
  const ReadyStatus := "Status: Ready to process file"
  const UnknownLengthStatus := "Status: File uploaded. Could not determine audio length."

  /** The length note shown while processing. */
  function LengthInfo(length: Option<Number>): string {
    if Truthy(length) then "Audio length: " + length.value.formatted + " seconds"
    else "Could not determine audio length"
  }

  /** The outcomes of the SDK calls a file run may make: stopping the
      microphone, stopping a previous file run, starting this one. */
  datatype SdkOutcomes = SdkOutcomes(micStopOk: bool, fileStopOk: bool, startOk: bool)

  /** The stop calls `process_file` makes before a new run: an active
      microphone session, then an active file run. */
  function StopActive(s: Recognition, sdk: SdkOutcomes): (v: Recognition)
    ensures Consistent(s) ==> Consistent(v)
    ensures !v.isFileProcessing
    ensures v.isListening ==> v.isStopping
    ensures v.history == s.history && v.recognizingText == s.recognizingText
  {
    var afterMic := if s.isListening then StopMic(s, sdk.micStopOk).1 else s;
    if afterMic.isFileProcessing then StopFile(afterMic, sdk.fileStopOk).1 else afterMic
  }

  /** `process_file`. Without a file nothing starts. Otherwise the audio
      length is recorded, active sessions are stopped, diarization is
      configured and the file run started; the status says whether it did. */
  function ProcessFile(s: Recognition, path: Option<string>, enable: bool, length: Option<Number>, sdk: SdkOutcomes)
    : (r: ((string, string, string), Recognition))
    ensures Consistent(s) ==> Consistent(r.1)
    ensures !Present(path) ==> r == ((NoFileStatus, "", ""), s)
    ensures Present(path) ==>
              r.1.fileAudioLength == length && r.1.useDiarization == enable
              && r.1.isFileProcessing == sdk.startOk && !r.1.fileSessionStopped
              && r.1.history == "" && r.1.recognizingText == ""
              && (r.1.isListening ==> r.1.isStopping)
    ensures Present(path) && sdk.startOk ==>
              r.0 == ("Status: Processing file" + DiarizationSuffix(enable) + "... (" + LengthInfo(length) + ")", "", "")
    ensures Present(path) && !sdk.startOk ==> r.0 == (FailedStatus, "", "")
  {
    if !Present(path) then ((NoFileStatus, "", ""), s)
    else
      var measured := s.(fileAudioLength := length);
      var quiet := StopActive(measured, sdk);
      var configured := ConfigureDiarization(quiet, enable);
      var (ok, started) := StartFile(configured, sdk.startOk);
      if ok then
        (("Status: Processing file" + DiarizationSuffix(enable) + "... (" + LengthInfo(length) + ")", "", ""), started)
      else ((FailedStatus, "", ""), started)
  }

  /** What `refresh_file_ui` returns: status, partial text, history, and
      whether the refresh timer stays active. */
  datatype FileScreen = FileScreen(status: string, recognizing: string, history: string, timerActive: bool)

  /** `refresh_file_ui`: processing counts as finished exactly when the SDK
      has reported the session stopped; the timer stays on while processing. */
  function Refresh(s: Recognition): (r: (FileScreen, Recognition))
    ensures r.1.isFileProcessing <==> s.isFileProcessing && !s.fileSessionStopped
    ensures r.1 == s.(isFileProcessing := r.1.isFileProcessing)
    ensures r.0.timerActive == r.1.isFileProcessing
    ensures r.0.status == FileProcessingStatus(r.1)
    ensures r.0.recognizing == s.recognizingText && r.0.history == s.history
  {
    var (_, recognizing, history) := RecognitionStatus(s);
    var v := if s.isFileProcessing && s.fileSessionStopped then s.(isFileProcessing := false) else s;
    (FileScreen(FileProcessingStatus(v), recognizing, history, v.isFileProcessing), v)
  }

  /** `stop_file_processing`: always reports stopped and switches the timer off. */
  function StopProcessing(s: Recognition, sdkOk: bool): (r: (FileScreen, Recognition))
    ensures r.1 == StopFile(s, sdkOk).1
    ensures r.0 == FileScreen(StoppedStatus, r.1.recognizingText, r.1.history, false)
    ensures !r.1.isFileProcessing
  {
    var (_, stopped) := StopFile(s, sdkOk);
    var (_, recognizing, history) := RecognitionStatus(stopped);
    (FileScreen(StoppedStatus, recognizing, history, false), stopped)
  }

  /** A run that the SDK reports finished is seen as finished by the next
      refresh, which stops polling and reports completion. */
  lemma CompletionEndsPolling(s: Recognition)
    requires s.isFileProcessing
    ensures !Refresh(OnFileCompleted(s)).0.timerActive
    ensures !Refresh(OnFileCompleted(s)).1.isFileProcessing
  {
  }

  /** After the stop button the refresh keeps the timer off. */
  lemma StopThenRefresh(s: Recognition, sdkOk: bool)
    ensures !Refresh(StopProcessing(s, sdkOk).1).0.timerActive
  {
  }

  /** `display_file_info`: the upload preview. */
  function DisplayFileInfo(path: Option<string>, length: Option<Number>): (r: (string, string, string))
    ensures r.1 == "" && r.2 == ""
    ensures !Present(path) ==> r.0 == ReadyStatus
    ensures Present(path) && Truthy(length) ==>
              r.0 == "Status: File uploaded. Audio length: " + length.value.formatted + " seconds"
    ensures Present(path) && !Truthy(length) ==> r.0 == UnknownLengthStatus
  {
    if !Present(path) then (ReadyStatus, "", "")
    else if Truthy(length) then ("Status: File uploaded. Audio length: " + length.value.formatted + " seconds", "", "")
    else (UnknownLengthStatus, "", "")
  }
}
