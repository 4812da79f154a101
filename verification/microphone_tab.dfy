/** Decision logic of the microphone tab (gradio/tabs/microphone_tab.py): the
    listen/stop toggle, the periodic refresh that switches its own timer off,
    and clearing. A `gr.update` is a record of the properties it sets; the
    timer's update is just whether it stays active. */
module MicrophoneTab {
  import opened Common
  import opened SpeechRecognition

  /** A `gr.update(...)` of the listen button: each property it sets, or `None`. */
  datatype ButtonUpdate = ButtonUpdate(value: Option<string>, visible: Option<bool>, interactive: Option<bool>)

  const NoChange := ButtonUpdate(None, None, None)

  /** What a handler returns to the five outputs: button, status, partial
      text, history, and whether the refresh timer is active. */
  datatype Screen = Screen(button: ButtonUpdate, status: string, recognizing: string, history: string, timerActive: bool)

  const FailedToStartStatus := "Status: Failed to start"

  /** `toggle_recognition`. Not listening: configure diarization, then start;
      on success show the stop button and the live status with the timer
      on, on failure a fixed failure status with the timer off. Listening:
      request a stop and report stopping with the timer on, whatever the stop
      returned. `sdkOk` is the outcome of the SDK call made. */
  function Toggle(s: Recognition, enable: bool, sdkOk: bool): (r: (Screen, Recognition))
    ensures !s.isListening ==> r.1.useDiarization == enable
    ensures !s.isListening ==> (r.0.timerActive <==> StartMic(ConfigureDiarization(s, enable), sdkOk).0)
    ensures !s.isListening && !r.0.timerActive ==>
              r.0 == Screen(ButtonUpdate(Some("Start Listening"), None, None), FailedToStartStatus, "", "", false)
    ensures !s.isListening && r.0.timerActive ==>
              r.1.isListening && r.0.button.value == Some("Stop Listening" + DiarizationSuffix(enable))
              && r.0.status == RecognitionStatus(r.1).0
    ensures s.isListening ==>
              r.1 == StopMic(s, sdkOk).1 && r.0.timerActive && r.0.status == StoppingStatus
              && r.0.button == ButtonUpdate(Some("Stopping..."), None, Some(false))
              && r.0.recognizing == r.1.recognizingText && r.0.history == r.1.history
  {
    if !s.isListening then
      var configured := ConfigureDiarization(s, enable);
      var (ok, started) := StartMic(configured, sdkOk);
      if ok then
        var (status, recognizing, history) := RecognitionStatus(started);
        (Screen(ButtonUpdate(Some("Stop Listening" + DiarizationSuffix(enable)), Some(true), None),
                status, recognizing, history, true), started)
      else
        (Screen(ButtonUpdate(Some("Start Listening"), None, None), FailedToStartStatus, "", "", false), started)
    else
      var (_, stopping) := StopMic(s, sdkOk);
      (Screen(ButtonUpdate(Some("Stopping..."), None, Some(false)), StoppingStatus,
              stopping.recognizingText, stopping.history, true), stopping)
  }

  /** `refresh_ui`: once neither listening nor stopping, the button is reset
      and the timer switched off; otherwise the button is left alone and the
      timer stays on. */
  function Refresh(s: Recognition): (r: Screen)
    ensures !r.timerActive <==> !s.isListening && !s.isStopping
    ensures !r.timerActive ==> r.button == ButtonUpdate(Some("Start Listening"), None, Some(true))
    ensures r.timerActive ==> r.button == NoChange
    ensures (r.status, r.recognizing, r.history) == RecognitionStatus(s)
  {
    var (status, recognizing, history) := RecognitionStatus(s);
    if !s.isListening && !s.isStopping then
      Screen(ButtonUpdate(Some("Start Listening"), None, Some(true)), status, recognizing, history, false)
    else
      Screen(NoChange, status, recognizing, history, true)
  }

  /** A stop from the toggle keeps the timer polling until the microphone's
      session-stopped callback arrives; the next refresh then turns it off. */
  lemma StopKeepsPollingUntilSessionStopped(s: Recognition)
    requires s.isListening && !s.isStopping
    ensures Toggle(s, false, true).0.timerActive
    ensures Refresh(Toggle(s, false, true).1).timerActive
    ensures !Refresh(Deliver(Toggle(s, false, true).1, Microphone, Stopped)).timerActive
  {
  }

  /** `clear_history` of the tab: clear the service, then report its status. */
  function Clear(s: Recognition): (r: ((string, string, string), Recognition))
    ensures r.1 == SpeechRecognition.ClearHistory(s)
    ensures r.0.1 == "" && r.0.2 == ""
    ensures r.0.0 == RecognitionStatus(s).0
  {
    var cleared := SpeechRecognition.ClearHistory(s);
    (RecognitionStatus(cleared), cleared)
  }
}
