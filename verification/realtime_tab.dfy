/** The GPT-4o realtime tab (gradio/tabs/gpt4o_realtime_tab.py): the fold of
    `run_async_transcription` over the streamed events, and the start, stop
    and clear button handlers over the tab's state dictionary. The moment a
    stop request becomes visible to the running fold is an input. */
module RealtimeTab {
  import opened Common
  import opened Text
  import SS = StreamingService

  /** The tab's `state_dict`. `termination` is the asyncio event (absent
      outside a run) and whether it is set. */
  datatype TabState = TabState(
    isRecording: bool,
    currentText: string,
    history: seq<string>,
    termination: Option<bool>,
    cancelRequested: bool)

  /** What the status line shows (emoji glyphs and the "(Ns remaining)"
      suffix computed from the wall clock are omitted). */
  datatype Display =
    | InProgress(duration: int)
    | SpeechDetected
    | WaitingForSpeech
    | Warning(message: string)
    | ErrorShown(message: string)
    | NoEvents
    | StoppedByUser
    | Complete

  function StatusLine(d: Display): string {
    match d
    case InProgress(n) => "Status: Recording in progress... (will run for " + IntToString(n) + " seconds)"
    case SpeechDetected => "Status: Speech detected, listening..."
    case WaitingForSpeech => "Status: Waiting for speech..."
    case Warning(m) => "Status: " + m
    case ErrorShown(m) => "Status: Error: " + m
    case NoEvents => "Status: No events received from transcription service"
    case StoppedByUser => "Status: Recording stopped by user"
    case Complete => "Status: Recording complete"
  }

  /** Classification of a status event's text, case-insensitively:
      "speech detected", then "speech stopped", then "error" or "closed";
      anything else leaves the status line alone. */
  function Classify(msg: string): (d: Option<Display>)
    ensures Contains(Lower(msg), "speech detected") ==> d == Some(SpeechDetected)
    ensures !Contains(Lower(msg), "speech detected") && Contains(Lower(msg), "speech stopped") ==>
              d == Some(WaitingForSpeech)
    ensures d.Some? <==>
              Contains(Lower(msg), "speech detected") || Contains(Lower(msg), "speech stopped")
              || Contains(Lower(msg), "error") || Contains(Lower(msg), "closed")
    ensures d.Some? && d.value.Warning? ==> d.value.message == msg
    ensures d.Some? ==> d.value == SpeechDetected || d.value == WaitingForSpeech || d.value == Warning(msg)
  {
    var lower := Lower(msg);
    if Contains(lower, "speech detected") then Some(SpeechDetected)
    else if Contains(lower, "speech stopped") then Some(WaitingForSpeech)
    else if Contains(lower, "error") || Contains(lower, "closed") then Some(Warning(msg))
    else None
  }

  /** The service's speech-detected status lands on the "speech detected" line. */
  lemma ClassifiesSpeechDetected()
    ensures Classify(SS.SpeechDetectedText) == Some(SpeechDetected)
  {
    var l := Lower(SS.SpeechDetectedText);
    assert l[..15] == "speech detected";
    assert OccursAt(l, "speech detected", 0);
  }

  /** The service's connection-closed status is shown verbatim as a warning. */
  lemma ClassifiesConnectionClosed()
    ensures Classify(SS.ConnectionClosedText) == Some(Warning(SS.ConnectionClosedText))
  {
    var l := Lower(SS.ConnectionClosedText);
    assert l[21..27] == "closed";
    assert OccursAt(l, "closed", 21);
    NoLetterP(SS.ConnectionClosedText);
    AbsentSecondLetter(l, "speech detected");
    AbsentSecondLetter(l, "speech stopped");
  }

  /** A text lacking the second letter of `sub` does not contain `sub`. */
  lemma AbsentSecondLetter(s: string, sub: string)
    requires |sub| > 1
    requires forall j :: 0 <= j < |s| ==> s[j] != sub[1]
    ensures !Contains(s, sub)
  {
    assert forall i :: OccursAt(s, sub, i) ==> s[i + 1] == sub[1];
  }

  /** A text without the letter p, in either case, has none once lowered;
      so it cannot contain "speech ...". */
  lemma NoLetterP(s: string)
    requires forall j :: 0 <= j < |s| ==> s[j] != 'p' && s[j] != 'P'
    ensures forall j :: 0 <= j < |s| ==> Lower(s)[j] != 'p'
  {
  }

  /** The fold's accumulator: tab state, the status line, the last history
      text shown, and the updates yielded so far. */
  datatype Acc = Acc(
    state: TabState,
    status: Display,
    historyText: string,
    updates: seq<(Display, string)>)

  /** Processing of one event that passed the termination checks. */
  function Step(a: Acc, e: SS.Event): (b: Acc)
    ensures b.state.history == a.state.history
                                + (if e.kind == SS.TranscriptEvent && !IsBlank(e.data) then [e.data] else [])
    ensures b.historyText == if e.kind == SS.TranscriptEvent && !IsBlank(e.data)
                             then Join(b.state.history, "\n") else a.historyText
    ensures e.kind == SS.TranscriptEvent ==> b.state.currentText == ""
    ensures e.kind == SS.DeltaEvent ==>
              b.state.currentText == (if e.currentText.Some? then e.currentText.value
                                      else a.state.currentText + e.data)
    ensures e.kind == SS.ErrorEvent ==> b.status == ErrorShown(e.data)
    ensures e.kind == SS.StatusEvent && Classify(e.data).Some? ==> b.status == Classify(e.data).value
    ensures e.kind != SS.ErrorEvent && !(e.kind == SS.StatusEvent && Classify(e.data).Some?) ==> b.status == a.status
    ensures |b.updates| == |a.updates| + 1 ==> b.updates[|a.updates|] == (b.status, b.historyText)
    ensures |b.updates| == |a.updates| + 1 <==>
              || (e.kind == SS.TranscriptEvent && !IsBlank(e.data))
              || (e.kind == SS.StatusEvent && Classify(e.data).Some?)
              || e.kind == SS.ErrorEvent
    ensures |b.updates| == |a.updates| || |b.updates| == |a.updates| + 1
    ensures b.updates[..|a.updates|] == a.updates
    ensures b.state.isRecording == a.state.isRecording
    ensures b.state.cancelRequested == a.state.cancelRequested
    ensures b.state.termination == a.state.termination
  {
    var s := a.state;
    match e.kind
    case DeltaEvent =>
      var cur := if e.currentText.Some? then e.currentText.value else s.currentText + e.data;
      a.(state := s.(currentText := cur))
    case TranscriptEvent =>
      if Strip(e.data) != "" then
        var h := s.history + [e.data];
        var shown := Join(h, "\n");
        a.(state := s.(history := h, currentText := ""), historyText := shown,
           updates := a.updates + [(a.status, shown)])
      else
        a.(state := s.(currentText := ""))
    case StatusEvent =>
      var d := Classify(e.data);
      if d.Some? then a.(status := d.value, updates := a.updates + [(d.value, a.historyText)])
      else a
    case ErrorEvent =>
      a.(status := ErrorShown(e.data), updates := a.updates + [(ErrorShown(e.data), a.historyText)])
  }

  /** The events the fold processes in order. */
  function Fold(a: Acc, events: seq<SS.Event>): Acc
    decreases |events|
  {
    if |events| == 0 then a else Step(Fold(a, events[..|events| - 1]), events[|events| - 1])
  }

  /** Reference: the transcripts with visible text, in arrival order. */
  function NonBlankTranscripts(events: seq<SS.Event>): seq<string> {
    if |events| == 0 then []
    else (if events[0].kind == SS.TranscriptEvent && !IsBlank(events[0].data) then [events[0].data] else [])
         + NonBlankTranscripts(events[1..])
  }

  lemma {:induction false} NonBlankSnoc(events: seq<SS.Event>, e: SS.Event)
    ensures NonBlankTranscripts(events + [e])
         == NonBlankTranscripts(events)
            + (if e.kind == SS.TranscriptEvent && !IsBlank(e.data) then [e.data] else [])
  {
    if |events| == 0 {
      assert events + [e] == [e];
    } else {
      assert (events + [e])[1..] == events[1..] + [e];
      NonBlankSnoc(events[1..], e);
    }
  }

  /** The visible transcripts of a non-empty stream, split off at its last event. */
  lemma NonBlankLast(events: seq<SS.Event>)
    requires |events| > 0
    ensures var e := events[|events| - 1];
            NonBlankTranscripts(events) == NonBlankTranscripts(events[..|events| - 1])
                                           + (if e.kind == SS.TranscriptEvent && !IsBlank(e.data) then [e.data] else [])
  {
    NonBlankSnoc(events[..|events| - 1], events[|events| - 1]);
    assert events[..|events| - 1] + [events[|events| - 1]] == events;
  }

  /** History gains exactly the transcripts with visible text, in order;
      blank ones are dropped. */
  lemma {:induction false} FoldHistory(a: Acc, events: seq<SS.Event>)
    ensures Fold(a, events).state.history == a.state.history + NonBlankTranscripts(events)
    decreases |events|
  {
    if |events| > 0 {
      FoldHistory(a, events[..|events| - 1]);
      NonBlankLast(events);
    }
  }

  /** No history entry is blank after the fold if none was before. */
  lemma {:induction false} FoldKeepsHistoryNonBlank(a: Acc, events: seq<SS.Event>)
    requires forall i :: 0 <= i < |a.state.history| ==> !IsBlank(a.state.history[i])
    ensures forall i :: 0 <= i < |Fold(a, events).state.history| ==> !IsBlank(Fold(a, events).state.history[i])
    decreases |events|
  {
    if |events| > 0 {
      FoldKeepsHistoryNonBlank(a, events[..|events| - 1]);
    }
  }

  /** The history text on screen is the history joined by newlines once a
      visible transcript has arrived, and is left alone before that. */
  lemma {:induction false} FoldHistoryText(a: Acc, events: seq<SS.Event>)
    ensures NonBlankTranscripts(events) != [] ==>
              Fold(a, events).historyText == Join(Fold(a, events).state.history, "\n")
    ensures NonBlankTranscripts(events) == [] ==> Fold(a, events).historyText == a.historyText
    decreases |events|
  {
    if |events| > 0 {
      var init := events[..|events| - 1];
      var e := events[|events| - 1];
      FoldHistoryText(a, init);
      NonBlankLast(events);
      var before := Fold(a, init);
      assert Fold(a, events) == Step(before, e);
      if !(e.kind == SS.TranscriptEvent && !IsBlank(e.data)) {
        assert Fold(a, events).state.history == before.state.history;
        assert Fold(a, events).historyText == before.historyText;
      }
    }
  }

  /** No update so far shows the no-events line, nor does the status line. */
  predicate ReportsNoNoEvents(a: Acc) {
    a.status != NoEvents && forall i :: 0 <= i < |a.updates| ==> a.updates[i].0 != NoEvents
  }

  /** The fold itself never shows the no-events line. */
  lemma {:induction false} FoldReportsEvents(a: Acc, events: seq<SS.Event>)
    requires ReportsNoNoEvents(a)
    ensures ReportsNoNoEvents(Fold(a, events))
    decreases |events|
  {
    if |events| > 0 {
      var before := Fold(a, events[..|events| - 1]);
      FoldReportsEvents(a, events[..|events| - 1]);
      var b := Step(before, events[|events| - 1]);
      assert forall i :: 0 <= i < |before.updates| ==> b.updates[i] == before.updates[i];
    }
  }

  /** Which of the two checks made for each event first sees a stop request:
      the event generator's, before it passes the event on, or the fold's
      own, after it has marked the stream as started. */
  datatype StopCheck = BeforeYield | AfterStarted

  /** `run_async_transcription` over the streamed `events`. `stopAt` is the
      index of the first event at which a stop request (termination event or
      `cancel_requested`) is visible, and `seenAt` which check saw it;
      `|events|` means it became visible only after the stream ended, `None`
      that it never did. Returns every update yielded and the tab state after
      the `finally` clause. */
  function RunTranscription(s: TabState, duration: int, events: seq<SS.Event>, stopAt: Option<nat>, seenAt: StopCheck)
    : (r: (seq<(Display, string)>, TabState))
    ensures |r.0| > 0
    ensures r.0[|r.0| - 1].0 == (if stopAt.Some? && stopAt.value <= |events| then StoppedByUser else Complete)
    ensures !r.1.isRecording && !r.1.cancelRequested && r.1.termination.None?
    ensures r.1.history == s.history + NonBlankTranscripts(events[..Processed(events, stopAt)])
    ensures r.0[|r.0| - 1].1 == if NonBlankTranscripts(events[..Processed(events, stopAt)]) == [] then ""
                                else Join(r.1.history, "\n")
    ensures r.0[0].0 == NoEvents <==>
              Processed(events, stopAt) == 0 && !(stopAt.Some? && stopAt.value < |events| && seenAt == AfterStarted)
  {
    var running := s.(termination := Some(false), cancelRequested := false, isRecording := true);
    var n := Processed(events, stopAt);
    var a := Fold(Acc(running, InProgress(duration), "", []), events[..n]);
    FoldHistory(Acc(running, InProgress(duration), "", []), events[..n]);
    FoldHistoryText(Acc(running, InProgress(duration), "", []), events[..n]);
    FoldReportsEvents(Acc(running, InProgress(duration), "", []), events[..n]);
    var started := n > 0 || (stopAt.Some? && stopAt.value < |events| && seenAt == AfterStarted);
    var updates := a.updates + (if started then [] else [(NoEvents, a.historyText)]);
    var stopped := stopAt.Some? && stopAt.value <= |events|;
    var final := if stopped then StoppedByUser else Complete;
    (updates + [(final, a.historyText)],
     a.state.(isRecording := false, termination := None, cancelRequested := false))
  }

  /** How many events the fold processes before a stop request stops it. */
  function Processed(events: seq<SS.Event>, stopAt: Option<nat>): (n: nat)
    ensures n <= |events|
    ensures stopAt.None? ==> n == |events|
    ensures stopAt.Some? ==> n == if stopAt.value < |events| then stopAt.value else |events|
  {
    if stopAt.Some? && stopAt.value < |events| then stopAt.value else |events|
  }

  /** A run whose stop request the generator sees before the first event
      reports that no events were received, then "stopped by user". */
  lemma StopBeforeFirstEvent(s: TabState, duration: int, events: seq<SS.Event>)
    ensures RunTranscription(s, duration, events, Some(0), BeforeYield).0
         == [(NoEvents, ""), (StoppedByUser, "")]
  {
    var running := s.(termination := Some(false), cancelRequested := false, isRecording := true);
    assert events[..0] == [];
    assert Fold(Acc(running, InProgress(duration), "", []), []).updates == [];
  }

  const AlreadyRecordingStatus := "Status: Already recording"
  const NotRecordingStatus := "Status: Not currently recording"
  const StoppingStatus := "Status: Stopping recording..."
  const ClearedStatus := "Status: Transcription history cleared"

  function StartingStatus(duration: int): string {
    "Status: Starting recording... (will run for " + IntToString(duration) + " seconds)"
  }

  /** `start_recording`: refused while recording (state unchanged); otherwise
      clears the partial text, the history and the cancel flag. */
  function StartRecording(s: TabState, duration: int): (r: (string, string, TabState))
    ensures s.isRecording ==> r == (AlreadyRecordingStatus, Join(s.history, "\n"), s)
    ensures !s.isRecording ==>
              r.0 == StartingStatus(duration) && r.1 == ""
              && r.2 == s.(currentText := "", history := [], cancelRequested := false)
  {
    if s.isRecording then (AlreadyRecordingStatus, Join(s.history, "\n"), s)
    else (StartingStatus(duration), "", s.(currentText := "", history := [], cancelRequested := false))
  }

  /** `stop_recording`: refused when not recording (state unchanged);
      otherwise requests cancellation, sets the termination event if a run
      owns one, and marks recording stopped at once. */
  function StopRecording(s: TabState): (r: (string, string, TabState))
    ensures !s.isRecording ==> r == (NotRecordingStatus, Join(s.history, "\n"), s)
    ensures s.isRecording ==> r.0 == StoppingStatus && r.2.cancelRequested && !r.2.isRecording
    ensures s.isRecording && s.termination.Some? ==> r.2.termination == Some(true)
    ensures r.1 == Join(s.history, "\n")
    ensures r.2.history == s.history && r.2.currentText == s.currentText
  {
    if !s.isRecording then (NotRecordingStatus, Join(s.history, "\n"), s)
    else
      var t := if s.termination.Some? then Some(true) else s.termination;
      (StoppingStatus, Join(s.history, "\n"), s.(cancelRequested := true, termination := t, isRecording := false))
  }

  /** A second stop right after a successful one is refused. */
  lemma StopTwice(s: TabState)
    requires s.isRecording
    ensures StopRecording(StopRecording(s).2).0 == NotRecordingStatus
  {
  }

  /** `clear_results`: empties partial text and history, keeps the flags. */
  function ClearResults(s: TabState): (r: (string, string, TabState))
    ensures r.0 == ClearedStatus && r.1 == ""
    ensures r.2.history == [] && r.2.currentText == ""
    ensures r.2.isRecording == s.isRecording && r.2.cancelRequested == s.cancelRequested
  {
    (ClearedStatus, "", s.(currentText := "", history := []))
  }
}
