/** The Azure Fast Transcription call (gradio/services/fast_transcription.py):
    the request definition, the formatting of the returned phrases with and
    without speaker headers, and the status/result pair returned. The HTTP
    exchange, the clock and the audio-length probe are inputs. */
module FastTranscription {
  import opened Common
  import opened Text
  import opened ProcessingInfo

  datatype DiarizationSettings = DiarizationSettings(enabled: bool, maxSpeakers: int)

  /** The JSON `definition` form field. */
  datatype Definition = Definition(locales: seq<string>, diarization: Option<DiarizationSettings>)

  /** The request definition: always the en-US locale; diarization settings
      only when diarization is enabled. */
  function BuildDefinition(enable: bool, maxSpeakers: int): (d: Definition)
    ensures d.locales == ["en-US"]
    ensures d.diarization.Some? <==> enable
    ensures enable ==> d.diarization.value == DiarizationSettings(true, maxSpeakers)
  {
    Definition(["en-US"], if enable then Some(DiarizationSettings(true, maxSpeakers)) else None)
  }

  /** One returned phrase: its `speaker` (as printed) and `text`, each
      absent when the JSON object lacks the key. */
  datatype Phrase = Phrase(speaker: Option<string>, text: Option<string>)

  /** A phrase without a speaker is attributed to "Unknown". */
  function SpeakerOf(p: Phrase): string {
    p.speaker.GetOr("Unknown")
  }

  predicate AllHaveText(ps: seq<Phrase>) {
    forall i :: 0 <= i < |ps| ==> ps[i].text.Some?
  }

  /** Formatting without diarization: every phrase text followed by "\n".
      `None` stands for the KeyError a phrase without text raises. */
  function FormatPlain(ps: seq<Phrase>): (r: Option<string>)
    ensures r.Some? <==> AllHaveText(ps)
    decreases |ps|
  {
    if |ps| == 0 then Some("")
    else
      var before := FormatPlain(ps[..|ps| - 1]);
      var p := ps[|ps| - 1];
      if before.None? || p.text.None? then None else Some(before.value + p.text.value + "\n")
  }

  /** The diarized formatting loop's state: text so far and the previous
      phrase's speaker (none before the first phrase). */
  datatype Diarized = Diarized(out: string, lastSpeaker: Option<string>)

  /** Formatting with diarization, as the loop runs it: a header
      "\nSpeaker s: " whenever the speaker differs from the remembered one,
      then the phrase text and a space. */
  function FormatDiarized(ps: seq<Phrase>): (r: Option<Diarized>)
    ensures r.Some? <==> AllHaveText(ps)
    ensures r.Some? && |ps| > 0 ==> r.value.lastSpeaker == Some(SpeakerOf(ps[|ps| - 1]))
    ensures r.Some? && |ps| == 0 ==> r.value.lastSpeaker.None?
    decreases |ps|
  {
    if |ps| == 0 then Some(Diarized("", None))
    else
      var before := FormatDiarized(ps[..|ps| - 1]);
      var p := ps[|ps| - 1];
      if before.None? || p.text.None? then None
      else
        var speaker := SpeakerOf(p);
        var header := if Some(speaker) != before.value.lastSpeaker then "\nSpeaker " + speaker + ": " else "";
        Some(Diarized(before.value.out + header + p.text.value + " ", Some(speaker)))
  }

  /** Reference, stated by position: phrase `i` opens with a header exactly
      when it is the first phrase or its speaker differs from phrase `i-1`'s. */
  function Piece(ps: seq<Phrase>, i: nat): string
    requires i < |ps| && ps[i].text.Some?
  {
    (if i == 0 || SpeakerOf(ps[i]) != SpeakerOf(ps[i - 1]) then "\nSpeaker " + SpeakerOf(ps[i]) + ": " else "")
    + ps[i].text.value + " "
  }

  function Pieces(ps: seq<Phrase>): string
    requires AllHaveText(ps)
    decreases |ps|
  {
    if |ps| == 0 then "" else Pieces(ps[..|ps| - 1]) + Piece(ps, |ps| - 1)
  }

  /** The loop with its remembered speaker produces exactly the positional
      reference: headers appear precisely at speaker changes. */
  lemma {:induction false} DiarizedIsPieces(ps: seq<Phrase>)
    requires AllHaveText(ps)
    ensures FormatDiarized(ps) == Some(Diarized(Pieces(ps), if |ps| == 0 then None else Some(SpeakerOf(ps[|ps| - 1]))))
    decreases |ps|
  {
    if |ps| > 0 {
      var init := ps[..|ps| - 1];
      assert AllHaveText(init) by {
        forall i | 0 <= i < |init| ensures init[i].text.Some? {
          assert init[i] == ps[i];
        }
      }
      DiarizedIsPieces(init);
      if |init| > 0 {
        assert init[|init| - 1] == ps[|ps| - 2];
      }
      var p := ps[|ps| - 1];
      var header := if Some(SpeakerOf(p)) != FormatDiarized(init).value.lastSpeaker
                    then "\nSpeaker " + SpeakerOf(p) + ": " else "";
      assert Piece(ps, |ps| - 1) == header + p.text.value + " ";
      assert Pieces(init) + header + p.text.value + " " == Pieces(init) + (header + p.text.value + " ");
    }
  }

  /** Reference for the plain form: the texts each followed by "\n". */
  function Lines(ps: seq<Phrase>): string
    requires AllHaveText(ps)
  {
    if |ps| == 0 then "" else ps[0].text.value + "\n" + Lines(ps[1..])
  }

  lemma {:induction false} LinesSnoc(ps: seq<Phrase>)
    requires AllHaveText(ps) && |ps| > 0
    ensures AllHaveText(ps[..|ps| - 1])
    ensures Lines(ps) == Lines(ps[..|ps| - 1]) + ps[|ps| - 1].text.value + "\n"
    decreases |ps|
  {
    var init := ps[..|ps| - 1];
    assert AllHaveText(init) by {
      forall i | 0 <= i < |init| ensures init[i].text.Some? {
        assert init[i] == ps[i];
      }
    }
    if |ps| == 1 {
      assert ps[1..] == [];
    } else {
      var rest := ps[1..];
      assert AllHaveText(rest) by {
        forall i | 0 <= i < |rest| ensures rest[i].text.Some? {
          assert rest[i] == ps[i + 1];
        }
      }
      LinesSnoc(rest);
      assert rest[..|rest| - 1] == init[1..];
      assert rest[|rest| - 1] == ps[|ps| - 1];
      assert init[0] == ps[0];
      var t := ps[0].text.value + "\n";
      assert Lines(ps) == t + (Lines(init[1..]) + ps[|ps| - 1].text.value + "\n");
      assert Lines(init) == t + Lines(init[1..]);
    }
  }

  /** The plain loop produces the reference: each text followed by "\n". */
  lemma {:induction false} PlainIsLines(ps: seq<Phrase>)
    requires AllHaveText(ps)
    ensures FormatPlain(ps) == Some(Lines(ps))
    decreases |ps|
  {
    if |ps| > 0 {
      LinesSnoc(ps);
      PlainIsLines(ps[..|ps| - 1]);
    }
  }

  /** The service's HTTP reply: status code, body text, and for a 200 reply
      the decoded `phrases` member (absent: `None`). */
  datatype Reply = Reply(statusCode: int, body: string, phrases: Option<seq<Phrase>>)

  /** What the request produced: a reply, or an exception (its message) from
      opening the file, posting, or decoding the reply. */
  datatype Outcome = Responded(reply: Reply) | Raised(message: string)

  const NoFileStatus := "Status: No file uploaded"
  const CompleteStatus := "Status: Fast Transcription complete"
  const ErrorStatus := "Status: Fast Transcription error"
  /** `str()` of the KeyError raised for a phrase without text. */
  const MissingTextMessage := "'text'"

  function FailedStatus(code: int): string {
    "Status: Fast Transcription failed (" + IntToString(code) + ")"
  }

  /** The raw transcript of a 200 reply, before stripping. Diarized
      formatting applies only when the reply has a `phrases` member. */
  function Transcript(enable: bool, phrases: Option<seq<Phrase>>): (r: Option<string>)
    ensures phrases.None? ==> r == Some("")
    ensures phrases.Some? ==> (r.Some? <==> AllHaveText(phrases.value))
    ensures phrases.Some? && AllHaveText(phrases.value) ==>
              r == Some(if enable then Pieces(phrases.value) else Lines(phrases.value))
  {
    if enable && phrases.Some? then
      var d := FormatDiarized(phrases.value);
      if d.Some? then DiarizedIsPieces(phrases.value); Some(d.value.out) else None
    else
      var ps := phrases.GetOr([]);
      if AllHaveText(ps) then PlainIsLines(ps); FormatPlain(ps) else FormatPlain(ps)
  }

  /** `process_fast_transcription`: the status line and the result text. */
  function ProcessFast(path: Option<string>, enable: bool, audioLength: Option<Number>, processingTime: Number,
                       outcome: Outcome): (r: (string, string))
    ensures !Present(path) ==> r == (NoFileStatus, "")
    ensures Present(path) && outcome.Raised? ==> r == (ErrorStatus, outcome.message)
    ensures Present(path) && outcome.Responded? && outcome.reply.statusCode != 200 ==>
              r == (FormatProcessingInfo(audioLength, Some(processingTime), FailedStatus(outcome.reply.statusCode)),
                    "API returned: " + outcome.reply.body)
    ensures Present(path) && outcome.Responded? && outcome.reply.statusCode == 200 ==>
              var t := Transcript(enable, outcome.reply.phrases);
              (t.None? ==> r == (ErrorStatus, MissingTextMessage))
              && (t.Some? ==> r == (FormatProcessingInfo(audioLength, Some(processingTime), CompleteStatus), Strip(t.value)))
  {
    if !Present(path) then (NoFileStatus, "")
    else
      match outcome
      case Raised(message) => (ErrorStatus, message)
      case Responded(reply) =>
        if reply.statusCode == 200 then
          match Transcript(enable, reply.phrases)
          case None => (ErrorStatus, MissingTextMessage)
          case Some(t) => (FormatProcessingInfo(audioLength, Some(processingTime), CompleteStatus), Strip(t))
        else
          (FormatProcessingInfo(audioLength, Some(processingTime), FailedStatus(reply.statusCode)),
           "API returned: " + reply.body)
  }

  /** The returned transcript never starts or ends with whitespace. */
  lemma ResultTrimmed(path: Option<string>, enable: bool, audioLength: Option<Number>, processingTime: Number,
                      phrases: Option<seq<Phrase>>)
    requires Present(path)
    ensures var r := ProcessFast(path, enable, audioLength, processingTime, Responded(Reply(200, "", phrases))).1;
            |r| > 0 ==> !IsSpace(r[0]) && !IsSpace(r[|r| - 1])
  {
  }
}
