/** Wire-level vocabulary of the realtime transcription protocol: the two
    providers, inbound JSON messages as the fields the application reads, and
    the decoding of a completed transcript. JSON parsing itself is not
    modelled: the outcome of `json.loads` is carried as data. */
module Protocol {
  import opened Common

  /** `service_type`: "azure" (Azure OpenAI) or anything else, which every
      caller treats as the direct OpenAI service. */
  datatype ServiceKind = Azure | OpenAI

  /** Outcome of `json.loads(raw)` on a completed message's `transcript`
      string. An object exposes its `"text"` member (absent: `None`);
      any other JSON value has no `.get` (AttributeError); `Invalid` is a
      JSONDecodeError (the empty string is one). */
  datatype Parsed =
    | ObjectValue(text: Option<string>)
    | NonObject
    | Invalid

  /** Message type names of the realtime transcription protocol. */
  const DeltaType := "conversation.item.input_audio_transcription.delta"
  const CompletedType := "conversation.item.input_audio_transcription.completed"
  const SpeechStartedType := "input_audio_buffer.speech_started"
  const SpeechStoppedType := "input_audio_buffer.speech_stopped"
  const ErrorType := "error"
  const SessionCreatedType := "transcription_session.created"
  const SessionUpdatedType := "transcription_session.updated"

  /** One decoded inbound JSON object, as the fields the handlers read with
      `msg.get(...)`: `type`, `delta`, `transcript` (with the outcome of
      decoding it as JSON), and `message`. An absent field is `None`. */
  datatype Fields = Fields(
    msgType: Option<string>,
    delta: Option<string>,
    transcript: Option<string>,
    parsedTranscript: Parsed,
    message: Option<string>)

  /** The transcript a completed message carries. For Azure the `transcript`
      field is itself JSON: its `"text"` member is taken (`""` if absent),
      falling back to the raw string when it does not decode to an object.
      For OpenAI the raw string is used. A missing field reads as `""`. */
  function CompletedTranscript(kind: ServiceKind, msg: Fields): (t: string)
    ensures kind == OpenAI ==> t == msg.transcript.GetOr("")
    ensures kind == Azure && msg.parsedTranscript.ObjectValue? ==>
              t == msg.parsedTranscript.text.GetOr("")
    ensures kind == Azure && !msg.parsedTranscript.ObjectValue? ==>
              t == msg.transcript.GetOr("")
  {
    var raw := msg.transcript.GetOr("");
    match kind
    case OpenAI => raw
    case Azure =>
      match msg.parsedTranscript
      case ObjectValue(text) => text.GetOr("")
      case _ => raw
  }
}
