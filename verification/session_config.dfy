/** Settings of one realtime transcription session and the credentials read
    from the environment, shared by both realtime service front ends. */
module SessionConfig {
  import opened Common
  import opened Protocol

  /** The two accepted transcription models. */
  datatype Model = Gpt4oTranscribe | Gpt4oMiniTranscribe

  /** Noise reduction other than "off" (`None`). */
  datatype NoiseReduction = NearField | FarField

  /** Settings that passed validation, with "none" already normalised to `None`. */
  datatype Settings = Settings(service: ServiceKind, model: Model, noise: Option<NoiseReduction>)

  /** Why validation refused the parameters. */
  datatype Rejection = InvalidServiceType | InvalidModel | InvalidNoiseReduction

  datatype Validated = Accepted(settings: Settings) | Rejected(reason: Rejection)

  /** The service-type strings the validators accept. */
  function ServiceOf(name: string): (r: Option<ServiceKind>)
    ensures r.Some? <==> name == "azure" || name == "openai"
    ensures name == "azure" ==> r == Some(Azure)
    ensures name == "openai" ==> r == Some(OpenAI)
  {
    if name == "azure" then Some(Azure)
    else if name == "openai" then Some(OpenAI)
    else None
  }

  /** The model ids the validators accept. */
  function ModelOf(name: string): (r: Option<Model>)
    ensures r.Some? <==> name == "gpt-4o-transcribe" || name == "gpt-4o-mini-transcribe"
    ensures name == "gpt-4o-transcribe" ==> r == Some(Gpt4oTranscribe)
    ensures name == "gpt-4o-mini-transcribe" ==> r == Some(Gpt4oMiniTranscribe)
  {
    if name == "gpt-4o-transcribe" then Some(Gpt4oTranscribe)
    else if name == "gpt-4o-mini-transcribe" then Some(Gpt4oMiniTranscribe)
    else None
  }

  /** The noise-reduction strings naming a mode (not "none"). */
  function NoiseOf(name: string): (r: Option<NoiseReduction>)
    ensures r.Some? <==> name == "near_field" || name == "far_field"
    ensures name == "near_field" ==> r == Some(NearField)
    ensures name == "far_field" ==> r == Some(FarField)
  {
    if name == "near_field" then Some(NearField)
    else if name == "far_field" then Some(FarField)
    else None
  }

  /** Environment credentials (`os.getenv`; `None` when unset). */
  datatype Credentials = Credentials(
    azureApiKey: Option<string>,
    azureEndpoint: Option<string>,
    azureDeployment: Option<string>,
    openaiApiKey: Option<string>)

  /** `all([key, endpoint, deployment])` for Azure, the API key for OpenAI. */
  predicate CredentialsReady(c: Credentials, kind: ServiceKind) {
    match kind
    case Azure => Present(c.azureApiKey) && Present(c.azureEndpoint) && Present(c.azureDeployment)
    case OpenAI => Present(c.openaiApiKey)
  }
}
