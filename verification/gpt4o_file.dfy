/** The GPT-4o file transcription call (gradio/services/gpt4o_file_service.py):
    its guards, the client and request it builds, and the status/result pair
    it returns. The SDK call, the clock, the audio-length probe and the
    confidence rendering are inputs. */
module Gpt4oFile {
  import opened Common
  import opened Text
  import opened ProcessingInfo

  /** The three environment settings the call needs. */
  datatype Config = Config(apiKey: Option<string>, endpoint: Option<string>, deployment: Option<string>)

  /** `all([...])` over the three settings. */
  predicate Configured(c: Config) {
    Present(c.apiKey) && Present(c.endpoint) && Present(c.deployment)
  }

  const ApiVersion := "2025-03-01-preview"
  const DeploymentsMarker := "/openai/deployments"
  const Scheme := "https://"

  /** The client's `azure_endpoint`: "https://" and the configured endpoint
      up to its first "/openai/deployments" (all of it when absent). */
  function AzureEndpoint(endpoint: string): (r: string)
    ensures |Scheme| <= |r| <= |Scheme| + |endpoint| && r[..|Scheme|] == Scheme
    ensures r[|Scheme|..] == endpoint[..|r| - |Scheme|]
    ensures !Contains(endpoint, DeploymentsMarker) <==> r == Scheme + endpoint
    ensures Contains(endpoint, DeploymentsMarker) ==>
              OccursAt(endpoint, DeploymentsMarker, |r| - |Scheme|)
              && forall i :: 0 <= i < |r| - |Scheme| ==> !OccursAt(endpoint, DeploymentsMarker, i)
  {
    var host := BeforeFirst(endpoint, DeploymentsMarker);
    BeforeFirstWhole(endpoint, DeploymentsMarker);
    assert (Scheme + host)[|Scheme|..] == host;
    Scheme + host
  }

  /** A deployment URL whose host part has no '/' yields the host as the
      client endpoint: the deployment path is cut off. */
  lemma EndpointOfDeploymentUrl(host: string, rest: string)
    requires forall i :: 0 <= i < |host| ==> host[i] != '/'
    ensures AzureEndpoint(host + DeploymentsMarker + rest) == Scheme + host
  {
    var m := DeploymentsMarker;
    var s := host + m + rest;
    var r := BeforeFirst(s, m);
    assert s[|host|..|host| + |m|] == m;
    assert OccursAt(s, m, |host|);
    assert |r| <= |host|;
    assert OccursAt(s, m, |r|);
    assert s[|r|] == '/' by {
      assert s[|r|..|r| + |m|] == m;
      assert s[|r|] == s[|r|..|r| + |m|][0];
    }
    assert forall i :: 0 <= i < |host| ==> s[i] == host[i];
    assert |r| == |host|;
    assert s[..|host|] == host;
  }

  /** The AzureOpenAI client's settings. */
  datatype Client = Client(apiKey: string, apiVersion: string, azureEndpoint: string)

  /** The keyword arguments of `transcriptions.create` besides the file. */
  datatype Params = Params(model: string, responseFormat: string, prompt: Option<string>, includes: Option<seq<string>>)

  /** The request parameters: JSON replies are forced when log
      probabilities are asked for; the prompt and `include` appear only
      when wanted. */
  function BuildParams(deployment: string, prompt: string, responseFormat: string, includeLogprobs: bool)
    : (p: Params)
    ensures p.model == deployment
    ensures includeLogprobs ==> p.responseFormat == "json"
    ensures !includeLogprobs ==> p.responseFormat == responseFormat
    ensures p.prompt.Some? <==> prompt != ""
    ensures p.prompt.Some? ==> p.prompt.value == prompt
    ensures p.includes.Some? <==> includeLogprobs
    ensures p.includes.Some? ==> p.includes.value == ["logprobs"]
  {
    Params(deployment,
           if includeLogprobs then "json" else responseFormat,
           if prompt != "" then Some(prompt) else None,
           if includeLogprobs then Some(["logprobs"]) else None)
  }

  /** What the call produced: an exception (its message), or a result
      given by its text (a plain-text reply), its `str()` and its rendering
      with confidence scores. */
  datatype Outcome = Raised(message: string) | Returned(text: string, repr: string, withConfidence: string)

  const NoFileStatus := "Status: No file uploaded"
  const MissingConfigStatus := "Status: Missing GPT-4o API configuration"
  const MissingConfigMessage :=
    "Please set AZURE_OPENAI_GPT4O_API_KEY, AZURE_OPENAI_GPT4O_ENDPOINT, and AZURE_OPENAI_GPT4O_DEPLOYMENT_ID in your .env file."
  const ErrorStatus := "Status: GPT-4o Transcription error"
  const CompleteStatus := "Status: GPT-4o Transcription complete"

  /** The reply of `process_gpt4o_file_transcription`, and the client and
      request parameters it builds once both guards pass. Whether the audio
      probe, the file opening or the call then raised is part of the outcome,
      so `prepared` does not say that a request was sent. */
  datatype Reply = Reply(status: string, result: string, prepared: Option<(Client, Params)>)

  /** `process_gpt4o_file_transcription`. */
  function ProcessGpt4oFile(path: Option<string>, prompt: string, responseFormat: string, includeLogprobs: bool,
                            config: Config, audioLength: Option<Number>, processingTime: Number, outcome: Outcome)
    : (r: Reply)
    ensures r.prepared.Some? <==> Present(path) && Configured(config)
    ensures !Present(path) ==> r.status == NoFileStatus && r.result == ""
    ensures Present(path) && !Configured(config) ==>
              r.status == MissingConfigStatus && r.result == MissingConfigMessage
    ensures r.prepared.Some? ==>
              r.prepared.value.0 == Client(config.apiKey.value, ApiVersion, AzureEndpoint(config.endpoint.value))
              && r.prepared.value.1 == BuildParams(config.deployment.value, prompt, responseFormat, includeLogprobs)
    ensures r.prepared.Some? && outcome.Raised? ==> r.status == ErrorStatus && r.result == outcome.message
    ensures r.prepared.Some? && outcome.Returned? ==>
              r.status == FormatProcessingInfo(audioLength, Some(processingTime), CompleteStatus)
    ensures r.prepared.Some? && outcome.Returned? && includeLogprobs ==> r.result == outcome.withConfidence
    ensures r.prepared.Some? && outcome.Returned? && !includeLogprobs ==>
              r.result == (if responseFormat == "json" then outcome.repr else outcome.text)
  {
    if !Present(path) then Reply(NoFileStatus, "", None)
    else if !Configured(config) then Reply(MissingConfigStatus, MissingConfigMessage, None)
    else
      var client := Client(config.apiKey.value, ApiVersion, AzureEndpoint(config.endpoint.value));
      var params := BuildParams(config.deployment.value, prompt, responseFormat, includeLogprobs);
      var prepared := Some((client, params));
      match outcome
      case Raised(message) => Reply(ErrorStatus, message, prepared)
      case Returned(text, repr, withConfidence) =>
        var status := FormatProcessingInfo(audioLength, Some(processingTime), CompleteStatus);
        if includeLogprobs then Reply(status, withConfidence, prepared)
        else if responseFormat == "json" then Reply(status, repr, prepared)
        else Reply(status, text, prepared)
  }

  /** A successful call's status is the completion status followed by the
      measurements: at least the processing time is always reported. */
  lemma CompletionStatusLeads(path: Option<string>, prompt: string, responseFormat: string, includeLogprobs: bool,
                              config: Config, audioLength: Option<Number>, processingTime: Number, outcome: Outcome)
    requires Present(path) && Configured(config) && outcome.Returned?
    ensures var s := ProcessGpt4oFile(path, prompt, responseFormat, includeLogprobs, config, audioLength,
                                      processingTime, outcome).status;
            |s| > |CompleteStatus| && s[..|CompleteStatus|] == CompleteStatus
  {
    PrefixLeads(audioLength, processingTime, CompleteStatus);
  }
}
