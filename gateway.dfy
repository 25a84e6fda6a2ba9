/** The synthesis gateway: `generate_voice_clone` and its remote (ElevenLabs)
    and local (Coqui TTS) variants. Every foreign effect, the environment,
    the HTTP exchange, the TTS library and the file copy, is an input. */
module Gateway {
  import opened Wrappers
  import opened Json

  /** The two environment variables the gateway reads on every call. */
  datatype Config = Config(useElevenLabs: Option<string>, apiKey: Option<string>)

  /** What `requests.post` did: raised, or answered with a status code. */
  datatype HttpOutcome = NoResponse | Answered(status: int)

  /** The outcomes of the foreign calls one synthesis attempt may make. */
  datatype Outcomes = Outcomes(
    requestsImported: bool, // `import requests`, done before the key is read
    response: HttpOutcome,  // the remote call
    contentSaved: bool,     // writing the response body to the output path
    ttsSynthesized: bool,   // `tts.tts_to_file`, including loading the model
    sampleCopied: bool)     // `shutil.copy(sample, output)`

  /** The request the remote variant sends. */
  datatype HttpRequest = HttpRequest(
    url: string,
    headers: map<string, string>,
    text: JsonValue,
    modelId: string,
    stability: real,
    similarityBoost: real)

  /** What ends up at the output path. */
  datatype Artifact = NoArtifact | Speech | SampleCopy

  /** One gateway run: the request it sent, if any, and what it wrote. */
  datatype Run = Run(request: Option<HttpRequest>, artifact: Artifact) {
    /** The boolean the source returns. */
    predicate Succeeded() {
      artifact != NoArtifact
    }
  }

  const REMOTE_FLAG := "true"
  const VOICE_ID := "21m00Tcm4TlvDq8ikWAM"
  const TTS_ENDPOINT := "https://api.elevenlabs.io/v1/text-to-speech/"
  const MODEL_ID := "eleven_monolingual_v1"

  /** `not api_key` rejects both an unset and an empty variable. */
  predicate HasKey(key: Option<string>) {
    key.Some? && key.value != ""
  }

  /** The ElevenLabs text-to-speech call: the fixed voice and model, the
      key in the `xi-api-key` header, and the text as given. */
  function ElevenLabsRequest(key: string, text: JsonValue): (r: HttpRequest)
    ensures r.url == TTS_ENDPOINT + VOICE_ID && r.modelId == MODEL_ID
    ensures r.headers.Keys == {"Accept", "Content-Type", "xi-api-key"}
    ensures r.headers["xi-api-key"] == key && r.headers["Accept"] == "audio/mpeg"
    ensures r.text == text
    ensures r.stability == 0.5 && r.similarityBoost == 0.5
  {
    HttpRequest(
      TTS_ENDPOINT + VOICE_ID,
      map["Accept" := "audio/mpeg", "Content-Type" := "application/json", "xi-api-key" := key],
      text, MODEL_ID, 0.5, 0.5)
  }

  /** `generate_with_elevenlabs`. The voice sample plays no part: the
      request names a fixed pre-made voice. A request is sent once the
      library is loaded and the key is set; `response` is what came of it. */
  function Remote(key: Option<string>, text: JsonValue, io: Outcomes): (r: Run)
    ensures r.request.Some? <==> io.requestsImported && HasKey(key)
    ensures r.request.Some? ==> r.request.value == ElevenLabsRequest(key.value, text)
    ensures r.Succeeded() <==>
              io.requestsImported && HasKey(key) && io.response == Answered(200) && io.contentSaved
    ensures r.artifact != SampleCopy
  {
    if !io.requestsImported then Run(None, NoArtifact)
    else if !HasKey(key) then Run(None, NoArtifact)
    else
      var request := ElevenLabsRequest(key.value, text);
      match io.response
      case NoResponse => Run(Some(request), NoArtifact)
      case Answered(status) =>
        if status == 200 && io.contentSaved then Run(Some(request), Speech)
        else Run(Some(request), NoArtifact)
  }

  /** `generate_with_coqui_tts`: synthesis, and on any failure a copy of the
      sample as a placeholder. */
  function Local(io: Outcomes): (r: Run)
    ensures r.request.None?
    ensures r.artifact == Speech <==> io.ttsSynthesized
    ensures r.artifact == SampleCopy <==> !io.ttsSynthesized && io.sampleCopied
    ensures !r.Succeeded() <==> !io.ttsSynthesized && !io.sampleCopied
  {
    if io.ttsSynthesized then Run(None, Speech)
    else if io.sampleCopied then Run(None, SampleCopy)
    else Run(None, NoArtifact)
  }

  /** `generate_voice_clone`: the remote variant exactly when the flag is the
      string "true", the local one otherwise (unset, "True", "1", ...). */
  function Synthesize(cfg: Config, text: JsonValue, io: Outcomes): (r: Run)
    ensures r.request.Some? ==> cfg.useElevenLabs == Some(REMOTE_FLAG) && HasKey(cfg.apiKey) && io.requestsImported
    ensures r.request.Some? ==> r.request.value.text == text
    ensures cfg.useElevenLabs == Some(REMOTE_FLAG) ==>
              && r.artifact != SampleCopy
              && (r.Succeeded() <==>
                    io.requestsImported && HasKey(cfg.apiKey) && io.response == Answered(200) && io.contentSaved)
    ensures cfg.useElevenLabs != Some(REMOTE_FLAG) ==>
              && r.request.None?
              && (r.Succeeded() <==> io.ttsSynthesized || io.sampleCopied)
  {
    if cfg.useElevenLabs == Some(REMOTE_FLAG) then Remote(cfg.apiKey, text, io)
    else Local(io)
  }
}
