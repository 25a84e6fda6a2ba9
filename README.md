# CallOut voice profiles and callout generation, in Dafny

This project models the server core of CallOut (`app.py`). Users upload a voice
sample. The server files it under a fresh profile id in an in-memory registry
(`voice_profiles`). Later a request names that id and a message. The server asks
a synthesis gateway to render the message and answers with a download URL for
the file it produced. The gateway is either the ElevenLabs HTTP API or local
Coqui TTS.

Every outside effect is an input to the model: the saved file, the WAV probe,
the HTTP exchange, the TTS library, the file copy, `uuid4`, the clock and the
environment variables. What remains is modelled and proved:

- the registry, a class `Profiles.VoiceProfiles` whose `map` field the upload
  method updates in place;
- the branching of the three handlers and of the gateway, as functions over
  those inputs.

Modules:

- `Wrappers`: `Option`, for Python's `None`-or-value.
- `Uuids`: the text form of `str(uuid.uuid4())`.
- `Paths`: `os.path.basename` and two-argument `os.path.join` on POSIX paths.
- `Json`: decoded request bodies, Python truthiness and hashability.
- `Responses`: the replies and their status codes.
- `Gateway`: `generate_voice_clone`, `generate_with_elevenlabs` and `generate_with_coqui_tts`.
- `Profiles`: the registry, `upload_voice`, and lemmas about any run of uploads.
- `Handlers`: `generate_callout`, `download_audio`, and lemmas linking the handlers.

Behaviours of the code worth knowing:

- The default callout text is used only when the `message` key is absent. A
  supplied empty string, `null` or non-string value goes to the gateway
  unchanged.
- The download handler has no path-traversal guard, and the model has none.
  `Handlers.DownloadAbsoluteName` shows that an absolute name is looked up as
  it stands. Flask's `<filename>` route segment cannot hold a '/', and
  `Handlers.DownloadSlashFreeName` shows that such a name is looked up directly
  inside `generated/`.
- The gateway variant is chosen on every call, when `os.getenv` is read. The
  flag must be exactly the string `"true"`.
- The local variant's fallback copy of the sample is a success the caller
  cannot tell from real synthesis (`Handlers.DegradedSuccessIsIndistinguishable`).
- The upload reply carries the id and a message, not the duration.
- A `profile_id` that is absent, `null`, `false`, zero, an empty string or
  container, `true`, another number or an unknown string gives 400. A
  non-empty list or dict makes `in voice_profiles` raise `TypeError`, so the
  reply is 500. A body that is not JSON, or is JSON but not an object, also
  gives 500.
- When the upload handler's `request.files` raises, for example on a body
  over `MAX_CONTENT_LENGTH`, the reply is 500 with the exception's text.
- The remote variant never uses the voice sample: it asks for a fixed
  pre-made voice (`Gateway.ElevenLabsRequest`).

## Model

| member | source | states |
|---|---|---|
| Profiles.VoiceProfiles.constructor | app.py:19 | the registry starts empty and well formed |
| Profiles.VoiceProfiles.UploadVoice | app.py:25-55 | a form that fails to decode gives 500, a missing `audio` part gives 400 and a failed save gives 500, each 500 carrying the exception text, and in all three cases the registry is unchanged; otherwise the new id maps to `uploads/voice_sample_<id>.wav` with its timestamp and duration, every other entry is unchanged, the reply carries the id, and the registry stays well formed |
| Profiles.AfterUpload | app.py:29-46 | the registry changes only when the upload reaches the insertion; then it gains exactly the new id, with its record, and every other entry is kept |
| Profiles.UploadReply | app.py:29-55 | 400 iff the decoded form has no `audio` part; 500, with the exception text, iff decoding the form or the save raised; 200 with the new id iff the sample was saved |
| Profiles.SamplePath | app.py:38 | the sample path is `uploads/voice_sample_` followed by the id and `.wav`, with the id recoverable from it |
| Profiles.SamplePathInjective | app.py:38 | the sample path determines the profile id |
| Profiles.DistinctProfilesOwnDistinctSamples | app.py:35-46 | no two profiles in a well-formed registry share a sample file |
| Profiles.ReplayKeys | app.py:42-46 | after any run of uploads the keys are the old keys plus the ids of the uploads that were stored; no profile is ever removed |
| Profiles.ReplayKeepsRecords | app.py:42-46 | a record is unchanged by any run of uploads that does not store its id again |
| Profiles.ReplayWellFormed | app.py:35-46 | uploads with `uuid4` ids keep every key a UUID whose record names that key's sample file |
| Uuids.UuidIsPlainName | app.py:35 | a `uuid4` text is non-empty and holds no '/' |
| Paths.Basename | app.py:79 | the basename is the longest suffix of the path that holds no '/' |
| Paths.JoinPath | app.py:92 | an absolute second part replaces the first; otherwise the result is the first part followed by the second, with one '/' inserted between them exactly when the first part is non-empty and does not end in '/' |
| Paths.RFind | app.py:79 | the index `basename` cuts at is that of the last '/' in the path, or -1 when there is none |
| Paths.BasenameAfterSeparator | app.py:79 | a slash-free name after a separator is its own basename |
| Paths.BasenameOfJoin | app.py:92 | the basename of a directory joined with a slash-free name is that name |
| Paths.JoinRelative | app.py:92 | joining a directory and a slash-free name inserts one '/' |
| Gateway.ElevenLabsRequest | app.py:144-160 | the request goes to the text-to-speech endpoint of the fixed voice, with the fixed model and voice settings, the key in `xi-api-key`, and the text unchanged |
| Gateway.Remote | app.py:131-174 | a request is sent iff `requests` imports and the API key is set and non-empty, and it carries the text unchanged; the variant succeeds iff, beyond that, the status is 200 and the content is saved; it never falls back to a copy |
| Gateway.Local | app.py:176-203 | speech is written iff synthesis succeeds; the sample is copied iff synthesis fails and the copy succeeds; the variant fails only when both fail; no request is sent |
| Gateway.Synthesize | app.py:111-129 | with the flag exactly `"true"` the outcome is the remote variant's success condition; with any other flag or none, no request is sent and the outcome is the local variant's |
| Handlers.CheckProfileId | app.py:61-66 | a registered non-empty string id is accepted; any other id in an object body is a client error, except a non-empty list or dict, which raises; an unreadable body and a body that is not an object raise |
| Handlers.MessageOf | app.py:63 | a supplied message, empty or `null` included, is kept; the default text stands in only when the key is absent |
| Handlers.OutputPath | app.py:71 | the output path is the callout name joined to `generated`, and its basename is that name exactly when the id and the suffix hold no '/' |
| Handlers.CalloutNameSlashFree | app.py:71 | the callout name holds no '/' iff the id and the suffix hold none |
| Handlers.DirectChild | app.py:79 | `generated/` followed by a name is that join, and its basename is the name iff the name holds no '/' |
| Handlers.GenerateCallout | app.py:57-86 | the gateway is invoked iff `profile_id` is a non-empty string naming a registered profile; 400 iff the body is an object whose id is neither registered nor a non-empty list or dict; 500 with the matching fault for an unreadable body, a body that is not an object, and a non-empty list or dict id; otherwise the gateway gets that profile's sample, the message (the default only when the key is absent) and `generated/callout_<id>_<suffix>.wav`; gateway success gives 200 with `/api/download/` plus the basename of the output path, and gateway failure gives 500 |
| Handlers.DownloadAudio | app.py:88-98 | 200 with the path iff `os.path.join('generated', filename)` exists, else 404; the registry is not consulted |
| Handlers.OutputPathInjective | app.py:71 | output paths built from distinct UUID ids or suffixes differ, so two generations never share an output file |
| Handlers.DownloadSlashFreeName | app.py:88-96 | a slash-free name is found iff `generated/<name>` exists |
| Handlers.DownloadAbsoluteName | app.py:92-96 | an absolute name is looked up as it stands, outside `generated/` |
| Handlers.GeneratedCalloutIsDownloadable | app.py:71-96 | a 200 from generate carries `/api/download/callout_<id>_<suffix>.wav`, it creates exactly the output file, and downloading that name returns that file |
| Handlers.DegradedSuccessIsIndistinguishable | app.py:195-203 | with the local variant, a fallback copy gives the same reply as real synthesis, though the artifact is the sample copy |
| Handlers.UploadedProfileIsUsable | app.py:42-74 | right after a stored upload, a generate request naming the new id invokes the gateway with that profile's sample and the default message |

## Left out

- Flask routing, `request.files` and `request.json` decoding, `jsonify`, `send_file`, the index page and the 16 MB `MAX_CONTENT_LENGTH` limit are framework I/O. A failing `request.files` (the 413 of the size limit among them) is an input to the upload handler, carrying the exception text. A failing `request.json` becomes `Responses.UnreadableBody`, and its text is not modelled. Neither are the texts of the `AttributeError` and `TypeError` behind `BodyNotObject` and `UnhashableProfileId`.
- `get_audio_duration` uses the `wave` library and float rounding. It is an input: the measured duration, or none when the probe fails, giving 0.
- `uuid.uuid4`, `datetime.now` and `os.getenv` are parameters.
- The HTTP call, the Coqui TTS model and `shutil.copy` are foreign calls. Their outcomes are booleans or an HTTP status. A failed import of `TTS` counts as a failed synthesis. A failed import of `requests` is its own outcome, and then no request is sent.
- Partial files left behind by a failed write or synthesis are not modelled. A failed gateway run creates no file.
- `download_audio` is modelled over the set of paths that exist as regular files. A path that exists as a directory (`generated/..`) makes `send_file` raise and gives 500; this case is not modelled.
- The `print` diagnostics and the outer `except` of `generate_voice_clone` are left out. Both variants already catch every exception, so that `except` is never reached.
- JSON numbers are `real`, so Python's int/float distinction is lost. Only truthiness matters for them.
- Concurrency: the code has no locking, and the model is sequential.
- Profiles.VoiceProfiles.UploadVoice: requires the fresh id to be `uuid4` text, which `str(uuid.uuid4())` always is. An id collision overwrites the old record (line 42 assigns), and `Profiles.AfterUpload` models that overwrite.
- The browser script and the environment-checking test script are not part of this model.
