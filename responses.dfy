/** The HTTP replies of the three handlers: a status code with its JSON
    fields, or the generated file itself for a download. */
module Responses {

  /** An exception a handler's `except Exception` turns into a 500 reply. */
  datatype Fault =
    | FormFault(message: string)     // `request.files` raised, e.g. 413 for a body over the size limit
    | StorageFault(message: string)  // `audio_file.save` raised; the reply carries `str(e)`
    | UnreadableBody                 // `request.json` raised
    | BodyNotObject                  // the body decoded to something without `.get`
    | UnhashableProfileId            // `profile_id in voice_profiles` raised `TypeError`

  datatype Error =
    | NoAudioFile       // "No audio file provided"
    | InvalidProfileId  // "Invalid profile ID"
    | CloneFailed       // "Failed to generate voice clone"
    | FileNotFound      // "File not found"
    | Raised(fault: Fault)

  datatype Reply =
    | ProfileCreated(profileId: string)  // {success: true, profile_id, message: "Voice sample uploaded successfully"}
    | CalloutGenerated(audioUrl: string) // {success: true, audio_url, message: "Callout message generated successfully"}
    | AudioAttachment(path: string)      // the file, sent as audio/wav
    | Failure(code: int, error: Error)   // {error}
  {
    function Status(): int {
      if Failure? then code else 200
    }
  }
}
