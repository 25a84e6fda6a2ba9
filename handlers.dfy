/** The generate and download handlers, and how the three handlers fit
    together. Both are read-only over the registry; the file system is the
    set of paths that exist as regular files. */
module Handlers {
  import opened Wrappers
  import opened Uuids
  import opened Paths
  import opened Json
  import opened Responses
  import opened Gateway
  import opened Profiles

  const DEFAULT_MESSAGE := "Hi, this is calling to let you know I'm not feeling well today and won't be able to come in to work. I'll keep you updated. Thanks for understanding."
  const GENERATED_DIR := "generated"
  const DOWNLOAD_ROUTE := "/api/download/"

  /** The name of the file one generation writes, given the fresh suffix. */
  function CalloutName(id: string, suffix: string): string {
    "callout_" + id + "_" + suffix + ".wav"
  }

  /** The output path `generate_callout` builds from the profile id and a
      fresh `uuid4` suffix: the callout name inside the generated directory. */
  function OutputPath(id: string, suffix: string): (path: string)
    ensures path == JoinPath(GENERATED_DIR, CalloutName(id, suffix))
    ensures path[..|GENERATED_DIR| + 1] == "generated/"
    ensures Basename(path) == CalloutName(id, suffix) <==> '/' !in id && '/' !in suffix
  {
    var name := CalloutName(id, suffix);
    assert name[0] == 'c';
    DirectChild(name);
    CalloutNameSlashFree(id, suffix);
    "generated/" + name
  }

  /** The fixed parts of the callout name hold no '/'. */
  lemma CalloutNameSlashFree(id: string, suffix: string)
    ensures '/' !in CalloutName(id, suffix) <==> '/' !in id && '/' !in suffix
  {
  }

  /** The basename of `generated/<name>` is `name` exactly when `name` holds
      no '/'. */
  lemma DirectChild(name: string)
    requires |name| > 0 && name[0] != '/'
    ensures JoinPath(GENERATED_DIR, name) == "generated/" + name
    ensures Basename("generated/" + name) == name <==> '/' !in name
  {
  }

  /** The call the generate handler makes into the gateway, and its run. */
  datatype Invocation = Invocation(sample: string, text: JsonValue, output: string, run: Run)

  /** A generate reply, with the gateway invocation it made, if any. */
  datatype Generation = Generation(reply: Reply, invoked: Option<Invocation>) {
    /** The files the request leaves behind. */
    function Created(): set<string> {
      if invoked.Some? && invoked.value.run.Succeeded() then {invoked.value.output} else {}
    }
  }

  /** How `generate_callout` treats `profile_id` before it looks anything
      up: a registered id, a client error, or an exception. */
  datatype Check = Accepted(id: string, fields: map<string, JsonValue>) | Rejected | Crashed(fault: Fault)

  /** The body decoded to a JSON object. */
  predicate IsObject(body: Body) {
    body.Parsed? && body.value.JObject?
  }

  /** The body names a registered profile by a non-empty string. */
  predicate NamesProfile(profiles: map<string, Profile>, body: Body) {
    && IsObject(body)
    && "profile_id" in body.value.fields
    && body.value.fields["profile_id"].JString?
    && body.value.fields["profile_id"].s != ""
    && body.value.fields["profile_id"].s in profiles
  }

  /** `profile_id` is a non-empty list or dict, which `in` cannot look up. */
  predicate UnhashableId(body: Body) {
    && IsObject(body)
    && "profile_id" in body.value.fields
    && Truthy(body.value.fields["profile_id"])
    && !Hashable(body.value.fields["profile_id"])
  }

  /** `data.get('profile_id')` and the test `not profile_id or profile_id
      not in voice_profiles`. An absent key, `null`, `false`, zero, an empty
      string or container, `true`, another number or an unknown string is a
      client error; a non-empty list or dict raises. */
  function CheckProfileId(profiles: map<string, Profile>, body: Body): (c: Check)
    ensures c.Accepted? <==> NamesProfile(profiles, body)
    ensures c.Accepted? ==>
              body == Parsed(JObject(c.fields)) && c.fields["profile_id"] == JString(c.id) && c.id in profiles
    ensures c.Rejected? <==> IsObject(body) && !NamesProfile(profiles, body) && !UnhashableId(body)
    ensures c == Crashed(UnreadableBody) <==> body.Unreadable?
    ensures c == Crashed(BodyNotObject) <==> body.Parsed? && !body.value.JObject?
    ensures c == Crashed(UnhashableProfileId) <==> UnhashableId(body)
  {
    match body
    case Unreadable => Crashed(UnreadableBody)
    case Parsed(v) =>
      if !v.JObject? then Crashed(BodyNotObject)
      else if "profile_id" !in v.fields || !Truthy(v.fields["profile_id"]) then Rejected
      else
        var pid := v.fields["profile_id"];
        if !Hashable(pid) then Crashed(UnhashableProfileId)
        else if pid.JString? && pid.s in profiles then Accepted(pid.s, v.fields)
        else Rejected
  }

  /** `data.get('message', DEFAULT)`: any supplied value, the empty string
      and `null` included, is kept; the default stands in only for an
      absent key. */
  function MessageOf(fields: map<string, JsonValue>): (text: JsonValue)
    ensures "message" in fields ==> text == fields["message"]
    ensures "message" !in fields ==> text == JString(DEFAULT_MESSAGE)
  {
    if "message" in fields then fields["message"] else JString(DEFAULT_MESSAGE)
  }

  /** `generate_callout`, given the fresh output suffix, the environment and
      the outcomes of the gateway's foreign calls. */
  function GenerateCallout(profiles: map<string, Profile>, body: Body, suffix: string,
                           cfg: Config, io: Outcomes): (g: Generation)
    ensures g.invoked.Some? <==> NamesProfile(profiles, body)
    ensures g.reply == Failure(400, InvalidProfileId) <==>
              IsObject(body) && !NamesProfile(profiles, body) && !UnhashableId(body)
    ensures body.Unreadable? ==> g.reply == Failure(500, Raised(UnreadableBody))
    ensures body.Parsed? && !body.value.JObject? ==> g.reply == Failure(500, Raised(BodyNotObject))
    ensures UnhashableId(body) ==> g.reply == Failure(500, Raised(UnhashableProfileId))
    ensures g.invoked.Some? ==>
              var id := body.value.fields["profile_id"].s;
              var fields := body.value.fields;
              && g.invoked.value.sample == profiles[id].filename
              && g.invoked.value.output == OutputPath(id, suffix)
              && ("message" in fields ==> g.invoked.value.text == fields["message"])
              && ("message" !in fields ==> g.invoked.value.text == JString(DEFAULT_MESSAGE))
              && g.invoked.value.run == Synthesize(cfg, g.invoked.value.text, io)
    ensures g.invoked.Some? && g.invoked.value.run.Succeeded() ==>
              g.reply == CalloutGenerated(DOWNLOAD_ROUTE + Basename(g.invoked.value.output))
    ensures g.invoked.Some? && !g.invoked.value.run.Succeeded() ==>
              g.reply == Failure(500, CloneFailed)
  {
    match CheckProfileId(profiles, body)
    case Rejected => Generation(Failure(400, InvalidProfileId), None)
    case Crashed(fault) => Generation(Failure(500, Raised(fault)), None)
    case Accepted(id, fields) => Invoke(profiles[id].filename, MessageOf(fields), OutputPath(id, suffix), cfg, io)
  }

  /** The rest of `generate_callout` once the profile id is accepted: the
      gateway call and the reply shaped from its result. */
  function Invoke(sample: string, text: JsonValue, output: string, cfg: Config, io: Outcomes): Generation
  {
    var run := Synthesize(cfg, text, io);
    var reply := if run.Succeeded() then CalloutGenerated(DOWNLOAD_ROUTE + Basename(output))
                 else Failure(500, CloneFailed);
    Generation(reply, Some(Invocation(sample, text, output, run)))
  }

  /** `download_audio`: `files` are the paths that exist. */
  function DownloadAudio(files: set<string>, filename: string): (r: Reply)
    ensures r.Status() == 200 <==> JoinPath(GENERATED_DIR, filename) in files
    ensures r.Status() == 200 ==> r == AudioAttachment(JoinPath(GENERATED_DIR, filename))
    ensures r.Status() != 200 ==> r == Failure(404, FileNotFound)
  {
    var filepath := JoinPath(GENERATED_DIR, filename);
    if filepath in files then AudioAttachment(filepath) else Failure(404, FileNotFound)
  }

  /** Output paths of distinct (id, suffix) pairs differ, so two generations
      never write the same file, even for the same profile. */
  lemma OutputPathInjective(id1: string, suffix1: string, id2: string, suffix2: string)
    requires IsUuid(id1) && IsUuid(id2) && IsUuid(suffix1) && IsUuid(suffix2)
    requires OutputPath(id1, suffix1) == OutputPath(id2, suffix2)
    ensures id1 == id2 && suffix1 == suffix2
  {
    var n := |"generated/callout_"|;
    assert id1 == OutputPath(id1, suffix1)[n..n + 36];
    assert id2 == OutputPath(id2, suffix2)[n..n + 36];
    assert suffix1 == OutputPath(id1, suffix1)[n + 37..n + 73];
    assert suffix2 == OutputPath(id2, suffix2)[n + 37..n + 73];
  }

  /** Download resolves a slash-free name (all that the `<filename>` route
      segment can carry) directly inside the generated directory. */
  lemma DownloadSlashFreeName(files: set<string>, filename: string)
    requires '/' !in filename
    ensures DownloadAudio(files, filename).Status() == 200 <==> "generated/" + filename in files
  {
    JoinRelative(GENERATED_DIR, filename);
    assert GENERATED_DIR + "/" + filename == "generated/" + filename;
  }

  /** The handler itself does not confine the path: an absolute name is
      resolved as it stands. The `<filename>` route segment never holds a
      '/', so no request reaches the handler with such a name. */
  lemma DownloadAbsoluteName(files: set<string>, filename: string)
    requires |filename| > 0 && filename[0] == '/'
    ensures DownloadAudio(files, filename).Status() == 200 <==> filename in files
  {
  }

  /** A successful generation with a registered profile replies with the
      download URL of the file it wrote, and downloading that name finds it. */
  lemma GeneratedCalloutIsDownloadable(profiles: map<string, Profile>, body: Body, suffix: string,
                                       cfg: Config, io: Outcomes, files: set<string>)
    requires WellFormed(profiles) && IsUuid(suffix)
    requires NamesProfile(profiles, body)
    ensures var g := GenerateCallout(profiles, body, suffix, cfg, io);
            var id := body.value.fields["profile_id"].s;
            g.reply.CalloutGenerated? ==>
              && g.reply.audioUrl == DOWNLOAD_ROUTE + CalloutName(id, suffix)
              && g.Created() == {OutputPath(id, suffix)}
              && DownloadAudio(files + g.Created(), CalloutName(id, suffix)) == AudioAttachment(OutputPath(id, suffix))
  {
    var id := body.value.fields["profile_id"].s;
    UuidIsPlainName(id);
    UuidIsPlainName(suffix);
    assert CalloutName(id, suffix)[0] == 'c';
    DirectChild(CalloutName(id, suffix));
  }

  /** With the local variant, a failed synthesis that falls back to copying
      the sample gives the caller the same reply as a real synthesis. */
  lemma DegradedSuccessIsIndistinguishable(profiles: map<string, Profile>, body: Body, suffix: string,
                                           cfg: Config, io: Outcomes)
    requires cfg.useElevenLabs != Some(REMOTE_FLAG)
    requires io.ttsSynthesized
    ensures var degraded := io.(ttsSynthesized := false, sampleCopied := true);
            && GenerateCallout(profiles, body, suffix, cfg, io).reply
               == GenerateCallout(profiles, body, suffix, cfg, degraded).reply
            && (NamesProfile(profiles, body) ==>
                  GenerateCallout(profiles, body, suffix, cfg, degraded).invoked.value.run.artifact == SampleCopy)
  {
  }

  /** A profile just stored by an upload is accepted by the generate handler,
      which hands its sample and the default message to the gateway. */
  lemma UploadedProfileIsUsable(m: map<string, Profile>, u: Upload, suffix: string,
                                cfg: Config, io: Outcomes)
    requires Stored(u) && IsUuid(u.id)
    ensures var body := Parsed(JObject(map["profile_id" := JString(u.id)]));
            var g := GenerateCallout(AfterUpload(m, u), body, suffix, cfg, io);
            && g.invoked.Some?
            && g.invoked.value.sample == SamplePath(u.id)
            && g.invoked.value.text == JString(DEFAULT_MESSAGE)
  {
  }
}
