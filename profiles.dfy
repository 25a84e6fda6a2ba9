/** The in-memory voice-profile registry (`voice_profiles`) and the upload
    handler, the only code that writes to it. */
module Profiles {
  import opened Wrappers
  import opened Uuids
  import opened Responses

  /** One registry record. */
  datatype Profile = Profile(filename: string, createdAt: string, sampleDuration: real)

  /** Where the upload handler saves the sample of profile `id`. */
  function SamplePath(id: string): (path: string)
    ensures |path| == |"uploads/voice_sample_"| + |id| + |".wav"|
    ensures path[..|"uploads/voice_sample_"|] == "uploads/voice_sample_"
    ensures path[|"uploads/voice_sample_"|..|path| - |".wav"|] == id
    ensures path[|path| - |".wav"|..] == ".wav"
  {
    "uploads/voice_sample_" + id + ".wav"
  }

  /** `get_audio_duration`: the measured duration, or 0 when the probe fails. */
  function Duration(probe: Option<real>): real {
    probe.GetOr(0.0)
  }

  /** What reading `request.files` gave: the files, with or without an
      `audio` part, or the text of the exception it raised (such as the 413
      for a body over the size limit). */
  datatype Form = FormRaised(message: string) | FormParsed(hasAudio: bool)

  /** One upload request together with the outcomes of its effects: the
      form, the fresh `uuid4` text, the exception `save` raised (if any),
      the clock reading and the probe. */
  datatype Upload = Upload(
    form: Form,
    id: string,
    saveError: Option<string>,
    createdAt: string,
    probe: Option<real>)

  /** The upload reaches the insertion. */
  predicate Stored(u: Upload) {
    u.form == FormParsed(true) && u.saveError.None?
  }

  function Record(u: Upload): Profile {
    Profile(SamplePath(u.id), u.createdAt, Duration(u.probe))
  }

  /** The registry after one upload. */
  function AfterUpload(m: map<string, Profile>, u: Upload): (m': map<string, Profile>)
    ensures !Stored(u) ==> m' == m
    ensures Stored(u) ==> m'.Keys == m.Keys + {u.id} && m'[u.id] == Record(u)
    ensures forall k :: k in m && k != u.id ==> k in m' && m'[k] == m[k]
  {
    if Stored(u) then m[u.id := Record(u)] else m
  }

  /** The reply to one upload. */
  function UploadReply(u: Upload): (r: Reply)
    ensures r.Status() == 400 <==> u.form == FormParsed(false)
    ensures r.Status() == 500 <==> u.form.FormRaised? || (u.form == FormParsed(true) && u.saveError.Some?)
    ensures r.Status() == 200 <==> Stored(u)
    ensures u.form.FormRaised? ==> r.error == Raised(FormFault(u.form.message))
    ensures u.form == FormParsed(false) ==> r.error == NoAudioFile
    ensures u.form == FormParsed(true) && u.saveError.Some? ==> r.error == Raised(StorageFault(u.saveError.value))
    ensures Stored(u) ==> r == ProfileCreated(u.id)
  {
    if u.form.FormRaised? then Failure(500, Raised(FormFault(u.form.message)))
    else if !u.form.hasAudio then Failure(400, NoAudioFile)
    else if u.saveError.Some? then Failure(500, Raised(StorageFault(u.saveError.value)))
    else ProfileCreated(u.id)
  }

  /** Every key is a `uuid4` text and its record names that key's sample file. */
  ghost predicate WellFormed(m: map<string, Profile>) {
    forall k :: k in m ==> IsUuid(k) && m[k].filename == SamplePath(k)
  }

  /** The sample path determines the id, so no two profiles share a file. */
  lemma SamplePathInjective(a: string, b: string)
    requires SamplePath(a) == SamplePath(b)
    ensures a == b
  {
  }

  lemma DistinctProfilesOwnDistinctSamples(m: map<string, Profile>, a: string, b: string)
    requires WellFormed(m) && a in m && b in m && a != b
    ensures m[a].filename != m[b].filename
  {
  }

  /** The registry after a sequence of uploads, in order. */
  function Replay(m: map<string, Profile>, us: seq<Upload>): map<string, Profile>
    decreases |us|
  {
    if us == [] then m else Replay(AfterUpload(m, us[0]), us[1..])
  }

  /** The ids of the uploads in `us` that reached the insertion. */
  function StoredIds(us: seq<Upload>): set<string>
    decreases |us|
  {
    if us == [] then {}
    else (if Stored(us[0]) then {us[0].id} else {}) + StoredIds(us[1..])
  }

  /** Profiles are never removed: the keys after any run of uploads are the
      old keys plus the ids of the uploads that were stored. */
  lemma {:induction false} ReplayKeys(m: map<string, Profile>, us: seq<Upload>)
    ensures Replay(m, us).Keys == m.Keys + StoredIds(us)
    decreases |us|
  {
    if us != [] {
      ReplayKeys(AfterUpload(m, us[0]), us[1..]);
    }
  }

  /** A record whose id is not uploaded again keeps its value. */
  lemma {:induction false} ReplayKeepsRecords(m: map<string, Profile>, us: seq<Upload>, k: string)
    requires k in m && k !in StoredIds(us)
    ensures k in Replay(m, us) && Replay(m, us)[k] == m[k]
    decreases |us|
  {
    if us != [] {
      ReplayKeepsRecords(AfterUpload(m, us[0]), us[1..], k);
    }
  }

  /** Uploads with `uuid4` ids keep the registry well formed. */
  lemma {:induction false} ReplayWellFormed(m: map<string, Profile>, us: seq<Upload>)
    requires WellFormed(m)
    requires forall i :: 0 <= i < |us| ==> IsUuid(us[i].id)
    ensures WellFormed(Replay(m, us))
    decreases |us|
  {
    if us != [] {
      ReplayWellFormed(AfterUpload(m, us[0]), us[1..]);
    }
  }

  /** The process-wide registry. */
  class VoiceProfiles {
    var profiles: map<string, Profile>

    ghost predicate Valid()
      reads this
    {
      WellFormed(profiles)
    }

    constructor ()
      ensures Valid() && profiles == map[]
    {
      profiles := map[];
    }

    /** `upload_voice`, given the fresh id and the outcomes of its effects. */
    method UploadVoice(form: Form, freshId: string, saveError: Option<string>,
                       now: string, probe: Option<real>) returns (reply: Reply)
      requires Valid()
      requires IsUuid(freshId)
      modifies this
      ensures Valid()
      ensures form.FormRaised? ==>
                reply == Failure(500, Raised(FormFault(form.message))) && profiles == old(profiles)
      ensures form == FormParsed(false) ==> reply == Failure(400, NoAudioFile) && profiles == old(profiles)
      ensures form == FormParsed(true) && saveError.Some? ==>
                reply == Failure(500, Raised(StorageFault(saveError.value))) && profiles == old(profiles)
      ensures form == FormParsed(true) && saveError.None? ==>
                && reply == ProfileCreated(freshId)
                && profiles == old(profiles)[freshId := Profile(SamplePath(freshId), now, Duration(probe))]
      ensures profiles == AfterUpload(old(profiles), Upload(form, freshId, saveError, now, probe))
      ensures reply == UploadReply(Upload(form, freshId, saveError, now, probe))
    {
      if form.FormRaised? {
        return Failure(500, Raised(FormFault(form.message)));
      }
      if !form.hasAudio {
        return Failure(400, NoAudioFile);
      }
      var filename := SamplePath(freshId);
      if saveError.Some? {
        return Failure(500, Raised(StorageFault(saveError.value)));
      }
      profiles := profiles[freshId := Profile(filename, now, Duration(probe))];
      reply := ProfileCreated(freshId);
    }
  }
}
