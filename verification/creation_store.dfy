/**
 * The creation session store: one record of the image, script, voice, the two
 * generated URLs, the pipeline status and the last error, with its setters.
 */
module CreationStore {
  import opened Wrappers

  /** The six pipeline statuses the screens switch on. */
  datatype CreationStatus =
    | Idle
    | GeneratingScript
    | GeneratingVoice
    | GeneratingVideo
    | Complete
    | Error

  datatype CreationState = CreationState(
    imageUri: Option<string>,
    imageBase64: Option<string>,
    script: string,
    selectedVoiceId: string,
    audioUrl: Option<string>,
    videoUrl: Option<string>,
    status: CreationStatus,
    error: Option<string>)

  datatype Voice = Voice(id: string, name: string)

  /** The text-to-speech voice selected before the user picks one. */
  const DefaultVoiceId: string := "EXAVITQu4vr4xnSDxMaL"

  /** The voices the voice picker offers, in display order. */
  const AvailableVoices: seq<Voice> := [
    Voice("EXAVITQu4vr4xnSDxMaL", "Sarah (Female)"),
    Voice("21m00Tcm4TlvDq8ikWAM", "Rachel (Female)"),
    Voice("AZnzlk1XvdvUeBnXmlld", "Domi (Female)"),
    Voice("ErXwobaYiN019PkySvjV", "Antoni (Male)"),
    Voice("VR6AewLTigWG4xSOukaG", "Arnold (Male)"),
    Voice("pNInz6obpgDQGcFmaJgB", "Adam (Male)")
  ]

  /** The state of a fresh session. */
  function Initial(): (s: CreationState)
    ensures s.status == Idle && s.script == ""
    ensures s.imageUri.None? && s.imageBase64.None? && s.audioUrl.None? && s.videoUrl.None? && s.error.None?
    ensures s.selectedVoiceId == DefaultVoiceId
  {
    CreationState(None, None, "", DefaultVoiceId, None, None, Idle, None)
  }

  /** `s` and `t` agree on every field except the image, its encoding and the error. */
  predicate SameExceptImage(s: CreationState, t: CreationState)
  {
    s.script == t.script && s.selectedVoiceId == t.selectedVoiceId && s.audioUrl == t.audioUrl
    && s.videoUrl == t.videoUrl && s.status == t.status
  }

  /** Picking an image stores both its forms and clears a previous error. */
  function SetImage(s: CreationState, uri: string, base64: string): (t: CreationState)
    ensures t.imageUri == Some(uri) && t.imageBase64 == Some(base64)
    ensures t.error.None?
    ensures SameExceptImage(s, t)
  {
    s.(imageUri := Some(uri), imageBase64 := Some(base64), error := None)
  }

  function SetScript(s: CreationState, script: string): (t: CreationState)
    ensures t.script == script
    ensures t.(script := s.script) == s
  {
    s.(script := script)
  }

  function SetVoice(s: CreationState, voiceId: string): (t: CreationState)
    ensures t.selectedVoiceId == voiceId
    ensures t.(selectedVoiceId := s.selectedVoiceId) == s
  {
    s.(selectedVoiceId := voiceId)
  }

  function SetAudioUrl(s: CreationState, url: string): (t: CreationState)
    ensures t.audioUrl == Some(url)
    ensures t.(audioUrl := s.audioUrl) == s
  {
    s.(audioUrl := Some(url))
  }

  function SetVideoUrl(s: CreationState, url: string): (t: CreationState)
    ensures t.videoUrl == Some(url)
    ensures t.(videoUrl := s.videoUrl) == s
  {
    s.(videoUrl := Some(url))
  }

  /** Any status may follow any other: the store imposes no transition rule. */
  function SetStatus(s: CreationState, status: CreationStatus): (t: CreationState)
    ensures t.status == status
    ensures t.(status := s.status) == s
  {
    s.(status := status)
  }

  /** Recording an error, even a null one, always moves the session to the error status. */
  function SetError(s: CreationState, error: Option<string>): (t: CreationState)
    ensures t.error == error && t.status == Error
    ensures t.(error := s.error, status := s.status) == s
  {
    s.(error := error, status := Error)
  }

  /** Reset replaces the whole record with the initial one. */
  function Reset(s: CreationState): (t: CreationState)
    ensures t.status == Idle && t.videoUrl.None? && t.audioUrl.None? && t.error.None?
    ensures t.imageUri.None? && t.imageBase64.None? && t.script == "" && t.selectedVoiceId == DefaultVoiceId
  {
    Initial()
  }

  /** Reset forgets everything: its result does not depend on the state, so a second reset changes nothing. */
  lemma ResetIdempotent(s: CreationState, s': CreationState)
    ensures Reset(s) == Reset(s') == Reset(Reset(s)) == Initial()
  {
  }

  /** The default voice is one of the offered voices, and no two offered voices share an id. */
  lemma DefaultVoiceAvailable()
    ensures exists i :: 0 <= i < |AvailableVoices| && AvailableVoices[i].id == DefaultVoiceId
    ensures forall i, j :: 0 <= i < j < |AvailableVoices| ==> AvailableVoices[i].id != AvailableVoices[j].id
  {
    assert AvailableVoices[0].id == DefaultVoiceId;
  }

  /**
   * The store does not keep "an error status carries a message" or "a complete
   * session has a video": a null error and a bare status change both break them.
   */
  lemma StatusNotTiedToFields(s: CreationState)
    ensures SetError(s, None).status == Error && SetError(s, None).error.None?
    ensures s.videoUrl.None? ==> SetStatus(s, Complete).videoUrl.None? && SetStatus(s, Complete).status == Complete
  {
  }
}
