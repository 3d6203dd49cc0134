/**
 The feature-video flow (src/ai/flows/generate-feature-video.ts): a prompt
 writes a script and storyboard, a voice is chosen from the requested style,
 the script is voiced, and the three are returned together. The prompt and
 the voiceover flow are remote calls, so their answers are parameters.
 */
module FeatureVideo {
  import opened Common

  datatype Input = Input(featureDescription: string, videoType: string, voiceStyle: string)

  datatype StoryboardItem = StoryboardItem(timestamp: string, sceneDescription: string, textOverlay: Option<string>, sfx: Option<string>)

  datatype ScriptAndStoryboard = ScriptAndStoryboard(script: string, storyboard: seq<StoryboardItem>)

  /** What the voiceover flow is asked for. */
  datatype VoiceRequest = VoiceRequest(script: string, voice: string)

  /** The voiceover flow's answer; its `audioUrl` may be missing. */
  datatype Voiceover = Voiceover(audioUrl: Option<string>)

  datatype Video = Video(script: string, storyboard: seq<StoryboardItem>, audioUrl: string)

  /** What one run of the flow returns or throws, and the voiceover request
      it made, if any. */
  datatype FeatureRun = FeatureRun(result: Result<Video>, voiceRequest: Option<VoiceRequest>)

  const DefaultVoice := "Algenib"
  const ScriptFailedMessage := "Failed to generate script and storyboard."
  const VoiceoverFailedMessage := "Failed to generate voiceover."

  /** `voiceStyleMap`. */
  const VoiceStyles: map<string, string> := map[
    "calm-professional" := "Algenib",
    "energetic-promotional" := "Achernar",
    "friendly-casual" := "Algenib"]

  /** The voice for a style: its entry in the map, the default otherwise. */
  function VoiceFor(style: string): (v: string)
    ensures style in VoiceStyles ==> v == VoiceStyles[style]
    ensures style !in VoiceStyles ==> v == DefaultVoice
  {
    if style in VoiceStyles then VoiceStyles[style] else DefaultVoice
  }

  /** Only two voices are ever requested, and the energetic style is the
      only one that gets Achernar. */
  lemma VoiceChoices(style: string)
    ensures VoiceFor(style) == "Algenib" || VoiceFor(style) == "Achernar"
    ensures VoiceFor(style) == "Achernar" <==> style == "energetic-promotional"
  {
  }

  /** An audio URL the flow accepts: present and non-empty. */
  predicate HasAudio(v: Voiceover) {
    v.audioUrl.Some? && v.audioUrl.value != ""
  }

  /** `generateFeatureVideoFlow(input)`: `scriptStep` is what the script
      prompt throws or returns (its output may be null), `voiceover` is what
      the voiceover flow throws or returns for a request. */
  function GenerateFeatureVideo(input: Input, scriptStep: Result<Option<ScriptAndStoryboard>>, voiceover: VoiceRequest -> Result<Voiceover>): (r: FeatureRun)
    ensures scriptStep.Err? ==> r == FeatureRun(Err(scriptStep.error), None)
    ensures scriptStep == Ok(None) ==> r == FeatureRun(Err(PlainError(ScriptFailedMessage)), None)
    ensures scriptStep.Ok? && scriptStep.value.Some? ==>
              r.voiceRequest == Some(VoiceRequest(scriptStep.value.value.script, VoiceFor(input.voiceStyle)))
    ensures r.result.Ok? <==>
              scriptStep.Ok? && scriptStep.value.Some? && r.voiceRequest.Some?
              && voiceover(r.voiceRequest.value).Ok? && HasAudio(voiceover(r.voiceRequest.value).value)
    ensures r.voiceRequest.Some? && voiceover(r.voiceRequest.value).Err? ==> r.result == Err(voiceover(r.voiceRequest.value).error)
    ensures r.result.Ok? ==>
              && r.result.value.script == scriptStep.value.value.script
              && r.result.value.storyboard == scriptStep.value.value.storyboard
              && Some(r.result.value.audioUrl) == voiceover(r.voiceRequest.value).value.audioUrl
  {
    match scriptStep
    case Err(e) => FeatureRun(Err(e), None)
    case Ok(None) => FeatureRun(Err(PlainError(ScriptFailedMessage)), None)
    case Ok(Some(plan)) =>
      var request := VoiceRequest(plan.script, VoiceFor(input.voiceStyle));
      var result :=
        match voiceover(request)
        case Err(e) => Err(e)
        case Ok(v) =>
          if HasAudio(v) then Ok(Video(plan.script, plan.storyboard, v.audioUrl.value))
          else Err(PlainError(VoiceoverFailedMessage));
      FeatureRun(result, Some(request))
  }

  /** A voiceover that comes back without audio fails the run with the
      voiceover message, and the script is not returned. */
  lemma MissingAudioFails(input: Input, plan: ScriptAndStoryboard, voiceover: VoiceRequest -> Result<Voiceover>)
    requires voiceover(VoiceRequest(plan.script, VoiceFor(input.voiceStyle))).Ok?
    requires !HasAudio(voiceover(VoiceRequest(plan.script, VoiceFor(input.voiceStyle))).value)
    ensures GenerateFeatureVideo(input, Ok(Some(plan)), voiceover).result == Err(PlainError(VoiceoverFailedMessage))
  {
  }

  /** A successful run always carries a non-empty audio URL. */
  lemma SuccessHasAudio(input: Input, scriptStep: Result<Option<ScriptAndStoryboard>>, voiceover: VoiceRequest -> Result<Voiceover>)
    requires GenerateFeatureVideo(input, scriptStep, voiceover).result.Ok?
    ensures GenerateFeatureVideo(input, scriptStep, voiceover).result.value.audioUrl != ""
  {
  }
}
