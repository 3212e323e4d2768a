/** The `generatePodcast` handler of components/GeneratePodcast.tsx: it
    checks the prompt and the voice, then awaits three remote steps (audio
    generation, upload of the audio file, lookup of its URL) and records
    the outcome through `setIsGenerating`, `setAudio`, `setAudioStorageId`
    and a toast. The remote steps enter as their outcomes. */
module Generation {
  import opened Outcomes

  /** How an awaited remote call ended: with a value, or by throwing. */
  datatype Remote<+T> = Returned(value: T) | Threw

  /** An id of the file storage (`Id<'_storage'>`). */
  type StorageId = string

  type Bytes = seq<bv8>

  /** A toast: its title and whether it uses the destructive variant. */
  datatype Toast = Toast(title: string, destructive: bool)

  const PromptMissing := Toast("팟캐스트 생성을 위한 프롬프트를 제공해주세요", false)
  const VoiceMissing := Toast("팟캐스트 생성을 위한 AI 음성을 선택하세요.", false)
  const Generated := Toast("팟캐스트 생성이 완료되었습니다.", false)
  const GenerationFailed := Toast("팟캐스트 생성에 실패했습니다.", true)

  /** A remote call the handler awaits. */
  datatype RemoteCall =
    | GenerateAudio(voice: string, input: string)  // api.openai.generateAudioAction
    | StartUpload(fileName: string, audio: Bytes)  // startUpload([file])
    | GetAudioUrl(storageId: StorageId)            // api.podcasts.getUrl

  /** A remote call, with the busy flag the button showed while it was
      awaited. */
  datatype Await = Await(call: RemoteCall, busy: bool)

  /** The state the handler reads and writes: its own busy flag, the
      parent's `audio` and `audioStorageId`, the toasts shown so far and the
      remote calls awaited so far. */
  datatype Snapshot = Snapshot(
    isGenerating: bool,
    audio: string,
    audioStorageId: Option<StorageId>,
    toasts: seq<Toast>,
    awaited: seq<Await>)

  /** The name of the uploaded audio file: `podcast-`, the uuid, `.mp3`; the
      uuid can be read back from it. */
  function FileName(uuid: string): (name: string)
    ensures |name| == |uuid| + 12
    ensures name[..8] == "podcast-" && name[|name| - 4..] == ".mp3"
    ensures name[8..|name| - 4] == uuid
  {
    "podcast-" + uuid + ".mp3"
  }

  /** `!voiceType` for the caller's `string | null`. */
  predicate VoiceUnset(voiceType: Option<string>): (unset: bool)
    ensures !unset <==> voiceType.Some? && |voiceType.value| > 0
  {
    voiceType == None || voiceType == Some("")
  }

  /** The state after the catch block ran. */
  function Caught(s: Snapshot): Snapshot
  {
    s.(toasts := s.toasts + [GenerationFailed], isGenerating := false)
  }

  function Awaiting(s: Snapshot, call: RemoteCall): Snapshot
  {
    s.(awaited := s.awaited + [Await(call, s.isGenerating)])
  }

  /** The state after one run of the handler from state `s`. */
  function Generate(
    s: Snapshot, voicePrompt: string, voiceType: Option<string>, uuid: string,
    audioResult: Remote<Bytes>, uploadResult: Remote<StorageId>, urlResult: Remote<string>): (t: Snapshot)
    // the busy flag is cleared on every path
    ensures !t.isGenerating
    // exactly one toast per run, after the earlier ones
    ensures |t.toasts| == |s.toasts| + 1 && t.toasts[..|s.toasts|] == s.toasts
    ensures |s.awaited| <= |t.awaited| && t.awaited[..|s.awaited|] == s.awaited
    // every remote call is awaited with the busy flag set
    ensures forall k :: |s.awaited| <= k < |t.awaited| ==> t.awaited[k].busy
    // the prompt is checked first, then the voice; neither check calls out
    ensures voicePrompt == "" ==>
      t == s.(isGenerating := false, audio := "", toasts := s.toasts + [PromptMissing])
    ensures voicePrompt != "" && VoiceUnset(voiceType) ==>
      t == s.(isGenerating := false, audio := "", toasts := s.toasts + [VoiceMissing])
    // a failing step leaves the audio cleared and shows the destructive toast
    ensures t.toasts[|s.toasts|].destructive <==> t.toasts[|s.toasts|] == GenerationFailed
    ensures t.toasts[|s.toasts|] == GenerationFailed <==>
      && voicePrompt != "" && !VoiceUnset(voiceType)
      && (audioResult == Threw || uploadResult == Threw || urlResult == Threw)
    ensures t.toasts[|s.toasts|] == GenerationFailed ==> t.audio == ""
    // a step that throws stops the later calls
    ensures voicePrompt != "" && !VoiceUnset(voiceType) && audioResult == Threw ==>
      t.awaited == s.awaited + [Await(GenerateAudio(voiceType.value, voicePrompt), true)]
    ensures voicePrompt != "" && !VoiceUnset(voiceType) && audioResult.Returned? && uploadResult == Threw ==>
      t.awaited == s.awaited + [
        Await(GenerateAudio(voiceType.value, voicePrompt), true),
        Await(StartUpload(FileName(uuid), audioResult.value), true)]
    ensures voicePrompt != "" && !VoiceUnset(voiceType) && audioResult.Returned? && uploadResult.Returned? ==>
      t.awaited == s.awaited + [
        Await(GenerateAudio(voiceType.value, voicePrompt), true),
        Await(StartUpload(FileName(uuid), audioResult.value), true),
        Await(GetAudioUrl(uploadResult.value), true)]
    // the storage id is set as soon as the upload returned, even when the
    // URL lookup fails after it
    ensures t.audioStorageId ==
      if voicePrompt != "" && !VoiceUnset(voiceType) && audioResult.Returned? && uploadResult.Returned?
      then Some(uploadResult.value) else s.audioStorageId
    // success: the looked-up URL and the success toast
    ensures
      && voicePrompt != "" && !VoiceUnset(voiceType)
      && audioResult.Returned? && uploadResult.Returned? && urlResult.Returned?
      ==>
      && t.audio == urlResult.value
      && t.toasts[|s.toasts|] == Generated
  {
    var entered := s.(isGenerating := true, audio := "");
    if voicePrompt == "" then
      entered.(toasts := entered.toasts + [PromptMissing], isGenerating := false)
    else if VoiceUnset(voiceType) then
      entered.(toasts := entered.toasts + [VoiceMissing], isGenerating := false)
    else
      var generating := Awaiting(entered, GenerateAudio(voiceType.value, voicePrompt));
      match audioResult
      case Threw => Caught(generating)
      case Returned(response) =>
        var uploading := Awaiting(generating, StartUpload(FileName(uuid), response));
        match uploadResult
        case Threw => Caught(uploading)
        case Returned(storageId) =>
          var lookingUp := Awaiting(uploading.(audioStorageId := Some(storageId)), GetAudioUrl(storageId));
          match urlResult
          case Threw => Caught(lookingUp)
          case Returned(audioUrl) =>
            lookingUp.(audio := audioUrl, isGenerating := false, toasts := lookingUp.toasts + [Generated])
  }

  /** The hook's state together with the parent's `audio` and
      `audioStorageId` it sets. */
  class PodcastGenerator {
    var isGenerating: bool
    var audio: string
    var audioStorageId: Option<StorageId>
    var toasts: seq<Toast>
    var awaited: seq<Await>

    function State(): Snapshot
      reads this
    {
      Snapshot(isGenerating, audio, audioStorageId, toasts, awaited)
    }

    /** `useState(false)` for the busy flag; the parent starts with `''` and
        `null`. */
    constructor ()
      ensures State() == Snapshot(false, "", None, [], [])
    {
      isGenerating := false;
      audio := "";
      audioStorageId := None;
      toasts := [];
      awaited := [];
    }

    /** Awaits `call`, recording it with the busy flag of the moment. */
    method Call(call: RemoteCall)
      modifies this
      ensures State() == Awaiting(old(State()), call)
    {
      awaited := awaited + [Await(call, isGenerating)];
    }

    /** The catch block: the destructive toast, then the busy flag cleared. */
    method Catch()
      modifies this
      ensures State() == Caught(old(State()))
    {
      toasts := toasts + [GenerationFailed];
      isGenerating := false;
    }

    method GeneratePodcast(
      voicePrompt: string, voiceType: Option<string>, uuid: string,
      audioResult: Remote<Bytes>, uploadResult: Remote<StorageId>, urlResult: Remote<string>)
      modifies this
      ensures State() == Generate(old(State()), voicePrompt, voiceType, uuid, audioResult, uploadResult, urlResult)
    {
      isGenerating := true;
      audio := "";

      if voicePrompt == "" {
        toasts := toasts + [PromptMissing];
        isGenerating := false;
        return;
      }

      if voiceType == None || voiceType == Some("") {
        toasts := toasts + [VoiceMissing];
        isGenerating := false;
        return;
      }

      Call(GenerateAudio(voiceType.value, voicePrompt));
      if audioResult.Threw? {
        Catch();
        return;
      }
      var response := audioResult.value;
      var fileName := FileName(uuid);

      Call(StartUpload(fileName, response));
      if uploadResult.Threw? {
        Catch();
        return;
      }
      var storageId := uploadResult.value;
      audioStorageId := Some(storageId);

      Call(GetAudioUrl(storageId));
      if urlResult.Threw? {
        Catch();
        return;
      }
      audio := urlResult.value;
      isGenerating := false;
      toasts := toasts + [Generated];
    }
  }
}
