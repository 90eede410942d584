/** The application's shared state and its handlers. Each handler runs as one
    atomic transition: the busy flag is a guard checked on entry and released
    on every exit. Remote calls are answered by `Reply` values given as
    parameters, the clock by the `today`/`now` readings they carry, and the
    browser's persisted storage is the pair of `stored...` fields. */
module App {
  import opened Types
  import Usage
  import Credentials
  import Selection
  import Images
  import Generation
  import Text

  /** The status line, one constructor per message the application shows. */
  datatype Status =
    | Idle
    | Starting
    | Creating(current: nat, total: nat, angleName: JsString)
    | CallingService(angleName: JsString)
    | ReceivedImage(angleName: JsString)
    | WaitingBeforeNext(seconds: nat)
    | Completed(made: nat)
    | RequestingUpscale(angleName: JsString)
    | UpscaleDone
    | RequestingBackgroundRemoval(angleName: JsString)
    | BackgroundRemovalDone
    | RequestingBackgroundChange(angleName: JsString)
    | BackgroundChangeDone

  /** A post-processing request sent to the remote image service: the image
      source, the MIME type of the uploaded file and, for a background
      change, the prompt as typed. */
  datatype Request =
    | UpscaleRequest(src: JsString, contentType: JsString)
    | RemoveBackgroundRequest(src: JsString, contentType: JsString)
    | ChangeBackgroundRequest(src: JsString, contentType: JsString, prompt: JsString)

  /** The names of all listed angles: the initial selection. */
  function AllNames(angles: seq<CameraAngle>): set<JsString> {
    set k | 0 <= k < |angles| :: angles[k].name
  }

  /** With the initial selection a run covers every listed angle in order. */
  lemma InitialSelectionCoversAll(angles: seq<CameraAngle>)
    ensures Selection.SelectAngles(angles, AllNames(angles)) == angles
  {
    Selection.SelectEverything(angles, AllNames(angles));
  }

  /** What a run does to the ledger: starting below the limit with count
      `l.used`, the count rises by exactly the number of results and never
      passes the daily limit. */
  lemma RunLedger(angles: seq<CameraAngle>, l: Usage.Ledger, replies: seq<Reply>)
    requires |angles| <= |replies| && l.used < Usage.DailyLimit
    ensures var n := |Generation.RunFrom(angles, 0, l.used, replies).results|;
      var after := Usage.IncrementAll(l, Generation.Days(replies[..n]));
      after.used == l.used + n && after.used <= Usage.DailyLimit
  {
    var n := |Generation.RunFrom(angles, 0, l.used, replies).results|;
    Generation.QuotaBound(angles, l.used, replies);
    Usage.IncrementAllCounts(l, Generation.Days(replies[..n]));
  }

  /** The ledger invariant of a run advances by the day of reply `i`. */
  lemma LedgerStep(l: Usage.Ledger, replies: seq<Reply>, i: nat)
    requires i < |replies|
    ensures Usage.IncrementAll(l, Generation.Days(replies[..i + 1])) ==
            Usage.Increment(Usage.IncrementAll(l, Generation.Days(replies[..i])), replies[i].today)
  {
    assert Generation.Days(replies[..i + 1]) == Generation.Days(replies[..i]) + [replies[i].today];
    Usage.IncrementAllSnoc(l, Generation.Days(replies[..i]), replies[i].today);
  }

  /** `{...img, isUpscaling: b}`. */
  function UpscalingFlag(b: bool): Images.Patch {
    Images.Patch(None, None, Some(b), None)
  }

  /** `{...img, isRemovingBackground: b}`. */
  function RemovingFlag(b: bool): Images.Patch {
    Images.Patch(None, None, None, Some(b))
  }

  /** `{...img, src: <data URL of payload>}`. */
  function SourceReplaced(payload: JsString): Images.Patch {
    Images.Patch(Some(DataUrl(payload)), None, None, None)
  }

  /** What a successful background removal leaves on the matching records:
      the new source and the busy flag cleared, the baseline untouched. */
  function BackgroundRemoved(payload: JsString): Images.Patch {
    Images.Patch(Some(DataUrl(payload)), None, None, Some(false))
  }

  /** Field by field, what each outcome leaves on a record whose id matches:
      a success replaces the source (the upscale also records the baseline),
      a failure only clears the record's busy flag, and nothing else of the
      record changes. */
  lemma MatchingRecordOutcomes(img: GeneratedImage, before: JsString, payload: JsString)
    ensures Images.Apply(img, Images.Upscaled(before, payload)) ==
            img.(src := DataUrl(payload), originalSrc := Some(before), isUpscaling := false)
    ensures Images.Apply(img, UpscalingFlag(false)) == img.(isUpscaling := false)
    ensures Images.Apply(img, BackgroundRemoved(payload)) ==
            img.(src := DataUrl(payload), isRemovingBackground := false)
    ensures Images.Apply(img, RemovingFlag(false)) == img.(isRemovingBackground := false)
    ensures Images.Apply(img, SourceReplaced(payload)) == img.(src := DataUrl(payload))
  {
  }

  class Coordinator {
    /** The static list of camera angles. */
    const cameraAngles: seq<CameraAngle>

    var uploadedImage: Option<UploadedImage>
    var generatedImages: seq<GeneratedImage>
    var isGenerating: bool
    var generationProgress: real
    var waitingSeconds: nat
    var currentStatus: Status
    var error: Option<AppError>
    var selectedAngles: set<JsString>
    /** The single-flight flag shared by all remote-call handlers. */
    var isApiBusy: bool
    /** Remote calls made today. */
    var generationsUsed: int
    var editingImage: Option<GeneratedImage>
    var backgroundPrompt: JsString
    var isChangingBackground: bool
    /** The active credential. */
    var apiKey: JsString
    var showApiKeyModal: bool
    var apiKeyInput: JsString

    /** The persisted `geminiApiUsage` entry. */
    var storedUsage: Option<Usage.StoredUsage>
    /** The persisted `geminiApiKey` entry. */
    var storedApiKey: Option<JsString>

    /** The state on first render, beside what the browser has persisted. */
    constructor(angles: seq<CameraAngle>, persistedUsage: Option<Usage.StoredUsage>, persistedApiKey: Option<JsString>)
      ensures cameraAngles == angles && selectedAngles == AllNames(angles)
      ensures uploadedImage == None && generatedImages == [] && error == None
      ensures !isGenerating && generationProgress == 0.0 && waitingSeconds == 0 && currentStatus == Idle
      ensures !isApiBusy && generationsUsed == 0
      ensures editingImage == None && backgroundPrompt == [] && !isChangingBackground
      ensures apiKey == [] && !showApiKeyModal && apiKeyInput == []
      ensures storedUsage == persistedUsage && storedApiKey == persistedApiKey
    {
      cameraAngles := angles;
      uploadedImage := None;
      generatedImages := [];
      isGenerating := false;
      generationProgress := 0.0;
      waitingSeconds := 0;
      currentStatus := Idle;
      error := None;
      selectedAngles := AllNames(angles);
      isApiBusy := false;
      generationsUsed := 0;
      editingImage := None;
      backgroundPrompt := [];
      isChangingBackground := false;
      apiKey := [];
      showApiKeyModal := false;
      apiKeyInput := [];
      storedUsage := persistedUsage;
      storedApiKey := persistedApiKey;
    }

    /** The usage count with its persisted entry. */
    function Ledger(): Usage.Ledger
      reads this
    {
      Usage.Ledger(generationsUsed, storedUsage)
    }

    /** The shared gate of the remote-call buttons: not busy and below the
      daily limit. While it is closed no handler issues a remote call or
      moves the ledger (the `!old(CanPerformApiAction())` clauses below). */
    predicate CanPerformApiAction()
      reads this
      ensures CanPerformApiAction() <==> !isApiBusy && generationsUsed + 1 <= Usage.DailyLimit
    {
      !isApiBusy && generationsUsed < Usage.DailyLimit
    }

    /** The entry guard of a generation run. */
    predicate RunAllowed()
      reads this
      ensures RunAllowed() ==> CanPerformApiAction() && uploadedImage.Some?
      ensures RunAllowed() ==> exists name :: name in selectedAngles
    {
      uploadedImage.Some? && selectedAngles != {} && CanPerformApiAction()
    }

    /** The run a click would make with the replies `replies`: over the
      selected angles in the static order, from today's count. */
    function PlannedRun(replies: seq<Reply>): Generation.Run
      requires |cameraAngles| <= |replies|
      reads this
    {
      Generation.RunFrom(Selection.SelectAngles(cameraAngles, selectedAngles), 0, generationsUsed, replies)
    }

    /** The entry guard of upscale and background removal, checked after the quota. */
    predicate TargetReady(imageId: JsString)
      reads this
      ensures TargetReady(imageId) <==>
        (exists k :: 0 <= k < |generatedImages| && generatedImages[k].id == imageId) &&
        uploadedImage.Some? && !isApiBusy
    {
      Images.FindById(generatedImages, imageId).Some? && uploadedImage.Some? && !isApiBusy
    }

    /** The entry guard of the background change, checked after the quota. */
    predicate BackgroundChangeReady()
      reads this
      ensures BackgroundChangeReady() <==>
        editingImage.Some? && !Text.AllWhiteSpace(backgroundPrompt) && uploadedImage.Some? && !isApiBusy
    {
      Text.TrimEmptyIff(backgroundPrompt);
      editingImage.Some? && Text.Trim(backgroundPrompt) != [] && uploadedImage.Some? && !isApiBusy
    }

    /** The start-up effect choosing the credential: the environment key
      `env`, else the stored key, else the key prompt. */
    method LoadApiKey(env: Option<JsString>)
      modifies this`apiKey, this`showApiKeyModal
      ensures var chosen := Credentials.Resolve(env, storedApiKey);
        if chosen.Some? then apiKey == chosen.value && showApiKeyModal == old(showApiKeyModal)
        else apiKey == old(apiKey) && showApiKeyModal
    {
      if env.Some? && env.value != [] && env.value != Credentials.Placeholder() {
        apiKey := env.value;
      } else if storedApiKey.Some? && storedApiKey.value != [] {
        apiKey := storedApiKey.value;
      } else {
        showApiKeyModal := true;
      }
    }

    /** Saving the typed key: the trimmed input is stored and activated and
      the prompt closed; input that trims to nothing changes nothing. */
    method HandleSaveApiKey()
      modifies this`storedApiKey, this`apiKey, this`showApiKeyModal, this`apiKeyInput
      ensures Text.Trim(old(apiKeyInput)) == [] ==> unchanged(this)
      ensures Text.Trim(old(apiKeyInput)) != [] ==>
        var key := Text.Trim(old(apiKeyInput));
        storedApiKey == Some(key) && apiKey == key && !showApiKeyModal && apiKeyInput == []
    {
      var key := Text.Trim(apiKeyInput);
      if key != [] {
        storedApiKey := Some(key);
        apiKey := key;
        showApiKeyModal := false;
        apiKeyInput := [];
      }
    }

    /** The start-up effect loading the usage record on day `today`. */
    method LoadUsage(today: Date)
      modifies this`generationsUsed, this`storedUsage
      ensures Ledger() == Usage.Load(old(Ledger()), today)
    {
      var stored := storedUsage;
      match stored {
        case None =>
          storedUsage := Some(Usage.Parsed(Usage.UsageRecord(0, today)));
        case Some(Unparsable) =>
        case Some(Parsed(rec)) =>
          if rec.date == today {
            generationsUsed := rec.count;
          } else {
            storedUsage := Some(Usage.Parsed(Usage.UsageRecord(0, today)));
            generationsUsed := 0;
          }
      }
    }

    /** One more remote call today, persisted with the day `today` it was made on. */
    method IncrementGenerationCount(today: Date)
      modifies this`generationsUsed, this`storedUsage
      ensures Ledger() == Usage.Increment(old(Ledger()), today)
    {
      var newCount := generationsUsed + 1;
      storedUsage := Some(Usage.Parsed(Usage.UsageRecord(newCount, today)));
      generationsUsed := newCount;
    }

    /** The angle checkbox. */
    method HandleAngleSelection(angleName: JsString)
      modifies this`selectedAngles
      ensures selectedAngles == Selection.Toggle(old(selectedAngles), angleName)
    {
      if angleName in selectedAngles {
        selectedAngles := selectedAngles - {angleName};
      } else {
        selectedAngles := selectedAngles + {angleName};
      }
    }

    /** The generate button. The run's `k`-th remote call is answered by
      `replies[k]`; `trace` lists the calls and cooldown ticks in the order
      they happen. A click without an upload, with no angle selected, with
      another call in flight or at the daily limit changes nothing; otherwise
      the run is `Generate`. */
    method HandleGenerateClick(replies: seq<Reply>) returns (trace: seq<Generation.Event>)
      requires |cameraAngles| <= |replies|
      modifies this`isApiBusy, this`isGenerating, this`error, this`generatedImages, this`currentStatus,
               this`generationProgress, this`waitingSeconds, this`generationsUsed, this`storedUsage
      ensures !old(RunAllowed()) ==> unchanged(this) && trace == []
      ensures !old(CanPerformApiAction()) ==> unchanged(this) && trace == []
      ensures old(RunAllowed()) ==>
        && generatedImages == old(PlannedRun(replies)).results
        && error == old(PlannedRun(replies)).error
        && trace == old(PlannedRun(replies)).trace
      ensures old(RunAllowed()) ==>
        Ledger() == Usage.IncrementAll(old(Ledger()), Generation.Days(replies[..|old(PlannedRun(replies)).results|]))
      ensures old(RunAllowed()) ==>
        !isApiBusy && !isGenerating && generationProgress == 0.0 && waitingSeconds == 0 && currentStatus == Idle
    {
      trace := [];
      if uploadedImage.None? || selectedAngles == {} || isApiBusy || generationsUsed >= Usage.DailyLimit {
        return;
      }
      trace := Generate(replies);
    }

    /** An allowed run: it replaces the gallery and the error by what
      `Generation.RunFrom` defines over the selected angles from the count at
      its start, increments the ledger once per result and ends with every
      indicator cleared. */
    method Generate(replies: seq<Reply>) returns (trace: seq<Generation.Event>)
      requires |cameraAngles| <= |replies|
      modifies this`isApiBusy, this`isGenerating, this`error, this`generatedImages, this`currentStatus,
               this`generationProgress, this`waitingSeconds, this`generationsUsed, this`storedUsage
      ensures generatedImages == old(PlannedRun(replies)).results
      ensures error == old(PlannedRun(replies)).error
      ensures trace == old(PlannedRun(replies)).trace
      ensures Ledger() == Usage.IncrementAll(old(Ledger()), Generation.Days(replies[..|old(PlannedRun(replies)).results|]))
      ensures !isApiBusy && !isGenerating && generationProgress == 0.0 && waitingSeconds == 0 && currentStatus == Idle
    {
      ghost var planned := PlannedRun(replies);
      ghost var ledger0 := Ledger();
      isApiBusy := true;
      isGenerating := true;
      error := None;
      generatedImages := [];
      currentStatus := Starting;

      var anglesToGenerate := Selection.SelectAngles(cameraAngles, selectedAngles);
      // the count as the click saw it: the loop's quota check uses this value
      trace := GenerateAngles(anglesToGenerate, generationsUsed, replies);
      assert generatedImages == planned.results && error == planned.error && trace == planned.trace;
      assert Ledger() == Usage.IncrementAll(ledger0, Generation.Days(replies[..|planned.results|]));

      isGenerating := false;
      generationProgress := 0.0;
      waitingSeconds := 0;
      currentStatus := Idle;
      isApiBusy := false;
    }

    /** The loop of a run over `anglesToGenerate`, with `used` the count the
      click saw: it does what `Generation.RunFrom` defines and increments the
      ledger once per result, with the day of that result's reply. */
    method GenerateAngles(anglesToGenerate: seq<CameraAngle>, used: int, replies: seq<Reply>)
      returns (trace: seq<Generation.Event>)
      requires |anglesToGenerate| <= |replies|
      requires generatedImages == [] && error == None
      modifies this`error, this`generatedImages, this`currentStatus, this`generationProgress,
               this`waitingSeconds, this`generationsUsed, this`storedUsage
      ensures generatedImages == Generation.RunFrom(anglesToGenerate, 0, used, replies).results
      ensures error == Generation.RunFrom(anglesToGenerate, 0, used, replies).error
      ensures trace == Generation.RunFrom(anglesToGenerate, 0, used, replies).trace
      ensures Ledger() == Usage.IncrementAll(old(Ledger()),
                Generation.Days(replies[..|Generation.RunFrom(anglesToGenerate, 0, used, replies).results|]))
    {
      trace := [];
      ghost var ledger0 := Ledger();
      ghost var full := Generation.RunFrom(anglesToGenerate, 0, used, replies);
      Generation.ContinuesFromStart(anglesToGenerate, used, replies);
      var generationsMade := 0;
      var i := 0;
      while i < |anglesToGenerate|
        invariant 0 <= i <= |anglesToGenerate| && generationsMade == i && |generatedImages| == i
        invariant error == None
        invariant Usage.Ledger(generationsUsed, storedUsage) == Usage.IncrementAll(ledger0, Generation.Days(replies[..i]))
        invariant Generation.Continues(full, anglesToGenerate, i, used, replies, generatedImages, trace)
      {
        if used + generationsMade >= Usage.DailyLimit {
          error := Some(DailyLimitReached);
          Generation.ContinuesAtQuota(full, anglesToGenerate, i, used, replies, generatedImages, trace);
          break;
        }
        var angle := anglesToGenerate[i];
        ghost var done, doneTrace := generatedImages, trace;
        var reply := replies[i];
        var events := Attempt(angle, i, |anglesToGenerate|, reply);
        trace := trace + events;
        if reply.result.Failed? {
          Generation.ContinuesAtFailure(full, anglesToGenerate, i, used, replies, done, doneTrace);
          break;
        }
        LedgerStep(ledger0, replies, i);
        Generation.Advance(full, anglesToGenerate, i, used, replies, done, doneTrace);
        generationsMade := generationsMade + 1;
        i := i + 1;
      }
      if i == |anglesToGenerate| && error == None {
        Generation.ContinuesAtEnd(full, anglesToGenerate, used, replies, generatedImages, trace);
      }
      currentStatus := Completed(generationsMade);
    }

    /** The upscale button for record `imageId`, the call answered by `reply`.
      At the daily limit only the error is set. A missing record or upload,
      or another call in flight, changes nothing. Otherwise the first record
      with that id is upscaled as `Upscale` states. */
    method HandleUpscale(imageId: JsString, reply: Reply) returns (request: Option<Request>)
      modifies this`error, this`generatedImages, this`currentStatus, this`isApiBusy,
               this`generationsUsed, this`storedUsage
      ensures !old(CanPerformApiAction()) ==> request == None && Ledger() == old(Ledger())
      ensures old(generationsUsed) >= Usage.DailyLimit ==>
        error == Some(DailyLimitReached) && request == None && generatedImages == old(generatedImages) &&
        currentStatus == old(currentStatus) && isApiBusy == old(isApiBusy) && Ledger() == old(Ledger())
      ensures old(generationsUsed) < Usage.DailyLimit && !old(TargetReady(imageId)) ==>
        unchanged(this) && request == None
      ensures old(generationsUsed) < Usage.DailyLimit && old(TargetReady(imageId)) ==>
        var target := old(Images.FindById(generatedImages, imageId)).value;
        && request == Some(UpscaleRequest(target.src, old(uploadedImage).value.contentType))
        && !isApiBusy && currentStatus == Idle
        && (reply.result.Succeeded? ==>
              && generatedImages == Images.PatchById(old(generatedImages), imageId, Images.Upscaled(target.src, reply.result.payload))
              && Ledger() == Usage.Increment(old(Ledger()), reply.today) && error == old(error))
        && (reply.result.Failed? ==>
              && generatedImages == Images.PatchById(old(generatedImages), imageId, UpscalingFlag(false))
              && Ledger() == old(Ledger()) && error == Some(UpscaleFailed(target.angle.name)))
    {
      request := None;
      if generationsUsed >= Usage.DailyLimit {
        error := Some(DailyLimitReached);
        return;
      }
      var imageToUpdate := Images.FindById(generatedImages, imageId);
      if imageToUpdate.None? || uploadedImage.None? || isApiBusy {
        return;
      }
      var sent := Upscale(imageId, imageToUpdate.value, uploadedImage.value.contentType, reply);
      request := Some(sent);
    }

    /** The call part of the upscale of the records with id `imageId`, from
      `target`, the record as found when the button was pressed. On success
      they get the new source with `target`'s source as their baseline and the
      ledger is incremented; on failure only their busy flag comes and goes
      and the error names the angle; either way the handler ends idle. */
    method Upscale(imageId: JsString, target: GeneratedImage, contentType: JsString, reply: Reply)
      returns (request: Request)
      modifies this`error, this`generatedImages, this`currentStatus, this`isApiBusy,
               this`generationsUsed, this`storedUsage
      ensures request == UpscaleRequest(target.src, contentType)
      ensures !isApiBusy && currentStatus == Idle
      ensures reply.result.Succeeded? ==>
        && generatedImages == Images.PatchById(old(generatedImages), imageId, Images.Upscaled(target.src, reply.result.payload))
        && Ledger() == Usage.Increment(old(Ledger()), reply.today) && error == old(error)
      ensures reply.result.Failed? ==>
        && generatedImages == Images.PatchById(old(generatedImages), imageId, UpscalingFlag(false))
        && Ledger() == old(Ledger()) && error == Some(UpscaleFailed(target.angle.name))
    {
      ghost var before := generatedImages;
      isApiBusy := true;
      currentStatus := RequestingUpscale(target.angle.name);
      generatedImages := Images.PatchById(generatedImages, imageId, UpscalingFlag(true));
      request := UpscaleRequest(target.src, contentType);
      match reply.result {
        case Succeeded(upscaledData) =>
          currentStatus := UpscaleDone;
          IncrementGenerationCount(reply.today);
          var p := Images.Patch(Some(DataUrl(upscaledData)), Some(target.src), None, None);
          generatedImages := Images.PatchById(generatedImages, imageId, p);
          generatedImages := Images.PatchById(generatedImages, imageId, UpscalingFlag(false));
          Images.PatchByIdThen(before, imageId, UpscalingFlag(true), p);
          Images.PatchByIdThen(before, imageId, Images.Then(UpscalingFlag(true), p), UpscalingFlag(false));
        case Failed =>
          error := Some(UpscaleFailed(target.angle.name));
          generatedImages := Images.PatchById(generatedImages, imageId, UpscalingFlag(false));
          Images.PatchByIdThen(before, imageId, UpscalingFlag(true), UpscalingFlag(false));
      }
      currentStatus := Idle;
      isApiBusy := false;
    }

    /** The background-removal button for record `imageId`, the call answered
      by `reply`: the same guards as the upscale, then `RemoveBackground`. */
    method HandleRemoveBackground(imageId: JsString, reply: Reply) returns (request: Option<Request>)
      modifies this`error, this`generatedImages, this`currentStatus, this`isApiBusy,
               this`generationsUsed, this`storedUsage
      ensures !old(CanPerformApiAction()) ==> request == None && Ledger() == old(Ledger())
      ensures old(generationsUsed) >= Usage.DailyLimit ==>
        error == Some(DailyLimitReached) && request == None && generatedImages == old(generatedImages) &&
        currentStatus == old(currentStatus) && isApiBusy == old(isApiBusy) && Ledger() == old(Ledger())
      ensures old(generationsUsed) < Usage.DailyLimit && !old(TargetReady(imageId)) ==>
        unchanged(this) && request == None
      ensures old(generationsUsed) < Usage.DailyLimit && old(TargetReady(imageId)) ==>
        var target := old(Images.FindById(generatedImages, imageId)).value;
        && request == Some(RemoveBackgroundRequest(target.src, old(uploadedImage).value.contentType))
        && !isApiBusy && currentStatus == Idle
        && (reply.result.Succeeded? ==>
              && generatedImages == Images.PatchById(old(generatedImages), imageId, BackgroundRemoved(reply.result.payload))
              && Ledger() == Usage.Increment(old(Ledger()), reply.today) && error == old(error))
        && (reply.result.Failed? ==>
              && generatedImages == Images.PatchById(old(generatedImages), imageId, RemovingFlag(false))
              && Ledger() == old(Ledger()) && error == Some(RemoveBackgroundFailed(target.angle.name)))
    {
      request := None;
      if generationsUsed >= Usage.DailyLimit {
        error := Some(DailyLimitReached);
        return;
      }
      var imageToUpdate := Images.FindById(generatedImages, imageId);
      if imageToUpdate.None? || uploadedImage.None? || isApiBusy {
        return;
      }
      var sent := RemoveBackground(imageId, imageToUpdate.value, uploadedImage.value.contentType, reply);
      request := Some(sent);
    }

    /** The call part of the background removal: a success replaces only the
      source and leaves the baseline alone; otherwise as `Upscale`. */
    method RemoveBackground(imageId: JsString, target: GeneratedImage, contentType: JsString, reply: Reply)
      returns (request: Request)
      modifies this`error, this`generatedImages, this`currentStatus, this`isApiBusy,
               this`generationsUsed, this`storedUsage
      ensures request == RemoveBackgroundRequest(target.src, contentType)
      ensures !isApiBusy && currentStatus == Idle
      ensures reply.result.Succeeded? ==>
        && generatedImages == Images.PatchById(old(generatedImages), imageId, BackgroundRemoved(reply.result.payload))
        && Ledger() == Usage.Increment(old(Ledger()), reply.today) && error == old(error)
      ensures reply.result.Failed? ==>
        && generatedImages == Images.PatchById(old(generatedImages), imageId, RemovingFlag(false))
        && Ledger() == old(Ledger()) && error == Some(RemoveBackgroundFailed(target.angle.name))
    {
      ghost var before := generatedImages;
      isApiBusy := true;
      currentStatus := RequestingBackgroundRemoval(target.angle.name);
      generatedImages := Images.PatchById(generatedImages, imageId, RemovingFlag(true));
      request := RemoveBackgroundRequest(target.src, contentType);
      match reply.result {
        case Succeeded(newImageData) =>
          currentStatus := BackgroundRemovalDone;
          IncrementGenerationCount(reply.today);
          var p := SourceReplaced(newImageData);
          generatedImages := Images.PatchById(generatedImages, imageId, p);
          generatedImages := Images.PatchById(generatedImages, imageId, RemovingFlag(false));
          Images.PatchByIdThen(before, imageId, RemovingFlag(true), p);
          Images.PatchByIdThen(before, imageId, Images.Then(RemovingFlag(true), p), RemovingFlag(false));
        case Failed =>
          error := Some(RemoveBackgroundFailed(target.angle.name));
          generatedImages := Images.PatchById(generatedImages, imageId, RemovingFlag(false));
          Images.PatchByIdThen(before, imageId, RemovingFlag(true), RemovingFlag(false));
      }
      currentStatus := Idle;
      isApiBusy := false;
    }

    /** The background-change dialog's submit, the call answered by `reply`.
      At the daily limit the error is set and the dialog closed. Without an
      open record, a prompt with some non-blank character, an upload, or with
      another call in flight, nothing changes. Otherwise `ChangeBackground`. */
    method HandleChangeBackgroundSubmit(reply: Reply) returns (request: Option<Request>)
      modifies this`error, this`generatedImages, this`currentStatus, this`isApiBusy, this`editingImage,
               this`backgroundPrompt, this`isChangingBackground, this`generationsUsed, this`storedUsage
      ensures !old(CanPerformApiAction()) ==> request == None && Ledger() == old(Ledger())
      ensures old(generationsUsed) >= Usage.DailyLimit ==>
        error == Some(DailyLimitReached) && editingImage == None && request == None &&
        generatedImages == old(generatedImages) && backgroundPrompt == old(backgroundPrompt) &&
        currentStatus == old(currentStatus) && isApiBusy == old(isApiBusy) &&
        isChangingBackground == old(isChangingBackground) && Ledger() == old(Ledger())
      ensures old(generationsUsed) < Usage.DailyLimit && !old(BackgroundChangeReady()) ==>
        unchanged(this) && request == None
      ensures old(generationsUsed) < Usage.DailyLimit && old(BackgroundChangeReady()) ==>
        var target := old(editingImage).value;
        && request == Some(ChangeBackgroundRequest(target.src, old(uploadedImage).value.contentType, old(backgroundPrompt)))
        && !isApiBusy && !isChangingBackground && currentStatus == Idle
        && (reply.result.Succeeded? ==>
              && generatedImages == Images.PatchById(old(generatedImages), target.id, SourceReplaced(reply.result.payload))
              && editingImage == None && backgroundPrompt == []
              && Ledger() == Usage.Increment(old(Ledger()), reply.today) && error == old(error))
        && (reply.result.Failed? ==>
              && generatedImages == old(generatedImages) && editingImage == old(editingImage)
              && backgroundPrompt == old(backgroundPrompt)
              && Ledger() == old(Ledger()) && error == Some(ChangeBackgroundFailed(target.angle.name)))
    {
      request := None;
      if generationsUsed >= Usage.DailyLimit {
        error := Some(DailyLimitReached);
        editingImage := None;
        return;
      }
      if editingImage.None? || Text.Trim(backgroundPrompt) == [] || uploadedImage.None? || isApiBusy {
        return;
      }
      var sent := ChangeBackground(editingImage.value, uploadedImage.value.contentType, reply);
      request := Some(sent);
    }

    /** The call part of the background change from `target`, the dialog's
      snapshot of the record, with the prompt as typed. On success every
      record with the snapshot's id gets the new source, the dialog is closed
      and cleared and the ledger incremented; on failure the dialog stays open
      and the error names the angle; either way the handler ends idle. */
    method ChangeBackground(target: GeneratedImage, contentType: JsString, reply: Reply) returns (request: Request)
      modifies this`error, this`generatedImages, this`currentStatus, this`isApiBusy, this`editingImage,
               this`backgroundPrompt, this`isChangingBackground, this`generationsUsed, this`storedUsage
      ensures request == ChangeBackgroundRequest(target.src, contentType, old(backgroundPrompt))
      ensures !isApiBusy && !isChangingBackground && currentStatus == Idle
      ensures reply.result.Succeeded? ==>
        && generatedImages == Images.PatchById(old(generatedImages), target.id, SourceReplaced(reply.result.payload))
        && editingImage == None && backgroundPrompt == []
        && Ledger() == Usage.Increment(old(Ledger()), reply.today) && error == old(error)
      ensures reply.result.Failed? ==>
        && generatedImages == old(generatedImages) && editingImage == old(editingImage)
        && backgroundPrompt == old(backgroundPrompt)
        && Ledger() == old(Ledger()) && error == Some(ChangeBackgroundFailed(target.angle.name))
    {
      isApiBusy := true;
      isChangingBackground := true;
      currentStatus := RequestingBackgroundChange(target.angle.name);
      request := ChangeBackgroundRequest(target.src, contentType, backgroundPrompt);
      BackgroundChangeOutcome(target, reply);
      isChangingBackground := false;
      currentStatus := Idle;
      isApiBusy := false;
    }

    /** What the reply to a background change does: a success increments
      the count with the reply's day, gives every record with `target`'s id
      the new source and closes and clears the dialog; a failure only sets
      the error. */
    method BackgroundChangeOutcome(target: GeneratedImage, reply: Reply)
      modifies this`error, this`generatedImages, this`currentStatus, this`editingImage,
               this`backgroundPrompt, this`generationsUsed, this`storedUsage
      ensures reply.result.Succeeded? ==>
        && generatedImages == Images.PatchById(old(generatedImages), target.id, SourceReplaced(reply.result.payload))
        && editingImage == None && backgroundPrompt == []
        && Ledger() == Usage.Increment(old(Ledger()), reply.today) && error == old(error)
      ensures reply.result.Failed? ==>
        && generatedImages == old(generatedImages) && editingImage == old(editingImage)
        && backgroundPrompt == old(backgroundPrompt)
        && Ledger() == old(Ledger()) && error == Some(ChangeBackgroundFailed(target.angle.name))
    {
      match reply.result {
        case Succeeded(newImageData) =>
          currentStatus := BackgroundChangeDone;
          IncrementGenerationCount(reply.today);
          generatedImages := Images.PatchById(generatedImages, target.id, SourceReplaced(newImageData));
          editingImage := None;
          backgroundPrompt := [];
        case Failed =>
          error := Some(ChangeBackgroundFailed(target.angle.name));
      }
    }

    /** Attempt `i` of the `total` of a run, for `angle`, answered by `reply`:
      `events` is the call, followed on success by the cooldown unless it was
      the last attempt. A failure only sets the error; a success increments
      the count with the reply's day and appends the result. */
    method Attempt(angle: CameraAngle, i: nat, total: nat, reply: Reply) returns (events: seq<Generation.Event>)
      requires i < total
      modifies this`error, this`generatedImages, this`currentStatus, this`generationProgress,
               this`waitingSeconds, this`generationsUsed, this`storedUsage
      ensures reply.result.Failed? ==>
        && events == [Generation.Called(angle)] && error == Some(GenerationFailed(angle.name))
        && generatedImages == old(generatedImages) && Ledger() == old(Ledger())
      ensures reply.result.Succeeded? ==>
        && events == [Generation.Called(angle)] + (if i < total - 1 then Generation.Countdown(Generation.CooldownSeconds) else [])
        && generatedImages == old(generatedImages) + [Generation.NewImage(angle, reply)]
        && Ledger() == Usage.Increment(old(Ledger()), reply.today) && error == old(error)
    {
      generationProgress := ((i + 1) as real / total as real) * 100.0;
      currentStatus := Creating(i + 1, total, angle.name);
      currentStatus := CallingService(angle.name);
      events := [Generation.Called(angle)];
      if reply.result.Failed? {
        error := Some(GenerationFailed(angle.name));
        return;
      }
      KeepResult(angle, reply);
      if i < total - 1 {
        var ticks := Cooldown();
        events := events + ticks;
      } else {
        assert events == events + [];
      }
    }

    /** A successful call of a run: the count goes up with the reply's day
      and the result is appended to the gallery. */
    method KeepResult(angle: CameraAngle, reply: Reply)
      requires reply.result.Succeeded?
      modifies this`currentStatus, this`generationsUsed, this`storedUsage, this`generatedImages
      ensures generatedImages == old(generatedImages) + [Generation.NewImage(angle, reply)]
      ensures Ledger() == Usage.Increment(old(Ledger()), reply.today)
      ensures currentStatus == ReceivedImage(angle.name)
    {
      currentStatus := ReceivedImage(angle.name);
      IncrementGenerationCount(reply.today);
      generatedImages := generatedImages + [Generation.NewImage(angle, reply)];
    }

    /** The pause between two calls of a run: the countdown shown second by
      second, `ticks` being the ticks in the order they are shown. */
    method Cooldown() returns (ticks: seq<Generation.Event>)
      modifies this`waitingSeconds, this`currentStatus
      ensures ticks == Generation.Countdown(Generation.CooldownSeconds)
      ensures waitingSeconds == 0 && currentStatus == WaitingBeforeNext(1)
    {
      ticks := [];
      var delaySeconds := Generation.ApiDelayMs / 1000;
      var sec := delaySeconds;
      while sec > 0
        invariant 0 <= sec <= delaySeconds
        invariant ticks + Generation.Countdown(sec) == Generation.Countdown(delaySeconds)
        invariant sec < delaySeconds ==> currentStatus == WaitingBeforeNext(sec + 1)
      {
        waitingSeconds := sec;
        currentStatus := WaitingBeforeNext(sec);
        Generation.CountdownStep(sec);
        ticks := ticks + [Generation.Waited(sec)];
        sec := sec - 1;
      }
      waitingSeconds := 0;
    }
  }
}
