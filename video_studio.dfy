/**
 * The video studio: up to three reference images, a product description seeded
 * from the shared context, a creative prompt, and one video job whose result
 * URL is played back.
 */
module VideoStudio {
  import opened Base
  import opened Types
  import opened GeminiService

  /** At most this many reference images are held. */
  const MaxRefImages: nat := 3

  /** The id given to the image taken over from the product context. */
  const ContextImageId := "context-main"

  const DefaultPrompt :=
    "Cinematic product showcase, slow motion zoom-in, professional studio lighting, detailed texture focus."

  /** Shown when neither a description nor a prompt was entered. */
  const MissingInputMessage := "请输入产品描述或创意提示词。"

  /** Shown for every failed job, whatever the service reported. */
  const VideoFailedMessage := "视频生成失败。请确保您使用了付费 API Key (Veo 3.1)。"

  const VisualGoal :=
    "Visual Goal: Ensure the video accurately reflects the product features and aesthetic based on the description and any reference images provided."

  /** A reference image: base64 payload, MIME type and a list key. */
  datatype RefImage = RefImage(data: string, mimeType: string, id: string)

  /** The job panel: running flag, result URL, error message and the creative prompt. */
  datatype VideoState = VideoState(isGenerating: bool, videoUrl: Option<string>, error: Option<string>, prompt: string)

  const InitialVideoState := VideoState(false, None, None, DefaultPrompt)

  // ===========================================================================
  // Reference images

  /** `refs.filter(img => img.id !== id)`. */
  function WithoutId(refs: seq<RefImage>, id: string): (r: seq<RefImage>)
    ensures |r| <= |refs|
  {
    if refs == [] then []
    else (if refs[0].id != id then [refs[0]] else []) + WithoutId(refs[1..], id)
  }

  /** Only images of the list survive, and none of them carries the id removed. */
  lemma {:induction false} WithoutIdMembers(refs: seq<RefImage>, id: string)
    ensures forall x :: x in WithoutId(refs, id) ==> x in refs && x.id != id
  {
    if refs != [] {
      WithoutIdMembers(refs[1..], id);
      assert forall x :: x in refs[1..] ==> x in refs;
    }
  }

  /** Every entry with another id survives the removal. */
  lemma {:induction false} WithoutIdKeepsOthers(refs: seq<RefImage>, id: string)
    ensures forall x :: x in refs && x.id != id ==> x in WithoutId(refs, id)
  {
    if refs != [] {
      WithoutIdKeepsOthers(refs[1..], id);
      assert forall x :: x in refs ==> x == refs[0] || x in refs[1..];
    }
  }

  /** The removal works piece by piece, so the survivors keep their order. */
  lemma {:induction false} WithoutIdAppend(a: seq<RefImage>, b: seq<RefImage>, id: string)
    ensures WithoutId(a + b, id) == WithoutId(a, id) + WithoutId(b, id)
  {
    if a != [] {
      assert (a + b)[0] == a[0];
      assert (a + b)[1..] == a[1..] + b;
      WithoutIdAppend(a[1..], b, id);
    } else {
      assert a + b == b;
    }
  }

  /** Removing an id nobody carries changes nothing. */
  lemma {:induction false} WithoutIdAbsent(refs: seq<RefImage>, id: string)
    requires forall i :: 0 <= i < |refs| ==> refs[i].id != id
    ensures WithoutId(refs, id) == refs
  {
    if refs != [] {
      WithoutIdAbsent(refs[1..], id);
    }
  }

  /** Removing the same id twice is removing it once. */
  lemma WithoutIdIdempotent(refs: seq<RefImage>, id: string)
    ensures WithoutId(WithoutId(refs, id), id) == WithoutId(refs, id)
  {
    var once := WithoutId(refs, id);
    WithoutIdMembers(refs, id);
    assert forall i :: 0 <= i < |once| ==> once[i] in once;
    WithoutIdAbsent(once, id);
  }

  /** Deleting a freshly uploaded image with a new id restores the list before the upload. */
  lemma RemoveUndoesUpload(refs: seq<RefImage>, image: RefImage)
    requires forall i :: 0 <= i < |refs| ==> refs[i].id != image.id
    ensures WithoutId(refs + [image], image.id) == refs
  {
    WithoutIdAppend(refs, [image], image.id);
    WithoutIdAbsent(refs, image.id);
    assert [image][1..] == [];
  }

  /** A JavaScript string value that is present and not empty. */
  predicate Truthy(s: Option<string>)
  {
    s.Some? && s.value != ""
  }

  // ===========================================================================
  // The request

  /** Generation is refused when both fields are blank after trimming. */
  predicate Blank(description: string, prompt: string)
  {
    Trim(description) == "" && Trim(prompt) == ""
  }

  const InfoLabel := "Product Info: "
  const ScriptLabel := "\nVideo Creative Script: "
  const GoalLine := "\n" + VisualGoal

  /** The three-line prompt sent to the video service. */
  function CombinedPrompt(description: string, prompt: string): string
  {
    InfoLabel + description + ScriptLabel + prompt + GoalLine
  }

  /**
   * The prompt is the trimmed template literal: the leading line break and the
   * indentation before the closing backquote are dropped, the inputs are kept
   * whole.
   */
  lemma CombinedPromptIsTrimmedTemplate(description: string, prompt: string)
    ensures Trim("\n" + CombinedPrompt(description, prompt) + "\n          ") == CombinedPrompt(description, prompt)
  {
    var body := CombinedPrompt(description, prompt);
    assert body[0] == InfoLabel[0] == 'P';
    LastOfAppend(InfoLabel + description + ScriptLabel + prompt, GoalLine);
    assert GoalLine[|GoalLine| - 1] == '.';
    TrimWrapped(body, "\n", "\n          ");
  }

  /** Both the description and the creative prompt reach the request. */
  lemma CombinedPromptCarriesInputs(description: string, prompt: string)
    ensures Contains(CombinedPrompt(description, prompt), description)
    ensures Contains(CombinedPrompt(description, prompt), prompt)
  {
    InfixesOfFive(InfoLabel, description, ScriptLabel, prompt, GoalLine);
  }

  /** `refImages.map(img => ({ data, mimeType }))`: the images in list order, without their ids. */
  function InlineImages(refs: seq<RefImage>): (r: seq<InlineData>)
    ensures |r| == |refs|
    ensures forall i :: 0 <= i < |refs| ==> r[i] == InlineData(refs[i].data, refs[i].mimeType)
  {
    seq(|refs|, i requires 0 <= i < |refs| => InlineData(refs[i].data, refs[i].mimeType))
  }

  /** All reference images are handed over, but only the first reaches the video request. */
  lemma OnlyFirstImageSent(description: string, prompt: string, refs: seq<RefImage>)
    ensures VideoRequestFor(CombinedPrompt(description, prompt), InlineImages(refs)).image
            == if refs == [] then None else Some(InlineData(refs[0].data, refs[0].mimeType))
  {
  }

  /** `${videoUrl}&key=${API_KEY}`: the address given to the player. */
  function PlayerSrc(videoUrl: string, envApiKey: string): string
  {
    videoUrl + "&key=" + envApiKey
  }

  /**
   * A successful job's URL already ends in the key, so the player's address
   * carries the `&key=` parameter twice.
   */
  lemma PlayerSrcRepeatsKey(prompt: string, refImages: seq<InlineData>, envApiKey: string,
                            submit: SubmitCall, poll: PollCall)
    requires VideoOutcome(prompt, refImages, envApiKey, submit, poll).0.Ok?
    ensures exists uri :: (uri != "" &&
      PlayerSrc(VideoOutcome(prompt, refImages, envApiKey, submit, poll).0.value, envApiKey)
      == uri + "&key=" + envApiKey + "&key=" + envApiKey)
  {
    var op := submit(VideoRequestFor(prompt, refImages)).value;
    var last := PollLoop(op, 0, poll).0;
    var o := last.value;
    assert FinishVideo(o, envApiKey).Ok?;
    var url := VideoOutcome(prompt, refImages, envApiKey, submit, poll).0.value;
    assert url == o.videoUri + "&key=" + envApiKey;
    assert o.videoUri != "" && PlayerSrc(url, envApiKey) == o.videoUri + "&key=" + envApiKey + "&key=" + envApiKey;
  }

  // ===========================================================================
  // The component

  class Studio {
    var refImages: seq<RefImage>
    var productDescription: string
    var videoState: VideoState

    /** Never more than three reference images. */
    predicate Valid()
      reads this
    {
      |refImages| <= MaxRefImages
    }

    constructor()
      ensures Valid()
      ensures refImages == [] && productDescription == "" && videoState == InitialVideoState
    {
      refImages := [];
      productDescription := "";
      videoState := InitialVideoState;
    }

    /**
     * The effect run when the product context changes: its image becomes the
     * only reference image when none is held, and its description is taken
     * when none was entered.
     */
    method SeedFromContext(context: ProductContext)
      requires Valid()
      modifies this
      ensures Valid()
      ensures Truthy(context.uploadedImage) && old(refImages) == [] ==>
                refImages == [RefImage(context.uploadedImage.value, context.mimeType, ContextImageId)]
      ensures !(Truthy(context.uploadedImage) && old(refImages) == []) ==> refImages == old(refImages)
      ensures context.description != "" && old(productDescription) == "" ==> productDescription == context.description
      ensures !(context.description != "" && old(productDescription) == "") ==>
                productDescription == old(productDescription)
      ensures videoState == old(videoState)
    {
      if Truthy(context.uploadedImage) && |refImages| == 0 {
        refImages := [RefImage(context.uploadedImage.value, context.mimeType, ContextImageId)];
      }
      if context.description != "" && productDescription == "" {
        productDescription := context.description;
      }
    }

    method SetDescription(text: string)
      requires Valid()
      modifies this
      ensures Valid()
      ensures productDescription == text && refImages == old(refImages) && videoState == old(videoState)
    {
      productDescription := text;
    }

    method SetPrompt(text: string)
      requires Valid()
      modifies this
      ensures Valid()
      ensures videoState == old(videoState).(prompt := text)
      ensures refImages == old(refImages) && productDescription == old(productDescription)
    {
      videoState := videoState.(prompt := text);
    }

    /**
     * handleFileUpload: the chosen file (its payload, type and random id, when
     * one was chosen) is appended only while fewer than three images are held.
     */
    method HandleFileUpload(file: Option<RefImage>)
      requires Valid()
      modifies this
      ensures Valid()
      ensures file.Some? && |old(refImages)| < MaxRefImages ==> refImages == old(refImages) + [file.value]
      ensures !(file.Some? && |old(refImages)| < MaxRefImages) ==> refImages == old(refImages)
      ensures productDescription == old(productDescription) && videoState == old(videoState)
    {
      if file.Some? && |refImages| < MaxRefImages {
        refImages := refImages + [file.value];
      }
    }

    /** removeImage. */
    method RemoveImage(id: string)
      requires Valid()
      modifies this
      ensures Valid()
      ensures refImages == WithoutId(old(refImages), id)
      ensures productDescription == old(productDescription) && videoState == old(videoState)
    {
      refImages := WithoutId(refImages, id);
    }

    /** The job's outcome: the URL on success, the fixed message on failure; running ends. */
    method FinishGeneration(outcome: Result<string, string>)
      requires Valid()
      modifies this
      ensures Valid()
      ensures outcome.Ok? ==> videoState == old(videoState).(isGenerating := false, videoUrl := Some(outcome.value))
      ensures outcome.Err? ==> videoState == old(videoState).(isGenerating := false, error := Some(VideoFailedMessage))
      ensures refImages == old(refImages) && productDescription == old(productDescription)
    {
      if outcome.Ok? {
        videoState := videoState.(isGenerating := false, videoUrl := Some(outcome.value));
      } else {
        videoState := videoState.(isGenerating := false, error := Some(VideoFailedMessage));
      }
    }

    /**
     * handleGenerateVideo: refused with a message when both fields are blank;
     * otherwise the job starts (running, no error, no URL), the combined prompt
     * and the images are sent, and the outcome is recorded.
     */
    method HandleGenerateVideo(envApiKey: string, submit: SubmitCall, poll: PollCall)
      requires Valid()
      modifies this
      ensures Valid()
      ensures refImages == old(refImages) && productDescription == old(productDescription)
      ensures videoState.prompt == old(videoState.prompt)
      ensures Blank(old(productDescription), old(videoState.prompt)) ==>
                videoState == old(videoState).(error := Some(MissingInputMessage))
      ensures !Blank(old(productDescription), old(videoState.prompt)) ==>
        var outcome := VideoOutcome(CombinedPrompt(old(productDescription), old(videoState.prompt)),
                                    InlineImages(old(refImages)), envApiKey, submit, poll).0;
        && !videoState.isGenerating
        && (outcome.Ok? ==> videoState.videoUrl == Some(outcome.value) && videoState.error == None)
        && (outcome.Err? ==> videoState.videoUrl == None && videoState.error == Some(VideoFailedMessage))
    {
      if Blank(productDescription, videoState.prompt) {
        videoState := videoState.(error := Some(MissingInputMessage));
        return;
      }
      videoState := videoState.(isGenerating := true, error := None, videoUrl := None);
      var combinedPrompt := CombinedPrompt(productDescription, videoState.prompt);
      var imagesToUse := InlineImages(refImages);
      var uri, _ := GenerateMarketingVideo(combinedPrompt, imagesToUse, envApiKey, submit, poll);
      FinishGeneration(uri);
    }
  }
}
