/**
 * The image and copy workbench: two fixed scene catalogs (main images and A+
 * images), the reference upload, the one-click batch that writes the listing
 * copy and then renders both catalogs, and the per-scene regenerate button.
 *
 * The component's single state record is a field of the class; the listing
 * copy and the custom prompt map are two more. The parent's
 * `onListingGenerated` callback is the session's `HandleContentUpdate`.
 */
module ImageGenerator {
  import opened Base
  import opened Types
  import opened GeminiService
  import App

  /** Uploads above 5 MiB are refused. */
  const MaxUploadBytes: nat := 5 * 1024 * 1024

  const FileTooLargeMessage := "图片超过 5MB。"

  /** Shown when the one-click batch fails. */
  const GenerateFailedMessage := "部分内容生成受限。由于 API 配额限制，请尝试点击下方单独按钮重新生成失败的图片。"

  // ===========================================================================
  // Scene catalogs

  const MainScenes: seq<SceneSpec> := [
    SceneSpec(1, "白底英雄图", "Studio hero shot of the product on pure white background, center composition, high contrast."),
    SceneSpec(2, "场景展示图 1", "Product in a clean, high-end living room environment, warm ambient light, sharp focus."),
    SceneSpec(3, "场景展示图 2", "Product in use by a person, lifestyle photography, natural morning light."),
    SceneSpec(4, "多角度展示", "Two products showing different angles, clean minimal background."),
    SceneSpec(5, "礼物/包装展示", "Product with premium gift wrapping next to it, festive atmosphere."),
    SceneSpec(6, "细节特写图", "Extreme macro shot of the product material and texture, blurred background.")
  ]

  const AplusScenes: seq<SceneSpec> := [
    SceneSpec(101, "A+ 顶部长图 (Banner)", "A panoramic cinematic wide shot of the product brand story, professional lighting, room for text on left."),
    SceneSpec(102, "功能解析 1", "Product technical structure view, minimalist gray background, sharp details."),
    SceneSpec(103, "功能解析 2", "Product durability/quality demonstration, close up macro."),
    SceneSpec(104, "使用场景 A", "Wide shot showing the product in a professional kitchen or workspace."),
    SceneSpec(105, "使用场景 B", "Outdoor lifestyle wide shot, sunrise lighting, energetic feel."),
    SceneSpec(106, "对比展示", "Clean divided shot, showing before and after or product vs environment."),
    SceneSpec(107, "品牌底图", "Artistic abstract shot of the product material, very high resolution, 2928x1200 style.")
  ]

  function SceneIds(scenes: seq<SceneSpec>): (ids: seq<int>)
    ensures |ids| == |scenes|
    ensures forall i :: 0 <= i < |scenes| ==> ids[i] == scenes[i].id
  {
    seq(|scenes|, i requires 0 <= i < |scenes| => scenes[i].id)
  }

  predicate DistinctIds(scenes: seq<SceneSpec>)
  {
    forall i, j :: 0 <= i < j < |scenes| ==> scenes[i].id != scenes[j].id
  }

  /** The main catalog holds scenes 1 to 6, each once. */
  lemma MainCatalogIds()
    ensures SceneIds(MainScenes) == [1, 2, 3, 4, 5, 6]
    ensures DistinctIds(MainScenes)
  {
    var m := SceneIds(MainScenes);
    assert m[0] == 1 && m[1] == 2 && m[2] == 3 && m[3] == 4 && m[4] == 5 && m[5] == 6;
  }

  /** The A+ catalog holds scenes 101 to 107, each once. */
  lemma AplusCatalogIds()
    ensures SceneIds(AplusScenes) == [101, 102, 103, 104, 105, 106, 107]
    ensures DistinctIds(AplusScenes)
  {
    var a := SceneIds(AplusScenes);
    assert a[0] == 101 && a[1] == 102 && a[2] == 103 && a[3] == 104 && a[4] == 105 && a[5] == 106 && a[6] == 107;
  }

  // ===========================================================================
  // Image slots

  /** The slot a scene starts with: no image, not loading. */
  function Placeholders(scenes: seq<SceneSpec>): (images: seq<GeneratedImage>)
    ensures Keyed(images, scenes)
    ensures forall i :: 0 <= i < |images| ==> images[i].imageUrl.None? && !images[i].isLoading
  {
    seq(|scenes|, i requires 0 <= i < |scenes| => GeneratedImage(scenes[i].id, scenes[i].caption, None, false))
  }

  /** The slots follow a catalog: one per scene, in order, with its id and caption. */
  predicate Keyed(images: seq<GeneratedImage>, scenes: seq<SceneSpec>)
  {
    |images| == |scenes|
    && forall i :: 0 <= i < |images| ==> images[i].id == scenes[i].id && images[i].caption == scenes[i].caption
  }

  const InitialState := ImageGeneratorState(false, None, "", None, "image/png",
                                            Placeholders(MainScenes), Placeholders(AplusScenes))

  /** Every slot's loading flag set to `loading`; nothing else changes. */
  function MarkAll(images: seq<GeneratedImage>, loading: bool): (r: seq<GeneratedImage>)
    ensures |r| == |images|
    ensures forall i :: 0 <= i < |images| ==> r[i] == images[i].(isLoading := loading)
  {
    seq(|images|, i requires 0 <= i < |images| => images[i].(isLoading := loading))
  }

  /** `results.find(r => r.id === id)`. */
  function FindResult(results: seq<SceneResult>, id: int): (r: Option<SceneResult>)
    ensures r.Some? ==> r.value in results && r.value.id == id
    ensures r.None? ==> forall i :: 0 <= i < |results| ==> results[i].id != id
  {
    if results == [] then None
    else if results[0].id == id then Some(results[0])
    else FindResult(results[1..], id)
  }

  /** `url || previous`: an empty URL keeps the previous one. */
  function KeepUnlessEmpty(url: string, previous: Option<string>): (r: Option<string>)
    ensures url != "" ==> r == Some(url)
    ensures url == "" ==> r == previous
  {
    if url != "" then Some(url) else previous
  }

  /** The URL the batch gives a slot: its result's when there is a non-empty one, its own otherwise. */
  function BatchUrl(image: GeneratedImage, results: seq<SceneResult>): (url: Option<string>)
    ensures (forall i :: 0 <= i < |results| ==> results[i].id != image.id) ==> url == image.imageUrl
    ensures url != image.imageUrl ==>
      exists res :: res in results && res.id == image.id && res.imageUrl != "" && url == Some(res.imageUrl)
    ensures image.imageUrl.Some? ==> url.Some?
  {
    match FindResult(results, image.id)
    case Some(res) => KeepUnlessEmpty(res.imageUrl, image.imageUrl)
    case None => image.imageUrl
  }

  /** A batch's results written into the slots: every slot stops loading. */
  function MergeBatch(images: seq<GeneratedImage>, results: seq<SceneResult>): (r: seq<GeneratedImage>)
    ensures |r| == |images|
    ensures forall i :: 0 <= i < |images| ==>
      r[i] == images[i].(isLoading := false, imageUrl := BatchUrl(images[i], results))
  {
    seq(|images|, i requires 0 <= i < |images| => images[i].(isLoading := false, imageUrl := BatchUrl(images[i], results)))
  }

  /** With distinct ids, looking up the id of a result finds that result. */
  lemma {:induction false} FindResultDistinct(results: seq<SceneResult>, k: nat)
    requires k < |results|
    requires forall i, j :: 0 <= i < j < |results| ==> results[i].id != results[j].id
    ensures FindResult(results, results[k].id) == Some(results[k])
  {
    if k > 0 {
      assert results[0].id != results[k].id;
      FindResultDistinct(results[1..], k - 1);
    }
  }

  /**
   * A catalog batch merged into slots that follow the catalog: slot `i` gets
   * scene `i`'s image when its call succeeded and keeps its previous URL when
   * the call failed.
   */
  lemma MergeSceneBatch(images: seq<GeneratedImage>, base64Image: string, mimeType: string, description: string,
                        scenes: seq<SceneSpec>, isWide: bool, call: ImageCall)
    requires Keyed(images, scenes) && DistinctIds(scenes)
    ensures var merged := MergeBatch(images, SceneResults(base64Image, mimeType, description, scenes, isWide, map[], call));
      Keyed(merged, scenes)
      && forall i :: 0 <= i < |scenes| ==>
           !merged[i].isLoading
           && merged[i].imageUrl == KeepUnlessEmpty(SceneUrl(base64Image, mimeType, description, scenes[i], isWide, map[], call),
                                                    images[i].imageUrl)
  {
    var results := SceneResults(base64Image, mimeType, description, scenes, isWide, map[], call);
    SceneResultsAt(base64Image, mimeType, description, scenes, isWide, map[], call);
    forall i | 0 <= i < |scenes|
      ensures FindResult(results, images[i].id) == Some(results[i])
    {
      FindResultDistinct(results, i);
    }
  }

  /** The slot with id `id` has its loading flag set to `loading`; the others are untouched. */
  function MarkId(images: seq<GeneratedImage>, id: int, loading: bool): (r: seq<GeneratedImage>)
    ensures |r| == |images|
    ensures forall i :: 0 <= i < |images| ==> r[i] == if images[i].id == id then images[i].(isLoading := loading) else images[i]
  {
    seq(|images|, i requires 0 <= i < |images| =>
      if images[i].id == id then images[i].(isLoading := loading) else images[i])
  }

  /** The slot with id `id` stops loading and takes `url` unless it is empty; the others are untouched. */
  function UpdateId(images: seq<GeneratedImage>, id: int, url: string): (r: seq<GeneratedImage>)
    ensures |r| == |images|
    ensures forall i :: 0 <= i < |images| ==>
      r[i] == if images[i].id == id then images[i].(isLoading := false, imageUrl := KeepUnlessEmpty(url, images[i].imageUrl))
              else images[i]
  {
    seq(|images|, i requires 0 <= i < |images| =>
      if images[i].id == id then images[i].(isLoading := false, imageUrl := KeepUnlessEmpty(url, images[i].imageUrl))
      else images[i])
  }

  /** Updates keyed by id keep the slots following their catalog. */
  lemma KeyedUpdates(images: seq<GeneratedImage>, scenes: seq<SceneSpec>, id: int, loading: bool, url: string,
                     results: seq<SceneResult>)
    requires Keyed(images, scenes)
    ensures Keyed(MarkAll(images, loading), scenes)
    ensures Keyed(MarkId(images, id, loading), scenes)
    ensures Keyed(UpdateId(images, id, url), scenes)
    ensures Keyed(MergeBatch(images, results), scenes)
  {
  }

  /** `scenes.find(s => s.id === id)`. */
  function FindScene(scenes: seq<SceneSpec>, id: int): (r: Option<SceneSpec>)
    ensures r.Some? ==> r.value in scenes && r.value.id == id
    ensures r.None? ==> forall i :: 0 <= i < |scenes| ==> scenes[i].id != id
  {
    if scenes == [] then None
    else if scenes[0].id == id then Some(scenes[0])
    else FindScene(scenes[1..], id)
  }

  /** `!state.uploadedImage`: both a missing and an empty image count as none. */
  predicate HasImage(uploadedImage: Option<string>)
  {
    uploadedImage.Some? && uploadedImage.value != ""
  }

  /** The one-click batch runs only with an image and a description that is not blank. */
  predicate CanGenerate(s: ImageGeneratorState)
  {
    HasImage(s.uploadedImage) && Trim(s.description) != ""
  }

  /**
   * The regenerate button's edited prompt never reaches the request: the scene
   * map handed to the service is empty, so the catalog's fragment is used even
   * when the user typed a prompt of their own for that scene.
   */
  lemma RegenIgnoresCustomPrompt(scene: SceneSpec, customPrompts: map<int, string>)
    requires scene.id in customPrompts && customPrompts[scene.id] != ""
    ensures ScenePrompt(scene, map[]) == scene.promptSuffix
    ensures ScenePrompt(scene, customPrompts) == customPrompts[scene.id]
  {
  }

  /**
   * The URL a regenerate call yields for slot `id`: the image of its catalog
   * scene, or "" when the call fails. An id missing from the catalog makes the
   * service throw, which the slot treats like a failed call.
   */
  function RegenUrl(scenes: seq<SceneSpec>, id: int, image: string, mime: string, desc: string, isWide: bool,
                    call: ImageCall): (url: string)
    ensures (forall i :: 0 <= i < |scenes| ==> scenes[i].id != id) ==> url == ""
    ensures url != "" ==>
      exists scene :: scene in scenes && scene.id == id && SceneAttempt(image, mime, desc, scene, isWide, map[], call) == Ok(url)
  {
    match FindScene(scenes, id)
    case None => ""
    case Some(scene) => SceneUrl(image, mime, desc, scene, isWide, map[], call)
  }

  /**
   * The slot list after a regenerate: the slot is marked loading, its scene
   * alone is sent as a batch (with an empty prompt map), and the slot takes
   * the result unless it is empty.
   */
  method RegenSlot(images: seq<GeneratedImage>, scenes: seq<SceneSpec>, id: int, image: string, mime: string,
                   desc: string, isWide: bool, call: ImageCall)
    returns (updated: seq<GeneratedImage>)
    requires Keyed(images, scenes)
    ensures Keyed(updated, scenes)
    ensures updated == UpdateId(images, id, RegenUrl(scenes, id, image, mime, desc, isWide, call))
  {
    KeyedUpdates(images, scenes, id, true, "", []);
    var marked := MarkId(images, id, true);
    var url := "";
    match FindScene(scenes, id) {
      case None =>
      case Some(scene) =>
        var res, _ := GenerateSceneImages(image, mime, desc, [scene], isWide, map[], call);
        SceneResultsAt(image, mime, desc, [scene], isWide, map[], call);
        url := res[0].imageUrl;
    }
    KeyedUpdates(marked, scenes, id, false, url, []);
    updated := UpdateId(marked, id, url);
    assert updated == UpdateId(images, id, url);
  }

  // ===========================================================================
  // The component

  class Workbench {
    /** The two catalogs the slots follow. */
    const mainScenes: seq<SceneSpec>
    const aplusScenes: seq<SceneSpec>

    var state: ImageGeneratorState
    var listing: Option<ListingContent>
    var customPrompts: map<int, string>

    /** The slot lists always follow their catalogs. */
    predicate Valid()
      reads this
    {
      Keyed(state.mainImages, mainScenes) && Keyed(state.aplusImages, aplusScenes)
      && DistinctIds(mainScenes) && DistinctIds(aplusScenes)
    }

    constructor()
      ensures Valid()
      ensures mainScenes == MainScenes && aplusScenes == AplusScenes
      ensures state == InitialState && listing == None && customPrompts == map[]
    {
      mainScenes := MainScenes;
      aplusScenes := AplusScenes;
      MainCatalogIds();
      AplusCatalogIds();
      state := InitialState;
      listing := None;
      customPrompts := map[];
    }

    method SetDescription(description: string)
      requires Valid()
      modifies this
      ensures Valid()
      ensures state == old(state).(description := description)
      ensures listing == old(listing) && customPrompts == old(customPrompts)
    {
      state := state.(description := description);
    }

    /** The remove button on the preview: the upload is dropped, so the batch cannot start. */
    method RemoveUploadedImage()
      requires Valid()
      modifies this
      ensures Valid()
      ensures state == old(state).(uploadedImage := None)
      ensures !CanGenerate(state)
      ensures listing == old(listing) && customPrompts == old(customPrompts)
    {
      state := state.(uploadedImage := None);
    }

    method SetCustomPrompt(id: int, prompt: string)
      requires Valid()
      modifies this
      ensures Valid()
      ensures customPrompts == old(customPrompts)[id := prompt]
      ensures state == old(state) && listing == old(listing)
    {
      customPrompts := customPrompts[id := prompt];
    }

    /**
     * handleFileChange, once the reader has produced the base64 payload: an
     * oversized file only sets the error; otherwise the image and its type are
     * stored and the error is cleared.
     */
    method HandleFileChange(size: nat, fileType: string, payload: string)
      requires Valid()
      modifies this
      ensures Valid()
      ensures size > MaxUploadBytes ==> state == old(state).(error := Some(FileTooLargeMessage))
      ensures size <= MaxUploadBytes ==>
        state == old(state).(uploadedImage := Some(payload), mimeType := fileType, error := None)
      ensures listing == old(listing) && customPrompts == old(customPrompts)
    {
      if size > MaxUploadBytes {
        state := state.(error := Some(FileTooLargeMessage));
        return;
      }
      state := state.(uploadedImage := Some(payload), mimeType := fileType, error := None);
    }

    /** The first update of handleGenerate: the batch is running and every slot is loading. */
    method StartBatch()
      requires Valid()
      modifies this
      ensures Valid()
      ensures state == old(state).(isGenerating := true, mainImages := MarkAll(old(state.mainImages), true),
                                   aplusImages := MarkAll(old(state.aplusImages), true))
      ensures listing == old(listing) && customPrompts == old(customPrompts)
    {
      KeyedUpdates(state.mainImages, mainScenes, 0, true, "", []);
      KeyedUpdates(state.aplusImages, aplusScenes, 0, true, "", []);
      state := state.(isGenerating := true,
                      mainImages := MarkAll(state.mainImages, true),
                      aplusImages := MarkAll(state.aplusImages, true));
    }

    /** The catch block of handleGenerate: the fixed message, and no slot loading. */
    method FailBatch()
      requires Valid()
      modifies this
      ensures Valid()
      ensures state == old(state).(isGenerating := false, error := Some(GenerateFailedMessage),
                                   mainImages := MarkAll(old(state.mainImages), false),
                                   aplusImages := MarkAll(old(state.aplusImages), false))
      ensures listing == old(listing) && customPrompts == old(customPrompts)
    {
      KeyedUpdates(state.mainImages, mainScenes, 0, false, "", []);
      KeyedUpdates(state.aplusImages, aplusScenes, 0, false, "", []);
      state := state.(isGenerating := false, error := Some(GenerateFailedMessage),
                      mainImages := MarkAll(state.mainImages, false),
                      aplusImages := MarkAll(state.aplusImages, false));
    }

    /** The update after the main batch: its results are merged into the main slots. */
    method ApplyMainBatch(results: seq<SceneResult>)
      requires Valid()
      modifies this
      ensures Valid()
      ensures state == old(state).(mainImages := MergeBatch(old(state.mainImages), results))
      ensures listing == old(listing) && customPrompts == old(customPrompts)
    {
      KeyedUpdates(state.mainImages, mainScenes, 0, false, "", results);
      state := state.(mainImages := MergeBatch(state.mainImages, results));
    }

    /** The update after the A+ batch: its results are merged and the run is over. */
    method ApplyAplusBatch(results: seq<SceneResult>)
      requires Valid()
      modifies this
      ensures Valid()
      ensures state == old(state).(isGenerating := false, aplusImages := MergeBatch(old(state.aplusImages), results))
      ensures listing == old(listing) && customPrompts == old(customPrompts)
    {
      KeyedUpdates(state.aplusImages, aplusScenes, 0, false, "", results);
      state := state.(isGenerating := false, aplusImages := MergeBatch(state.aplusImages, results));
    }

    /** The two batches of handleGenerate: the main catalog square, then the A+ catalog wide. */
    method RenderCatalogs(image: string, mime: string, desc: string, imageCall: ImageCall)
      requires Valid()
      modifies this
      ensures Valid()
      ensures state == old(state).(
                isGenerating := false,
                mainImages := MergeBatch(old(state.mainImages),
                                         SceneResults(image, mime, desc, mainScenes, false, map[], imageCall)),
                aplusImages := MergeBatch(old(state.aplusImages),
                                          SceneResults(image, mime, desc, aplusScenes, true, map[], imageCall)))
      ensures listing == old(listing) && customPrompts == old(customPrompts)
    {
      var mainRes, _ := GenerateSceneImages(image, mime, desc, mainScenes, false, map[], imageCall);
      ApplyMainBatch(mainRes);
      var aplusRes, _ := GenerateSceneImages(image, mime, desc, aplusScenes, true, map[], imageCall);
      ApplyAplusBatch(aplusRes);
    }

    /**
     * The rest of handleGenerate once the copy is written: it is kept, handed to
     * the session, and both catalogs are rendered.
     */
    method PublishAndRender(copy: ListingContent, session: App.Session, image: string, mime: string, desc: string,
                            imageCall: ImageCall)
      requires Valid() && session.Valid()
      modifies this, session
      ensures Valid() && session.Valid()
      ensures listing == Some(copy) && customPrompts == old(customPrompts)
      ensures session.productContext == old(session.productContext).(
                title := copy.title, description := desc, uploadedImage := Some(image),
                mimeType := mime, hasGeneratedContent := true)
      ensures state == old(state).(
                isGenerating := false,
                mainImages := MergeBatch(old(state.mainImages),
                                         SceneResults(image, mime, desc, mainScenes, false, map[], imageCall)),
                aplusImages := MergeBatch(old(state.aplusImages),
                                          SceneResults(image, mime, desc, aplusScenes, true, map[], imageCall)))
      ensures session.language == old(session.language) && session.apiKeys == old(session.apiKeys)
      ensures session.state == old(session.state) && session.sources == old(session.sources)
      ensures session.storage == old(session.storage)
    {
      listing := Some(copy);
      session.HandleContentUpdate(copy.title, desc, Some(image), mime);
      RenderCatalogs(image, mime, desc, imageCall);
    }

    /**
     * handleGenerate: every slot starts loading; the listing copy is written
     * first and handed to the session with the user's own description; then the
     * main batch (square) and the A+ batch (wide) are rendered in turn and merged
     * into their slots. A failed listing call ends the run: the fixed message is
     * set and every slot stops loading with its URL untouched.
     */
    method HandleGenerate(language: Language, seedKeywords: seq<string>, session: App.Session,
                          textCall: TextCall, parseListing: string -> Option<ListingContent>, imageCall: ImageCall)
      requires Valid() && session.Valid()
      modifies this, session
      ensures Valid() && session.Valid()
      ensures customPrompts == old(customPrompts)
      ensures !CanGenerate(old(state)) ==>
        state == old(state) && listing == old(listing) && session.productContext == old(session.productContext)
      ensures CanGenerate(old(state)) ==>
        var image, desc := old(state.uploadedImage.value), old(state.description);
        var copy := GenerateListingContent(desc, seedKeywords, language, textCall, parseListing);
        && (copy.Err? ==>
              && state == old(state).(isGenerating := false, error := Some(GenerateFailedMessage),
                                      mainImages := MarkAll(MarkAll(old(state.mainImages), true), false),
                                      aplusImages := MarkAll(MarkAll(old(state.aplusImages), true), false))
              && listing == old(listing)
              && session.productContext == old(session.productContext))
        && (copy.Ok? ==>
              && listing == Some(copy.value)
              && session.productContext == old(session.productContext).(
                   title := copy.value.title, description := desc, uploadedImage := Some(image),
                   mimeType := old(state.mimeType), hasGeneratedContent := true)
              && state == old(state).(
                   isGenerating := false,
                   mainImages := MergeBatch(MarkAll(old(state.mainImages), true),
                     SceneResults(image, old(state.mimeType), desc, mainScenes, false, map[], imageCall)),
                   aplusImages := MergeBatch(MarkAll(old(state.aplusImages), true),
                     SceneResults(image, old(state.mimeType), desc, aplusScenes, true, map[], imageCall))))
      ensures session.language == old(session.language) && session.apiKeys == old(session.apiKeys)
      ensures session.state == old(session.state) && session.sources == old(session.sources)
      ensures session.storage == old(session.storage)
    {
      if !CanGenerate(state) {
        return;
      }
      var image, mime, desc := state.uploadedImage.value, state.mimeType, state.description;
      StartBatch();
      var copy := GenerateListingContent(desc, seedKeywords, language, textCall, parseListing);
      if copy.Err? {
        FailBatch();
        return;
      }
      PublishAndRender(copy.value, session, image, mime, desc, imageCall);
    }

    /**
     * handleRegenSingle: with an image uploaded, the slot with that id in the
     * chosen list is rendered again from its catalog scene alone (wide for A+);
     * it stops loading and keeps its URL when the call fails. Nothing else changes.
     */
    method HandleRegenSingle(id: int, isAplus: bool, imageCall: ImageCall)
      requires Valid()
      modifies this
      ensures Valid()
      ensures listing == old(listing) && customPrompts == old(customPrompts)
      ensures !HasImage(old(state.uploadedImage)) ==> state == old(state)
      ensures HasImage(old(state.uploadedImage)) ==>
        var url := RegenUrl(if isAplus then aplusScenes else mainScenes, id, old(state.uploadedImage.value),
                            old(state.mimeType), old(state.description), isAplus, imageCall);
        if isAplus then state == old(state).(aplusImages := UpdateId(old(state.aplusImages), id, url))
        else state == old(state).(mainImages := UpdateId(old(state.mainImages), id, url))
    {
      if !HasImage(state.uploadedImage) {
        return;
      }
      var image, mime, desc := state.uploadedImage.value, state.mimeType, state.description;
      if isAplus {
        var updated := RegenSlot(state.aplusImages, aplusScenes, id, image, mime, desc, true, imageCall);
        state := state.(aplusImages := updated);
      } else {
        var updated := RegenSlot(state.mainImages, mainScenes, id, image, mime, desc, false, imageCall);
        state := state.(mainImages := updated);
      }
    }
  }
}
