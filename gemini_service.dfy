/**
 * The generation client: JSON extraction from free model text, the keyword,
 * listing and launch-plan calls, single-image synthesis, the sequential scene
 * batch and the bounded video poll.
 *
 * Every SDK call is an oracle parameter: a function from the request the code
 * builds to either the response or the message of the error it threw.
 * `JSON.parse`, together with the type the caller asserts on its result, is the
 * partial function `parse`. The key read from `process.env.API_KEY` is the
 * parameter `envApiKey` where it shows in a result.
 */
module GeminiService {
  import opened Base
  import opened Types

  const FlashModel := "gemini-3-flash-preview"
  const ProModel := "gemini-3-pro-preview"
  const ImageModel := "gemini-3-pro-image-preview"
  const VideoModel := "veo-3.1-fast-generate-preview"

  const ExtractFailedMessage := "AI 数据格式化失败，请稍后重试。"
  const NoImageMessage := "No image returned"
  const EmptyPlanMessage := "AI 未返回有效计划数据"
  const PollErrorPrefix := "Veo 生成器返回错误: "
  const UnknownServerError := "未知服务器错误"
  const VideoTimeoutMessage := "视频生成超时（超过 10 分钟），请稍后再试。"
  const VideoFailedPrefix := "生成失败: "
  const NoDownloadLinkMessage := "视频生成任务已完成，但未返回下载链接。"
  const BillingMessage := "权限不足：请确保您的 API Key 来自一个已开启计费(Billing)的项目。"
  const DataUrlPrefix := "data:image/png;base64,"

  /** Fixed wording wrapped around the prompts sent to the image and video models. */
  const ImageStyleSuffix := ". Cinematic commercial style, high-end studio lighting, 2K resolution."
  const VideoPromptPrefix := "Cinematic commercial product video: "
  const VideoPromptSuffix := ". Professional slow motion, sharp focus, vibrant colors, 4k texture detail."

  /** Pause after each successful scene, and between two video polls (milliseconds). */
  const SceneCooldownMs := 1000
  const PollIntervalMs := 10000
  const MaxPollAttempts: nat := 60

  // ===========================================================================
  // extractJson

  predicate IsOpener(c: char) { c == '{' || c == '[' }
  predicate IsCloser(c: char) { c == '}' || c == ']' }

  /** The characters the cleaning step deletes: C0 controls and DEL plus the C1 controls. */
  predicate IsControl(c: char)
  {
    c <= '\U{1F}' || ('\U{7F}' <= c <= '\U{9F}')
  }

  /**
   * The start of the candidate span: the first `{` when it comes before the
   * first `[` or there is no `[`, else the first `[`; -1 when neither occurs.
   * That is the first position holding either opener.
   */
  function JsonStart(t: string): (start: int)
    ensures -1 <= start < |t|
    ensures start == -1 <==> '{' !in t && '[' !in t
    ensures start >= 0 ==> IsOpener(t[start]) && forall i :: 0 <= i < start ==> !IsOpener(t[i])
  {
    var firstBrace := IndexOf(t, '{');
    var firstBracket := IndexOf(t, '[');
    if firstBrace != -1 && (firstBracket == -1 || firstBrace < firstBracket) then firstBrace
    else if firstBracket != -1 then firstBracket
    else -1
  }

  /** The end of the candidate span: the greater of the last `}` and the last `]`. */
  function JsonEnd(t: string): (end: int)
    ensures -1 <= end < |t|
    ensures end == -1 <==> '}' !in t && ']' !in t
    ensures end >= 0 ==> IsCloser(t[end]) && forall i :: end < i < |t| ==> !IsCloser(t[i])
  {
    var lastBrace := LastIndexOf(t, '}');
    var lastBracket := LastIndexOf(t, ']');
    if lastBrace < lastBracket then lastBracket else lastBrace
  }

  /**
   * The candidate span `t.substring(start, end + 1)`; when the last closer lies
   * before the first opener, `substring` swaps its bounds.
   */
  function JsonSpan(t: string): (span: Option<string>)
    ensures span.None? <==> '{' !in t && '[' !in t
    ensures span.Some? && JsonStart(t) <= JsonEnd(t) ==> span.value == t[JsonStart(t)..JsonEnd(t) + 1]
    ensures span.Some? && JsonEnd(t) < JsonStart(t) ==> span.value == t[JsonEnd(t) + 1..JsonStart(t)]
  {
    var start := JsonStart(t);
    if start == -1 then None else Some(Substring(t, start, JsonEnd(t) + 1))
  }

  /** `replace(/[\u0000-\u001F\u007F-\u009F]/g, "")`. */
  function StripControl(s: string): (r: string)
    ensures |r| <= |s|
    ensures forall i :: 0 <= i < |r| ==> !IsControl(r[i])
  {
    if s == [] then []
    else if IsControl(s[0]) then StripControl(s[1..])
    else [s[0]] + StripControl(s[1..])
  }

  /** Cleaning works character by character: it distributes over concatenation. */
  lemma {:induction false} StripControlAppend(a: string, b: string)
    ensures StripControl(a + b) == StripControl(a) + StripControl(b)
  {
    if a != [] {
      assert (a + b)[0] == a[0];
      assert (a + b)[1..] == a[1..] + b;
      StripControlAppend(a[1..], b);
    } else {
      assert a + b == b;
    }
  }

  /** Text without control characters is left exactly as it is. */
  lemma {:induction false} StripControlKeepsClean(s: string)
    requires forall i :: 0 <= i < |s| ==> !IsControl(s[i])
    ensures StripControl(s) == s
  {
    if s != [] {
      StripControlKeepsClean(s[1..]);
    }
  }

  /** A single character is deleted when it is a control character and kept as it is otherwise. */
  lemma StripControlChar(c: char)
    ensures StripControl([c]) == if IsControl(c) then [] else [c]
  {
    assert [c][1..] == [];
  }

  /**
   * Cleaning deletes each control character, without putting anything in its
   * place, and keeps every other character where it was relative to the rest.
   */
  lemma StripControlAt(a: string, c: char, b: string)
    ensures IsControl(c) ==> StripControl(a + [c] + b) == StripControl(a) + StripControl(b)
    ensures !IsControl(c) ==> StripControl(a + [c] + b) == StripControl(a) + [c] + StripControl(b)
  {
    StripControlAppend(a + [c], b);
    StripControlAppend(a, [c]);
    StripControlChar(c);
  }

  /** Cleaning twice is cleaning once. */
  lemma StripControlIdempotent(s: string)
    ensures StripControl(StripControl(s)) == StripControl(s)
  {
    StripControlKeepsClean(StripControl(s));
  }

  /**
   * extractJson: trim, cut the candidate span, clean it and parse it. Every
   * failure, "no structure" and a parse failure alike, is the one fixed error.
   */
  function ExtractJson<T>(text: string, parse: string -> Option<T>): (r: Result<T, string>)
    ensures r.Err? ==> r.error == ExtractFailedMessage
    ensures JsonSpan(Trim(text)).None? ==> r.Err?
    ensures r.Ok? ==> JsonSpan(Trim(text)).Some?
                      && parse(StripControl(JsonSpan(Trim(text)).value)) == Some(r.value)
    ensures JsonSpan(Trim(text)).Some? && parse(StripControl(JsonSpan(Trim(text)).value)).Some?
            ==> r == Ok(parse(StripControl(JsonSpan(Trim(text)).value)).value)
  {
    match JsonSpan(Trim(text))
    case None => Err(ExtractFailedMessage)
    case Some(span) =>
      match parse(StripControl(span))
      case None => Err(ExtractFailedMessage)
      case Some(v) => Ok(v)
  }

  /** Text with no `{` and no `[` fails with the fixed error. */
  lemma ExtractJsonNoStructure<T>(text: string, parse: string -> Option<T>)
    requires '{' !in text && '[' !in text
    ensures ExtractJson(text, parse) == Err(ExtractFailedMessage)
  {
    TrimKeepsAbsent(text, '{');
    TrimKeepsAbsent(text, '[');
  }

  /** Text with none of the four bracket characters. */
  predicate NoBrackets(s: string)
  {
    '{' !in s && '[' !in s && '}' !in s && ']' !in s
  }

  /** A JSON body between two runs of bracket-free prose is exactly the span cut out. */
  lemma SpanInProse(pre: string, body: string, post: string)
    requires NoBrackets(pre) && NoBrackets(post)
    requires body != [] && IsOpener(body[0]) && IsCloser(body[|body| - 1])
    ensures JsonSpan(pre + body + post) == Some(body)
  {
    var t := pre + body + post;
    forall i | 0 <= i < |pre| ensures !IsOpener(t[i]) {
      assert t[i] == pre[i] && pre[i] in pre;
    }
    assert t[|pre|] == body[0];
    FirstOpenerAt(t, |pre|);
    var last := |pre| + |body| - 1;
    forall i | last < i < |t| ensures !IsCloser(t[i]) {
      assert t[i] == post[i - |pre| - |body|] && post[i - |pre| - |body|] in post;
    }
    assert t[last] == body[|body| - 1];
    LastCloserAt(t, last);
    assert t[|pre|..last + 1] == body;
  }

  /** The span starts at the first opener. */
  lemma FirstOpenerAt(t: string, k: nat)
    requires k < |t| && IsOpener(t[k])
    requires forall i :: 0 <= i < k ==> !IsOpener(t[i])
    ensures JsonStart(t) == k
  {
    assert t[k] in t;
  }

  /** The span ends at the last closer. */
  lemma LastCloserAt(t: string, k: nat)
    requires k < |t| && IsCloser(t[k])
    requires forall i :: k < i < |t| ==> !IsCloser(t[i])
    ensures JsonEnd(t) == k
  {
    assert t[k] in t;
  }

  /** Trimming text around a body that starts and ends with a non-space trims only the surroundings. */
  lemma TrimProse(pre: string, body: string, post: string)
    requires body != [] && !IsSpace(body[0]) && !IsSpace(body[|body| - 1])
    ensures Trim(pre + body + post) == TrimStart(pre) + body + TrimEnd(post)
  {
    TrimStartBeforeBody(pre, body, post);
    var head := TrimStart(pre) + body;
    TrimEndAppend(head, post);
  }

  lemma TrimStartBeforeBody(pre: string, body: string, post: string)
    requires body != [] && !IsSpace(body[0])
    ensures TrimStart(pre + body + post) == TrimStart(pre) + body + post
  {
    var rest := body + post;
    assert pre + body + post == pre + rest;
    TrimStartAppend(pre, rest);
  }

  /**
   * Model text that wraps one JSON body in bracket-free commentary (a markdown
   * fence, a preface, a closing remark, surrounding white space) is parsed as
   * exactly that body.
   */
  lemma ExtractJsonFromProse<T>(pre: string, body: string, post: string, parse: string -> Option<T>)
    requires NoBrackets(pre) && NoBrackets(post)
    requires body != [] && IsOpener(body[0]) && IsCloser(body[|body| - 1])
    requires forall i :: 0 <= i < |body| ==> !IsControl(body[i])
    ensures ExtractJson(pre + body + post, parse)
            == (match parse(body) case Some(v) => Ok(v) case None => Err(ExtractFailedMessage))
  {
    ProseSpan(pre, body, post);
    StripControlKeepsClean(body);
  }

  /** The span cut from bracket-free prose around a body is the body. */
  lemma ProseSpan(pre: string, body: string, post: string)
    requires NoBrackets(pre) && NoBrackets(post)
    requires body != [] && IsOpener(body[0]) && IsCloser(body[|body| - 1])
    ensures JsonSpan(Trim(pre + body + post)) == Some(body)
  {
    TrimProse(pre, body, post);
    TrimKeepsNoBrackets(pre);
    TrimKeepsNoBrackets(post);
    SpanInProse(TrimStart(pre), body, TrimEnd(post));
  }

  /** Trimming removes characters only, so it keeps text free of brackets. */
  lemma TrimKeepsNoBrackets(s: string)
    requires NoBrackets(s)
    ensures NoBrackets(TrimStart(s)) && NoBrackets(TrimEnd(s))
  {
    TrimKeepsAbsent(s, '{');
    TrimKeepsAbsent(s, '[');
    TrimKeepsAbsent(s, '}');
    TrimKeepsAbsent(s, ']');
  }

  /**
   * A clean serialised object or array is handed to the parser unchanged, so
   * whatever `parse` reads back from a serialisation comes back out.
   */
  lemma ExtractJsonClean<T>(s: string, parse: string -> Option<T>)
    requires s != [] && IsOpener(s[0]) && IsCloser(s[|s| - 1])
    requires forall i :: 0 <= i < |s| ==> !IsControl(s[i])
    ensures ExtractJson(s, parse)
            == (match parse(s) case Some(v) => Ok(v) case None => Err(ExtractFailedMessage))
  {
    assert [] + s + [] == s;
    ExtractJsonFromProse([], s, [], parse);
  }

  // ===========================================================================
  // Text calls: keywords, listing copy, launch plan

  /** A text request carries the values interpolated into its instruction. */
  datatype TextRequest =
    | KeywordRequest(model: string, seedKeyword: string, language: Language)
    | ListingRequest(model: string, description: string, keywords: seq<string>, language: Language)
    | LaunchPlanRequest(model: string, title: string, description: string, keywords: seq<string>, language: Language)

  datatype WebRef = WebRef(title: string, uri: string)

  /** A grounding chunk; only chunks with a `web` reference become sources. */
  datatype GroundingChunk = GroundingChunk(web: Option<WebRef>)

  /**
   * A text response: its text ("" when missing) and the grounding chunks of its
   * first candidate ([] when missing).
   */
  datatype TextResponse = TextResponse(text: string, chunks: seq<GroundingChunk>)

  type TextCall = TextRequest -> Result<TextResponse, string>

  /** Grounding sources: the web chunks, mapped to `{title, url}`, in order. */
  function GroundingSources(chunks: seq<GroundingChunk>): (sources: seq<GroundingSource>)
    ensures |sources| <= |chunks|
  {
    if chunks == [] then []
    else
      var rest := GroundingSources(chunks[1..]);
      match chunks[0].web
      case None => rest
      case Some(w) => [GroundingSource(w.title, w.uri)] + rest
  }

  /** Sources are taken chunk by chunk, so their order is the chunks' order. */
  lemma {:induction false} GroundingSourcesAppend(a: seq<GroundingChunk>, b: seq<GroundingChunk>)
    ensures GroundingSources(a + b) == GroundingSources(a) + GroundingSources(b)
  {
    if a != [] {
      assert (a + b)[0] == a[0];
      assert (a + b)[1..] == a[1..] + b;
      GroundingSourcesAppend(a[1..], b);
    } else {
      assert a + b == b;
    }
  }

  /** With a web reference in every chunk, the i-th source is the i-th chunk's title and uri. */
  lemma {:induction false} GroundingSourcesAllWeb(chunks: seq<GroundingChunk>)
    requires forall i :: 0 <= i < |chunks| ==> chunks[i].web.Some?
    ensures |GroundingSources(chunks)| == |chunks|
    ensures forall i :: 0 <= i < |chunks| ==>
      GroundingSources(chunks)[i] == GroundingSource(chunks[i].web.value.title, chunks[i].web.value.uri)
  {
    if chunks != [] {
      GroundingSourcesAllWeb(chunks[1..]);
    }
  }

  /** Chunks without a web reference contribute nothing. */
  lemma {:induction false} GroundingSourcesNoWeb(chunks: seq<GroundingChunk>)
    requires forall i :: 0 <= i < |chunks| ==> chunks[i].web.None?
    ensures GroundingSources(chunks) == []
  {
    if chunks != [] {
      GroundingSourcesNoWeb(chunks[1..]);
    }
  }

  datatype KeywordResult = KeywordResult(keywords: seq<KeywordData>, sources: seq<GroundingSource>)

  /**
   * generateKeywords: one search-grounded call; the keywords are extracted from
   * its text and the sources from its grounding chunks. A transport error
   * propagates as it is.
   */
  function GenerateKeywords(seedKeyword: string, language: Language, call: TextCall,
                            parse: string -> Option<seq<KeywordData>>): (r: Result<KeywordResult, string>)
    ensures var resp := call(KeywordRequest(FlashModel, seedKeyword, language));
      && (resp.Err? ==> r == Err(resp.error))
      && (resp.Ok? && r.Err? ==> r.error == ExtractFailedMessage)
      && (resp.Ok? ==> (r.Ok? <==> ExtractJson(resp.value.text, parse).Ok?))
      && (r.Ok? ==> resp.Ok? && r.value.sources == GroundingSources(resp.value.chunks))
      && (r.Ok? ==> ExtractJson(resp.value.text, parse) == Ok(r.value.keywords))
  {
    match call(KeywordRequest(FlashModel, seedKeyword, language))
    case Err(e) => Err(e)
    case Ok(resp) =>
      var sources := GroundingSources(resp.chunks);
      match ExtractJson(resp.text, parse)
      case Err(e) => Err(e)
      case Ok(keywords) => Ok(KeywordResult(keywords, sources))
  }

  /** generateListingContent: one JSON-mode call whose text is extracted. */
  function GenerateListingContent(description: string, keywords: seq<string>, language: Language,
                                  call: TextCall, parse: string -> Option<ListingContent>): (r: Result<ListingContent, string>)
    ensures var resp := call(ListingRequest(FlashModel, description, keywords, language));
      && (resp.Err? ==> r == Err(resp.error))
      && (resp.Ok? ==> r == ExtractJson(resp.value.text, parse))
  {
    match call(ListingRequest(FlashModel, description, keywords, language))
    case Err(e) => Err(e)
    case Ok(resp) => ExtractJson(resp.text, parse)
  }

  datatype LaunchPlanResult = LaunchPlanResult(plan: seq<LaunchDayPlan>, adStrategy: AdStrategyNode)

  /** generateLaunchPlan: an empty response text is rejected before extraction. */
  function GenerateLaunchPlan(title: string, description: string, keywords: seq<string>, language: Language,
                              call: TextCall, parse: string -> Option<LaunchPlanResult>): (r: Result<LaunchPlanResult, string>)
    ensures var resp := call(LaunchPlanRequest(ProModel, title, description, keywords, language));
      && (resp.Err? ==> r == Err(resp.error))
      && (resp.Ok? && resp.value.text == "" ==> r == Err(EmptyPlanMessage))
      && (resp.Ok? && resp.value.text != "" ==> r == ExtractJson(resp.value.text, parse))
  {
    match call(LaunchPlanRequest(ProModel, title, description, keywords, language))
    case Err(e) => Err(e)
    case Ok(resp) =>
      if resp.text == "" then Err(EmptyPlanMessage) else ExtractJson(resp.text, parse)
  }

  // ===========================================================================
  // Single image

  datatype InlineData = InlineData(data: string, mimeType: string)

  /** A response part; image parts carry inline data. */
  datatype Part = Part(inlineData: Option<InlineData>)

  datatype ImageRequest = ImageRequest(
    model: string,
    image: InlineData,
    prompt: string,
    aspectRatio: string,
    imageSize: string)

  /** The image oracle answers with the parts of the first candidate ([] when there is none). */
  type ImageCall = ImageRequest -> Result<seq<Part>, string>

  function AspectRatio(isWide: bool): (ratio: string)
    ensures ratio == "16:9" <==> isWide
    ensures ratio == "1:1" <==> !isWide
  {
    if isWide then "16:9" else "1:1"
  }

  /** The request for one image: the reference inline, the prompt with the style suffix, 2K output. */
  function ImageRequestFor(base64Image: string, mimeType: string, prompt: string, isWide: bool): (req: ImageRequest)
    ensures req.model == ImageModel && req.image == InlineData(base64Image, mimeType)
    ensures |prompt| <= |req.prompt| && req.prompt[..|prompt|] == prompt && req.prompt[|prompt|..] == ImageStyleSuffix
    ensures req.aspectRatio == AspectRatio(isWide) && req.imageSize == "2K"
  {
    ImageRequest(ImageModel, InlineData(base64Image, mimeType),
                 prompt + ImageStyleSuffix,
                 AspectRatio(isWide), "2K")
  }

  /** `parts.find(p => p.inlineData)`: the first part that carries inline data. */
  function FirstInline(parts: seq<Part>): Option<InlineData>
  {
    if parts == [] then None
    else if parts[0].inlineData.Some? then parts[0].inlineData
    else FirstInline(parts[1..])
  }

  /** The payload found is the first one present; none is found only when no part has one. */
  lemma {:induction false} FirstInlineIsFirst(parts: seq<Part>)
    ensures FirstInline(parts).None? <==> forall i :: 0 <= i < |parts| ==> parts[i].inlineData.None?
    ensures FirstInline(parts).Some? ==>
      exists i :: 0 <= i < |parts| && parts[i].inlineData == FirstInline(parts)
                  && forall j :: 0 <= j < i ==> parts[j].inlineData.None?
  {
    if parts != [] && parts[0].inlineData.None? {
      var rest := parts[1..];
      FirstInlineIsFirst(rest);
      assert forall i :: 1 <= i < |parts| ==> parts[i] == rest[i - 1];
      if FirstInline(rest).Some? {
        var k :| 0 <= k < |rest| && rest[k].inlineData == FirstInline(rest)
                 && forall j :: 0 <= j < k ==> rest[j].inlineData.None?;
        assert parts[k + 1].inlineData == FirstInline(parts);
      }
    }
  }

  /**
   * generateSingleImage: a data URL of the first inline payload; a response
   * without one is the "No image returned" error.
   */
  function GenerateSingleImage(base64Image: string, mimeType: string, prompt: string, isWide: bool,
                               call: ImageCall): (r: Result<string, string>)
    ensures var resp := call(ImageRequestFor(base64Image, mimeType, prompt, isWide));
      && (resp.Err? ==> r == Err(resp.error))
      && (resp.Ok? && FirstInline(resp.value).None? ==> r == Err(NoImageMessage))
      && (r.Ok? ==> resp.Ok? && FirstInline(resp.value).Some?
                    && r.value == DataUrlPrefix + FirstInline(resp.value).value.data)
  {
    match call(ImageRequestFor(base64Image, mimeType, prompt, isWide))
    case Err(e) => Err(e)
    case Ok(parts) =>
      match FirstInline(parts)
      case None => Err(NoImageMessage)
      case Some(inline) => Ok(DataUrlPrefix + inline.data)
  }

  // ===========================================================================
  // Scene batch

  /** A catalog scene: a stable id, a caption and the default prompt fragment. */
  datatype SceneSpec = SceneSpec(id: int, caption: string, promptSuffix: string)

  datatype SceneResult = SceneResult(id: int, imageUrl: string)

  /** `customPrompts[scene.id] || scene.promptSuffix`. */
  function ScenePrompt(scene: SceneSpec, customPrompts: map<int, string>): (p: string)
    ensures scene.id in customPrompts && customPrompts[scene.id] != "" ==> p == customPrompts[scene.id]
    ensures scene.id !in customPrompts || customPrompts[scene.id] == "" ==> p == scene.promptSuffix
  {
    OrElse(if scene.id in customPrompts then customPrompts[scene.id] else "", scene.promptSuffix)
  }

  /** The one image call made for a scene of the batch. */
  function SceneAttempt(base64Image: string, mimeType: string, productDescription: string, scene: SceneSpec,
                        isWide: bool, customPrompts: map<int, string>, call: ImageCall): Result<string, string>
  {
    GenerateSingleImage(base64Image, mimeType,
                        "Product: " + productDescription + ". Scene: " + ScenePrompt(scene, customPrompts),
                        isWide, call)
  }

  /** The URL a scene ends up with: the image on success, the empty string on failure. */
  function SceneUrl(base64Image: string, mimeType: string, productDescription: string, scene: SceneSpec,
                    isWide: bool, customPrompts: map<int, string>, call: ImageCall): string
  {
    match SceneAttempt(base64Image, mimeType, productDescription, scene, isWide, customPrompts, call)
    case Ok(url) => url
    case Err(_) => ""
  }

  /** A scene's URL is empty exactly when its image call failed: a produced URL is never empty. */
  lemma SceneUrlEmptyIffFailed(base64Image: string, mimeType: string, productDescription: string, scene: SceneSpec,
                               isWide: bool, customPrompts: map<int, string>, call: ImageCall)
    ensures SceneUrl(base64Image, mimeType, productDescription, scene, isWide, customPrompts, call) == ""
            <==> SceneAttempt(base64Image, mimeType, productDescription, scene, isWide, customPrompts, call).Err?
  {
  }

  /** The results of a batch: one per scene, in scene order. */
  function SceneResults(base64Image: string, mimeType: string, productDescription: string, scenes: seq<SceneSpec>,
                        isWide: bool, customPrompts: map<int, string>, call: ImageCall): (results: seq<SceneResult>)
    ensures |results| == |scenes|
  {
    if scenes == [] then []
    else
      var last := scenes[|scenes| - 1];
      SceneResults(base64Image, mimeType, productDescription, scenes[..|scenes| - 1], isWide, customPrompts, call)
      + [SceneResult(last.id, SceneUrl(base64Image, mimeType, productDescription, last, isWide, customPrompts, call))]
  }

  /** Result `i` of a batch belongs to scene `i` and holds that scene's URL (empty on failure). */
  lemma {:induction false} SceneResultsAt(base64Image: string, mimeType: string, productDescription: string,
                                          scenes: seq<SceneSpec>, isWide: bool, customPrompts: map<int, string>,
                                          call: ImageCall)
    ensures forall i :: 0 <= i < |scenes| ==>
      SceneResults(base64Image, mimeType, productDescription, scenes, isWide, customPrompts, call)[i]
      == SceneResult(scenes[i].id,
                     SceneUrl(base64Image, mimeType, productDescription, scenes[i], isWide, customPrompts, call))
  {
    if scenes != [] {
      var init := scenes[..|scenes| - 1];
      SceneResultsAt(base64Image, mimeType, productDescription, init, isWide, customPrompts, call);
      forall i | 0 <= i < |init| ensures scenes[i] == init[i] { }
    }
  }

  /** Appending a scene appends its result. */
  lemma SceneResultsSnoc(base64Image: string, mimeType: string, productDescription: string, scenes: seq<SceneSpec>,
                         scene: SceneSpec, isWide: bool, customPrompts: map<int, string>, call: ImageCall)
    ensures SceneResults(base64Image, mimeType, productDescription, scenes + [scene], isWide, customPrompts, call)
            == SceneResults(base64Image, mimeType, productDescription, scenes, isWide, customPrompts, call)
               + [SceneResult(scene.id, SceneUrl(base64Image, mimeType, productDescription, scene, isWide, customPrompts, call))]
  {
    assert (scenes + [scene])[..|scenes|] == scenes;
  }

  /** Number of results that carry an image. */
  function Produced(results: seq<SceneResult>): (k: nat)
    ensures k <= |results|
  {
    if results == [] then 0
    else Produced(results[..|results| - 1]) + (if |results[|results| - 1].imageUrl| > 0 then 1 else 0)
  }

  lemma ProducedSnoc(results: seq<SceneResult>, r: SceneResult)
    ensures Produced(results + [r]) == Produced(results) + (if |r.imageUrl| > 0 then 1 else 0)
  {
    assert (results + [r])[..|results|] == results;
  }

  /** Number of scenes whose image call succeeds. */
  function Successes(base64Image: string, mimeType: string, productDescription: string, scenes: seq<SceneSpec>,
                     isWide: bool, customPrompts: map<int, string>, call: ImageCall): (k: nat)
    ensures k <= |scenes|
  {
    if scenes == [] then 0
    else
      Successes(base64Image, mimeType, productDescription, scenes[..|scenes| - 1], isWide, customPrompts, call)
      + (if SceneAttempt(base64Image, mimeType, productDescription, scenes[|scenes| - 1], isWide, customPrompts, call).Ok?
         then 1 else 0)
  }

  lemma SuccessesSnoc(base64Image: string, mimeType: string, productDescription: string, scenes: seq<SceneSpec>,
                      scene: SceneSpec, isWide: bool, customPrompts: map<int, string>, call: ImageCall)
    ensures Successes(base64Image, mimeType, productDescription, scenes + [scene], isWide, customPrompts, call)
            == Successes(base64Image, mimeType, productDescription, scenes, isWide, customPrompts, call)
               + (if SceneAttempt(base64Image, mimeType, productDescription, scene, isWide, customPrompts, call).Ok?
                  then 1 else 0)
  {
    assert (scenes + [scene])[..|scenes|] == scenes;
  }

  /** Every successful call leaves an image in the results, and only those do. */
  lemma {:induction false} ProducedIsSuccesses(base64Image: string, mimeType: string, productDescription: string,
                                               scenes: seq<SceneSpec>, isWide: bool, customPrompts: map<int, string>,
                                               call: ImageCall)
    ensures Produced(SceneResults(base64Image, mimeType, productDescription, scenes, isWide, customPrompts, call))
            == Successes(base64Image, mimeType, productDescription, scenes, isWide, customPrompts, call)
  {
    if scenes != [] {
      var init, last := scenes[..|scenes| - 1], scenes[|scenes| - 1];
      ProducedIsSuccesses(base64Image, mimeType, productDescription, init, isWide, customPrompts, call);
      assert scenes == init + [last];
      SceneResultsSnoc(base64Image, mimeType, productDescription, init, last, isWide, customPrompts, call);
      var url := SceneUrl(base64Image, mimeType, productDescription, last, isWide, customPrompts, call);
      ProducedSnoc(SceneResults(base64Image, mimeType, productDescription, init, isWide, customPrompts, call),
                   SceneResult(last.id, url));
      SceneUrlEmptyIffFailed(base64Image, mimeType, productDescription, last, isWide, customPrompts, call);
    }
  }

  /**
   * generateSceneImages: one call per scene, strictly in order; a failed scene
   * yields an empty URL and the loop goes on; a cooldown follows each success.
   */
  method GenerateSceneImages(base64Image: string, mimeType: string, productDescription: string,
                             scenes: seq<SceneSpec>, isWide: bool, customPrompts: map<int, string>,
                             call: ImageCall)
    returns (results: seq<SceneResult>, cooldowns: nat)
    ensures results == SceneResults(base64Image, mimeType, productDescription, scenes, isWide, customPrompts, call)
    ensures cooldowns == Successes(base64Image, mimeType, productDescription, scenes, isWide, customPrompts, call)
  {
    results := [];
    cooldowns := 0;
    for k := 0 to |scenes|
      invariant results == SceneResults(base64Image, mimeType, productDescription, scenes[..k], isWide, customPrompts, call)
      invariant cooldowns == Successes(base64Image, mimeType, productDescription, scenes[..k], isWide, customPrompts, call)
    {
      var scene := scenes[k];
      var prompt := "Product: " + productDescription + ". Scene: " + ScenePrompt(scene, customPrompts);
      var url := GenerateSingleImage(base64Image, mimeType, prompt, isWide, call);
      assert url == SceneAttempt(base64Image, mimeType, productDescription, scene, isWide, customPrompts, call);
      assert scenes[..k + 1] == scenes[..k] + [scene];
      SceneResultsSnoc(base64Image, mimeType, productDescription, scenes[..k], scene, isWide, customPrompts, call);
      SuccessesSnoc(base64Image, mimeType, productDescription, scenes[..k], scene, isWide, customPrompts, call);
      if url.Ok? {
        results := results + [SceneResult(scene.id, url.value)];
        cooldowns := cooldowns + 1;
      } else {
        results := results + [SceneResult(scene.id, "")];
      }
    }
    assert scenes[..|scenes|] == scenes;
  }

  // ===========================================================================
  // Video job

  datatype OperationError = OperationError(message: Option<string>)

  /** A long-running video operation: done flag, error marker, and the first video's URI ("" when absent). */
  datatype Operation = Operation(done: bool, error: Option<OperationError>, videoUri: string)

  datatype VideoRequest = VideoRequest(
    model: string,
    prompt: string,
    image: Option<InlineData>,
    numberOfVideos: nat,
    resolution: string,
    aspectRatio: string)

  type SubmitCall = VideoRequest -> Result<Operation, string>

  /** The poll oracle: the refreshed operation for poll number `attempt` (counted from 0). */
  type PollCall = (nat, Operation) -> Result<Operation, string>

  /** Only the first reference image is sent. */
  function VideoRequestFor(prompt: string, refImages: seq<InlineData>): (req: VideoRequest)
    ensures req.image == (if refImages == [] then None else Some(refImages[0]))
  {
    VideoRequest(VideoModel,
                 VideoPromptPrefix + prompt + VideoPromptSuffix,
                 if refImages == [] then None else Some(refImages[0]),
                 1, "720p", "16:9")
  }

  /** The message thrown when a poll reports an error (a missing or empty message reads as unknown). */
  function PollErrorMessage(e: OperationError): (m: string)
    ensures e.message.Some? && e.message.value != "" ==> m == PollErrorPrefix + e.message.value
    ensures e.message.None? || e.message.value == "" ==> m == PollErrorPrefix + UnknownServerError
  {
    PollErrorPrefix + OrElse(if e.message.Some? then e.message.value else "", UnknownServerError)
  }

  /**
   * The polling loop from `op` after `attempts` polls: the operation it stops
   * with (done, or still running after the last attempt) or the message thrown,
   * together with the number of polls made.
   */
  function PollLoop(op: Operation, attempts: nat, poll: PollCall): (out: (Result<Operation, string>, nat))
    requires attempts <= MaxPollAttempts
    ensures attempts <= out.1 <= MaxPollAttempts
    ensures op.done ==> out == (Ok(op), attempts)
    ensures out.0.Ok? ==> out.0.value.done || out.1 == MaxPollAttempts
    ensures out.0.Ok? && out.1 > attempts ==> out.0.value.error.None?
    decreases MaxPollAttempts - attempts
  {
    if op.done || attempts == MaxPollAttempts then (Ok(op), attempts)
    else
      match poll(attempts, op)
      case Err(e) => (Err(e), attempts + 1)
      case Ok(next) =>
        if next.error.Some? then (Err(PollErrorMessage(next.error.value)), attempts + 1)
        else PollLoop(next, attempts + 1, poll)
  }

  /** The checks after the loop, in source order. */
  function FinishVideo(op: Operation, envApiKey: string): (r: Result<string, string>)
    ensures r.Ok? <==> op.done && op.error.None? && op.videoUri != ""
    ensures r.Ok? ==> r.value == op.videoUri + "&key=" + envApiKey
    ensures !op.done ==> r == Err(VideoTimeoutMessage)
  {
    if !op.done then Err(VideoTimeoutMessage)
    else if op.error.Some? then
      Err(VideoFailedPrefix + (if op.error.value.message.Some? then op.error.value.message.value else "undefined"))
    else if op.videoUri == "" then Err(NoDownloadLinkMessage)
    else Ok(op.videoUri + "&key=" + envApiKey)
  }

  /** The catch block: an error mentioning "403" or "permission" becomes the billing message. */
  function RewrapPermission(r: Result<string, string>): (r': Result<string, string>)
    ensures r.Ok? ==> r' == r
    ensures r.Err? && (Contains(r.error, "403") || Contains(r.error, "permission")) ==> r' == Err(BillingMessage)
    ensures r.Err? && !Contains(r.error, "403") && !Contains(r.error, "permission") ==> r' == r
  {
    match r
    case Ok(_) => r
    case Err(m) => if Contains(m, "403") || Contains(m, "permission") then Err(BillingMessage) else r
  }

  /** generateMarketingVideo as a function of its oracles: the result and the number of polls. */
  function VideoOutcome(prompt: string, refImages: seq<InlineData>, envApiKey: string,
                        submit: SubmitCall, poll: PollCall): (out: (Result<string, string>, nat))
    ensures out.1 <= MaxPollAttempts
    ensures submit(VideoRequestFor(prompt, refImages)).Err? ==>
              out == (RewrapPermission(Err(submit(VideoRequestFor(prompt, refImages)).error)), 0)
  {
    match submit(VideoRequestFor(prompt, refImages))
    case Err(e) => (RewrapPermission(Err(e)), 0)
    case Ok(op) =>
      var (last, polls) := PollLoop(op, 0, poll);
      (RewrapPermission(match last case Err(e) => Err(e) case Ok(o) => FinishVideo(o, envApiKey)), polls)
  }

  /** generateMarketingVideo: submit, poll at most 60 times, then check the finished job. */
  method GenerateMarketingVideo(prompt: string, refImages: seq<InlineData>, envApiKey: string,
                                submit: SubmitCall, poll: PollCall)
    returns (result: Result<string, string>, polls: nat)
    ensures (result, polls) == VideoOutcome(prompt, refImages, envApiKey, submit, poll)
    ensures polls <= MaxPollAttempts
    ensures result.Ok? ==> exists uri :: uri != "" && result.value == uri + "&key=" + envApiKey
  {
    var submitted := submit(VideoRequestFor(prompt, refImages));
    if submitted.Err? {
      result := RewrapPermission(Err(submitted.error));
      polls := 0;
      return;
    }
    var operation := submitted.value;
    var attempts: nat := 0;
    while !operation.done && attempts < MaxPollAttempts
      invariant attempts <= MaxPollAttempts
      invariant PollLoop(operation, attempts, poll) == PollLoop(submitted.value, 0, poll)
      decreases MaxPollAttempts - attempts
    {
      var refreshed := poll(attempts, operation);
      if refreshed.Err? {
        result := RewrapPermission(Err(refreshed.error));
        polls := attempts + 1;
        return;
      }
      operation := refreshed.value;
      attempts := attempts + 1;
      if operation.error.Some? {
        result := RewrapPermission(Err(PollErrorMessage(operation.error.value)));
        polls := attempts;
        return;
      }
    }
    result := RewrapPermission(FinishVideo(operation, envApiKey));
    polls := attempts;
  }

  /** A message with neither a '4' nor a 'p' in it is passed through the catch block unchanged. */
  lemma NotRewrapped(m: string)
    requires '4' !in m && 'p' !in m
    ensures RewrapPermission(Err(m)) == Err(m)
  {
    NotContainsMissingChar(m, "403", 0);
    NotContainsMissingChar(m, "permission", 0);
  }

  /** The timeout message is reported as it is. */
  lemma TimeoutNotRewrapped()
    ensures RewrapPermission(Err(VideoTimeoutMessage)) == Err(VideoTimeoutMessage)
  {
    NotRewrapped(VideoTimeoutMessage);
  }

  /** A job already done at submission is never polled. */
  lemma VideoDoneAtSubmit(prompt: string, refImages: seq<InlineData>, envApiKey: string,
                          submit: SubmitCall, poll: PollCall)
    requires submit(VideoRequestFor(prompt, refImages)).Ok?
    requires submit(VideoRequestFor(prompt, refImages)).value.done
    ensures VideoOutcome(prompt, refImages, envApiKey, submit, poll)
            == (RewrapPermission(FinishVideo(submit(VideoRequestFor(prompt, refImages)).value, envApiKey)), 0)
  {
  }

  /** Polls that never finish and never fail run the loop to its bound and end in `Ok` of a running job. */
  lemma {:induction false} PollLoopNeverDone(op: Operation, attempts: nat, poll: PollCall)
    requires attempts <= MaxPollAttempts && !op.done
    requires forall k, o :: poll(k, o).Ok? && !poll(k, o).value.done && poll(k, o).value.error.None?
    ensures PollLoop(op, attempts, poll).0.Ok?
    ensures !PollLoop(op, attempts, poll).0.value.done
    ensures PollLoop(op, attempts, poll).1 == MaxPollAttempts
    decreases MaxPollAttempts - attempts
  {
    if attempts < MaxPollAttempts {
      PollLoopNeverDone(poll(attempts, op).value, attempts + 1, poll);
    }
  }

  /** A job that never completes ends in the timeout error after exactly 60 polls. */
  lemma VideoTimesOut(prompt: string, refImages: seq<InlineData>, envApiKey: string,
                      submit: SubmitCall, poll: PollCall)
    requires submit(VideoRequestFor(prompt, refImages)).Ok?
    requires !submit(VideoRequestFor(prompt, refImages)).value.done
    requires forall k, o :: poll(k, o).Ok? && !poll(k, o).value.done && poll(k, o).value.error.None?
    ensures VideoOutcome(prompt, refImages, envApiKey, submit, poll) == (Err(VideoTimeoutMessage), MaxPollAttempts)
  {
    var op := submit(VideoRequestFor(prompt, refImages)).value;
    PollLoopNeverDone(op, 0, poll);
    var last := PollLoop(op, 0, poll).0.value;
    assert FinishVideo(last, envApiKey) == Err(VideoTimeoutMessage);
    TimeoutNotRewrapped();
  }

  /** A job that reports an error on poll number `k` stops right there, after `k + 1` polls. */
  lemma {:induction false} PollLoopStopsOnError(op: Operation, attempts: nat, k: nat, poll: PollCall)
    requires attempts <= k < MaxPollAttempts && !op.done
    requires forall j: nat, o :: j < k ==> poll(j, o).Ok? && !poll(j, o).value.done && poll(j, o).value.error.None?
    requires forall o :: poll(k, o).Ok? && poll(k, o).value.error.Some?
    ensures PollLoop(op, attempts, poll).0.Err?
    ensures PollLoop(op, attempts, poll).1 == k + 1
    decreases k - attempts
  {
    if attempts < k {
      PollLoopStopsOnError(poll(attempts, op).value, attempts + 1, k, poll);
    }
  }

  /** An error reported on poll number `k` fails the job after `k + 1` polls, short of the bound. */
  lemma VideoEarlyError(prompt: string, refImages: seq<InlineData>, envApiKey: string,
                        submit: SubmitCall, poll: PollCall, k: nat)
    requires k < MaxPollAttempts
    requires submit(VideoRequestFor(prompt, refImages)).Ok?
    requires !submit(VideoRequestFor(prompt, refImages)).value.done
    requires forall j: nat, o :: j < k ==> poll(j, o).Ok? && !poll(j, o).value.done && poll(j, o).value.error.None?
    requires forall o :: poll(k, o).Ok? && poll(k, o).value.error.Some?
    ensures VideoOutcome(prompt, refImages, envApiKey, submit, poll).0.Err?
    ensures VideoOutcome(prompt, refImages, envApiKey, submit, poll).1 == k + 1
  {
    PollLoopStopsOnError(submit(VideoRequestFor(prompt, refImages)).value, 0, k, poll);
  }
}
