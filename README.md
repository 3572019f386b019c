# Amazon listing assistant — a Dafny model

This project models the core of a browser tool for Amazon sellers. The tool has five stages:

- **Keyword research.** A seed keyword is sent to a grounded text model. The keyword records come back with search volume, competition, CPC, intent and a head / middle / long-tail tier, together with the web sources used.
- **Dashboard and table.** The keywords are shown as a top-eight volume chart and a tier-grouped table. The table can be exported as CSV or copied to the clipboard.
- **Listing and images.** A product photo and description become a listing (a title and five bullets) and two fixed catalogs of scene images: six main images and seven A+ images, each of which can be regenerated alone.
- **Launch planning.** Once listing content exists, a phased launch plan and an advertising campaign tree are generated. The tree is drawn as an indented mind map.
- **Video.** Up to three reference images, a description and a creative script become a video job. The job is submitted, polled for at most 60 rounds, and its URL is played back.

The model is split into modules that follow the source files:

| module | file | source |
|---|---|---|
| `Base` | base.dfy | Option/Result, plus the JavaScript string operations the code relies on (`trim`, `toLowerCase`, `includes`, `indexOf`, `substring`, `join`, `split`) |
| `Types` | types.dfy | types.ts |
| `GeminiService` | gemini_service.dfy | services/geminiService.ts |
| `App` | app.dfy | App.tsx |
| `KeywordTable` | keyword_table.dfy | components/KeywordTable.tsx |
| `DashboardStats` | dashboard_stats.dfy | components/DashboardStats.tsx |
| `ImageGenerator` | image_generator.dfy | components/ImageGenerator.tsx |
| `ListingOptimizer` | listing_optimizer.dfy | components/ListingOptimizer.tsx |
| `LaunchPlanner` | launch_planner.dfy | components/LaunchPlanner.tsx |
| `VideoStudio` | video_studio.dfy | components/VideoStudio.tsx |

Every call to the AI SDK is a function-typed parameter (an oracle). It maps the request the code builds to either a response or a thrown message:

- `TextCall` serves the text models;
- `ImageCall` serves the image model;
- `SubmitCall` and `PollCall` serve the video operation.

`JSON.parse` together with the TypeScript type assertion is a partial function `parse: string -> Option<T>`. The key the service reads from `process.env.API_KEY` is a parameter. A React component is a class whose fields are its `useState` variables, and each handler is a method. The awaits inside a handler are taken in sequence.

## Model

| member | source | states |
|---|---|---|
| Types.LanguageName | types.ts:2 | each market language has a name that parses back to it |
| Types.CompetitionLabel | types.ts:7 | each competition level's label parses back to the level |
| Types.IntentLabel | types.ts:9 | each intent's label parses back to the intent |
| Types.TierLabel | types.ts:10 | each tier's label ("Tier 1 (Head)", "Tier 2 (Middle)", "Tier 3 (Long-tail)") parses back to the tier |
| Types.ParseOnlyLabels | types.ts:7-10 | a union string is accepted only if it is exactly one of the declared labels |
| Types.OrZero | components/KeywordTable.tsx:19-21 | `n \|\| 0` on a number field: the number when present, 0 when missing |
| Types.Typed | types.ts:4-11 | a reference reading of the declared interface, which the code itself never checks (its type assertion is unchecked and the 0-100 scale is only a comment): a raw record conforms when every union field is a label, both numbers are present and the volume is within 0-100, and the typed record converts back to the same raw one |
| Types.TypedUntyped | types.ts:4-11 | every record that conforms to the declared interface, with an in-scale volume, is recovered from its raw form |
| Types.Size | types.ts:55-59 | a campaign tree has at least one node more than its root has children |
| Types.LeafIffSingleNode | types.ts:55-59 | a node without children is exactly a tree of one node |
| GeminiService.JsonStart | services/geminiService.ts:13-21 | the start is -1 exactly when the text has no `{` or `[`; otherwise it is the first opening bracket of either kind |
| GeminiService.JsonEnd | services/geminiService.ts:25-27 | the end is -1 exactly when the text has no `}` or `]`; otherwise it is the last closing bracket of either kind |
| GeminiService.JsonSpan | services/geminiService.ts:29 | no span exactly when there is no opener; otherwise the text from the first opener to the last closer, or, when the last closer comes first, the text between them with the bounds swapped as `substring` does |
| GeminiService.StripControl | services/geminiService.ts:30 | the cleaned text keeps no character in U+0000-U+001F or U+007F-U+009F and is never longer; with StripControlChar and StripControlAppend it is exactly the deletion of those characters |
| GeminiService.StripControlAppend | services/geminiService.ts:30 | control characters are removed from each part independently |
| GeminiService.StripControlKeepsClean | services/geminiService.ts:30 | a text without control characters is left unchanged |
| GeminiService.StripControlIdempotent | services/geminiService.ts:30 | cleaning twice is cleaning once |
| GeminiService.StripControlChar | services/geminiService.ts:30 | a single control character is deleted, not replaced; any other character is kept |
| GeminiService.StripControlAt | services/geminiService.ts:30 | a control character anywhere in the text is deleted with nothing in its place, and any other character stays between the cleaned text before it and after it |
| GeminiService.ExtractJson | services/geminiService.ts:10-36 | every failure reports the one formatting message; a text with no bracket structure fails; a success is exactly the parse of the cleaned span, and a cleaned span that parses always succeeds with that value |
| GeminiService.ExtractJsonNoStructure | services/geminiService.ts:23 | a reply without `{` or `[` is rejected with the formatting message |
| GeminiService.ExtractJsonFromProse | services/geminiService.ts:10-31 | a JSON body wrapped in prose without brackets is cut out and parsed exactly |
| GeminiService.ExtractJsonClean | services/geminiService.ts:10-31 | a bare JSON text without control characters is parsed as it is |
| GeminiService.SpanInProse | services/geminiService.ts:13-29 | the span taken from prose + body + prose is the body |
| GeminiService.GroundingSources | services/geminiService.ts:54-55 | the sources list has at most one entry per grounding chunk |
| GeminiService.GroundingSourcesAppend | services/geminiService.ts:55 | the chunk-to-source mapping keeps order |
| GeminiService.GroundingSourcesAllWeb | services/geminiService.ts:55 | when every chunk is a web chunk, each one becomes a source with its title and URI |
| GeminiService.GroundingSourcesNoWeb | services/geminiService.ts:55 | chunks without web data give no sources |
| GeminiService.GenerateKeywords | services/geminiService.ts:41-58 | the flash model is asked with the seed and language; a thrown call is passed on; a success happens exactly when extraction succeeds, and then the keywords are the extracted JSON and the sources come from the grounding chunks |
| GeminiService.GenerateListingContent | services/geminiService.ts:115-125 | the flash model is asked with the description, keywords and language; the listing is the extracted JSON |
| GeminiService.GenerateLaunchPlan | services/geminiService.ts:130-177 | the pro model is asked with title, description, keywords and language; an empty reply is rejected before extraction |
| GeminiService.AspectRatio | services/geminiService.ts:75 | 16:9 exactly for wide images, 1:1 exactly otherwise |
| GeminiService.ImageRequestFor | services/geminiService.ts:65-79 | the image model gets the reference inline, the prompt followed by the fixed style sentence, the aspect ratio and 2K output |
| GeminiService.FirstInline | services/geminiService.ts:81 | `parts.find(p => p.inlineData)`; characterised by FirstInlineIsFirst |
| GeminiService.FirstInlineIsFirst | services/geminiService.ts:81 | the image part found is the first part carrying inline data; none is found only when no part has any |
| GeminiService.GenerateSingleImage | services/geminiService.ts:63-84 | a reply without an inline image throws "No image returned"; otherwise the result is a PNG data URL of the first inline payload |
| GeminiService.ScenePrompt | services/geminiService.ts:101 | a non-empty custom prompt for the scene id wins; otherwise the scene's own fragment is used |
| GeminiService.SceneAttempt | services/geminiService.ts:101-102 | the one image call of a scene, with the product description and the scene prompt; its outcome decides SceneUrl and Successes |
| GeminiService.SceneUrl | services/geminiService.ts:100-107 | the image URL on success, the empty string on failure; see SceneUrlEmptyIffFailed |
| GeminiService.SceneUrlEmptyIffFailed | services/geminiService.ts:100-107 | a scene's URL is empty exactly when its image call failed |
| GeminiService.SceneResults | services/geminiService.ts:98-109 | one result per scene |
| GeminiService.SceneResultsAt | services/geminiService.ts:99-107 | result i carries scene i's id and that scene's URL |
| GeminiService.ProducedIsSuccesses | services/geminiService.ts:103-104 | the number of non-empty URLs equals the number of successful calls (each followed by a one-second pause) |
| GeminiService.GenerateSceneImages | services/geminiService.ts:89-110 | the loop returns exactly the per-scene results and pauses once per success |
| GeminiService.VideoRequestFor | services/geminiService.ts:186-195 | only the first reference image is attached, and none when the list is empty |
| GeminiService.PollErrorMessage | services/geminiService.ts:205-206 | the prefix followed by the operation's message, or by the unknown-error text when the message is missing or empty |
| GeminiService.PollLoop | services/geminiService.ts:197-208 | at most 60 polls; a finished job is not polled; a job still running after the loop has used all 60; a polled error stops the loop |
| GeminiService.FinishVideo | services/geminiService.ts:210-223 | success exactly when done, error-free and with a link; the URL is the link plus `&key=`; an unfinished job reports the timeout |
| GeminiService.RewrapPermission | services/geminiService.ts:224-229 | messages mentioning "403" or "permission" become the billing message; others pass unchanged |
| GeminiService.VideoOutcome | services/geminiService.ts:182-231 | the outcome and poll count of a video job: at most 60 polls, and a failed submission is rewrapped with no poll made; VideoDoneAtSubmit, VideoTimesOut and VideoEarlyError pin the other paths |
| GeminiService.GenerateMarketingVideo | services/geminiService.ts:182-231 | the polling loop computes the outcome function; it polls at most 60 times; a success is a non-empty link followed by `&key=` |
| GeminiService.TimeoutNotRewrapped | services/geminiService.ts:212-214 | the timeout message survives the catch block |
| GeminiService.VideoDoneAtSubmit | services/geminiService.ts:197 | a job done at submission is never polled |
| GeminiService.VideoTimesOut | services/geminiService.ts:197-214 | a job that never finishes is polled 60 times and reports the timeout |
| GeminiService.VideoEarlyError | services/geminiService.ts:197-206 | an error on poll k stops the job after k + 1 polls with a failure |
| App.StoreKeys | App.tsx:43-47 | both keys are written under their names, and every other stored entry is kept |
| App.LoadKeys | App.tsx:21-24 | each key is the stored value under its name, or empty when nothing is stored |
| App.KeysRoundTrip | App.tsx:21-24 | keys written to storage are the keys read back at the next start |
| App.KeywordTexts | App.tsx:55 | the context keywords are the result rows' keyword texts, in order |
| App.SearchError | App.tsx:57 | a failed search always shows a non-empty message, the error's own when it has one |
| App.Session.constructor | App.tsx:19-41 | English, keys from storage, empty search, no sources, the initial product context |
| App.Session.SetLanguage | App.tsx:99 | the market language changes; nothing else does |
| App.Session.SaveKeys | App.tsx:43-47 | the held keys become the saved keys; storage holds them; the session invariant holds |
| App.Session.BeginSearch | App.tsx:50 | loading, no error and the new seed; the rows stay |
| App.Session.FinishSearch | App.tsx:53-57 | success replaces rows, sources and context keywords; failure sets only the error |
| App.Session.HandleSearch | App.tsx:49-59 | the whole search in the session's language: loading ends, and the outcome of the keyword call decides rows, sources, context and error |
| App.Session.HandleContentUpdate | App.tsx:61-63 | title, description and image replace the context's, and it is marked as generated; the keywords stay |
| KeywordTable.ClassifyTierCases | components/KeywordTable.tsx:57-61 | head exactly when the lower-cased tier contains "tier 1"; middle exactly when it contains "tier 2" but not "tier 1"; long-tail otherwise |
| KeywordTable.ClassifyTierLabel | components/KeywordTable.tsx:57-61 | each declared tier label lands in its own bucket |
| KeywordTable.ClassifyTierCaseInsensitive | components/KeywordTable.tsx:57 | bucketing does not depend on the casing of the tier |
| KeywordTable.ClassifyTier | components/KeywordTable.tsx:57-61 | the bucket of a tier string; characterised by ClassifyTierCases |
| KeywordTable.BucketMembers | components/KeywordTable.tsx:53-62 | a bucket holds only present records of its tier |
| KeywordTable.BucketsPartition | components/KeywordTable.tsx:53-62 | the three buckets together hold every present record exactly once |
| KeywordTable.GroupByTier | components/KeywordTable.tsx:44-65 | no data gives three empty buckets; otherwise the loop fills each bucket with its tier's records in input order |
| KeywordTable.CsvCells | components/KeywordTable.tsx:16-23 | six cells; a present tier, competition and intent is written as it is and a missing one reads "N/A"; a present number is written as its text and a missing one as 0; the keyword is quoted |
| KeywordTable.CsvRow | components/KeywordTable.tsx:24 | the record's cells joined by commas, starting with the tier cell |
| KeywordTable.CsvRows | components/KeywordTable.tsx:14-23 | one row per present record, in order |
| KeywordTable.CsvText | components/KeywordTable.tsx:11-24 | no export for missing or empty data |
| KeywordTable.CsvLines | components/KeywordTable.tsx:24 | the exported text has the data-URL prefix, then the header line and one line per present record |
| KeywordTable.CopyLine | components/KeywordTable.tsx:38 | a copied line is the keyword followed by the tier in parentheses, "N/A" when the tier is missing |
| KeywordTable.CopyLines | components/KeywordTable.tsx:36-38 | at most one line per entry; pinned by CopyLinesOne and CopyLinesAppend |
| KeywordTable.CopyLinesOne | components/KeywordTable.tsx:36-38 | a single entry is copied exactly when it is present and has a keyword |
| KeywordTable.CopyLinesAppend | components/KeywordTable.tsx:36-38 | the lines of two lists are the lines of each, in order |
| KeywordTable.CopyLinesComplete | components/KeywordTable.tsx:36-38 | every present entry with a keyword is copied, after the lines of the entries before it |
| KeywordTable.CopyLinesSkipBlank | components/KeywordTable.tsx:36-39 | records without a keyword are not copied |
| KeywordTable.CopyLinesStartWithKeyword | components/KeywordTable.tsx:36-38 | every copied line is the line of a present entry with a non-empty keyword; with CopyLinesComplete, the copied lines are exactly those of such entries |
| KeywordTable.ClipboardText | components/KeywordTable.tsx:34-39 | nothing is copied without data |
| KeywordTable.ClipboardSplit | components/KeywordTable.tsx:36-39 | splitting the copied text at line breaks gives back the lines |
| KeywordTable.CompetitionColorCaseInsensitive | components/KeywordTable.tsx:69 | the badge does not depend on the casing |
| KeywordTable.CompetitionColorLabels | components/KeywordTable.tsx:70-72 | Low, Medium and High get the green, yellow and red badges |
| KeywordTable.CompetitionColorDefault | components/KeywordTable.tsx:68-73 | everything else gets the grey badge |
| KeywordTable.CompetitionColor | components/KeywordTable.tsx:67-75 | the competition badge; characterised by CompetitionColorLabels, CompetitionColorDefault and CompetitionColorCaseInsensitive |
| KeywordTable.VolumeIcon | components/KeywordTable.tsx:77-81 | up exactly above 75, down exactly below 25, flat in between |
| KeywordTable.VolumeIconMonotone | components/KeywordTable.tsx:77-81 | a larger volume never shows a lower trend |
| KeywordTable.MissingVolumeIsDown | components/KeywordTable.tsx:128 | a missing volume is shown as trending down |
| DashboardStats.SortByVolume | components/DashboardStats.tsx:15-16 | the sorted copy is a permutation of the data |
| DashboardStats.SortByVolumeSorted | components/DashboardStats.tsx:16 | the copy is in descending order of volume |
| DashboardStats.ChartData | components/DashboardStats.tsx:15-17 | min(8, n) bars |
| DashboardStats.ChartDataTop | components/DashboardStats.tsx:15-17 | the bars are a descending sub-multiset of the data, and no keyword left out has a larger volume than a keyword shown |
| DashboardStats.BarColor | components/DashboardStats.tsx:19-26 | one of the four bar colours; which one is fixed by BarColorLabels, BarColorDefault and BarColorCaseInsensitive |
| DashboardStats.BarColorCaseInsensitive | components/DashboardStats.tsx:20 | the bar colour does not depend on the casing |
| DashboardStats.BarColorLabels | components/DashboardStats.tsx:21-23 | High, Medium and Low get red, yellow and green bars |
| DashboardStats.BarColorDefault | components/DashboardStats.tsx:24 | a bar is grey exactly when the lower-cased value is none of the three levels |
| DashboardStats.TickLabel | components/DashboardStats.tsx:53 | labels of up to 15 characters are kept; longer ones keep their first 15 characters followed by "..." |
| DashboardStats.TickLabelIdempotent | components/DashboardStats.tsx:53 | formatting a tick twice changes nothing |
| DashboardStats.HighEntries | components/DashboardStats.tsx:28 | only records of the data marked exactly "High" are kept, never more than the data holds |
| DashboardStats.HighCompCount | components/DashboardStats.tsx:28 | the count never exceeds the number of records |
| DashboardStats.HighCompCountIndices | components/DashboardStats.tsx:28 | the count is the number of positions marked exactly "High", so a repeated record counts once per occurrence |
| DashboardStats.HighEntriesComplete | components/DashboardStats.tsx:28 | every record marked exactly "High" is counted |
| DashboardStats.HighCompCountAll | components/DashboardStats.tsx:28 | the count equals the number of records exactly when all are marked "High" |
| DashboardStats.HighCountIsCaseSensitive | components/DashboardStats.tsx:20-28 | "high" in another casing is drawn red but not counted |
| DashboardStats.SourcesPanelFor | components/DashboardStats.tsx:90-108 | no panel without sources; with more than three, the first three are listed and the others count is the number beyond three; otherwise all are listed and there is no others count |
| DashboardStats.SourcesPanelAccounts | components/DashboardStats.tsx:94-107 | listed plus others is the number of sources |
| DashboardStats.Render | components/DashboardStats.tsx:12-108 | nothing for empty data; otherwise the bars are ChartData, each bar's tick is TickLabel of its keyword and its colour BarColor of its competition, the count is HighCompCount over the total, and the panel is SourcesPanelFor |
| ImageGenerator.MainCatalogIds | components/ImageGenerator.tsx:7-14 | the main catalog has ids 1-6, all distinct |
| ImageGenerator.AplusCatalogIds | components/ImageGenerator.tsx:16-24 | the A+ catalog has ids 101-107, all distinct |
| ImageGenerator.Placeholders | components/ImageGenerator.tsx:41-42 | one empty, idle slot per catalog scene, in catalog order |
| ImageGenerator.MarkAll | components/ImageGenerator.tsx:71-72 | every slot takes the loading flag; nothing else changes |
| ImageGenerator.FindResult | components/ImageGenerator.tsx:88 | the result found has the id; none is found only when no result has it |
| ImageGenerator.KeepUnlessEmpty | components/ImageGenerator.tsx:88 | `url \|\| previous`: a non-empty URL replaces the old image, an empty one keeps it |
| ImageGenerator.MergeBatch | components/ImageGenerator.tsx:85-89 | each slot stops loading and takes its result's URL unless that URL is missing or empty |
| ImageGenerator.BatchUrl | components/ImageGenerator.tsx:88 | a slot with no result keeps its URL; a changed URL is the non-empty URL of a result with the slot's id; a slot that had an image never loses it |
| ImageGenerator.MergeSceneBatch | components/ImageGenerator.tsx:82-90 | after a batch, slot i shows scene i's new image when its call succeeded and keeps its old one otherwise |
| ImageGenerator.MarkId | components/ImageGenerator.tsx:123 | only the slot with the id changes its loading flag |
| ImageGenerator.UpdateId | components/ImageGenerator.tsx:130 | only the slot with the id stops loading and takes a non-empty URL |
| ImageGenerator.KeyedUpdates | components/ImageGenerator.tsx:71-136 | every update keeps the slots following their catalog |
| ImageGenerator.FindScene | components/ImageGenerator.tsx:118 | the scene found has the id; none is found only when no scene has it |
| ImageGenerator.RegenIgnoresCustomPrompt | components/ImageGenerator.tsx:119-127 | a single regeneration sends the catalog fragment even when a custom prompt was typed for that scene |
| ImageGenerator.RegenUrl | components/ImageGenerator.tsx:118-130 | an id absent from the catalog gives the empty URL (the service throws on the missing scene and the slot treats it as a failed call); a non-empty URL is the image call's result for the catalog scene with that id, sent with an empty prompt map |
| ImageGenerator.RegenSlot | components/ImageGenerator.tsx:121-137 | the slot is regenerated from its scene alone, and the list keeps following the catalog |
| ImageGenerator.Workbench.constructor | components/ImageGenerator.tsx:35-46 | both catalogs as empty slots, no listing, no custom prompts |
| ImageGenerator.Workbench.SetDescription | components/ImageGenerator.tsx:220 | the description changes; nothing else does |
| ImageGenerator.Workbench.RemoveUploadedImage | components/ImageGenerator.tsx:210 | the upload is dropped and nothing else changes, so the batch cannot start |
| ImageGenerator.Workbench.SetCustomPrompt | components/ImageGenerator.tsx:46 | the custom prompt map takes the entry for that id |
| ImageGenerator.Workbench.HandleFileChange | components/ImageGenerator.tsx:49-63 | files over 5 MB set the size error; other files replace the image and type and clear the error |
| ImageGenerator.Workbench.StartBatch | components/ImageGenerator.tsx:68-73 | generating, with every slot loading |
| ImageGenerator.Workbench.FailBatch | components/ImageGenerator.tsx:104-111 | generation ends with the quota message and every slot idle |
| ImageGenerator.Workbench.ApplyMainBatch | components/ImageGenerator.tsx:83-90 | the main slots take the batch merge; nothing else changes |
| ImageGenerator.Workbench.ApplyAplusBatch | components/ImageGenerator.tsx:94-102 | the A+ slots take the batch merge and generation ends |
| ImageGenerator.Workbench.RenderCatalogs | components/ImageGenerator.tsx:82-102 | the main catalog is rendered square and merged, then the A+ catalog wide, and generation ends |
| ImageGenerator.Workbench.PublishAndRender | components/ImageGenerator.tsx:78-102 | the listing is kept and published to the shared context, then both catalogs are rendered |
| ImageGenerator.Workbench.HandleGenerate | components/ImageGenerator.tsx:65-113 | nothing without an image and a non-blank description (`CanGenerate`, :66, built on `HasImage`: a missing or empty image counts as none); a failed listing call leaves every slot idle with the quota message; otherwise the listing is published and both batches are merged into the slots |
| ImageGenerator.Workbench.HandleRegenSingle | components/ImageGenerator.tsx:115-139 | nothing without an image (`HasImage`, :116); otherwise only the slot with the id, in the chosen catalog, is regenerated, and it takes `RegenUrl` unless that is empty |
| ListingOptimizer.KeywordsToUse | components/ListingOptimizer.tsx:21 | the first five seed keywords, or all of them when there are fewer |
| ListingOptimizer.KeywordsToUseIdempotent | components/ListingOptimizer.tsx:21 | taking the first five twice takes the same five |
| ListingOptimizer.WithTitle | components/ListingOptimizer.tsx:31 | a title edit replaces the title and keeps the bullets; there is nothing to edit without a result |
| ListingOptimizer.WithBullet | components/ListingOptimizer.tsx:33-40 | a bullet edit changes only that index and keeps the length, the other bullets and the title |
| ListingOptimizer.BulletEditsCommute | components/ListingOptimizer.tsx:33-40 | edits of different bullets commute |
| ListingOptimizer.TitleEditKeepsBullets | components/ListingOptimizer.tsx:31 | a title edit keeps a complete set of five bullets |
| ListingOptimizer.Optimizer.constructor | components/ListingOptimizer.tsx:12-14 | empty description, not loading, no result |
| ListingOptimizer.Optimizer.SetDescription | components/ListingOptimizer.tsx:55 | the description changes; nothing else does |
| ListingOptimizer.Optimizer.HandleGenerate | components/ListingOptimizer.tsx:16-29 | nothing for a blank description; otherwise loading ends, success replaces the result and failure keeps it |
| ListingOptimizer.Optimizer.FinishGenerate | components/ListingOptimizer.tsx:22-28 | success replaces the result, failure keeps it, and loading ends |
| ListingOptimizer.Optimizer.HandleTitleChange | components/ListingOptimizer.tsx:31 | the result becomes the title edit |
| ListingOptimizer.Optimizer.HandleBulletChange | components/ListingOptimizer.tsx:33-40 | the result becomes the bullet edit |
| LaunchPlanner.NodeLabel | components/LaunchPlanner.tsx:38 | a node's label is never empty; it is the name when there is one |
| LaunchPlanner.ShownBudget | components/LaunchPlanner.tsx:43-44 | a budget is shown exactly when it is present and non-empty |
| LaunchPlanner.RowFor | components/LaunchPlanner.tsx:22-45 | a node's row has its level, its label, its budget when shown and whether it has children |
| LaunchPlanner.Rows | components/LaunchPlanner.tsx:17-59 | one row per tree node; the node's own row comes first; no row sits above the node's level |
| LaunchPlanner.ChildRows | components/LaunchPlanner.tsx:50-55 | the children's rows sit strictly deeper than the parent |
| LaunchPlanner.ChildRowsPrefix | components/LaunchPlanner.tsx:52-54 | children are drawn in order |
| LaunchPlanner.ChildRowAt | components/LaunchPlanner.tsx:50-55 | among the children's rows, child k's own row follows the subtrees of the earlier children, one level deeper |
| LaunchPlanner.ChildOneLevelDeeper | components/LaunchPlanner.tsx:52-54 | child k is drawn at its parent's level + 1, right after the subtrees of the earlier children |
| LaunchPlanner.LeafIsOneRow | components/LaunchPlanner.tsx:33-56 | a node without children is a single row |
| LaunchPlanner.MindMap | components/LaunchPlanner.tsx:204 | no tree, no rows; otherwise one row per node with the root at level 0 |
| LaunchPlanner.Planner.constructor | components/LaunchPlanner.tsx:62-64 | not loading, no plan and no tree |
| LaunchPlanner.Planner.FinishPlan | components/LaunchPlanner.tsx:76-82 | success replaces plan and tree; failure keeps both and alerts the message; loading ends either way |
| LaunchPlanner.Planner.HandleGenerate | components/LaunchPlanner.tsx:66-83 | nothing happens before listing content exists; otherwise the context's title, description and keywords go unchanged to the planner in the session language |
| VideoStudio.WithoutId | components/VideoStudio.tsx:60-62 | the removal never lengthens the list; with WithoutIdMembers, KeepsOthers and Append it is exactly the filter |
| VideoStudio.WithoutIdKeepsOthers | components/VideoStudio.tsx:61 | every image with another id survives the removal |
| VideoStudio.WithoutIdAppend | components/VideoStudio.tsx:61 | removal works piece by piece, so the survivors keep their order |
| VideoStudio.WithoutIdAbsent | components/VideoStudio.tsx:61 | removing an id nobody carries changes nothing |
| VideoStudio.WithoutIdIdempotent | components/VideoStudio.tsx:61 | removing an id twice is removing it once |
| VideoStudio.RemoveUndoesUpload | components/VideoStudio.tsx:49-61 | deleting a freshly appended image with a new id restores the list |
| VideoStudio.WithoutIdMembers | components/VideoStudio.tsx:61 | only images of the list survive, and none of them carries the id removed |
| VideoStudio.Blank | components/VideoStudio.tsx:65 | generation is refused exactly when both the description and the script are blank after trimming |
| VideoStudio.CombinedPrompt | components/VideoStudio.tsx:77-81 | the three-line prompt; characterised by CombinedPromptIsTrimmedTemplate and CombinedPromptCarriesInputs |
| VideoStudio.CombinedPromptIsTrimmedTemplate | components/VideoStudio.tsx:77-81 | the prompt sent is the trimmed template: the surrounding blanks go, the inputs stay whole |
| VideoStudio.CombinedPromptCarriesInputs | components/VideoStudio.tsx:77-81 | both the description and the creative script reach the request |
| VideoStudio.InlineImages | components/VideoStudio.tsx:83 | one payload per reference image, in list order, without ids |
| VideoStudio.OnlyFirstImageSent | components/VideoStudio.tsx:83-84 | all images are handed over, but only the first reaches the video request |
| VideoStudio.PlayerSrc | components/VideoStudio.tsx:207 | the player's address, the URL followed by `&key=` and the key; see PlayerSrcRepeatsKey |
| VideoStudio.PlayerSrcRepeatsKey | components/VideoStudio.tsx:207 | a successful job's URL already ends in the key, so the player's address carries `&key=` twice |
| VideoStudio.Studio.constructor | components/VideoStudio.tsx:18-25 | no images, no description, idle with the default prompt |
| VideoStudio.Studio.SeedFromContext | components/VideoStudio.tsx:30-41 | when the context image is present and non-empty (`Truthy`, :31), it becomes the only image, with id "context-main", and only when the list is empty; the context description is copied only when none was entered |
| VideoStudio.Studio.SetDescription | components/VideoStudio.tsx:153 | the description changes; nothing else does |
| VideoStudio.Studio.SetPrompt | components/VideoStudio.tsx:167 | the script changes; nothing else does |
| VideoStudio.Studio.HandleFileUpload | components/VideoStudio.tsx:43-58 | a chosen file is appended only while fewer than three images are held |
| VideoStudio.Studio.RemoveImage | components/VideoStudio.tsx:60-62 | the list becomes the removal of that id, and never holds more than three images |
| VideoStudio.Studio.FinishGeneration | components/VideoStudio.tsx:85-89 | success sets the URL; failure sets the fixed message; generation ends either way |
| VideoStudio.Studio.HandleGenerateVideo | components/VideoStudio.tsx:64-90 | blank description and script give the input error and no call; otherwise the combined prompt and the images go to the video job, which ends with its URL and no error, or with no URL and the fixed message |

## Left out

- Network, SDK and browser effects are parameters or left out: `FileReader` loading, `navigator.clipboard`, `alert` (modelled only as a recorded message in the launch planner), `console.error` logging (services/geminiService.ts:33, components/VideoStudio.tsx:87), `document` link creation, `window.aistudio` key selection, the lightbox, the bulk download button and `setTimeout` delays (the scene batch counts its one-second pauses; the video poll's ten-second waits are not counted).
- The wording of the three long text prompts (keyword, listing and launch plan) is not reproduced. The requests carry the interpolated values: model, seed or description, keywords, language. The image, scene and video prompts are reproduced exactly.
- `encodeURI` on the CSV data URL is not modelled. The text before encoding is.
- Base.ToLower: lower-cases ASCII letters only, not the full Unicode case mapping of `toLowerCase`.
- Base.Trim: string lengths and indices count Dafny characters, not JavaScript UTF-16 code units.
- DashboardStats.ChartData and DashboardStats.Render require every volume to be present; Render inherits the restriction through its call to ChartData, although the component renders such data with only the bar order left undefined (the count, the sources panel and each bar's tick and colour do not depend on it). With a missing volume the comparator returns NaN and the sort order is implementation-defined.
- DashboardStats.SortByVolume: the insertion keeps equal volumes in input order, as a stable sort does, but no lemma states stability.
- The dashboard's average CPC (components/DashboardStats.tsx:29) is not modelled: it is floating-point division formatted with `toFixed`.
- KeywordTable.CsvCells takes number formatting as a parameter (`numText`), because JavaScript number-to-string conversion is not modelled.
- ListingOptimizer.WithBullet requires the index to be within the bullets. The editor only offers existing bullets; an out-of-range index would make JavaScript extend the array with holes.
- The listing panel of the image generator is not modelled: the title and bullets it shows, the `等待生成...` placeholder for missing ones and their copy buttons (components/ImageGenerator.tsx:249,258). Scene labels are carried into each slot's caption, but their drawing is not modelled.
- The launch plan's phase cards and the `ppcDetail`, `cpc` and `strategy` fields they read are not modelled. They are not part of the declared types (types.ts:47-59).
- The mind map's per-node expand/collapse toggle is not modelled. `LaunchPlanner.Rows` is the initial view, where every node is expanded.
- The `LaunchPlanState` interface (types.ts:61-66) is declared but not used by the component, which keeps separate `useState` variables. The model follows the component.
- The keys entered in settings are stored, but the service reads its key from the environment, so they never reach a call. The model passes the environment key as a parameter. The settings dialog, custom services and search bar components are not part of this model.
- Concurrency is not modelled. Neither are React's batching of updates and interleavings between overlapping handlers. For example, two uploads read before either finishes could both pass the three-image check.
- DashboardStats.BarColor and DashboardStats.TickLabel: a missing `competition` or `keyword` reads as the empty string, so the model draws a grey bar or an empty tick. The component calls `toLowerCase` and reads `length` on those fields without a fallback (components/DashboardStats.tsx:20,53), so such a record among the top eight makes the render throw.
- App.Session.FinishSearch: only replies that `parse` accepts as a list of keyword records reach it. A reply that is valid JSON of another shape, or a list holding `null`, makes the source replace the rows and sources first and then throw in `map(k => k.keyword)` (App.tsx:53-55), showing the TypeError's message. The model cannot produce that state, in which the context keywords no longer match the rows.
- LaunchPlanner.Rows: a `null` child in the campaign tree, which the component skips (components/LaunchPlanner.tsx:19), cannot be represented.
- ImageGenerator.Workbench.HandleRegenSingle models the call as written: the per-scene map lands in the `apiKey` argument, so the custom prompt never reaches the request (see ImageGenerator.RegenIgnoresCustomPrompt). The model does not correct this.
