/**
 * The application shell: the keyword search session, the product context shared
 * by the tabs, the chosen market language, and the two API keys persisted in
 * browser storage (a key-to-value map here).
 */
module App {
  import opened Base
  import opened Types
  import opened GeminiService

  /** The two user-entered keys: one for text and image calls, one for video. */
  datatype ApiKeys = ApiKeys(gemini: string, veo: string)

  const GeminiKeyName := "gemini_key"
  const VeoKeyName := "veo_key"

  /** Shown when a failed search carries no message of its own. */
  const SearchFailedMessage := "获取数据时发生意外错误。"

  const InitialSearch := SearchState(false, None, [], "")

  /** Empty title, description and keywords, nothing generated yet, no image, PNG. */
  const InitialContext := ProductContext("", "", [], false, None, "image/png")

  /** `localStorage.getItem(name) || ''`. */
  function StoredKey(storage: map<string, string>, name: string): string
  {
    if name in storage then storage[name] else ""
  }

  /** The keys read at start-up; a name missing from storage reads as the empty key. */
  function LoadKeys(storage: map<string, string>): (keys: ApiKeys)
    ensures GeminiKeyName in storage ==> keys.gemini == storage[GeminiKeyName]
    ensures GeminiKeyName !in storage ==> keys.gemini == ""
    ensures VeoKeyName in storage ==> keys.veo == storage[VeoKeyName]
    ensures VeoKeyName !in storage ==> keys.veo == ""
  {
    ApiKeys(StoredKey(storage, GeminiKeyName), StoredKey(storage, VeoKeyName))
  }

  /** The storage after both keys are written under their names. */
  function StoreKeys(storage: map<string, string>, keys: ApiKeys): (s: map<string, string>)
    ensures s.Keys == storage.Keys + {GeminiKeyName, VeoKeyName}
    ensures forall name :: name in storage && name != GeminiKeyName && name != VeoKeyName ==> s[name] == storage[name]
  {
    storage[GeminiKeyName := keys.gemini][VeoKeyName := keys.veo]
  }

  /** Keys written to storage are the keys read back from it. */
  lemma KeysRoundTrip(storage: map<string, string>, keys: ApiKeys)
    ensures LoadKeys(StoreKeys(storage, keys)) == keys
  {
    assert GeminiKeyName != VeoKeyName;
  }

  /** The keyword texts of the result rows, in order. */
  function KeywordTexts(data: seq<KeywordData>): (ks: seq<string>)
    ensures |ks| == |data|
    ensures forall i :: 0 <= i < |data| ==> ks[i] == data[i].keyword
  {
    seq(|data|, i requires 0 <= i < |data| => data[i].keyword)
  }

  /** The message a failed search shows: the error's own, or the fallback when it is empty. */
  function SearchError(message: string): (shown: string)
    ensures shown != ""
    ensures message != "" ==> shown == message
  {
    OrElse(message, SearchFailedMessage)
  }

  class Session {
    var language: Language
    var apiKeys: ApiKeys
    var state: SearchState
    var sources: seq<GroundingSource>
    var productContext: ProductContext
    var storage: map<string, string>

    /**
     * The session's invariant: the context's keywords are the texts of the
     * table rows, and the keys held are the keys stored.
     */
    predicate Valid()
      reads this
    {
      productContext.keywords == KeywordTexts(state.data)
      && apiKeys == LoadKeys(storage)
    }

    /** The first render: keys come from storage, everything else starts empty. */
    constructor(browserStorage: map<string, string>)
      ensures Valid()
      ensures language == English && apiKeys == LoadKeys(browserStorage)
      ensures state == InitialSearch && sources == [] && productContext == InitialContext
      ensures storage == browserStorage
    {
      language := English;
      apiKeys := LoadKeys(browserStorage);
      state := InitialSearch;
      sources := [];
      productContext := InitialContext;
      storage := browserStorage;
    }

    method SetLanguage(l: Language)
      requires Valid()
      modifies this
      ensures Valid()
      ensures language == l
      ensures apiKeys == old(apiKeys) && state == old(state) && sources == old(sources)
      ensures productContext == old(productContext) && storage == old(storage)
    {
      language := l;
    }

    /** saveKeys: the held keys become the saved ones and both are written to storage. */
    method SaveKeys(keys: ApiKeys)
      requires Valid()
      modifies this
      ensures Valid()
      ensures apiKeys == keys && storage == StoreKeys(old(storage), keys)
      ensures language == old(language) && state == old(state) && sources == old(sources)
      ensures productContext == old(productContext)
    {
      apiKeys := keys;
      storage := StoreKeys(storage, keys);
      KeysRoundTrip(old(storage), keys);
    }

    /** The first update of handleSearch: loading, no error, the new seed; the rows stay. */
    method BeginSearch(term: string)
      requires Valid()
      modifies this
      ensures Valid()
      ensures state == old(state).(isLoading := true, error := None, seedKeyword := term)
      ensures language == old(language) && apiKeys == old(apiKeys) && sources == old(sources)
      ensures productContext == old(productContext) && storage == old(storage)
    {
      state := state.(isLoading := true, error := None, seedKeyword := term);
    }

    /**
     * The updates after the keyword call: on success the rows, the sources and
     * the context's keywords are replaced; on failure only the error is set.
     */
    method FinishSearch(outcome: Result<KeywordResult, string>)
      requires Valid()
      modifies this
      ensures Valid()
      ensures !state.isLoading && state.seedKeyword == old(state.seedKeyword)
      ensures outcome.Ok? ==> state.data == outcome.value.keywords && state.error == old(state.error)
                              && sources == outcome.value.sources
                              && productContext == old(productContext).(keywords := KeywordTexts(outcome.value.keywords))
      ensures outcome.Err? ==> state.data == old(state.data) && state.error == Some(SearchError(outcome.error))
                               && sources == old(sources) && productContext == old(productContext)
      ensures language == old(language) && apiKeys == old(apiKeys) && storage == old(storage)
    {
      match outcome
      case Ok(result) =>
        state := state.(isLoading := false, data := result.keywords);
        sources := result.sources;
        productContext := productContext.(keywords := KeywordTexts(result.keywords));
      case Err(message) =>
        state := state.(isLoading := false, error := Some(SearchError(message)));
    }

    /**
     * handleSearch: the keyword call is made in the session's language (the
     * held key is passed along but not used by the service).
     */
    method HandleSearch(term: string, call: TextCall, parse: string -> Option<seq<KeywordData>>)
      requires Valid()
      modifies this
      ensures Valid()
      ensures !state.isLoading && state.seedKeyword == term
      ensures var r := GenerateKeywords(term, old(language), call, parse);
        && (r.Ok? ==> state.data == r.value.keywords && state.error == None && sources == r.value.sources
                      && productContext == old(productContext).(keywords := KeywordTexts(r.value.keywords)))
        && (r.Err? ==> state.data == old(state.data) && state.error == Some(SearchError(r.error))
                       && sources == old(sources) && productContext == old(productContext))
      ensures language == old(language) && apiKeys == old(apiKeys) && storage == old(storage)
    {
      BeginSearch(term);
      var result := GenerateKeywords(term, language, call, parse);
      FinishSearch(result);
    }

    /**
     * handleContentUpdate: the listing stage's title, description and image
     * replace the context's, which is then marked as generated; the keywords stay.
     */
    method HandleContentUpdate(title: string, description: string, uploadedImage: Option<string>, mimeType: string)
      requires Valid()
      modifies this
      ensures Valid()
      ensures productContext == ProductContext(title, description, old(productContext.keywords), true,
                                               uploadedImage, mimeType)
      ensures language == old(language) && apiKeys == old(apiKeys) && state == old(state)
      ensures sources == old(sources) && storage == old(storage)
    {
      productContext := productContext.(title := title, description := description, uploadedImage := uploadedImage,
                                        mimeType := mimeType, hasGeneratedContent := true);
    }
  }
}
