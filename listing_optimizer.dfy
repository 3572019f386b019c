/**
 * The stand-alone listing optimizer: a product description is turned into a
 * title and bullet points using the first few seed keywords, and the result can
 * then be edited field by field.
 */
module ListingOptimizer {
  import opened Base
  import opened Types
  import opened GeminiService

  /** How many seed keywords go into the request. */
  const KeywordsUsed: nat := 5

  /** `seedKeywords.slice(0, 5)`: the first five keywords, or all of them when there are fewer. */
  function KeywordsToUse(seedKeywords: seq<string>): (ks: seq<string>)
    ensures ks <= seedKeywords
    ensures |ks| == if |seedKeywords| < KeywordsUsed then |seedKeywords| else KeywordsUsed
  {
    if |seedKeywords| < KeywordsUsed then seedKeywords else seedKeywords[..KeywordsUsed]
  }

  /** Taking the first five twice takes the same five. */
  lemma KeywordsToUseIdempotent(seedKeywords: seq<string>)
    ensures KeywordsToUse(KeywordsToUse(seedKeywords)) == KeywordsToUse(seedKeywords)
  {
  }

  /** A title edit: the title is replaced and the bullets kept; nothing to edit without a result. */
  function WithTitle(result: Option<ListingContent>, title: string): (r: Option<ListingContent>)
    ensures r.Some? <==> result.Some?
    ensures r.Some? ==> r.value.title == title && r.value.bullets == result.value.bullets
  {
    match result
    case None => None
    case Some(content) => Some(content.(title := title))
  }

  /**
   * A bullet edit on a copy of the bullets: the given slot takes the new text
   * and every other slot, the length and the title are kept.
   */
  function WithBullet(result: Option<ListingContent>, index: nat, text: string): (r: Option<ListingContent>)
    requires result.Some? ==> index < |result.value.bullets|
    ensures r.Some? <==> result.Some?
    ensures r.Some? ==> r.value.title == result.value.title
    ensures r.Some? ==> |r.value.bullets| == |result.value.bullets| && r.value.bullets[index] == text
    ensures r.Some? ==> forall i :: 0 <= i < |r.value.bullets| && i != index ==>
                          r.value.bullets[i] == result.value.bullets[i]
  {
    match result
    case None => None
    case Some(content) => Some(content.(bullets := content.bullets[index := text]))
  }

  /** Edits of different bullets commute. */
  lemma BulletEditsCommute(result: Option<ListingContent>, i: nat, a: string, j: nat, b: string)
    requires result.Some? ==> i < |result.value.bullets| && j < |result.value.bullets|
    requires i != j
    ensures WithBullet(WithBullet(result, i, a), j, b) == WithBullet(WithBullet(result, j, b), i, a)
  {
    if result.Some? {
      var x, y := WithBullet(WithBullet(result, i, a), j, b).value, WithBullet(WithBullet(result, j, b), i, a).value;
      assert x.bullets == y.bullets;
    }
  }

  /** Editing the title never affects a complete set of five bullets. */
  lemma TitleEditKeepsBullets(result: Option<ListingContent>, title: string)
    requires result.Some? && HasAllBullets(result.value)
    ensures HasAllBullets(WithTitle(result, title).value)
  {
  }

  class Optimizer {
    var description: string
    var isLoading: bool
    var result: Option<ListingContent>

    constructor()
      ensures description == "" && !isLoading && result == None
    {
      description := "";
      isLoading := false;
      result := None;
    }

    method SetDescription(text: string)
      modifies this
      ensures description == text && isLoading == old(isLoading) && result == old(result)
    {
      description := text;
    }

    /**
     * handleGenerate: nothing happens for a blank description; otherwise one
     * request with the first five seed keywords. Success replaces the result,
     * failure keeps the previous one, and loading ends either way.
     */
    method HandleGenerate(language: Language, seedKeywords: seq<string>, call: TextCall,
                          parse: string -> Option<ListingContent>)
      modifies this
      ensures description == old(description)
      ensures Trim(old(description)) == "" ==> isLoading == old(isLoading) && result == old(result)
      ensures Trim(old(description)) != "" ==>
        var content := GenerateListingContent(old(description), KeywordsToUse(seedKeywords), language, call, parse);
        && !isLoading
        && (content.Ok? ==> result == Some(content.value))
        && (content.Err? ==> result == old(result))
    {
      if Trim(description) == "" {
        return;
      }
      isLoading := true;
      var keywordsToUse := KeywordsToUse(seedKeywords);
      var content := GenerateListingContent(description, keywordsToUse, language, call, parse);
      FinishGenerate(content);
    }

    /** The outcome of the request: a new result on success, the old one kept on failure. Loading ends. */
    method FinishGenerate(content: Result<ListingContent, string>)
      modifies this
      ensures description == old(description) && !isLoading
      ensures content.Ok? ==> result == Some(content.value)
      ensures content.Err? ==> result == old(result)
    {
      if content.Ok? {
        result := Some(content.value);
      }
      isLoading := false;
    }

    /** handleTitleChange. */
    method HandleTitleChange(title: string)
      modifies this
      ensures result == WithTitle(old(result), title)
      ensures description == old(description) && isLoading == old(isLoading)
    {
      result := WithTitle(result, title);
    }

    /** handleBulletChange: the bullets are copied and one slot of the copy is assigned. */
    method HandleBulletChange(index: nat, text: string)
      requires result.Some? ==> index < |result.value.bullets|
      modifies this
      ensures result == WithBullet(old(result), index, text)
      ensures description == old(description) && isLoading == old(isLoading)
    {
      if result.Some? {
        var newBullets := result.value.bullets;
        newBullets := newBullets[index := text];
        result := Some(result.value.(bullets := newBullets));
      }
    }
  }
}
