/**
 * The shared records of the application. Values that arrive from the model's
 * JSON are untrusted: the record types keep the raw field values (a missing
 * string field is the empty string, which JavaScript treats the same way under
 * `||`; a missing or non-numeric number is `Absent`), and the declared unions
 * are separate datatypes with the checks that connect the two.
 */
module Types {
  import opened Base

  // ---------------------------------------------------------------------------
  // Target market language

  datatype Language = English | Japanese | German | French | Spanish | Italian

  function LanguageName(l: Language): (s: string)
    ensures ParseLanguage(s) == Some(l)
  {
    match l
    case English => "English"
    case Japanese => "Japanese"
    case German => "German"
    case French => "French"
    case Spanish => "Spanish"
    case Italian => "Italian"
  }

  function ParseLanguage(s: string): Option<Language>
  {
    if s == "English" then Some(English)
    else if s == "Japanese" then Some(Japanese)
    else if s == "German" then Some(German)
    else if s == "French" then Some(French)
    else if s == "Spanish" then Some(Spanish)
    else if s == "Italian" then Some(Italian)
    else None
  }

  // ---------------------------------------------------------------------------
  // The three declared unions of a keyword record

  datatype Competition = Low | Medium | High
  datatype Intent = Commercial | Informational | Transactional
  datatype Tier = Tier1 | Tier2 | Tier3

  function CompetitionLabel(c: Competition): (s: string)
    ensures ParseCompetition(s) == Some(c)
  {
    match c
    case Low => "Low"
    case Medium => "Medium"
    case High => "High"
  }

  function ParseCompetition(s: string): Option<Competition>
  {
    if s == "Low" then Some(Low)
    else if s == "Medium" then Some(Medium)
    else if s == "High" then Some(High)
    else None
  }

  function IntentLabel(i: Intent): (s: string)
    ensures ParseIntent(s) == Some(i)
  {
    match i
    case Commercial => "Commercial"
    case Informational => "Informational"
    case Transactional => "Transactional"
  }

  function ParseIntent(s: string): Option<Intent>
  {
    if s == "Commercial" then Some(Commercial)
    else if s == "Informational" then Some(Informational)
    else if s == "Transactional" then Some(Transactional)
    else None
  }

  function TierLabel(t: Tier): (s: string)
    ensures ParseTier(s) == Some(t)
  {
    match t
    case Tier1 => "Tier 1 (Head)"
    case Tier2 => "Tier 2 (Middle)"
    case Tier3 => "Tier 3 (Long-tail)"
  }

  function ParseTier(s: string): Option<Tier>
  {
    if s == "Tier 1 (Head)" then Some(Tier1)
    else if s == "Tier 2 (Middle)" then Some(Tier2)
    else if s == "Tier 3 (Long-tail)" then Some(Tier3)
    else None
  }

  /** Each union admits exactly its three labels: parsing succeeds only on a label. */
  lemma ParseOnlyLabels(s: string)
    ensures ParseCompetition(s).Some? ==> s == CompetitionLabel(ParseCompetition(s).value)
    ensures ParseIntent(s).Some? ==> s == IntentLabel(ParseIntent(s).value)
    ensures ParseTier(s).Some? ==> s == TierLabel(ParseTier(s).value)
  {
  }

  // ---------------------------------------------------------------------------
  // Keyword records

  /** A JSON number field: `Absent` stands for undefined, null and NaN. */
  datatype Number = Absent | Finite(value: real)

  /** JavaScript `n || 0` on a number field. */
  function OrZero(n: Number): (r: real)
    ensures n.Finite? ==> r == n.value
    ensures n.Absent? ==> r == 0.0
  {
    match n
    case Absent => 0.0
    case Finite(v) => v
  }

  /** A keyword record as it arrives from the model's JSON. */
  datatype KeywordData = KeywordData(
    keyword: string,
    searchVolume: Number,
    competition: string,
    cpc: Number,
    intent: string,
    tier: string)

  /** A keyword record whose fields have the declared types. */
  datatype TypedKeyword = TypedKeyword(
    keyword: string,
    searchVolume: real,
    competition: Competition,
    cpc: real,
    intent: Intent,
    tier: Tier)

  /** The raw record that carries a typed one. */
  function Untyped(t: TypedKeyword): KeywordData
  {
    KeywordData(t.keyword, Finite(t.searchVolume), CompetitionLabel(t.competition),
                Finite(t.cpc), IntentLabel(t.intent), TierLabel(t.tier))
  }

  /** The volume is an estimate on a 0-100 scale. */
  predicate OnVolumeScale(v: real)
  {
    0.0 <= v <= 100.0
  }

  /**
   * Reads a raw record as the declared interface: every union field holds one
   * of its labels, both numbers are present and the volume is on its scale.
   */
  function Typed(k: KeywordData): (r: Option<TypedKeyword>)
    ensures r.Some? ==> Untyped(r.value) == k && OnVolumeScale(r.value.searchVolume)
  {
    match (k.searchVolume, k.cpc, ParseCompetition(k.competition), ParseIntent(k.intent), ParseTier(k.tier))
    case (Finite(v), Finite(c), Some(comp), Some(intent), Some(tier)) =>
      if OnVolumeScale(v) then
        ParseOnlyLabels(k.competition);
        ParseOnlyLabels(k.intent);
        ParseOnlyLabels(k.tier);
        Some(TypedKeyword(k.keyword, v, comp, c, intent, tier))
      else None
    case _ => None
  }

  /** Every typed record with an in-scale volume is read back from its raw form. */
  lemma TypedUntyped(t: TypedKeyword)
    requires OnVolumeScale(t.searchVolume)
    ensures Typed(Untyped(t)) == Some(t)
  {
  }

  // ---------------------------------------------------------------------------
  // Session, images, listing, launch plan, shared context

  datatype SearchState = SearchState(
    isLoading: bool,
    error: Option<string>,
    data: seq<KeywordData>,
    seedKeyword: string)

  datatype GroundingSource = GroundingSource(title: string, url: string)

  /** One image slot: the scene id it belongs to, its caption, its URL once produced. */
  datatype GeneratedImage = GeneratedImage(
    id: int,
    caption: string,  // the source's `label` (a reserved word in Dafny)
    imageUrl: Option<string>,
    isLoading: bool)

  datatype ImageGeneratorState = ImageGeneratorState(
    isGenerating: bool,
    error: Option<string>,
    description: string,
    uploadedImage: Option<string>,
    mimeType: string,
    mainImages: seq<GeneratedImage>,
    aplusImages: seq<GeneratedImage>)

  /** Listing copy: a title and the bullet points (five are requested). */
  datatype ListingContent = ListingContent(title: string, bullets: seq<string>)

  const BulletCount: nat := 5

  predicate HasAllBullets(l: ListingContent)
  {
    |l.bullets| == BulletCount
  }

  datatype LaunchDayPlan = LaunchDayPlan(
    dayRange: string,
    focus: string,
    actions: seq<string>,
    budget: string,
    metrics: seq<string>)

  /**
   * A campaign tree: a name, an optional budget and ordered children. An absent
   * `children` list and an empty one render alike, so both are the empty sequence.
   */
  datatype AdStrategyNode = AdStrategyNode(
    name: string,
    budget: Option<string>,
    children: seq<AdStrategyNode>)

  predicate IsLeaf(n: AdStrategyNode)
  {
    n.children == []
  }

  /** Number of nodes in a tree. */
  function Size(n: AdStrategyNode): (k: nat)
    ensures k >= 1 + |n.children|
    decreases n
  {
    1 + ChildrenSize(n, |n.children|)
  }

  /** Number of nodes under the first `k` children of `n`. */
  function ChildrenSize(n: AdStrategyNode, k: nat): (total: nat)
    requires k <= |n.children|
    ensures total >= k
    decreases n, k
  {
    if k == 0 then 0 else ChildrenSize(n, k - 1) + Size(n.children[k - 1])
  }

  /** A leaf is exactly a tree of one node. */
  lemma LeafIffSingleNode(n: AdStrategyNode)
    ensures IsLeaf(n) <==> Size(n) == 1
  {
  }

  /** The record shared by the keyword, listing, image, launch and video stages. */
  datatype ProductContext = ProductContext(
    title: string,
    description: string,
    keywords: seq<string>,
    hasGeneratedContent: bool,
    uploadedImage: Option<string>,
    mimeType: string)
}
