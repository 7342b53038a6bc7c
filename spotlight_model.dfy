/**
 * The value types of the Spotlight integration: the two routing enumerations
 * with their raw strings, and the immutable item record that callers hand to
 * the manager for indexing.
 */
module SpotlightModel {
  import opened Wrappers

  /** Raw bytes, as produced by an image's PNG encoding. */
  type Bytes = seq<bv8>

  /**
   * A platform image. Only what the manager observes of it is kept: the result
   * of asking it for PNG data, which the platform may refuse (None).
   */
  datatype Image = Image(pngData: Option<Bytes>)

  /** A platform URL, kept as an opaque value. */
  datatype Url = Url(absoluteString: string)

  /** High-level navigation destinations that can be indexed. */
  datatype Feature = Home | Settings

  /** Finer navigation targets under a feature. */
  datatype Subfeature = People | Favorites

  /** A string made only of the letters a to z. */
  predicate IsLowercaseWord(s: string)
  {
    forall i :: 0 <= i < |s| ==> 'a' <= s[i] <= 'z'
  }

  /** The raw value of a feature, as the enumeration declares it. */
  function FeatureRaw(f: Feature): (r: string)
    ensures |r| > 0 && IsLowercaseWord(r)
  {
    match f
    case Home => "home"
    case Settings => "settings"
  }

  /** The failable initializer `SpotlightFeature(rawValue:)`. */
  function FeatureFromRaw(s: string): (r: Option<Feature>)
    ensures r.Some? <==> (s == "home" || s == "settings")
    ensures r.Some? ==> FeatureRaw(r.value) == s
  {
    if s == "home" then Some(Home)
    else if s == "settings" then Some(Settings)
    else None
  }

  /** The raw value of a subfeature, as the enumeration declares it. */
  function SubfeatureRaw(s: Subfeature): (r: string)
    ensures |r| > 0 && IsLowercaseWord(r)
  {
    match s
    case People => "people"
    case Favorites => "favorites"
  }

  /** The failable initializer `SpotlightSubfeature(rawValue:)`. */
  function SubfeatureFromRaw(s: string): (r: Option<Subfeature>)
    ensures r.Some? <==> (s == "people" || s == "favorites")
    ensures r.Some? ==> SubfeatureRaw(r.value) == s
  {
    if s == "people" then Some(People)
    else if s == "favorites" then Some(Favorites)
    else None
  }

  /** Parsing a feature's raw value gives the feature back. */
  lemma FeatureRawRoundTrip(f: Feature)
    ensures FeatureFromRaw(FeatureRaw(f)) == Some(f)
  {
  }

  /** Parsing a subfeature's raw value gives the subfeature back. */
  lemma SubfeatureRawRoundTrip(s: Subfeature)
    ensures SubfeatureFromRaw(SubfeatureRaw(s)) == Some(s)
  {
  }

  /** Distinct enumeration cases have distinct raw values. */
  lemma RawValuesInjective(f1: Feature, f2: Feature, s1: Subfeature, s2: Subfeature)
    ensures FeatureRaw(f1) == FeatureRaw(f2) ==> f1 == f2
    ensures SubfeatureRaw(s1) == SubfeatureRaw(s2) ==> s1 == s2
  {
  }

  /** A lowercase word holds none of the separators used by identifiers and domains. */
  lemma LowercaseHasNoSeparator(s: string)
    requires IsLowercaseWord(s)
    ensures '?' !in s && '&' !in s && '=' !in s && '.' !in s
  {
  }

  /** An item that can be indexed; every field is fixed at construction. */
  datatype SpotlightItem = SpotlightItem(
    itemID: string,
    title: string,
    description: Option<string>,
    relatedKeywords: Option<seq<string>>,
    feature: Feature,
    subfeature: Option<Subfeature>,
    itemImage: Option<Image>,
    thumbnailURL: Option<Url>)

  /** The memberwise initializer, every argument given. */
  function NewSpotlightItem(
    itemID: string,
    title: string,
    description: Option<string>,
    relatedKeywords: Option<seq<string>>,
    feature: Feature,
    subfeature: Option<Subfeature>,
    itemImage: Option<Image>,
    thumbnailURL: Option<Url>): (r: SpotlightItem)
    ensures r.itemID == itemID && r.title == title && r.feature == feature
    ensures r.description == description && r.relatedKeywords == relatedKeywords
    ensures r.subfeature == subfeature
    ensures r.itemImage == itemImage && r.thumbnailURL == thumbnailURL
  {
    SpotlightItem(itemID, title, description, relatedKeywords, feature, subfeature, itemImage, thumbnailURL)
  }

  /** The initializer called with only its required arguments; the rest take their defaults. */
  function NewSpotlightItemWithDefaults(itemID: string, title: string, feature: Feature): (r: SpotlightItem)
    ensures r.itemID == itemID && r.title == title && r.feature == feature
    ensures r.description.None? && r.relatedKeywords.None? && r.subfeature.None?
    ensures r.itemImage.None? && r.thumbnailURL.None?
  {
    NewSpotlightItem(itemID, title, None, None, feature, None, None, None)
  }
}
