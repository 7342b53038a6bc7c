/**
 * The Spotlight manager: how an item becomes a searchable record with a
 * unique identifier and a domain identifier, which requests are submitted to
 * the system index for indexing and deletion, and how the identifier of a
 * tapped result is read back into a navigation decision.
 *
 * The system index itself is not modelled. What the manager hands it is
 * recorded, in submission order, in the manager's request log.
 */
module Spotlight {
  import opened Wrappers
  import opened SpotlightModel
  import opened QueryString

  /** The prefix shared by every identifier and domain the app assigns. */
  const BASE_IDENTIFIER := "com.kk"

  /** The platform's uniform type identifier for text content. */
  const TEXT_CONTENT_TYPE := "public.text"

  /** The activity type the system uses when a searchable item is opened. */
  const SEARCHABLE_ITEM_ACTION_TYPE := "com.apple.corespotlightitem"

  /** The user-info key under which the system passes the tapped item's identifier. */
  const SEARCHABLE_ITEM_ACTIVITY_IDENTIFIER := "kCSSearchableItemActivityIdentifier"

  /** The attributes shown for a record in search results. */
  datatype AttributeSet = AttributeSet(
    contentType: string,
    title: string,
    identifier: string,
    contentDescription: Option<string>,
    keywords: Option<seq<string>>,
    thumbnailURL: Option<Url>,
    thumbnailData: Option<Bytes>)

  /** A record as submitted to the system index. */
  datatype SearchableItem = SearchableItem(
    uniqueIdentifier: string,
    domainIdentifier: string,
    attributeSet: AttributeSet)

  /** A request the manager submits to the system index. */
  datatype IndexRequest =
    | IndexItems(items: seq<SearchableItem>)
    | DeleteAll
    | DeleteDomains(domains: seq<string>)
    | DeleteIdentifiers(identifiers: seq<string>)

  /**
   * The identifier wire format: the prefix, then the query
   * `?feature=<f>&itemID=<id>`, then `&subfeature=<s>` only when a
   * subfeature is given.
   */
  function UniqueIdentifier(f: Feature, s: Option<Subfeature>, itemID: string): (r: string)
    ensures |r| == 23 + |FeatureRaw(f)| + |itemID| + (if s.Some? then 12 + |SubfeatureRaw(s.value)| else 0)
    ensures r[..|BASE_IDENTIFIER|] == BASE_IDENTIFIER && r[|BASE_IDENTIFIER|] == '?'
  {
    BASE_IDENTIFIER + "?feature=" + FeatureRaw(f) + "&itemID=" + itemID
      + (if s.Some? then "&subfeature=" + SubfeatureRaw(s.value) else "")
  }

  /** The domain format: the prefix, `.<f>`, then `.<s>` only when a subfeature is given. */
  function DomainIdentifier(f: Feature, s: Option<Subfeature>): (r: string)
    ensures BASE_IDENTIFIER + "." <= r
    ensures |r| == 7 + |FeatureRaw(f)| + (if s.Some? then 1 + |SubfeatureRaw(s.value)| else 0)
  {
    BASE_IDENTIFIER + "." + FeatureRaw(f)
      + (if s.Some? then "." + SubfeatureRaw(s.value) else "")
  }

  /** The PNG data of an optional image, if there is an image and it yields some. */
  function PngOf(image: Option<Image>): (r: Option<Bytes>)
    ensures r.Some? <==> image.Some? && image.value.pngData.Some?
    ensures r.Some? ==> r == image.value.pngData
  {
    if image.Some? then image.value.pngData else None
  }

  /**
   * The attribute set of an item. Title, item ID, description and keywords are
   * copied as they are. A thumbnail URL wins; without one, the thumbnail data is
   * the item image's PNG data, or else the app icon's.
   */
  function Attributes(item: SpotlightItem, appIcon: Option<Image>): (a: AttributeSet)
    ensures a.contentType == TEXT_CONTENT_TYPE
    ensures a.title == item.title && a.identifier == item.itemID
    ensures a.contentDescription == item.description && a.keywords == item.relatedKeywords
    ensures a.thumbnailURL == item.thumbnailURL
    ensures a.thumbnailURL.Some? ==> a.thumbnailData.None?
    ensures item.thumbnailURL.None? && PngOf(item.itemImage).Some? ==> a.thumbnailData == PngOf(item.itemImage)
    ensures item.thumbnailURL.None? && PngOf(item.itemImage).None? ==> a.thumbnailData == PngOf(appIcon)
  {
    var base := AttributeSet(TEXT_CONTENT_TYPE, item.title, item.itemID, item.description,
                             item.relatedKeywords, None, None);
    match item.thumbnailURL
    case Some(url) => base.(thumbnailURL := Some(url))
    case None =>
      var data := match PngOf(item.itemImage)
                  case Some(png) => Some(png)
                  case None => PngOf(appIcon);
      base.(thumbnailData := data)
  }

  /**
   * The searchable record built for an item: identifier and domain are built
   * from the prefix and the feature, then extended when a subfeature is present.
   */
  function CreateSearchableItem(item: SpotlightItem, appIcon: Option<Image>): (r: SearchableItem)
    ensures r.uniqueIdentifier == UniqueIdentifier(item.feature, item.subfeature, item.itemID)
    ensures r.domainIdentifier == DomainIdentifier(item.feature, item.subfeature)
    ensures r.attributeSet == Attributes(item, appIcon)
  {
    var itemIdentifier := BASE_IDENTIFIER + "?feature=" + FeatureRaw(item.feature) + "&itemID=" + item.itemID;
    var domainIdentifier := BASE_IDENTIFIER + "." + FeatureRaw(item.feature);
    match item.subfeature
    case Some(sub) =>
      SearchableItem(itemIdentifier + "&subfeature=" + SubfeatureRaw(sub),
                     domainIdentifier + "." + SubfeatureRaw(sub),
                     Attributes(item, appIcon))
    case None =>
      SearchableItem(itemIdentifier, domainIdentifier, Attributes(item, appIcon))
  }

  /**
   * The navigation decision for a parameter dictionary: the feature named by
   * the `feature` key, or no navigation when the key is missing or names no
   * feature.
   */
  function Navigate(parameters: map<string, string>): (r: Option<Feature>)
    ensures r.Some? <==> "feature" in parameters && parameters["feature"] in {"home", "settings"}
    ensures r.Some? ==> FeatureRaw(r.value) == parameters["feature"]
  {
    if "feature" !in parameters then None
    else
      match FeatureFromRaw(parameters["feature"])
      case None => None
      case Some(Home) => Some(Home)
      case Some(Settings) => Some(Settings)
  }

  /** A user-info value; only a string survives the cast to `String`. */
  datatype UserInfoValue = Text(text: string) | NonText

  /** A user activity delivered by the system. */
  datatype UserActivity = UserActivity(
    activityType: string,
    userInfo: Option<map<string, UserInfoValue>>)

  /**
   * The identifier a Spotlight activity carries: present only for the
   * searchable-item action type and a string under the identifier key.
   */
  function SpotlightIdentifier(activity: UserActivity): (r: Option<string>)
    ensures r.Some? <==>
      && activity.activityType == SEARCHABLE_ITEM_ACTION_TYPE
      && activity.userInfo.Some?
      && SEARCHABLE_ITEM_ACTIVITY_IDENTIFIER in activity.userInfo.value
      && activity.userInfo.value[SEARCHABLE_ITEM_ACTIVITY_IDENTIFIER].Text?
    ensures r.Some? ==> activity.userInfo.value[SEARCHABLE_ITEM_ACTIVITY_IDENTIFIER] == Text(r.value)
  {
    if activity.activityType != SEARCHABLE_ITEM_ACTION_TYPE || activity.userInfo.None? then None
    else
      var info := activity.userInfo.value;
      if SEARCHABLE_ITEM_ACTIVITY_IDENTIFIER !in info then None
      else
        match info[SEARCHABLE_ITEM_ACTIVITY_IDENTIFIER]
        case Text(url) => Some(url)
        case NonText => None
  }

  /**
   * The manager. Its only state in this model is the log of requests it has
   * submitted to the system index, oldest first.
   */
  class SpotlightManager {
    var submitted: seq<IndexRequest>

    constructor ()
      ensures submitted == []
    {
      submitted := [];
    }

    /** Submits one indexing request per item, in order, each holding that item's record. */
    method Index(items: seq<SpotlightItem>, appIcon: Option<Image>)
      modifies this
      ensures |submitted| == |old(submitted)| + |items|
      ensures submitted[..|old(submitted)|] == old(submitted)
      ensures forall i :: 0 <= i < |items| ==>
        submitted[|old(submitted)| + i] == IndexItems([CreateSearchableItem(items[i], appIcon)])
    {
      for i := 0 to |items|
        invariant |submitted| == |old(submitted)| + i
        invariant submitted[..|old(submitted)|] == old(submitted)
        invariant forall j :: 0 <= j < i ==>
          submitted[|old(submitted)| + j] == IndexItems([CreateSearchableItem(items[j], appIcon)])
      {
        var searchableItem := CreateSearchableItem(items[i], appIcon);
        submitted := submitted + [IndexItems([searchableItem])];
      }
    }

    /** Submits a request to remove everything the app has indexed. */
    method DeleteAllSearchableItems()
      modifies this
      ensures submitted == old(submitted) + [DeleteAll]
    {
      submitted := submitted + [DeleteAll];
    }

    /** Submits a request to remove the records of one domain. */
    method DeleteItems(feature: Feature, subfeature: Option<Subfeature>)
      modifies this
      ensures submitted == old(submitted) + [DeleteDomains([DomainIdentifier(feature, subfeature)])]
    {
      var domainIdentifier := BASE_IDENTIFIER + "." + FeatureRaw(feature);
      if subfeature.Some? {
        domainIdentifier := domainIdentifier + "." + SubfeatureRaw(subfeature.value);
      }
      assert domainIdentifier == DomainIdentifier(feature, subfeature);
      submitted := submitted + [DeleteDomains([domainIdentifier])];
    }

    /** Submits a request to remove one record by its rebuilt identifier. */
    method DeleteItem(feature: Feature, subfeature: Option<Subfeature>, itemID: string)
      modifies this
      ensures submitted == old(submitted) + [DeleteIdentifiers([UniqueIdentifier(feature, subfeature, itemID)])]
    {
      var identifier := BASE_IDENTIFIER + "?feature=" + FeatureRaw(feature) + "&itemID=" + itemID;
      if subfeature.Some? {
        identifier := identifier + "&subfeature=" + SubfeatureRaw(subfeature.value);
      }
      assert identifier == UniqueIdentifier(feature, subfeature, itemID);
      submitted := submitted + [DeleteIdentifiers([identifier])];
    }

    /**
     * Handles a tapped search result: no navigation unless the activity is a
     * searchable-item action carrying a string identifier; otherwise the
     * decision is that of the identifier's parameters.
     */
    method HandleSpotlightActivity(activity: UserActivity) returns (dispatched: Option<Feature>)
      ensures SpotlightIdentifier(activity).None? ==> dispatched.None?
      ensures SpotlightIdentifier(activity).Some? ==>
        dispatched == Navigate(ParsedParameters(SpotlightIdentifier(activity).value))
    {
      match SpotlightIdentifier(activity)
      case None =>
        dispatched := None;
      case Some(url) =>
        dispatched := ParseAndNavigate(url);
    }

    /**
     * Fills a parameter dictionary from the query items of `url`, item by item,
     * and navigates by it.
     */
    method ParseAndNavigate(url: string) returns (dispatched: Option<Feature>)
      ensures dispatched == Navigate(ParsedParameters(url))
    {
      var parameters: map<string, string> := map[];
      var queryItems := QueryItems(url);
      if queryItems.Some? {
        var items := queryItems.value;
        for i := 0 to |items|
          invariant parameters == ParametersOf(items[..i])
        {
          assert items[..i + 1] == items[..i] + [items[i]];
          ParametersOfSnoc(items[..i], items[i]);
          var item := items[i];
          match item.value
          case Some(v) =>
            parameters := parameters[item.name := v];
          case None =>
            parameters := parameters - {item.name};
        }
        assert items[..|items|] == items;
      }
      dispatched := Navigate(parameters);
    }
  }
}
