/**
 * What the identifier scheme guarantees: the exact wire format, that parsing
 * an identifier gives back the feature, item ID and subfeature it was built
 * from, and that distinct arguments never share an identifier or a domain.
 */
module IdentifierProperties {
  import opened Wrappers
  import opened SpotlightModel
  import opened QueryString
  import opened Spotlight

  /** The characters an item ID may use for the round trip: letters, digits and `-._~`. */
  predicate IsSafeIdChar(c: char)
  {
    ('a' <= c <= 'z') || ('A' <= c <= 'Z') || ('0' <= c <= '9') || c in "-._~"
  }

  /** An item ID over the safe alphabet. */
  predicate IsSafeItemID(id: string)
  {
    forall i :: 0 <= i < |id| ==> IsSafeIdChar(id[i])
  }

  /** The dictionary an identifier is meant to carry. */
  function ExpectedParameters(f: Feature, s: Option<Subfeature>, itemID: string): map<string, string>
  {
    var m := map["feature" := FeatureRaw(f), "itemID" := itemID];
    if s.Some? then m["subfeature" := SubfeatureRaw(s.value)] else m
  }

  /** The worked example of an identifier and domain with a subfeature. */
  lemma WireFormatExampleWithSubfeature()
    ensures UniqueIdentifier(Home, Some(People), "42") == "com.kk?feature=home&itemID=42&subfeature=people"
    ensures DomainIdentifier(Home, Some(People)) == "com.kk.home.people"
  {
    assert FeatureRaw(Home) == "home" && SubfeatureRaw(People) == "people";
  }

  /** The worked example of an identifier and domain without a subfeature. */
  lemma WireFormatExampleWithoutSubfeature()
    ensures UniqueIdentifier(Settings, None, "7") == "com.kk?feature=settings&itemID=7"
    ensures DomainIdentifier(Settings, None) == "com.kk.settings"
  {
  }

  /** A `name=value` piece. */
  function Pair(name: string, value: string): string
  {
    name + ['='] + value
  }

  /** A `name=value` piece with an '='-free name reads as that name and value. */
  lemma ItemOfPair(name: string, value: string)
    requires '=' !in name
    ensures ItemOf(Pair(name, value)) == QueryItem(name, Some(value))
  {
    SplitFirstAfter(name, '=', value);
  }

  /** A safe item ID holds none of the query separators. */
  lemma SafeItemIDHasNoSeparator(itemID: string)
    requires IsSafeItemID(itemID)
    ensures '?' !in itemID && '&' !in itemID && '=' !in itemID
  {
  }

  /** The parameter names and the prefix hold none of the query separators. */
  lemma KeyNamesAreClean()
    ensures '=' !in "feature" && '&' !in "feature"
    ensures '=' !in "itemID" && '&' !in "itemID"
    ensures '=' !in "subfeature" && '&' !in "subfeature"
    ensures '?' !in BASE_IDENTIFIER
  {
  }

  /** Two pieces joined. */
  lemma JoinTwo(a: string, b: string, c: char)
    ensures Join([a, b], c) == a + [c] + b
  {
  }

  /** Three pieces joined. */
  lemma JoinThree(a: string, b: string, d: string, c: char)
    ensures Join([a, b, d], c) == a + [c] + b + [c] + d
  {
    assert [a, b, d][1..] == [b, d];
    JoinTwo(b, d, c);
  }

  /** Two pieces read as query items. */
  lemma ItemsOfTwo(a: string, b: string)
    ensures ItemsOf([a, b]) == [ItemOf(a), ItemOf(b)]
  {
  }

  /** Three pieces read as query items. */
  lemma ItemsOfThree(a: string, b: string, d: string)
    ensures ItemsOf([a, b, d]) == [ItemOf(a), ItemOf(b), ItemOf(d)]
  {
    assert [a, b, d][1..] == [b, d];
    ItemsOfTwo(b, d);
  }

  /** The literal fragments of the identifier format, spelled out. */
  lemma FragmentsSpelledOut()
    ensures "?feature=" == ['?'] + "feature" + ['=']
    ensures "&itemID=" == ['&'] + "itemID" + ['=']
    ensures "&subfeature=" == ['&'] + "subfeature" + ['=']
  {
  }

  /** Regrouping a prefix and three key-value pairs into a prefix, '?' and a query. */
  lemma RegroupThree(b: string, k0: string, v0: string, k1: string, v1: string, k2: string, v2: string)
    ensures b + (['?'] + k0 + ['=']) + v0 + (['&'] + k1 + ['=']) + v1 + ((['&'] + k2 + ['=']) + v2)
         == b + ['?'] + ((k0 + ['='] + v0) + ['&'] + (k1 + ['='] + v1) + ['&'] + (k2 + ['='] + v2))
  {
  }

  /** An identifier without a subfeature is the prefix, '?', and two pairs joined by '&'. */
  lemma IdentifierWithoutSubfeatureAsPairs(f: Feature, itemID: string)
    ensures UniqueIdentifier(f, None, itemID)
      == BASE_IDENTIFIER + ['?'] + Join([Pair("feature", FeatureRaw(f)), Pair("itemID", itemID)], '&')
  {
  }

  /** An identifier with a subfeature is the prefix, '?', and three pairs joined by '&'. */
  lemma IdentifierWithSubfeatureAsPairs(f: Feature, s: Subfeature, itemID: string)
    ensures UniqueIdentifier(f, Some(s), itemID)
      == BASE_IDENTIFIER + ['?'] + Join([Pair("feature", FeatureRaw(f)), Pair("itemID", itemID),
                                         Pair("subfeature", SubfeatureRaw(s))], '&')
  {
    FragmentsSpelledOut();
    RegroupThree(BASE_IDENTIFIER, "feature", FeatureRaw(f), "itemID", itemID, "subfeature", SubfeatureRaw(s));
    JoinThree(Pair("feature", FeatureRaw(f)), Pair("itemID", itemID), Pair("subfeature", SubfeatureRaw(s)), '&');
  }

  /** The query items of an identifier without a subfeature. */
  lemma QueryItemsWithoutSubfeature(f: Feature, itemID: string)
    requires IsSafeItemID(itemID)
    ensures QueryItems(UniqueIdentifier(f, None, itemID))
      == Some([QueryItem("feature", Some(FeatureRaw(f))), QueryItem("itemID", Some(itemID))])
  {
    LowercaseHasNoSeparator(FeatureRaw(f));
    SafeItemIDHasNoSeparator(itemID);
    KeyNamesAreClean();
    var p0, p1 := Pair("feature", FeatureRaw(f)), Pair("itemID", itemID);
    SplitJoin([p0, p1], '&');
    IdentifierWithoutSubfeatureAsPairs(f, itemID);
    QueryItemsAfterPrefix(BASE_IDENTIFIER, Join([p0, p1], '&'));
    ItemsOfTwo(p0, p1);
    ItemOfPair("feature", FeatureRaw(f));
    ItemOfPair("itemID", itemID);
  }

  /** The query items of an identifier with a subfeature. */
  lemma QueryItemsWithSubfeature(f: Feature, s: Subfeature, itemID: string)
    requires IsSafeItemID(itemID)
    ensures QueryItems(UniqueIdentifier(f, Some(s), itemID))
      == Some([QueryItem("feature", Some(FeatureRaw(f))), QueryItem("itemID", Some(itemID)),
               QueryItem("subfeature", Some(SubfeatureRaw(s)))])
  {
    LowercaseHasNoSeparator(FeatureRaw(f));
    LowercaseHasNoSeparator(SubfeatureRaw(s));
    SafeItemIDHasNoSeparator(itemID);
    KeyNamesAreClean();
    var p0, p1, p2 := Pair("feature", FeatureRaw(f)), Pair("itemID", itemID), Pair("subfeature", SubfeatureRaw(s));
    SplitJoin([p0, p1, p2], '&');
    IdentifierWithSubfeatureAsPairs(f, s, itemID);
    QueryItemsAfterPrefix(BASE_IDENTIFIER, Join([p0, p1, p2], '&'));
    ItemsOfThree(p0, p1, p2);
    ItemOfPair("feature", FeatureRaw(f));
    ItemOfPair("itemID", itemID);
    ItemOfPair("subfeature", SubfeatureRaw(s));
  }

  /** Two items fill the dictionary one after the other. */
  lemma ParametersOfTwo(a: QueryItem, b: QueryItem)
    ensures ParametersOf([a, b]) == Assign(Assign(map[], a), b)
  {
  }

  /** Three items fill the dictionary one after the other. */
  lemma ParametersOfThree(a: QueryItem, b: QueryItem, c: QueryItem)
    ensures ParametersOf([a, b, c]) == Assign(Assign(Assign(map[], a), b), c)
  {
    ParametersOfSnoc([], a);
    ParametersOfSnoc([a], b);
    ParametersOfSnoc([a, b], c);
    assert [] + [a] == [a];
    assert [a] + [b] == [a, b];
    assert [a, b] + [c] == [a, b, c];
  }

  /** The parameters of an identifier without a subfeature. */
  lemma RoundTripWithoutSubfeature(f: Feature, itemID: string)
    requires IsSafeItemID(itemID)
    ensures ParsedParameters(UniqueIdentifier(f, None, itemID)) == ExpectedParameters(f, None, itemID)
  {
    QueryItemsWithoutSubfeature(f, itemID);
    ParametersOfTwo(QueryItem("feature", Some(FeatureRaw(f))), QueryItem("itemID", Some(itemID)));
  }

  /** The parameters of an identifier with a subfeature. */
  lemma RoundTripWithSubfeature(f: Feature, s: Subfeature, itemID: string)
    requires IsSafeItemID(itemID)
    ensures ParsedParameters(UniqueIdentifier(f, Some(s), itemID)) == ExpectedParameters(f, Some(s), itemID)
  {
    QueryItemsWithSubfeature(f, s, itemID);
    var a := QueryItem("feature", Some(FeatureRaw(f)));
    var b := QueryItem("itemID", Some(itemID));
    var c := QueryItem("subfeature", Some(SubfeatureRaw(s)));
    ParametersOfThree(a, b, c);
  }

  /**
   * Round trip: the identifier built for a feature, an optional subfeature and
   * a safe item ID parses into exactly `feature`, `itemID` and, when a
   * subfeature was given, `subfeature`, with their original values.
   */
  lemma IdentifierRoundTrip(f: Feature, s: Option<Subfeature>, itemID: string)
    requires IsSafeItemID(itemID)
    ensures ParsedParameters(UniqueIdentifier(f, s, itemID)) == ExpectedParameters(f, s, itemID)
  {
    if s.Some? {
      RoundTripWithSubfeature(f, s.value, itemID);
    } else {
      RoundTripWithoutSubfeature(f, itemID);
    }
  }

  /**
   * The reading of a parameter dictionary the identifier scheme intends: the
   * feature, the optional subfeature and the item ID, or None when a key is
   * missing, a raw value is unknown, or a key is left over.
   */
  function DecodeParameters(p: map<string, string>): Option<(Feature, Option<Subfeature>, string)>
  {
    if "feature" !in p || "itemID" !in p then None
    else
      match FeatureFromRaw(p["feature"])
      case None => None
      case Some(f) =>
        if "subfeature" !in p then
          if p.Keys == {"feature", "itemID"} then Some((f, None, p["itemID"])) else None
        else
          match SubfeatureFromRaw(p["subfeature"])
          case None => None
          case Some(s) =>
            if p.Keys == {"feature", "itemID", "subfeature"} then Some((f, Some(s), p["itemID"])) else None
  }

  /** Decoding what an identifier carries gives back its arguments. */
  lemma DecodeExpected(f: Feature, s: Option<Subfeature>, itemID: string)
    ensures DecodeParameters(ExpectedParameters(f, s, itemID)) == Some((f, s, itemID))
  {
  }

  /** Encode then parse then decode is the identity on safe item IDs. */
  lemma IdentifierDecodes(f: Feature, s: Option<Subfeature>, itemID: string)
    requires IsSafeItemID(itemID)
    ensures DecodeParameters(ParsedParameters(UniqueIdentifier(f, s, itemID))) == Some((f, s, itemID))
  {
    IdentifierRoundTrip(f, s, itemID);
    DecodeExpected(f, s, itemID);
  }

  /** The dictionary an identifier carries navigates to its feature. */
  lemma NavigateExpected(f: Feature, s: Option<Subfeature>, itemID: string)
    ensures Navigate(ExpectedParameters(f, s, itemID)) == Some(f)
  {
  }

  /** A tapped result whose identifier was built for feature `f` navigates to `f`. */
  lemma NavigateRoundTrip(f: Feature, s: Option<Subfeature>, itemID: string)
    requires IsSafeItemID(itemID)
    ensures Navigate(ParsedParameters(UniqueIdentifier(f, s, itemID))) == Some(f)
  {
    IdentifierRoundTrip(f, s, itemID);
    NavigateExpected(f, s, itemID);
  }

  /**
   * Over safe item IDs, distinct arguments give distinct identifiers: an
   * identifier names exactly one feature, subfeature and item ID.
   */
  lemma IdentifierInjective(f1: Feature, s1: Option<Subfeature>, id1: string,
                            f2: Feature, s2: Option<Subfeature>, id2: string)
    requires IsSafeItemID(id1) && IsSafeItemID(id2)
    requires UniqueIdentifier(f1, s1, id1) == UniqueIdentifier(f2, s2, id2)
    ensures f1 == f2 && s1 == s2 && id1 == id2
  {
    IdentifierDecodes(f1, s1, id1);
    IdentifierDecodes(f2, s2, id2);
  }

  /**
   * For any item ID at all, identifiers that differ only in the subfeature are
   * different strings, so deleting with one subfeature never targets a record
   * indexed with another or with none.
   */
  lemma SubfeatureSeparatesIdentifiers(f: Feature, s1: Option<Subfeature>, s2: Option<Subfeature>, itemID: string)
    requires s1 != s2
    ensures UniqueIdentifier(f, s1, itemID) != UniqueIdentifier(f, s2, itemID)
  {
  }

  /** Distinct feature and subfeature pairs have distinct domains. */
  lemma DomainInjective(f1: Feature, s1: Option<Subfeature>, f2: Feature, s2: Option<Subfeature>)
    requires DomainIdentifier(f1, s1) == DomainIdentifier(f2, s2)
    ensures f1 == f2 && s1 == s2
  {
  }

  /**
   * The domains form a two-level hierarchy: a domain with no subfeature,
   * followed by '.', is a prefix of exactly the domains of the same feature
   * that name a subfeature.
   */
  lemma DomainHierarchy(f1: Feature, s1: Option<Subfeature>, f2: Feature, s2: Option<Subfeature>)
    ensures DomainIdentifier(f1, s1) + "." <= DomainIdentifier(f2, s2) <==> f1 == f2 && s1.None? && s2.Some?
  {
    var p, d2 := DomainIdentifier(f1, s1) + ".", DomainIdentifier(f2, s2);
    var n := |BASE_IDENTIFIER| + 1 + |FeatureRaw(f1)|;
    if f1 == f2 && s1.None? && s2.Some? {
      assert d2 == p + SubfeatureRaw(s2.value);
    } else if p <= d2 {
      // The first letter of the feature tells the two features apart.
      assert p[7] == FeatureRaw(f1)[0] && d2[7] == FeatureRaw(f2)[0];
      assert f1 == f2;
      if s1.Some? {
        // `p` has a '.' right after its subfeature, where `d2` is still inside its own.
        var q := n + 1 + |SubfeatureRaw(s1.value)|;
        assert p[q] == '.';
        LowercaseHasNoSeparator(SubfeatureRaw(s2.value));
      }
    }
  }

  /**
   * An item ID that carries the separators can forge another record's
   * identifier: why the round trip and injectivity ask for a safe item ID.
   */
  lemma UnsafeItemIDCollides()
    ensures UniqueIdentifier(Home, None, "1&subfeature=people") == UniqueIdentifier(Home, Some(People), "1")
    ensures !IsSafeItemID("1&subfeature=people")
  {
    assert !IsSafeIdChar("1&subfeature=people"[1]);
  }

  /**
   * Deleting by the rebuilt identifier or domain targets exactly what indexing
   * assigned to an item with the same feature, subfeature and item ID.
   */
  lemma DeleteTargetsIndexedRecord(item: SpotlightItem, appIcon: Option<Image>,
                                   f: Feature, s: Option<Subfeature>, itemID: string)
    requires IsSafeItemID(itemID) && IsSafeItemID(item.itemID)
    ensures UniqueIdentifier(f, s, itemID) == CreateSearchableItem(item, appIcon).uniqueIdentifier
      <==> (f, s, itemID) == (item.feature, item.subfeature, item.itemID)
    ensures DomainIdentifier(f, s) == CreateSearchableItem(item, appIcon).domainIdentifier
      <==> (f, s) == (item.feature, item.subfeature)
  {
    if UniqueIdentifier(f, s, itemID) == CreateSearchableItem(item, appIcon).uniqueIdentifier {
      IdentifierInjective(f, s, itemID, item.feature, item.subfeature, item.itemID);
    }
    if DomainIdentifier(f, s) == CreateSearchableItem(item, appIcon).domainIdentifier {
      DomainInjective(f, s, item.feature, item.subfeature);
    }
  }
}
