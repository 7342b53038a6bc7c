# Spotlight identifier scheme — a Dafny model

This project models the part of the SpotlightSearchSample iOS app that has
logic of its own: the `SpotlightManager` and the value types it uses. The
manager turns a `SpotlightItem` into a searchable record for the system's
Spotlight index. Each record gets two keys built by string concatenation with
the prefix `com.kk`:

- the unique identifier `com.kk?feature=<f>&itemID=<id>[&subfeature=<s>]`;
- the domain identifier `com.kk.<f>[.<s>]`.

The manager submits indexing and deletion requests, and reads the identifier
of a tapped search result back into a parameter dictionary to decide where to
navigate.

Files and modules:

- `wrappers.dfy` (`Wrappers`): the `Option` type standing for Swift optionals.
- `spotlight_model.dfy` (`SpotlightModel`): the `SpotlightFeature` and
  `SpotlightSubfeature` enumerations with their raw values and failable
  initializers, and the `SpotlightItem` struct with its initializer.
- `query_string.dfy` (`QueryString`): a simplified query-string parser that
  stands in for `URLComponents.queryItems`. It also holds the specification of
  the parameter dictionary that `parseAndNavigate` fills.
- `spotlight_manager.dfy` (`Spotlight`): the wire formats, the attribute
  mapping, `createSearchableItem` and `navigate` as functions. The class
  `SpotlightManager` holds a log of submitted requests; `index` and the three
  delete operations append to that log.
- `identifier_properties.dfy` (`IdentifierProperties`): the worked examples,
  the round trip from identifier to parameters, and injectivity of identifiers
  and domains. It also shows that delete rebuilds exactly the keys that
  indexing assigned.
- `context_menu.dfy` (`ContextMenu`): how the list screen indexes and deletes,
  and the mismatch between the two (see Findings).

The system index is not modelled. The manager's `submitted` field records the
requests it hands over, in submission order: `IndexItems`, `DeleteAll`,
`DeleteDomains` and `DeleteIdentifiers`. The model makes no claim about what
the index then contains.

The tapped-result handler and `navigate` return what they decide as an
`Option<Feature>`. `Some(f)` means the switch reached the branch for `f`;
`None` means the guard returned early. In the source both branches of the
switch are empty.

Two of the program's doc comments promise more than the code they describe
does; the model follows the code and proves what the formats allow:

- `SpotlightItem.itemID` "should be used to restore or navigate to the item",
  but `navigate` dispatches on `feature` alone. `Navigate` models that.
  `IdentifierProperties.DecodeParameters` is a reference decoder; with it
  `IdentifierDecodes` shows that the parsed dictionary still holds the
  feature, the subfeature and the item ID, so an item could be restored.
- `deleteItems` deletes "items associated with a specific feature or
  subfeature", but it submits one exact domain string. How the system index
  matches domains is not modelled. `DomainHierarchy` shows what a prefix
  match would mean: a feature's domain followed by '.' is a prefix of exactly
  the domains of that feature's subfeatures.

## Model

| member | source | states |
|---|---|---|
| `SpotlightModel.FeatureRaw` | SpotlightSeachSample/SpotlightManager/SpotlightManager+Model.swift:11-15 | a feature's raw value is a non-empty word of lowercase letters |
| `SpotlightModel.FeatureFromRaw` | SpotlightSeachSample/SpotlightManager/SpotlightManager+Model.swift:11-15 | `init(rawValue:)` succeeds exactly on "home" and "settings", and the feature it gives has that raw value |
| `SpotlightModel.SubfeatureRaw` | SpotlightSeachSample/SpotlightManager/SpotlightManager+Model.swift:18-22 | a subfeature's raw value is a non-empty word of lowercase letters |
| `SpotlightModel.SubfeatureFromRaw` | SpotlightSeachSample/SpotlightManager/SpotlightManager+Model.swift:18-22 | `init(rawValue:)` succeeds exactly on "people" and "favorites", and the subfeature it gives has that raw value |
| `SpotlightModel.FeatureRawRoundTrip` | SpotlightSeachSample/SpotlightManager/SpotlightManager+Model.swift:11-15 | parsing a feature's raw value gives that feature back |
| `SpotlightModel.SubfeatureRawRoundTrip` | SpotlightSeachSample/SpotlightManager/SpotlightManager+Model.swift:18-22 | parsing a subfeature's raw value gives that subfeature back |
| `SpotlightModel.RawValuesInjective` | SpotlightSeachSample/SpotlightManager/SpotlightManager+Model.swift:11-22 | distinct cases of either enumeration have distinct raw values |
| `SpotlightModel.LowercaseHasNoSeparator` | SpotlightSeachSample/SpotlightManager/SpotlightManager+Model.swift:12-20 | a lowercase word, as every raw value is, holds none of the separators '?', '&', '=' and '.' |
| `SpotlightModel.NewSpotlightItem` | SpotlightSeachSample/SpotlightManager/SpotlightManager+Model.swift:64-80 | the initializer stores every argument unchanged in the matching field |
| `SpotlightModel.NewSpotlightItemWithDefaults` | SpotlightSeachSample/SpotlightManager/SpotlightManager+Model.swift:64-71 | with only item ID, title and feature given, description, keywords, subfeature, image and thumbnail URL are nil |
| `QueryString.IndexOf` | SpotlightSeachSample/SpotlightManager/SpotlightManager.swift:131-133 | the result is the first position of the character, or none exactly when it does not occur |
| `QueryString.SplitFirst` | SpotlightSeachSample/SpotlightManager/SpotlightManager.swift:131-133 | cutting at the first separator gives a separator-free head and a tail that glue back into the input; none exactly when there is no separator |
| `QueryString.Split` | SpotlightSeachSample/SpotlightManager/SpotlightManager.swift:131-133 | splitting gives at least one piece and no piece holds the separator |
| `QueryString.JoinSplit` | SpotlightSeachSample/SpotlightManager/SpotlightManager.swift:131-133 | the pieces of a split glue back into the original text |
| `QueryString.SplitJoin` | SpotlightSeachSample/SpotlightManager/SpotlightManager.swift:131-133 | splitting text glued from separator-free pieces gives exactly those pieces |
| `QueryString.SplitFirstAfter` | SpotlightSeachSample/SpotlightManager/SpotlightManager.swift:131-133 | after a separator-free prefix, the first separator is the one that follows the prefix |
| `QueryString.ItemOf` | SpotlightSeachSample/SpotlightManager/SpotlightManager.swift:131-133 | a piece without '=' is a name with no value; otherwise it is an '='-free name, '=' and the value |
| `QueryString.QueryItems` | SpotlightSeachSample/SpotlightManager/SpotlightManager.swift:131-133 | there are no query items exactly when the string has no '?' |
| `QueryString.ParametersOf` | SpotlightSeachSample/SpotlightManager/SpotlightManager.swift:130-134 | every key in the filled dictionary comes from a query item that carried that key's value |
| `QueryString.LastIndex` | SpotlightSeachSample/SpotlightManager/SpotlightManager.swift:133 | the result is the last item with the given name, or none when no item has it |
| `QueryString.LastWriteWins` | SpotlightSeachSample/SpotlightManager/SpotlightManager.swift:133 | the last item with a given name decides the entry: its value if it has one; no entry if it has none, because assigning nil deletes the key; no entry if no item has that name |
| `QueryString.ParametersOfSnoc` | SpotlightSeachSample/SpotlightManager/SpotlightManager.swift:133 | one more query item applies exactly one more assignment to the dictionary |
| `QueryString.Assign` | SpotlightSeachSample/SpotlightManager/SpotlightManager.swift:133 | a name with a value sets that key to it and one without removes the key; every other entry is kept unchanged |
| `QueryString.ParsedParameters` | SpotlightSeachSample/SpotlightManager/SpotlightManager.swift:131-134 | a string with no query gives the empty dictionary; no key holds '=' and no key or value holds '&' |
| `Spotlight.UniqueIdentifier` | SpotlightSeachSample/SpotlightManager/SpotlightManager.swift:59-64 | an identifier starts with `com.kk` and then the query mark `?`, and its length is exactly that of the prefix, the feature's raw value and the item ID, plus the `&subfeature=` part exactly when a subfeature is given; `deleteItem` rebuilds the same format at lines 106-108 |
| `Spotlight.DomainIdentifier` | SpotlightSeachSample/SpotlightManager/SpotlightManager.swift:60-63 | a domain starts with `com.kk.`, and its length is exactly that of the prefix and the feature's raw value, plus '.' and the subfeature's raw value exactly when a subfeature is given; `deleteItems` rebuilds the same format at lines 90-92 |
| `Spotlight.PngOf` | SpotlightSeachSample/SpotlightManager/SpotlightManager.swift:56 | there is PNG data exactly when there is an item image and it yields data, and then it is that image's data |
| `Spotlight.Attributes` | SpotlightSeachSample/SpotlightManager/SpotlightManager.swift:47-57 | title, item ID as identifier, description and keywords are copied unchanged; a thumbnail URL is used when given, and then there is no thumbnail data; otherwise the data is the item image's PNG, or else the app icon's |
| `Spotlight.CreateSearchableItem` | SpotlightSeachSample/SpotlightManager/SpotlightManager.swift:46-72 | the record's identifier and domain follow the wire formats for the item's feature, subfeature and ID, and it carries the item's attributes |
| `Spotlight.Navigate` | SpotlightSeachSample/SpotlightManager/SpotlightManager.swift:141-152 | navigation happens exactly when the `feature` key is present and names "home" or "settings", and then it goes to that feature; otherwise nothing happens |
| `Spotlight.SpotlightIdentifier` | SpotlightSeachSample/SpotlightManager/SpotlightManager.swift:122-123 | an identifier is extracted exactly when the activity type is the searchable-item action and a string sits under the identifier key |
| `Spotlight.SpotlightManager.constructor` | SpotlightSeachSample/SpotlightManager/SpotlightManager.swift:12-22 | a new manager has submitted nothing |
| `Spotlight.SpotlightManager.Index` | SpotlightSeachSample/SpotlightManager/SpotlightManager.swift:29-40 | one indexing request per item, in input order, each holding exactly that item's record; earlier requests unchanged; an empty list submits nothing |
| `Spotlight.SpotlightManager.DeleteAllSearchableItems` | SpotlightSeachSample/SpotlightManager/SpotlightManager.swift:77-82 | exactly one delete-all request is appended |
| `Spotlight.SpotlightManager.DeleteItems` | SpotlightSeachSample/SpotlightManager/SpotlightManager.swift:89-97 | exactly one request is appended, deleting the one domain built from the feature and optional subfeature |
| `Spotlight.SpotlightManager.DeleteItem` | SpotlightSeachSample/SpotlightManager/SpotlightManager.swift:105-114 | exactly one request is appended, deleting the one identifier built from the feature, optional subfeature and item ID |
| `Spotlight.SpotlightManager.HandleSpotlightActivity` | SpotlightSeachSample/SpotlightManager/SpotlightManager.swift:121-125 | no navigation unless the activity carries a Spotlight identifier; otherwise the decision is the one for that identifier's parameters |
| `Spotlight.SpotlightManager.ParseAndNavigate` | SpotlightSeachSample/SpotlightManager/SpotlightManager.swift:130-136 | the dictionary filled item by item is the one the parameter specification gives, and navigation is decided from it |
| `IdentifierProperties.WireFormatExampleWithSubfeature` | SpotlightSeachSample/SpotlightManager/SpotlightManager.swift:59-65 | (home, people, "42") gives `com.kk?feature=home&itemID=42&subfeature=people` and domain `com.kk.home.people` |
| `IdentifierProperties.WireFormatExampleWithoutSubfeature` | SpotlightSeachSample/SpotlightManager/SpotlightManager.swift:59-65 | (settings, nil, "7") gives `com.kk?feature=settings&itemID=7` and domain `com.kk.settings` |
| `IdentifierProperties.SafeItemIDHasNoSeparator` | SpotlightSeachSample/SpotlightManager/SpotlightManager.swift:59 | an item ID over letters, digits and `-._~` holds no '?', '&' or '=' |
| `IdentifierProperties.IdentifierRoundTrip` | SpotlightSeachSample/SpotlightManager/SpotlightManager.swift:59-65 | for a safe item ID, parsing the identifier yields exactly `feature`, `itemID` and, only when a subfeature was given, `subfeature`, with the original values and no other keys |
| `IdentifierProperties.RoundTripWithoutSubfeature` | SpotlightSeachSample/SpotlightManager/SpotlightManager.swift:59-60 | for a safe item ID and no subfeature, parsing the identifier yields exactly `feature` and `itemID` with their original values |
| `IdentifierProperties.RoundTripWithSubfeature` | SpotlightSeachSample/SpotlightManager/SpotlightManager.swift:59-65 | for a safe item ID and a subfeature, parsing the identifier yields exactly `feature`, `itemID` and `subfeature` with their original values |
| `IdentifierProperties.IdentifierDecodes` | SpotlightSeachSample/SpotlightManager/SpotlightManager.swift:59-65 | for a safe item ID, building, parsing and decoding an identifier gives back its feature, subfeature and item ID |
| `IdentifierProperties.NavigateRoundTrip` | SpotlightSeachSample/SpotlightManager/SpotlightManager.swift:141-152 | a tapped result whose identifier was built for feature f, with a safe item ID, navigates to f |
| `IdentifierProperties.IdentifierInjective` | SpotlightSeachSample/SpotlightManager/SpotlightManager.swift:59-65 | over safe item IDs, equal identifiers come only from equal feature, subfeature and item ID |
| `IdentifierProperties.SubfeatureSeparatesIdentifiers` | SpotlightSeachSample/SpotlightManager/SpotlightManager.swift:105-109 | for any item ID, identifiers that differ only in the subfeature (absent or present, or two values) are different, so a delete with one never targets a record indexed with another |
| `IdentifierProperties.DomainInjective` | SpotlightSeachSample/SpotlightManager/SpotlightManager.swift:60-63 | equal domains come only from equal feature and subfeature, so sibling subfeatures never share a domain |
| `IdentifierProperties.DomainHierarchy` | SpotlightSeachSample/SpotlightManager/SpotlightManager.swift:84-93 | a domain followed by '.' is a prefix of another domain exactly when the first has no subfeature and the second is the same feature with a subfeature |
| `IdentifierProperties.UnsafeItemIDCollides` | SpotlightSeachSample/SpotlightManager/SpotlightManager.swift:59-64 | the item ID "1&subfeature=people" under home with no subfeature gives the same identifier as item "1" under home and people, and it is not a safe item ID |
| `IdentifierProperties.DeleteTargetsIndexedRecord` | SpotlightSeachSample/SpotlightManager/SpotlightManager.swift:89-109 | the identifier a delete rebuilds equals an indexed record's identifier exactly when the arguments are the item's; likewise for domains |
| `ContextMenu.PersonItem` | SpotlightSeachSample/ViewController/ViewController.swift:104-106 | the list screen indexes each person under home, with no subfeature |
| `ContextMenu.DeleteTargetAsWritten` | SpotlightSeachSample/ViewController/ViewController.swift:135-136 | the menu's delete, as written with subfeature people, never names the record indexed for that person, whatever the name and app icon |
| `ContextMenu.DeleteTarget` | SpotlightSeachSample/ViewController/ViewController.swift:104-106 | the delete built with the arguments used for indexing (home, no subfeature) names the record indexed for that person, whatever the name and app icon |
| `ContextMenu.DeleteTargetsIndexedItem` | SpotlightSeachSample/ViewController/ViewController.swift:105-106 | deleting with the arguments used for indexing names that record, and for safe IDs no other |

## Left out

- The system index calls (`indexSearchableItems`, `deleteSearchableItems`, `deleteAllSearchableItems`). They are a closed OS service. Requests are recorded in the `submitted` log and nothing is claimed about the index's contents.
- The concurrent background queue and asynchronous submission. Execution order on a concurrent queue is unspecified, so only submission order is modelled.
- The completion handler of `indexSearchableItems`, which only logs errors, and all `print`/`debugPrint` logging.
- `UIImage` and `pngData()`: an image is modelled only by what `pngData()` returns, which may be nothing. Loading the bundled "AppIcon" image is foreign, so its result is a parameter (`appIcon`) of `Attributes`, `CreateSearchableItem` and `Index`.
- `URL` is an opaque value. `UTType.text.identifier` is the constant `TEXT_CONTENT_TYPE` ("public.text").
- `CSSearchableItemActionType` and `CSSearchableItemActivityIdentifier` are constants with the platform's string values. `NSUserActivity` is reduced to its activity type and a user-info dictionary.
- `URLComponents` is replaced by the simplified parser in `QueryString`. It does no percent-decoding, does not split off a `#` fragment, and never rejects a string. For that reason, the round-trip lemmas hold only for item IDs over letters, digits and `-._~`.
- `QueryString.QueryItems`: a query that is empty (a string ending in '?') gives one nameless item here. The platform parser may give an empty list instead. Either way no dictionary key other than the empty name is affected.
- The collection view, diffable data source, cell styling and scene lifecycle (ViewController.swift, DetailsCell.swift, SceneDelegate.swift) are UI plumbing. The one relevant fact from them is the index/delete mismatch, which `ContextMenu` covers.

## Findings

| source | as written | input that shows it | evidently intended | confidence | as-written member | corrected member |
|---|---|---|---|---|---|---|
| SpotlightSeachSample/ViewController/ViewController.swift:135-136 | the "Delete from Spotlight" action deletes with feature home, subfeature people and the item ID; the same screen indexed the item with feature home and no subfeature (lines 105-106) | item ID "1": indexed as `com.kk?feature=home&itemID=1`, delete targets `com.kk?feature=home&itemID=1&subfeature=people` | delete with the same feature and subfeature used for indexing, so the request names the indexed record | high; not executed | `ContextMenu.DeleteTargetAsWritten` | `ContextMenu.DeleteTarget` |
