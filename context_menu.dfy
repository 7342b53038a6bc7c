/**
 * The list screen's use of the manager: it indexes each person under the home
 * feature with no subfeature, and its "Delete from Spotlight" menu action
 * deletes by feature home, subfeature people and the item ID. The two do not
 * agree, so the delete request never names a record the screen indexed.
 */
module ContextMenu {
  import opened Wrappers
  import opened SpotlightModel
  import opened Spotlight
  import opened IdentifierProperties

  /** The item the list screen indexes for one person. */
  function PersonItem(id: string, name: string): (r: SpotlightItem)
    ensures r.itemID == id && r.title == name
    ensures r.feature == Home && r.subfeature.None?
  {
    NewSpotlightItemWithDefaults(id, name, Home)
  }

  /**
   * The identifier the menu action asks to delete, as the screen is written:
   * for every person it misses the record the screen indexed.
   */
  function DeleteTargetAsWritten(id: string): (r: string)
    ensures forall name, appIcon :: r != CreateSearchableItem(PersonItem(id, name), appIcon).uniqueIdentifier
  {
    UniqueIdentifier(Home, Some(People), id)
  }

  /**
   * The identifier the menu action must ask to delete: the same arguments the
   * screen indexed with, so it names the indexed record of every person.
   */
  function DeleteTarget(id: string): (r: string)
    ensures forall name, appIcon :: r == CreateSearchableItem(PersonItem(id, name), appIcon).uniqueIdentifier
  {
    UniqueIdentifier(Home, None, id)
  }

  /** Corrected, the delete request names exactly the indexed record, and for a safe ID no other. */
  lemma DeleteTargetsIndexedItem(id: string, name: string, appIcon: Option<Image>, other: SpotlightItem)
    requires IsSafeItemID(id) && IsSafeItemID(other.itemID)
    ensures DeleteTarget(id) == CreateSearchableItem(PersonItem(id, name), appIcon).uniqueIdentifier
    ensures DeleteTarget(id) == CreateSearchableItem(other, appIcon).uniqueIdentifier
      <==> other.feature == Home && other.subfeature.None? && other.itemID == id
  {
    DeleteTargetsIndexedRecord(other, appIcon, Home, None, id);
  }
}
