/** The `getType()` tags of the cheat-sheet objects modelled here. */
module CheatSheetObjectTypes {
  import opened CheatSheet
  import CheatSheetSubItem
  import CheatSheetDescription

  /** `getType()` is constant per class and tells a description from a sub-item. */
  lemma ObjectTypesDiffer(item: CheatSheetSubItem.SimpleCSSubItem, d: CheatSheetDescription.SimpleCSDescription)
    ensures item.GetType() == TypeSubItem && d.GetType() == TypeDescription
    ensures item.GetType() != d.GetType()
  {
  }
}
