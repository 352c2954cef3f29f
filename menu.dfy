/**
 * The menu document and the two language accessors.
 *
 * The raw document read from JSON and the normalised menu have the same shape,
 * so one set of datatypes serves both. A field the JSON leaves out is the empty
 * string (titles, names, allergens) or the empty sequence (items, notes);
 * script.js treats a missing field and an empty one alike everywhere it tests
 * them.
 */
module Menu {

  /** The display language: "bg" is the default, "en" the alternate. */
  datatype Lang = Bg | En

  datatype Item = Item(
    nameBg: string,
    nameEn: string,
    qty: string,
    price: string,
    allergens: string,
    notes: seq<string>)

  datatype Category = Category(titleBg: string, titleEn: string, items: seq<Item>)

  datatype MenuDoc = MenuDoc(titleBg: string, titleEn: string, currency: string, categories: seq<Category>)

  /** getCategoryTitle: the English title when it is asked for and present, else the Bulgarian one. */
  function CategoryTitle(c: Category, lang: Lang): (title: string)
    ensures lang == Bg ==> title == c.titleBg
    ensures lang == En ==> title == (if c.titleEn != "" then c.titleEn else c.titleBg)
    ensures title == "" ==> c.titleBg == "" && (lang == En ==> c.titleEn == "")
  {
    if lang == En && c.titleEn != "" then c.titleEn else c.titleBg
  }

  /** getItemName: the English name when it is asked for and present, else the Bulgarian one. */
  function ItemName(item: Item, lang: Lang): (name: string)
    ensures lang == Bg ==> name == item.nameBg
    ensures lang == En ==> name == (if item.nameEn != "" then item.nameEn else item.nameBg)
    ensures name == "" ==> item.nameBg == "" && (lang == En ==> item.nameEn == "")
  {
    if lang == En && item.nameEn != "" then item.nameEn else item.nameBg
  }

  /** Every item of `cats`, category by category, in order. */
  function AllItems(cats: seq<Category>): seq<Item> {
    if cats == [] then [] else AllItems(cats[..|cats| - 1]) + cats[|cats| - 1].items
  }

  lemma AllItemsAppend(cats: seq<Category>, c: Category)
    ensures AllItems(cats + [c]) == AllItems(cats) + c.items
  {
    assert (cats + [c])[..|cats|] == cats;
  }
}
