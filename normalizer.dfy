/**
 * normalizeMenu: one left-to-right pass over the raw categories that repairs a
 * transcribed menu. Title-only entries are reclassified as contact lines,
 * allergen annotations or notes of the item before them, and a synthetic
 * contacts category is appended at the end.
 *
 * The pass is specified as a fold (Classify, Step, Fold, Normalize) and
 * implemented, as in script.js, by an object holding the pass's mutable
 * variables (class MenuNormalizer) driven by method NormalizeMenu.
 */
module Normalizer {
  import opened Text
  import opened Menu

  datatype Option<T> = None | Some(value: T)

  /* ---------- title classification ---------- */

  /** The title the pass looks at: title_bg || title_en || "". */
  function RawTitle(c: Category): string {
    if c.titleBg != "" then c.titleBg else c.titleEn
  }

  /** The trimmed title of a raw entry, the text every test looks at. */
  function TitleText(c: Category): string {
    Trim(RawTitle(c))
  }

  /** Length of the keyword that opens an allergen annotation, 0 when there is none (case-insensitive). */
  function AllergenKeyword(t: string): (k: nat)
    ensures k == 0 || k == 8 || k == 9
    ensures k <= |t|
  {
    if StartsWithIgnoringCase(t, "алергени") then 8
    else if StartsWithIgnoringCase(t, "allergens") then 9
    else 0
  }

  /**
   * Length of the match of /^(алергени|allergens)\s*:/i at the start of `t`,
   * or 0 when the pattern does not match.
   */
  function AllergenPrefix(t: string): (n: nat)
    ensures n <= |t|
    ensures n > 0 ==> n > AllergenKeyword(t) > 0 && t[n - 1] == ':'
    ensures n > 0 ==> AllSpace(t[AllergenKeyword(t)..n - 1])
  {
    var k := AllergenKeyword(t);
    if k == 0 then 0
    else
      var j := k + LeadingSpace(t[k..]);
      assert t[k..j] == t[k..][..j - k];
      if j < |t| && t[j] == ':' then j + 1 else 0
  }

  /** isAllergensTitle. */
  predicate IsAllergensTitle(t: string) {
    AllergenPrefix(t) > 0
  }

  /** The annotation's value: what follows the colon, trimmed. */
  function AllergenValue(t: string): string
    requires IsAllergensTitle(t)
  {
    Trim(t[AllergenPrefix(t)..])
  }

  /** isLowercaseStart: the trimmed text starts with a-z or а-я (so not with ё). */
  predicate IsLowercaseStart(title: string) {
    var t := Trim(title);
    t != [] && (('a' <= t[0] <= 'z') || ('\U{0430}' <= t[0] <= '\U{044F}'))
  }

  /** isNoteOnly, with all four of its tests. */
  predicate IsNoteOnly(c: Category, title: string) {
    if |c.items| > 0 then false
    else if title == "" then false
    else
      var t := Trim(title);
      StartsWith(t, "/") || StartsWith(t, ":") || IsAllergensTitle(t) || IsLowercaseStart(t)
  }

  /** isContactLine. */
  predicate IsContactLine(title: string) {
    var t := Trim(title);
    StartsWithIgnoringCase(t, "instagram") || StartsWithIgnoringCase(t, "телефон") || StartsWith(t, ":")
  }

  /** The replace(/^\/+/, "") of normalizeNote: the leading run of '/' removed. */
  function DropLeadingSlashes(s: string): (r: string)
    ensures |r| <= |s|
    ensures forall i :: 0 <= i < |s| - |r| ==> s[i] == '/'
    ensures r == [] || r[0] != '/'
  {
    if s != [] && s[0] == '/' then DropLeadingSlashes(s[1..]) else s
  }

  lemma {:induction false} DropLeadingIsSuffix(s: string)
    ensures DropLeadingSlashes(s) == s[|s| - |DropLeadingSlashes(s)|..]
  {
    if s != [] && s[0] == '/' {
      DropLeadingIsSuffix(s[1..]);
    }
  }

  /** The replace(/\/+$/, "") of normalizeNote: the trailing run of '/' removed. */
  function DropTrailingSlashes(s: string): (r: string)
    ensures |r| <= |s|
    ensures forall i :: |r| <= i < |s| ==> s[i] == '/'
    ensures r == [] || r[|r| - 1] != '/'
  {
    if s != [] && s[|s| - 1] == '/' then DropTrailingSlashes(s[..|s| - 1]) else s
  }

  lemma {:induction false} DropTrailingIsPrefix(s: string)
    ensures DropTrailingSlashes(s) == s[..|DropTrailingSlashes(s)|]
  {
    if s != [] && s[|s| - 1] == '/' {
      DropTrailingIsPrefix(s[..|s| - 1]);
    }
  }

  /** normalizeNote: trim, drop the leading and the trailing run of '/', trim again. */
  function NormalizeNote(text: string): (note: string)
    ensures |note| <= |text|
  {
    Trim(DropTrailingSlashes(DropLeadingSlashes(Trim(text))))
  }

  /** The role a raw category plays, tested in the order of normalizeMenu's if-chain. */
  datatype Kind = Blank | ContactLine | AllergenLine | NoteLine | Heading | Fallback

  function Classify(c: Category): Kind {
    var t := TitleText(c);
    var hasItems := |c.items| > 0;
    if t == "" && !hasItems then Blank
    else if !hasItems && IsContactLine(t) then ContactLine
    else if IsAllergensTitle(t) then AllergenLine
    else if IsNoteOnly(c, t) then NoteLine
    else if hasItems then Heading
    else Fallback
  }

  /* ---------- the fold ---------- */

  /**
   * The state the pass carries: the output categories and the contact lines.
   * The open category (`current`) is the last one, when there is one, and the
   * last appended item (`lastItem`) is the last item of the open category,
   * when it has one; class MenuNormalizer proves that of normalizeMenu's cursors.
   */
  datatype Acc = Acc(categories: seq<Category>, infoLines: seq<string>)

  const Others: string := "Други"

  predicate HasLastItem(cats: seq<Category>) {
    cats != [] && cats[|cats| - 1].items != []
  }

  function LastItem(cats: seq<Category>): Item
    requires HasLastItem(cats)
  {
    var items := cats[|cats| - 1].items;
    items[|items| - 1]
  }

  /** The categories with the last item of the last category replaced by `it`. */
  function WithLastItem(cats: seq<Category>, it: Item): (r: seq<Category>)
    requires HasLastItem(cats)
    ensures |r| == |cats| && HasLastItem(r) && LastItem(r) == it
  {
    var c := cats[|cats| - 1];
    cats[|cats| - 1 := c.(items := c.items[|c.items| - 1 := it])]
  }

  /** addItemsToCurrent: open an "Други" bucket if nothing is open, then append the items. */
  function AddItems(cats: seq<Category>, items: seq<Item>): (r: seq<Category>)
    ensures r != []
  {
    var cs := if cats == [] then [Category(Others, Others, [])] else cats;
    var c := cs[|cs| - 1];
    cs[..|cs| - 1] + [c.(items := c.items + items)]
  }

  /** addNotes: append the normalised note to the last item, if there is one and the note is not empty. */
  function AddNote(cats: seq<Category>, text: string): seq<Category> {
    var note := NormalizeNote(text);
    if HasLastItem(cats) && note != "" then
      WithLastItem(cats, LastItem(cats).(notes := LastItem(cats).notes + [note]))
    else cats
  }

  /** An allergen annotation fills the last item's allergens only when they are still empty. */
  function SetAllergens(cats: seq<Category>, value: string): seq<Category> {
    if value != "" && HasLastItem(cats) && LastItem(cats).allergens == "" then
      WithLastItem(cats, LastItem(cats).(allergens := value))
    else cats
  }

  /** The category a heading with items opens; a missing title falls back to the trimmed title. */
  function HeadingCategory(c: Category): Category {
    var t := TitleText(c);
    Category(if c.titleBg != "" then c.titleBg else t, if c.titleEn != "" then c.titleEn else t, [])
  }

  /** One iteration of the pass over the raw categories: classify the entry, then take its branch. */
  function Step(acc: Acc, c: Category): Acc {
    Apply(acc, c, Classify(c), TitleText(c))
  }

  /** What the branch for `kind` does with the entry `c`, whose trimmed title is `t`. */
  function Apply(acc: Acc, c: Category, kind: Kind, t: string): Acc
    requires kind == AllergenLine ==> IsAllergensTitle(t)
  {
    match kind
    case Blank => acc
    case ContactLine => acc.(infoLines := acc.infoLines + [t])
    case AllergenLine =>
      var cats := SetAllergens(acc.categories, AllergenValue(t));
      acc.(categories := if |c.items| > 0 then AddItems(cats, c.items) else cats)
    case NoteLine => acc.(categories := AddNote(acc.categories, t))
    case Heading => acc.(categories := AddItems(acc.categories + [HeadingCategory(c)], c.items))
    case Fallback =>
      if acc.categories == [] then acc.(categories := [Category(t, t, [])]) else acc
  }

  function Fold(raw: seq<Category>): Acc {
    if raw == [] then Acc([], []) else Step(Fold(raw[..|raw| - 1]), raw[|raw| - 1])
  }

  function ContactItem(line: string): Item {
    Item(line, line, "", "", "", [])
  }

  function ContactItems(lines: seq<string>): (items: seq<Item>)
    ensures |items| == |lines|
    ensures forall k :: 0 <= k < |lines| ==> items[k] == ContactItem(lines[k])
  {
    if lines == [] then [] else ContactItems(lines[..|lines| - 1]) + [ContactItem(lines[|lines| - 1])]
  }

  function ContactsCategory(lines: seq<string>): Category {
    Category("Контакти", "Contacts", ContactItems(lines))
  }

  /** normalizeMenu as a value-level function. */
  function Normalize(data: MenuDoc): MenuDoc {
    var acc := Fold(data.categories);
    var extra := if acc.infoLines != [] then [ContactsCategory(acc.infoLines)] else [];
    MenuDoc(data.titleBg, data.titleEn, data.currency, acc.categories + extra)
  }

  /* ---------- the imperative pass of normalizeMenu ---------- */

  /** A reference to an item held in the output: category index and item index. */
  datatype ItemRef = ItemRef(cat: nat, pos: nat)

  /**
   * The variables normalizeMenu's closures share: `normalized.categories`,
   * `infoLines`, and the two cursors `current` and `lastItem`, here indices
   * into the output instead of object references.
   */
  class MenuNormalizer {
    var categories: seq<Category>
    var infoLines: seq<string>
    var current: Option<nat>
    var lastItem: Option<ItemRef>

    /** `current` is the last output category exactly when there is one. */
    ghost predicate CurrentOk()
      reads this
    {
      current == (if categories == [] then None else Some(|categories| - 1))
    }

    /** `lastItem` is the last item of the open category exactly when it has one. */
    ghost predicate LastOk()
      reads this
    {
      lastItem == (if HasLastItem(categories)
                   then Some(ItemRef(|categories| - 1, |categories[|categories| - 1].items| - 1))
                   else None)
    }

    ghost predicate Valid()
      reads this
    {
      CurrentOk() && LastOk()
    }

    ghost function State(): Acc
      reads this
    {
      Acc(categories, infoLines)
    }

    constructor ()
      ensures Valid() && State() == Acc([], [])
    {
      categories, infoLines := [], [];
      current, lastItem := None, None;
    }

    predicate Holds(r: ItemRef)
      reads this
    {
      r.cat < |categories| && r.pos < |categories[r.cat].items|
    }

    function ItemAt(r: ItemRef): Item
      reads this
      requires Holds(r)
    {
      categories[r.cat].items[r.pos]
    }

    /** Overwrite the item `r` refers to (normalizeMenu mutates it through `lastItem`). */
    method SetItem(r: ItemRef, it: Item)
      requires Holds(r)
      modifies this
      ensures categories == old(categories[r.cat := categories[r.cat].(items := categories[r.cat].items[r.pos := it])])
      ensures infoLines == old(infoLines) && current == old(current) && lastItem == old(lastItem)
    {
      var c := categories[r.cat];
      categories := categories[r.cat := c.(items := c.items[r.pos := it])];
    }

    /** addNotes. */
    method AddNotes(text: string)
      requires Valid()
      modifies this
      ensures Valid()
      ensures State() == old(State()).(categories := AddNote(old(categories), text))
    {
      if lastItem.None? {
        return;
      }
      var note := NormalizeNote(text);
      if note == "" {
        return;
      }
      var it := ItemAt(lastItem.value);
      SetItem(lastItem.value, it.(notes := it.notes + [note]));
      assert categories == WithLastItem(old(categories), it.(notes := it.notes + [note]));
    }

    /** addItemsToCurrent: each item is copied (its notes defaulting to []) and becomes `lastItem`. */
    method AddItemsToCurrent(items: seq<Item>)
      requires CurrentOk()
      modifies this
      ensures CurrentOk() && infoLines == old(infoLines)
      ensures categories == AddItems(old(categories), items)
      ensures items != [] ==> LastOk()
      ensures items == [] ==> lastItem == old(lastItem)
    {
      if current.None? {
        current := Some(|categories|);
        categories := categories + [Category(Others, Others, [])];
      }
      ghost var start := categories;
      var cur := current.value;
      assert items[..0] == [];
      var i := 0;
      while i < |items|
        invariant 0 <= i <= |items|
        invariant |categories| == |start| && cur == |categories| - 1 && CurrentOk()
        invariant categories[..cur] == start[..cur]
        invariant categories[cur] == start[cur].(items := start[cur].items + items[..i])
        invariant infoLines == old(infoLines)
        invariant i > 0 ==> LastOk()
        invariant i == 0 ==> lastItem == old(lastItem)
      {
        var newItem := items[i];
        var c := categories[cur];
        categories := categories[cur := c.(items := c.items + [newItem])];
        lastItem := Some(ItemRef(cur, |c.items|));
        assert items[..i + 1] == items[..i] + [items[i]];
        i := i + 1;
      }
      assert items[..i] == items;
      assert categories == start[..cur] + [categories[cur]];
    }

    /** The allergen branch: fill the last item's allergens if still empty, then add the entry's items. */
    method AddAllergens(trimmedTitle: string, items: seq<Item>)
      requires Valid() && IsAllergensTitle(trimmedTitle)
      modifies this
      ensures Valid()
      ensures var cats := SetAllergens(old(categories), AllergenValue(trimmedTitle));
              State() == old(State()).(categories := if |items| > 0 then AddItems(cats, items) else cats)
    {
      var allergens := AllergenValue(trimmedTitle);
      if allergens != "" && lastItem.Some? && ItemAt(lastItem.value).allergens == "" {
        SetItem(lastItem.value, ItemAt(lastItem.value).(allergens := allergens));
      }
      assert categories == SetAllergens(old(categories), allergens);
      if |items| > 0 {
        AddItemsToCurrent(items);
      }
    }

    /** The heading branch: open a new category for the entry and add its items. */
    method OpenHeading(category: Category, trimmedTitle: string)
      requires Valid() && |category.items| > 0 && trimmedTitle == TitleText(category)
      modifies this
      ensures Valid()
      ensures State() == old(State()).(categories := AddItems(old(categories) + [HeadingCategory(category)], category.items))
    {
      current := Some(|categories|);
      categories := categories + [Category(
        if category.titleBg != "" then category.titleBg else trimmedTitle,
        if category.titleEn != "" then category.titleEn else trimmedTitle,
        [])];
      AddItemsToCurrent(category.items);
    }

    /** The last branch: a title-only entry opens a category only when none is open yet. */
    method OpenFallback(trimmedTitle: string)
      requires Valid()
      modifies this
      ensures Valid()
      ensures State() == if old(categories) == [] then old(State()).(categories := [Category(trimmedTitle, trimmedTitle, [])])
                         else old(State())
    {
      if current.None? {
        current := Some(|categories|);
        categories := categories + [Category(trimmedTitle, trimmedTitle, [])];
        lastItem := None;
      }
    }

    /**
     * The body of the forEach over the raw categories. Classify runs the
     * chain of tests of normalizeMenu in its order; each branch does what
     * the corresponding block of the chain does.
     */
    method Visit(category: Category)
      requires Valid()
      modifies this
      ensures Valid()
      ensures State() == Step(old(State()), category)
    {
      var title := if category.titleBg != "" then category.titleBg else category.titleEn;
      var trimmedTitle := Trim(title);
      match Classify(category)
      case Blank =>
      case ContactLine =>
        infoLines := infoLines + [trimmedTitle];
      case AllergenLine =>
        AddAllergens(trimmedTitle, category.items);
      case NoteLine =>
        AddNotes(trimmedTitle);
      case Heading =>
        OpenHeading(category, trimmedTitle);
      case Fallback =>
        OpenFallback(trimmedTitle);
    }
  }

  lemma FoldNext(raw: seq<Category>, i: nat)
    requires i < |raw|
    ensures Fold(raw[..i + 1]) == Step(Fold(raw[..i]), raw[i])
  {
    assert raw[..i + 1][..i] == raw[..i];
  }

  /** normalizeMenu: the pass over the raw categories, then the contacts category. */
  method NormalizeMenu(data: MenuDoc) returns (normalized: MenuDoc)
    ensures normalized == Normalize(data)
  {
    var pass := new MenuNormalizer();
    var i := 0;
    while i < |data.categories|
      invariant 0 <= i <= |data.categories|
      invariant pass.Valid()
      invariant pass.State() == Fold(data.categories[..i])
    {
      FoldNext(data.categories, i);
      pass.Visit(data.categories[i]);
      i := i + 1;
    }
    assert data.categories[..i] == data.categories;
    var categories := pass.categories;
    if pass.infoLines != [] {
      var items := ContactLinesToItems(pass.infoLines);
      categories := categories + [Category("Контакти", "Contacts", items)];
    }
    normalized := MenuDoc(data.titleBg, data.titleEn, data.currency, categories);
  }

  /** The map of the contact lines to items at the end of normalizeMenu. */
  method ContactLinesToItems(lines: seq<string>) returns (items: seq<Item>)
    ensures items == ContactItems(lines)
  {
    items := [];
    var k := 0;
    while k < |lines|
      invariant 0 <= k <= |lines|
      invariant items == ContactItems(lines[..k])
    {
      assert lines[..k + 1][..k] == lines[..k];
      items := items + [ContactItem(lines[k])];
      k := k + 1;
    }
    assert lines[..k] == lines;
  }
}
