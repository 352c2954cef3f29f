/**
 * estimateItemLines and buildPages: a greedy packer that lays the normalised
 * categories out on pages under a line budget.
 *
 * Every cost constant of estimateItemLines and buildPages is a multiple of
 * 0.1 line, so costs are counted here in tenths of a line: a heading costs 14,
 * the placeholder of an empty category 12, an item at least 16, and a page
 * holds 10 * linesPerPage.
 *
 * The packing is specified by a fold (Open, Place, PackCats, PackItems, Pack)
 * whose state also records, for every section, the index of the category it
 * comes from; method BuildPages is the nested loop of buildPages, proved to
 * build the pages of that fold. What the fold guarantees is proved in PackerProps.
 */
module Packer {
  import opened Text
  import opened Menu

  type Pos = n: int | n > 0 witness 1

  /** The { linesPerPage, charsPerLine } the packer is given. */
  datatype Metrics = Metrics(linesPerPage: int, charsPerLine: Pos)

  /** A slice of one category on one page: its titles and some of its items. */
  datatype Section = Section(titleBg: string, titleEn: string, items: seq<Item>)

  datatype Page = Cover | CategoryPage(sections: seq<Section>)

  const TitleCost: int := 14
  const EmptyCost: int := 12

  /** The page budget in tenths of a line. */
  function Budget(m: Metrics): int {
    10 * m.linesPerPage
  }

  /**
   * Math.floor(a / b) for a non-negative length and a positive width, by
   * repeated subtraction: a recursive definition keeps division by a variable
   * out of every proof that mentions an item's cost; FloorDivSpec states
   * that it is the floor of the quotient.
   */
  function FloorDiv(a: nat, b: Pos): nat
    decreases a
  {
    if a < b then 0 else 1 + FloorDiv(a - b, b)
  }

  /** Math.ceil(a / b) for a non-negative length and a positive width. */
  function CeilDiv(a: nat, b: Pos): nat {
    if a == 0 then 0 else 1 + FloorDiv(a - 1, b)
  }

  /** FloorDiv is the floor of the quotient. */
  lemma {:induction false} FloorDivSpec(a: nat, b: Pos)
    ensures b * FloorDiv(a, b) <= a < b * (FloorDiv(a, b) + 1)
    decreases a
  {
    if a >= b {
      FloorDivSpec(a - b, b);
    }
  }

  /** CeilDiv is the ceiling of the quotient. */
  lemma CeilDivSpec(a: nat, b: Pos)
    ensures b * (CeilDiv(a, b) - 1) < a <= b * CeilDiv(a, b)
  {
    if a > 0 {
      FloorDivSpec(a - 1, b);
    }
  }

  /**
   * estimateItemLines, in tenths: 1.2 for the row, one line per full
   * charsPerLine of the name, 0.9 per started line of allergens, at least one
   * line of notes when there are notes, and a 0.4 margin.
   */
  function ItemCost(item: Item, lang: Lang, cpl: Pos): (cost: int)
    ensures cost >= 16
  {
    var nameLines := FloorDiv(|ItemName(item, lang)|, cpl);
    var allergenLines := if item.allergens != "" then CeilDiv(|item.allergens|, cpl) else 0;
    var noteLines := if item.notes != [] then AtLeastOne(CeilDiv(|Join(item.notes, " ")|, cpl)) else 0;
    12 + 10 * nameLines + 9 * allergenLines + 10 * noteLines + 4
  }

  function AtLeastOne(n: nat): (r: nat)
    ensures r >= 1 && r >= n && (n >= 1 ==> r == n)
  {
    if n < 1 then 1 else n
  }

  function ItemsCost(items: seq<Item>, lang: Lang, cpl: Pos): int {
    if items == [] then 0
    else ItemsCost(items[..|items| - 1], lang, cpl) + ItemCost(items[|items| - 1], lang, cpl)
  }

  /** What a section adds to its page: the heading, then the placeholder or the items. */
  function SectionCost(s: Section, lang: Lang, cpl: Pos): int {
    TitleCost + (if s.items == [] then EmptyCost else ItemsCost(s.items, lang, cpl))
  }

  /** The usedLines of a page holding `secs`. */
  function SecsCost(secs: seq<Section>, lang: Lang, cpl: Pos): int {
    if secs == [] then 0
    else SecsCost(secs[..|secs| - 1], lang, cpl) + SectionCost(secs[|secs| - 1], lang, cpl)
  }

  /* ---------- the packing fold ---------- */

  /**
   * The packer's state: the finished pages, the open page's sections and its
   * usedLines. `doneOwners` and `owners` give, section by section, the index
   * of the category each section was cut from.
   */
  datatype Packing = Packing(
    done: seq<seq<Section>>,
    doneOwners: seq<seq<nat>>,
    secs: seq<Section>,
    owners: seq<nat>,
    used: int)

  const Start: Packing := Packing([], [], [], [], 0)

  /** pushPage: keep the open page if it has a section, then start an empty one. */
  function Flush(st: Packing): Packing {
    if st.secs != [] then Packing(st.done + [st.secs], st.doneOwners + [st.owners], [], [], 0)
    else Packing(st.done, st.doneOwners, [], [], 0)
  }

  /** addSection plus the heading's cost. */
  function AddSection(st: Packing, c: Category, ci: nat): (r: Packing)
    ensures r.secs != []
  {
    st.(secs := st.secs + [Section(c.titleBg, c.titleEn, [])], owners := st.owners + [ci], used := st.used + TitleCost)
  }

  /** What buildPages does for category number `ci` before its items. */
  function Open(st: Packing, c: Category, ci: nat, m: Metrics): (r: Packing)
    ensures r.secs != []
  {
    var st1 := if st.used + TitleCost + EmptyCost > Budget(m) && st.secs != [] then Flush(st) else st;
    var st2 := AddSection(st1, c, ci);
    if c.items == [] then st2.(used := st2.used + EmptyCost) else st2
  }

  function AppendToLast(secs: seq<Section>, x: Item): (r: seq<Section>)
    requires secs != []
    ensures |r| == |secs| && forall k :: 0 <= k < |r| - 1 ==> r[k] == secs[k]
    ensures r[|r| - 1] == secs[|secs| - 1].(items := secs[|secs| - 1].items + [x])
  {
    var s := secs[|secs| - 1];
    secs[|secs| - 1 := s.(items := s.items + [x])]
  }

  /** What buildPages does for one item of category number `ci`, whose estimated cost is `cost`. */
  function Place(st: Packing, c: Category, ci: nat, x: Item, cost: int, m: Metrics): (r: Packing)
    requires st.secs != []
    ensures r.secs != [] && r.secs[|r.secs| - 1].items != []
  {
    var st1 := if st.used + cost > Budget(m) && st.secs[|st.secs| - 1].items != []
               then AddSection(Flush(st), c, ci) else st;
    st1.(secs := AppendToLast(st1.secs, x), used := st1.used + cost)
  }

  /** Items 0 .. j - 1 of category number `ci`, placed one after another from `st`. */
  function PlaceAll(st: Packing, c: Category, ci: nat, j: nat, lang: Lang, m: Metrics): (r: Packing)
    requires st.secs != [] && j <= |c.items|
    ensures r.secs != []
  {
    if j == 0 then st
    else
      var x := c.items[j - 1];
      Place(PlaceAll(st, c, ci, j - 1, lang, m), c, ci, x, ItemCost(x, lang, m.charsPerLine), m)
  }

  /** The state after the first `n` categories. */
  function PackCats(cats: seq<Category>, n: nat, lang: Lang, m: Metrics): Packing
    requires n <= |cats|
  {
    if n == 0 then Start
    else
      var i := n - 1;
      PlaceAll(Open(PackCats(cats, i, lang, m), cats[i], i, m), cats[i], i, |cats[i].items|, lang, m)
  }

  /** The state after the first `i` categories, the heading of category `i` and its first `j` items. */
  function PackItems(cats: seq<Category>, i: nat, j: nat, lang: Lang, m: Metrics): (st: Packing)
    requires i < |cats| && j <= |cats[i].items|
    ensures st.secs != []
  {
    PlaceAll(Open(PackCats(cats, i, lang, m), cats[i], i, m), cats[i], i, j, lang, m)
  }

  /** The final state: every category packed and the last page pushed. */
  function Pack(cats: seq<Category>, lang: Lang, m: Metrics): Packing {
    Flush(PackCats(cats, |cats|, lang, m))
  }

  function AsPages(book: seq<seq<Section>>): (pages: seq<Page>)
    ensures |pages| == |book|
    ensures forall p :: 0 <= p < |book| ==> pages[p] == CategoryPage(book[p])
  {
    if book == [] then [] else AsPages(book[..|book| - 1]) + [CategoryPage(book[|book| - 1])]
  }

  /* ---------- the loop of buildPages ---------- */

  /**
   * buildPages: the cover, then the category pages of the packing. The
   * language is the one getItemName reads.
   */
  method BuildPages(data: MenuDoc, lang: Lang, metrics: Metrics) returns (pages: seq<Page>)
    ensures pages == [Cover] + AsPages(Pack(data.categories, lang, metrics).done)
  {
    var cats := data.categories;
    pages := [Cover];
    var sections: seq<Section> := [];
    var used := 0;
    var i := 0;
    while i < |cats|
      invariant 0 <= i <= |cats| && Holds(pages, sections, used, PackCats(cats, i, lang, metrics))
    {
      pages, sections, used := PackCategory(pages, sections, used, cats, i, lang, metrics);
      i := i + 1;
    }
    if |sections| > 0 {
      PushPage(pages, PackCats(cats, i, lang, metrics).done, sections);
      pages := pages + [CategoryPage(sections)];
    }
    PagedAsPages(pages, Pack(cats, lang, metrics).done);
  }

  /** The body of the forEach over categories, for category number `ci`. */
  method PackCategory(pages: seq<Page>, sections: seq<Section>, used: int, cats: seq<Category>, i: nat,
                      lang: Lang, metrics: Metrics)
    returns (pages': seq<Page>, sections': seq<Section>, used': int)
    requires i < |cats| && Holds(pages, sections, used, PackCats(cats, i, lang, metrics))
    ensures Holds(pages', sections', used', PackCats(cats, i + 1, lang, metrics))
  {
    ghost var st := PackCats(cats, i, lang, metrics);
    pages', sections', used' := OpenCategory(pages, sections, used, cats[i], metrics, st, i);
    pages', sections', used' := PlaceItems(pages', sections', used', cats[i], i, lang, metrics, Open(st, cats[i], i, metrics));
  }

  /** The start of the forEach body over categories: a new page if the heading and placeholder do not fit, then the section. */
  method OpenCategory(pages: seq<Page>, sections: seq<Section>, used: int, category: Category,
                      metrics: Metrics, ghost st: Packing, ghost ci: nat)
    returns (pages': seq<Page>, sections': seq<Section>, used': int)
    requires Paged(pages, st.done) && sections == st.secs && used == st.used
    ensures var r := Open(st, category, ci, metrics);
            Paged(pages', r.done) && sections' == r.secs && used' == r.used
  {
    pages', sections', used' := pages, sections, used;
    if used' + TitleCost + EmptyCost > 10 * metrics.linesPerPage && |sections'| > 0 {
      PushPage(pages', st.done, sections');
      pages' := pages' + [CategoryPage(sections')];
      sections', used' := [], 0;
    }
    sections' := sections' + [Section(category.titleBg, category.titleEn, [])];
    used' := used' + TitleCost;
    if |category.items| == 0 {
      used' := used' + EmptyCost;
    }
  }

  /** The forEach over the items of category number `ci`, after its heading. */
  method PlaceItems(pages: seq<Page>, sections: seq<Section>, used: int, category: Category, ci: nat,
                    lang: Lang, metrics: Metrics, ghost st: Packing)
    returns (pages': seq<Page>, sections': seq<Section>, used': int)
    requires Paged(pages, st.done) && sections == st.secs && used == st.used && st.secs != []
    ensures var r := PlaceAll(st, category, ci, |category.items|, lang, metrics);
            Paged(pages', r.done) && sections' == r.secs && used' == r.used
  {
    pages', sections', used' := pages, sections, used;
    var j := 0;
    while j < |category.items|
      invariant 0 <= j <= |category.items| && Holds(pages', sections', used', PlaceAll(st, category, ci, j, lang, metrics))
    {
      pages', sections', used' := PlaceNext(pages', sections', used', category, ci, j, lang, metrics, st);
      j := j + 1;
    }
  }

  /** One turn of the forEach over a category's items: item number `j` placed after the first `j`. */
  method PlaceNext(pages: seq<Page>, sections: seq<Section>, used: int, category: Category, ci: nat, j: nat,
                   lang: Lang, metrics: Metrics, ghost st: Packing)
    returns (pages': seq<Page>, sections': seq<Section>, used': int)
    requires st.secs != [] && j < |category.items|
    requires Holds(pages, sections, used, PlaceAll(st, category, ci, j, lang, metrics))
    ensures Holds(pages', sections', used', PlaceAll(st, category, ci, j + 1, lang, metrics))
  {
    var item := category.items[j];
    var cost := ItemCost(item, lang, metrics.charsPerLine);
    pages', sections', used' := PlaceItem(pages, sections, used, category, item, cost, metrics,
                                          PlaceAll(st, category, ci, j, lang, metrics), ci);
  }

  /** The body of the forEach over a category's items. */
  method PlaceItem(pages: seq<Page>, sections: seq<Section>, used: int, category: Category, item: Item,
                   cost: int, metrics: Metrics, ghost st: Packing, ghost ci: nat)
    returns (pages': seq<Page>, sections': seq<Section>, used': int)
    requires Paged(pages, st.done) && sections == st.secs && used == st.used && st.secs != []
    ensures var r := Place(st, category, ci, item, cost, metrics);
            Paged(pages', r.done) && sections' == r.secs && used' == r.used
  {
    pages', sections', used' := pages, sections, used;
    if used' + cost > 10 * metrics.linesPerPage && |sections'[|sections'| - 1].items| > 0 {
      PushPage(pages', st.done, sections');
      pages' := pages' + [CategoryPage(sections')];
      sections' := [Section(category.titleBg, category.titleEn, [])];
      used' := TitleCost;
    }
    var s := sections'[|sections'| - 1];
    sections' := sections'[|sections'| - 1 := s.(items := s.items + [item])];
    used' := used' + cost;
  }

  /** `pages` is the cover followed by one category page per finished page of `book`. */
  predicate Paged(pages: seq<Page>, book: seq<seq<Section>>) {
    |pages| == |book| + 1 && pages[0] == Cover
    && forall p :: 0 <= p < |book| ==> pages[p + 1] == CategoryPage(book[p])
  }

  /** The loop variables pages, sections and used hold the fold state `st`. */
  predicate Holds(pages: seq<Page>, sections: seq<Section>, used: int, st: Packing) {
    Paged(pages, st.done) && sections == st.secs && used == st.used
  }

  /** pushPage on both sides. */
  lemma PushPage(pages: seq<Page>, book: seq<seq<Section>>, secs: seq<Section>)
    requires Paged(pages, book)
    ensures Paged(pages + [CategoryPage(secs)], book + [secs])
  {
  }

  lemma PagedAsPages(pages: seq<Page>, book: seq<seq<Section>>)
    requires Paged(pages, book)
    ensures pages == [Cover] + AsPages(book)
  {
  }
}
