/**
 * What the packing fold of module Packer guarantees about the pages
 * buildPages returns: every item lands on exactly one page in menu order,
 * every category becomes one or more consecutive sections under its titles,
 * a page ends only for the two reasons buildPages tests, and a page keeps
 * within the budget wherever buildPages did not break.
 */
module PackerProps {
  import opened Menu
  import opened Packer

  /** The pages of a book one after another. */
  function Flat<T>(book: seq<seq<T>>): seq<T> {
    if book == [] then [] else Flat(book[..|book| - 1]) + book[|book| - 1]
  }

  lemma FlatPush<T>(book: seq<seq<T>>, page: seq<T>)
    ensures Flat(book + [page]) == Flat(book) + page
  {
    assert (book + [page])[..|book|] == book;
  }

  /** The items of `secs`, section after section. */
  function SectionItems(secs: seq<Section>): seq<Item> {
    if secs == [] then [] else SectionItems(secs[..|secs| - 1]) + secs[|secs| - 1].items
  }

  lemma SectionItemsPush(secs: seq<Section>, s: Section)
    ensures SectionItems(secs + [s]) == SectionItems(secs) + s.items
  {
    assert (secs + [s])[..|secs|] == secs;
  }

  lemma SectionItemsAppend(secs: seq<Section>, x: Item)
    requires secs != []
    ensures SectionItems(AppendToLast(secs, x)) == SectionItems(secs) + [x]
  {
    var r := AppendToLast(secs, x);
    assert r[..|r| - 1] == secs[..|secs| - 1];
  }

  predicate SameTitles(s: Section, c: Category) {
    s.titleBg == c.titleBg && s.titleEn == c.titleEn
  }

  /** The owners run through 0, 1, ..., n - 1 in order, one or more sections each. */
  predicate OwnersOk(n: nat, owners: seq<nat>) {
    (owners == [] <==> n == 0)
    && (owners != [] ==> owners[0] == 0 && owners[|owners| - 1] == n - 1)
    && (forall a, b :: 0 <= a <= b < |owners| ==> owners[a] <= owners[b] <= owners[a] + (b - a))
  }

  /**
   * Section k is cut from category owners[k] of `view`: it carries that
   * category's titles, it is empty exactly when the category is, and only
   * the first section of a category can be empty.
   */
  predicate SectionsOk(view: seq<Category>, secs: seq<Section>, owners: seq<nat>) {
    |secs| == |owners|
    && (forall k :: 0 <= k < |owners| ==>
          owners[k] < |view| && SameTitles(secs[k], view[owners[k]])
          && (secs[k].items == [] <==> view[owners[k]].items == []))
    && (forall a, b :: 0 <= a < b < |owners| && owners[a] == owners[b] ==> secs[b].items != [])
  }

  /** The items of the sections cut from category `i`, section after section. */
  function OwnedItems(secs: seq<Section>, owners: seq<nat>, i: nat): seq<Item>
    requires |secs| == |owners|
  {
    if secs == [] then []
    else
      var n := |secs| - 1;
      OwnedItems(secs[..n], owners[..n], i) + (if owners[n] == i then secs[n].items else [])
  }

  /** The sections cut from each category of `view` hold that category's items, in order. */
  predicate ItemsOwned(view: seq<Category>, secs: seq<Section>, owners: seq<nat>) {
    |secs| == |owners|
    && forall i {:trigger OwnedItems(secs, owners, i)} :: 0 <= i < |view| ==> OwnedItems(secs, owners, i) == view[i].items
  }

  /**
   * How the sections `secs`, section k cut from category owners[k] of `view`,
   * relate to those categories: as OwnersOk and SectionsOk say, the items of
   * the sections are the items of the categories, and the sections of each
   * category hold exactly its items.
   */
  predicate GroupOk(view: seq<Category>, secs: seq<Section>, owners: seq<nat>) {
    var ordered := OwnersOk(|view|, owners);
    var titled := SectionsOk(view, secs, owners);
    var complete := SectionItems(secs) == AllItems(view);
    var owned := ItemsOwned(view, secs, owners);
    ordered && titled && complete && owned
  }

  lemma OwnedPush(secs: seq<Section>, owners: seq<nat>, s: Section, o: nat, i: nat)
    requires |secs| == |owners|
    ensures OwnedItems(secs + [s], owners + [o], i) == OwnedItems(secs, owners, i) + (if o == i then s.items else [])
  {
    assert (secs + [s])[..|secs|] == secs;
    assert (owners + [o])[..|owners|] == owners;
  }

  lemma OwnedAppend(secs: seq<Section>, owners: seq<nat>, x: Item, i: nat)
    requires |secs| == |owners| && secs != []
    ensures OwnedItems(AppendToLast(secs, x), owners, i)
            == OwnedItems(secs, owners, i) + (if owners[|owners| - 1] == i then [x] else [])
  {
    var n := |secs| - 1;
    var r := AppendToLast(secs, x);
    assert r[..n] == secs[..n];
  }

  /** No section is cut from a category no owner names. */
  lemma {:induction false} OwnedNone(secs: seq<Section>, owners: seq<nat>, i: nat)
    requires |secs| == |owners| && forall k :: 0 <= k < |owners| ==> owners[k] < i
    ensures OwnedItems(secs, owners, i) == []
  {
    if secs != [] {
      var n := |secs| - 1;
      OwnedNone(secs[..n], owners[..n], i);
    }
  }

  lemma OwnedNew(view: seq<Category>, secs: seq<Section>, owners: seq<nat>, c: Category)
    requires ItemsOwned(view, secs, owners) && OwnersOk(|view|, owners)
    ensures ItemsOwned(view + [c.(items := [])], secs + [Section(c.titleBg, c.titleEn, [])], owners + [|view|])
  {
    var v' := view + [c.(items := [])];
    var s := Section(c.titleBg, c.titleEn, []);
    forall i | 0 <= i < |v'|
      ensures OwnedItems(secs + [s], owners + [|view|], i) == v'[i].items
    {
      OwnedPush(secs, owners, s, |view|, i);
      if i == |view| {
        forall k | 0 <= k < |owners|
          ensures owners[k] < i
        {
          assert owners[k] <= owners[|owners| - 1];
        }
        OwnedNone(secs, owners, i);
      }
    }
  }

  lemma OwnedGrow(view: seq<Category>, secs: seq<Section>, owners: seq<nat>, x: Item)
    requires ItemsOwned(view, secs, owners) && secs != [] && owners[|owners| - 1] == |view| - 1
    ensures ItemsOwned(Grow(view, x), AppendToLast(secs, x), owners)
  {
    var v' := Grow(view, x);
    forall i | 0 <= i < |v'|
      ensures OwnedItems(AppendToLast(secs, x), owners, i) == v'[i].items
    {
      OwnedAppend(secs, owners, x, i);
    }
  }

  lemma OwnedBreak(view: seq<Category>, secs: seq<Section>, owners: seq<nat>, x: Item)
    requires ItemsOwned(view, secs, owners) && view != []
    ensures var c := view[|view| - 1];
            ItemsOwned(Grow(view, x), secs + [Section(c.titleBg, c.titleEn, [x])], owners + [|view| - 1])
  {
    var c := view[|view| - 1];
    var s := Section(c.titleBg, c.titleEn, [x]);
    var v' := Grow(view, x);
    forall i | 0 <= i < |v'|
      ensures OwnedItems(secs + [s], owners + [|view| - 1], i) == v'[i].items
    {
      OwnedPush(secs, owners, s, |view| - 1, i);
    }
  }

  /** `view` with item `x` added to its last category. */
  function Grow(view: seq<Category>, x: Item): seq<Category>
    requires view != []
  {
    var c := view[|view| - 1];
    view[..|view| - 1] + [c.(items := c.items + [x])]
  }

  lemma AllItemsGrow(view: seq<Category>, x: Item)
    requires view != []
    ensures AllItems(Grow(view, x)) == AllItems(view) + [x]
  {
    var n := |view| - 1;
    var c := view[n];
    assert view == view[..n] + [c];
    AllItemsAppend(view[..n], c);
    AllItemsAppend(view[..n], c.(items := c.items + [x]));
  }

  lemma OwnersNew(n: nat, owners: seq<nat>)
    requires OwnersOk(n, owners)
    ensures OwnersOk(n + 1, owners + [n])
  {
    var o' := owners + [n];
    forall a, b | 0 <= a <= b < |o'|
      ensures o'[a] <= o'[b] <= o'[a] + (b - a)
    {
      if b == |owners| && a < b {
        assert owners[a] <= owners[|owners| - 1] <= owners[a] + (|owners| - 1 - a);
      }
    }
  }

  lemma OwnersSame(n: nat, owners: seq<nat>)
    requires OwnersOk(n, owners) && owners != []
    ensures OwnersOk(n, owners + [n - 1])
  {
    var o' := owners + [n - 1];
    forall a, b | 0 <= a <= b < |o'|
      ensures o'[a] <= o'[b] <= o'[a] + (b - a)
    {
      if b == |owners| && a < b {
        assert owners[a] <= owners[|owners| - 1] <= owners[a] + (|owners| - 1 - a);
      }
    }
  }

  lemma SectionsNew(view: seq<Category>, secs: seq<Section>, owners: seq<nat>, c: Category)
    requires SectionsOk(view, secs, owners)
    ensures SectionsOk(view + [c.(items := [])], secs + [Section(c.titleBg, c.titleEn, [])], owners + [|view|])
  {
    var v', s', o' := view + [c.(items := [])], secs + [Section(c.titleBg, c.titleEn, [])], owners + [|view|];
    forall k | 0 <= k < |o'|
      ensures o'[k] < |v'| && SameTitles(s'[k], v'[o'[k]]) && (s'[k].items == [] <==> v'[o'[k]].items == [])
    {
      if k < |owners| {
        assert v'[o'[k]] == view[owners[k]];
      }
    }
  }

  /** A new category opens a new section, still without items. */
  lemma GroupNew(view: seq<Category>, secs: seq<Section>, owners: seq<nat>, c: Category)
    requires GroupOk(view, secs, owners)
    ensures GroupOk(view + [c.(items := [])], secs + [Section(c.titleBg, c.titleEn, [])], owners + [|view|])
  {
    OwnersNew(|view|, owners);
    SectionsNew(view, secs, owners, c);
    OwnedNew(view, secs, owners, c);
    SectionItemsPush(secs, Section(c.titleBg, c.titleEn, []));
    AllItemsAppend(view, c.(items := []));
  }

  lemma SectionsAppend(view: seq<Category>, secs: seq<Section>, owners: seq<nat>, x: Item)
    requires SectionsOk(view, secs, owners) && secs != [] && owners[|owners| - 1] == |view| - 1
    ensures SectionsOk(Grow(view, x), AppendToLast(secs, x), owners)
  {
    var n := |view| - 1;
    var c := view[n];
    var v' := view[..n] + [c.(items := c.items + [x])];
    var s' := AppendToLast(secs, x);
    var last := |secs| - 1;
    forall k | 0 <= k < |owners|
      ensures owners[k] < |v'| && SameTitles(s'[k], v'[owners[k]]) && (s'[k].items == [] <==> v'[owners[k]].items == [])
    {
      if k < last {
        assert s'[k] == secs[k];
        if owners[k] == n {
          assert secs[last].items != [];
        }
      }
    }
    forall a, b | 0 <= a < b < |owners| && owners[a] == owners[b]
      ensures s'[b].items != []
    {
      if b < last {
        assert s'[b] == secs[b];
      }
    }
  }

  /** The last category's next item goes into its last section. */
  lemma GroupAppend(view: seq<Category>, secs: seq<Section>, owners: seq<nat>, x: Item)
    requires GroupOk(view, secs, owners) && secs != []
    ensures GroupOk(Grow(view, x), AppendToLast(secs, x), owners)
  {
    SectionsAppend(view, secs, owners, x);
    OwnedGrow(view, secs, owners, x);
    SectionItemsAppend(secs, x);
    AllItemsGrow(view, x);
  }

  lemma SectionsBreak(view: seq<Category>, secs: seq<Section>, owners: seq<nat>, x: Item)
    requires SectionsOk(view, secs, owners) && secs != [] && secs[|secs| - 1].items != []
    requires owners[|owners| - 1] == |view| - 1
    ensures var c := view[|view| - 1];
            SectionsOk(Grow(view, x),
                       secs + [Section(c.titleBg, c.titleEn, [x])], owners + [|view| - 1])
  {
    var n := |view| - 1;
    var c := view[n];
    var v' := view[..n] + [c.(items := c.items + [x])];
    var s' := secs + [Section(c.titleBg, c.titleEn, [x])];
    var o' := owners + [n];
    forall k | 0 <= k < |o'|
      ensures o'[k] < |v'| && SameTitles(s'[k], v'[o'[k]]) && (s'[k].items == [] <==> v'[o'[k]].items == [])
    {
      if k < |owners| && owners[k] == n {
        assert v'[o'[k]].items != [];
        assert secs[|secs| - 1].items != [];
      }
    }
  }

  /** The last category's next item opens a continuation section of it. */
  lemma GroupBreak(view: seq<Category>, secs: seq<Section>, owners: seq<nat>, x: Item)
    requires GroupOk(view, secs, owners) && secs != [] && secs[|secs| - 1].items != []
    ensures var c := view[|view| - 1];
            GroupOk(Grow(view, x),
                    secs + [Section(c.titleBg, c.titleEn, [x])], owners + [|view| - 1])
  {
    var c := view[|view| - 1];
    OwnersSame(|view|, owners);
    SectionsBreak(view, secs, owners, x);
    OwnedBreak(view, secs, owners, x);
    SectionItemsPush(secs, Section(c.titleBg, c.titleEn, [x]));
    AllItemsGrow(view, x);
  }

  /* ---------- the packing state ---------- */

  /** Every section the packer has cut so far, finished pages first. */
  function AllSecs(st: Packing): seq<Section> {
    Flat(st.done) + st.secs
  }

  function AllOwners(st: Packing): seq<nat> {
    Flat(st.doneOwners) + st.owners
  }

  lemma FlushKeeps(st: Packing)
    requires |st.secs| == |st.owners|
    ensures AllSecs(Flush(st)) == AllSecs(st) && AllOwners(Flush(st)) == AllOwners(st)
  {
    if st.secs != [] {
      FlatPush(st.done, st.secs);
      FlatPush(st.doneOwners, st.owners);
    }
  }

  lemma AddSectionAdds(st: Packing, c: Category, ci: nat)
    ensures AllSecs(AddSection(st, c, ci)) == AllSecs(st) + [Section(c.titleBg, c.titleEn, [])]
    ensures AllOwners(AddSection(st, c, ci)) == AllOwners(st) + [ci]
  {
    assert AllSecs(AddSection(st, c, ci)) == Flat(st.done) + (st.secs + [Section(c.titleBg, c.titleEn, [])]);
    assert AllOwners(AddSection(st, c, ci)) == Flat(st.doneOwners) + (st.owners + [ci]);
  }

  lemma AppendToLastAfter(pre: seq<Section>, secs: seq<Section>, x: Item)
    requires secs != []
    ensures pre + AppendToLast(secs, x) == AppendToLast(pre + secs, x)
  {
    var l, r := pre + AppendToLast(secs, x), AppendToLast(pre + secs, x);
    assert |l| == |r|;
    forall k | 0 <= k < |l|
      ensures l[k] == r[k]
    {
      if k < |pre| + |secs| - 1 {
        if k < |pre| {
          assert l[k] == pre[k];
        } else {
          assert l[k] == AppendToLast(secs, x)[k - |pre|] == secs[k - |pre|];
        }
      }
    }
  }

  /** The last section and its owner are those of the open page. */
  lemma LastOfAll(st: Packing)
    requires st.secs != [] && |st.secs| == |st.owners|
    ensures AllSecs(st)[|AllSecs(st)| - 1] == st.secs[|st.secs| - 1]
    ensures AllOwners(st)[|AllOwners(st)| - 1] == st.owners[|st.owners| - 1]
  {
  }

  /* ---------- costs ---------- */

  lemma ItemsCostPush(items: seq<Item>, x: Item, lang: Lang, cpl: Pos)
    ensures ItemsCost(items + [x], lang, cpl) == ItemsCost(items, lang, cpl) + ItemCost(x, lang, cpl)
  {
    assert (items + [x])[..|items|] == items;
  }

  lemma SecsCostPush(secs: seq<Section>, s: Section, lang: Lang, cpl: Pos)
    ensures SecsCost(secs + [s], lang, cpl) == SecsCost(secs, lang, cpl) + SectionCost(s, lang, cpl)
  {
    assert (secs + [s])[..|secs|] == secs;
  }

  /** Putting item `x` in the last section costs ItemCost(x), or replaces the placeholder when the section was empty. */
  lemma SecsCostAppend(secs: seq<Section>, x: Item, lang: Lang, cpl: Pos)
    requires secs != []
    ensures var last := secs[|secs| - 1];
            SecsCost(AppendToLast(secs, x), lang, cpl)
            == SecsCost(secs, lang, cpl) + ItemCost(x, lang, cpl) - (if last.items == [] then EmptyCost else 0)
  {
    var r := AppendToLast(secs, x);
    assert r[..|r| - 1] == secs[..|secs| - 1];
    ItemsCostPush(secs[|secs| - 1].items, x, lang, cpl);
  }

  /* ---------- pages ---------- */

  /**
   * The items after the first of a section that starts `before` into its
   * page: with each of them placed, the page stayed within the budget.
   */
  predicate ItemsFit(before: int, items: seq<Item>, lang: Lang, m: Metrics) {
    |items| <= 1
    || (ItemsFit(before, items[..|items| - 1], lang, m)
        && before + TitleCost + ItemsCost(items, lang, m.charsPerLine) <= Budget(m))
  }

  /**
   * Page `pg` keeps within the budget wherever buildPages went on without a
   * break: every section after the first opened with room for a heading and
   * a placeholder, and every item after the first of its section fitted.
   */
  predicate Fits(pg: seq<Section>, lang: Lang, m: Metrics) {
    pg == []
    || (var n := |pg| - 1;
        var before := SecsCost(pg[..n], lang, m.charsPerLine);
        Fits(pg[..n], lang, m)
        && (n > 0 ==> before + TitleCost + EmptyCost <= Budget(m))
        && ItemsFit(before, pg[n].items, lang, m))
  }

  /**
   * Why buildPages ended page `pg` (owners `own`) and went on with `next`
   * (owners `nown`): when `next` goes on with the same category, its first
   * item did not fit under the page's usedLines; otherwise the next
   * category's heading and placeholder did not.
   */
  predicate Break(pg: seq<Section>, own: seq<nat>, next: seq<Section>, nown: seq<nat>, lang: Lang, m: Metrics) {
    pg != [] && |own| == |pg| && next != [] && |nown| == |next|
    && if nown[0] == own[|own| - 1] then
         next[0].items != []
         && SecsCost(pg, lang, m.charsPerLine) + ItemCost(next[0].items[0], lang, m.charsPerLine) > Budget(m)
       else
         SecsCost(pg, lang, m.charsPerLine) + TitleCost + EmptyCost > Budget(m)
  }

  predicate BreakAt(book: seq<seq<Section>>, owners: seq<seq<nat>>, p: int, lang: Lang, m: Metrics) {
    0 <= p && p + 1 < |book| && p + 1 < |owners| && Break(book[p], owners[p], book[p + 1], owners[p + 1], lang, m)
  }

  /** The finished pages: none is empty, each fits and each ended for a reason. */
  predicate DoneOk(done: seq<seq<Section>>, owners: seq<seq<nat>>, lang: Lang, m: Metrics) {
    |done| == |owners|
    && (forall p :: 0 <= p < |done| ==> done[p] != [] && |done[p]| == |owners[p]| && Fits(done[p], lang, m))
    && (forall p :: 0 <= p < |done| - 1 ==> BreakAt(done, owners, p, lang, m))
  }

  /** The open page fits, and the last finished page ended for a reason. */
  predicate OpenOk(done: seq<seq<Section>>, owners: seq<seq<nat>>, secs: seq<Section>, own: seq<nat>, lang: Lang, m: Metrics)
    requires |done| == |owners|
  {
    |secs| == |own| && Fits(secs, lang, m)
    && (secs == [] ==> done == [])
    && (done != [] ==> Break(done[|done| - 1], owners[|done| - 1], secs, own, lang, m))
  }

  predicate PagesOk(st: Packing, lang: Lang, m: Metrics) {
    var finished := DoneOk(st.done, st.doneOwners, lang, m);
    finished && OpenOk(st.done, st.doneOwners, st.secs, st.owners, lang, m)
  }

  /** pushPage with a non-empty open page: it becomes the last finished page. */
  lemma DonePush(done: seq<seq<Section>>, owners: seq<seq<nat>>, secs: seq<Section>, own: seq<nat>, lang: Lang, m: Metrics)
    requires DoneOk(done, owners, lang, m) && OpenOk(done, owners, secs, own, lang, m) && secs != []
    ensures DoneOk(done + [secs], owners + [own], lang, m)
  {
    var d', o' := done + [secs], owners + [own];
    forall p | 0 <= p < |d'|
      ensures d'[p] != [] && |d'[p]| == |o'[p]| && Fits(d'[p], lang, m)
    {
      if p < |done| {
        assert d'[p] == done[p] && o'[p] == owners[p];
      }
    }
    forall p | 0 <= p < |d'| - 1
      ensures BreakAt(d', o', p, lang, m)
    {
      assert d'[p + 1] == if p + 1 < |done| then done[p + 1] else secs;
      if p + 1 < |done| {
        assert BreakAt(done, owners, p, lang, m);
      }
    }
  }

  /** Pushing the open page and starting a new one with section `s`, for the reason Break gives. */
  lemma PagesNewPage(st: Packing, s: Section, ci: nat, u: int, lang: Lang, m: Metrics)
    requires st.secs != [] && |s.items| <= 1
    ensures PagesOk(st, lang, m) && Break(st.secs, st.owners, [s], [ci], lang, m) ==>
            PagesOk(Packing(st.done + [st.secs], st.doneOwners + [st.owners], [s], [ci], u), lang, m)
  {
    if PagesOk(st, lang, m) && Break(st.secs, st.owners, [s], [ci], lang, m) {
      DonePush(st.done, st.doneOwners, st.secs, st.owners, lang, m);
      FitsSingle(s, lang, m);
    }
  }

  lemma FitsSingle(s: Section, lang: Lang, m: Metrics)
    requires |s.items| <= 1
    ensures Fits([s], lang, m)
  {
    assert [s][..0] == [];
    assert Fits([], lang, m);
    assert ItemsFit(SecsCost([], lang, m.charsPerLine), s.items, lang, m);
  }

  /** Opening a further section on a page with room for a heading and a placeholder. */
  lemma FitsAddSection(pg: seq<Section>, s: Section, lang: Lang, m: Metrics)
    requires Fits(pg, lang, m) && s.items == []
    requires pg != [] ==> SecsCost(pg, lang, m.charsPerLine) + TitleCost + EmptyCost <= Budget(m)
    ensures Fits(pg + [s], lang, m)
  {
    assert (pg + [s])[..|pg|] == pg;
  }

  /** Putting item `x` in the last section of a page, when it is the section's first item or fits. */
  lemma FitsAppend(pg: seq<Section>, x: Item, lang: Lang, m: Metrics)
    requires Fits(pg, lang, m) && pg != []
    requires var n := |pg| - 1;
             pg[n].items != [] ==>
               SecsCost(pg[..n], lang, m.charsPerLine) + TitleCost
               + ItemsCost(pg[n].items + [x], lang, m.charsPerLine) <= Budget(m)
    ensures Fits(AppendToLast(pg, x), lang, m)
  {
    var n := |pg| - 1;
    var items := pg[n].items;
    assert (items + [x])[..|items|] == items;
  }

  /** A reason to break stays true while the next page only grows at its end. */
  lemma BreakKeeps(pg: seq<Section>, own: seq<nat>, next: seq<Section>, nown: seq<nat>,
                   next': seq<Section>, nown': seq<nat>, lang: Lang, m: Metrics)
    requires Break(pg, own, next, nown, lang, m)
    requires next' != [] && |nown'| == |next'| && nown'[0] == nown[0]
    requires next[0].items != [] ==> next'[0].items != [] && next'[0].items[0] == next[0].items[0]
    ensures Break(pg, own, next', nown', lang, m)
  {
  }

  /** Opening a further section on the open page, when a heading and a placeholder fit. */
  lemma PagesAddMore(st: Packing, s: Section, ci: nat, u: int, lang: Lang, m: Metrics)
    requires PagesOk(st, lang, m) && st.secs != [] && s.items == []
    requires SecsCost(st.secs, lang, m.charsPerLine) + TitleCost + EmptyCost <= Budget(m)
    ensures PagesOk(st.(secs := st.secs + [s], owners := st.owners + [ci], used := u), lang, m)
  {
    FitsAddSection(st.secs, s, lang, m);
    if st.done != [] {
      var p := |st.done| - 1;
      BreakKeeps(st.done[p], st.doneOwners[p], st.secs, st.owners, st.secs + [s], st.owners + [ci], lang, m);
    }
  }

  /** Putting item `x` in the last section of the open page, when it is the section's first item or fits. */
  lemma PagesAppend(st: Packing, x: Item, u: int, lang: Lang, m: Metrics)
    requires PagesOk(st, lang, m) && st.secs != []
    requires var n := |st.secs| - 1;
             st.secs[n].items != [] ==>
               SecsCost(st.secs[..n], lang, m.charsPerLine) + TitleCost
               + ItemsCost(st.secs[n].items + [x], lang, m.charsPerLine) <= Budget(m)
    ensures PagesOk(st.(secs := AppendToLast(st.secs, x), used := u), lang, m)
  {
    FitsAppend(st.secs, x, lang, m);
    if st.done != [] {
      var p := |st.done| - 1;
      var pg' := AppendToLast(st.secs, x);
      assert pg'[0].items == st.secs[0].items || (|st.secs| == 1 && pg'[0].items == st.secs[0].items + [x]);
      BreakKeeps(st.done[p], st.doneOwners[p], st.secs, st.owners, pg', st.owners, lang, m);
    }
  }

  /* ---------- the fold keeps it all ---------- */

  /**
   * The invariant of the packing fold after the categories `view`: the
   * sections relate to the categories as GroupOk says, the pages as PagesOk
   * says, and usedLines is the cost of the open page, less the placeholder
   * while a category with items has its heading but none of them yet
   * (`pending`).
   */
  predicate Inv(view: seq<Category>, st: Packing, pending: bool, lang: Lang, m: Metrics) {
    var grouped := GroupOk(view, AllSecs(st), AllOwners(st));
    var paged := PagesOk(st, lang, m);
    var waiting := pending ==> st.secs != [] && st.secs[|st.secs| - 1].items == [];
    var counted := st.used + (if pending then EmptyCost else 0) == SecsCost(st.secs, lang, m.charsPerLine);
    grouped && paged && waiting && counted
  }

  /** The step of buildPages before a category's items keeps the invariant. */
  lemma OpenInv(view: seq<Category>, st: Packing, c: Category, lang: Lang, m: Metrics, view': seq<Category>, r: Packing)
    requires Inv(view, st, false, lang, m)
    requires view' == view + [c.(items := [])] && r == Open(st, c, |view|, m)
    ensures Inv(view', r, c.items != [], lang, m)
  {
    InvShape(view, st, false, lang, m);
    OpenGroup(view, st, c, m, view', r);
    OpenPages(st, c, |view|, lang, m, r);
    OpenUsed(st, c, |view|, lang, m, r);
  }

  /** What the invariant says of the open page's owners. */
  lemma InvShape(view: seq<Category>, st: Packing, pending: bool, lang: Lang, m: Metrics)
    requires Inv(view, st, pending, lang, m)
    ensures |st.secs| == |st.owners|
    ensures st.secs != [] ==> st.owners[|st.owners| - 1] == |view| - 1
  {
    if st.secs != [] {
      LastOfAll(st);
    }
  }

  /** usedLines after a heading: the open page's cost, less the placeholder when items follow. */
  lemma OpenUsed(st: Packing, c: Category, ci: nat, lang: Lang, m: Metrics, r: Packing)
    requires st.used == SecsCost(st.secs, lang, m.charsPerLine)
    requires r == Open(st, c, ci, m)
    ensures c.items != [] ==> r.secs[|r.secs| - 1].items == []
    ensures r.used + (if c.items != [] then EmptyCost else 0) == SecsCost(r.secs, lang, m.charsPerLine)
  {
    var s := Section(c.titleBg, c.titleEn, []);
    var flushed := st.used + TitleCost + EmptyCost > Budget(m) && st.secs != [];
    var before, used := if flushed then [] else st.secs, if flushed then 0 else st.used;
    assert used == SecsCost(before, lang, m.charsPerLine);
    SecsCostPush(before, s, lang, m.charsPerLine);
    assert r.secs == before + [s] && r.used == used + TitleCost + (if c.items == [] then EmptyCost else 0);
  }

  lemma OpenGroup(view: seq<Category>, st: Packing, c: Category, m: Metrics, view': seq<Category>, r: Packing)
    requires GroupOk(view, AllSecs(st), AllOwners(st)) && |st.secs| == |st.owners|
    requires view' == view + [c.(items := [])] && r == Open(st, c, |view|, m)
    ensures GroupOk(view', AllSecs(r), AllOwners(r))
  {
    var st1 := if st.used + TitleCost + EmptyCost > Budget(m) && st.secs != [] then Flush(st) else st;
    FlushKeeps(st);
    AddSectionAdds(st1, c, |view|);
    assert AllSecs(r) == AllSecs(AddSection(st1, c, |view|)) && AllOwners(r) == AllOwners(AddSection(st1, c, |view|));
    GroupNew(view, AllSecs(st), AllOwners(st), c);
  }

  lemma OpenPages(st: Packing, c: Category, ci: nat, lang: Lang, m: Metrics, r: Packing)
    requires PagesOk(st, lang, m) && st.used == SecsCost(st.secs, lang, m.charsPerLine)
    requires st.secs != [] ==> st.owners[|st.owners| - 1] < ci
    requires r == Open(st, c, ci, m)
    ensures PagesOk(r, lang, m)
  {
    var s := Section(c.titleBg, c.titleEn, []);
    if st.used + TitleCost + EmptyCost > Budget(m) && st.secs != [] {
      assert Break(st.secs, st.owners, [s], [ci], lang, m);
      assert r == Packing(st.done + [st.secs], st.doneOwners + [st.owners], [s], [ci], r.used);
      PagesNewPage(st, s, ci, r.used, lang, m);
    } else if st.secs != [] {
      assert r == st.(secs := st.secs + [s], owners := st.owners + [ci], used := r.used);
      PagesAddMore(st, s, ci, r.used, lang, m);
    } else {
      assert r == Packing(st.done, st.doneOwners, [s], [ci], r.used);
      FitsSingle(s, lang, m);
    }
  }

  /** The step of buildPages for one item keeps the invariant. */
  lemma PlaceInv(view: seq<Category>, st: Packing, pending: bool, c: Category, x: Item, lang: Lang, m: Metrics,
                  view': seq<Category>, r: Packing)
    requires view != [] && Inv(view, st, pending, lang, m) && st.secs != []
    requires SameTitles(Section(c.titleBg, c.titleEn, []), view[|view| - 1])
    requires pending || st.secs[|st.secs| - 1].items != []
    requires view' == Grow(view, x) && r == Place(st, c, |view| - 1, x, ItemCost(x, lang, m.charsPerLine), m)
    ensures Inv(view', r, false, lang, m)
  {
    var cost := ItemCost(x, lang, m.charsPerLine);
    InvShape(view, st, pending, lang, m);
    PlaceGroup(view, st, c, x, cost, m, r);
    PlacePages(st, c, |view| - 1, x, lang, m, r);
    PlaceUsed(st, pending, c, |view| - 1, x, cost, lang, m, r);
  }

  /** usedLines after an item: the cost of the open page. */
  lemma PlaceUsed(st: Packing, pending: bool, c: Category, ci: nat, x: Item, cost: int, lang: Lang, m: Metrics, r: Packing)
    requires st.secs != [] && cost == ItemCost(x, lang, m.charsPerLine)
    requires st.used + (if pending then EmptyCost else 0) == SecsCost(st.secs, lang, m.charsPerLine)
    requires pending <==> st.secs[|st.secs| - 1].items == []
    requires r == Place(st, c, ci, x, cost, m)
    ensures r.used == SecsCost(r.secs, lang, m.charsPerLine)
  {
    var cpl := m.charsPerLine;
    if st.used + cost > Budget(m) && st.secs[|st.secs| - 1].items != [] {
      PlaceBreaks(st, c, ci, x, cost, m);
      FreshPageCost(Section(c.titleBg, c.titleEn, [x]), lang, cpl);
    } else {
      PlaceKeeps(st, c, ci, x, cost, m);
      SecsCostAppend(st.secs, x, lang, cpl);
    }
  }

  /** Otherwise the item joins the last section of the open page. */
  lemma PlaceKeeps(st: Packing, c: Category, ci: nat, x: Item, cost: int, m: Metrics)
    requires st.secs != [] && !(st.used + cost > Budget(m) && st.secs[|st.secs| - 1].items != [])
    ensures Place(st, c, ci, x, cost, m) == st.(secs := AppendToLast(st.secs, x), used := st.used + cost)
  {
  }

  /** An item that does not fit a page that already holds items starts a new page with a fresh section. */
  lemma PlaceBreaks(st: Packing, c: Category, ci: nat, x: Item, cost: int, m: Metrics)
    requires st.secs != [] && st.used + cost > Budget(m) && st.secs[|st.secs| - 1].items != []
    ensures Place(st, c, ci, x, cost, m)
            == Packing(st.done + [st.secs], st.doneOwners + [st.owners],
                       [Section(c.titleBg, c.titleEn, [x])], [ci], TitleCost + cost)
  {
    var s0 := Section(c.titleBg, c.titleEn, []);
    var a := AddSection(Flush(st), c, ci);
    assert a.secs == [s0] && a.owners == [ci] by {
      SingletonAppend(s0);
      SingletonAppend(ci);
    }
    assert AppendToLast(a.secs, x) == [s0.(items := [x])] by {
      SingletonAppend(x);
    }
  }

  /** A page holding one section with one item costs the heading plus the item. */
  lemma FreshPageCost(s: Section, lang: Lang, cpl: Pos)
    requires |s.items| == 1
    ensures SecsCost([s], lang, cpl) == TitleCost + ItemCost(s.items[0], lang, cpl)
  {
    assert [s][..0] == [];
    assert s.items[..0] == [];
    assert ItemsCost(s.items, lang, cpl) == ItemCost(s.items[0], lang, cpl);
    assert SecsCost([s], lang, cpl) == SectionCost(s, lang, cpl);
  }

  lemma SingletonAppend<T>(x: T)
    ensures [] + [x] == [x]
  {
  }

  lemma PlaceGroup(view: seq<Category>, st: Packing, c: Category, x: Item, cost: int, m: Metrics, r: Packing)
    requires GroupOk(view, AllSecs(st), AllOwners(st)) && |st.secs| == |st.owners| && st.secs != []
    requires SameTitles(Section(c.titleBg, c.titleEn, []), view[|view| - 1])
    requires r == Place(st, c, |view| - 1, x, cost, m)
    ensures GroupOk(Grow(view, x), AllSecs(r), AllOwners(r))
  {
    LastOfAll(st);
    if st.used + cost > Budget(m) && st.secs[|st.secs| - 1].items != [] {
      var s := Section(c.titleBg, c.titleEn, [x]);
      PlaceBreaks(st, c, |view| - 1, x, cost, m);
      FlatPush(st.done, st.secs);
      FlatPush(st.doneOwners, st.owners);
      GroupBreak(view, AllSecs(st), AllOwners(st), x);
    } else {
      PlaceKeeps(st, c, |view| - 1, x, cost, m);
      AppendToLastAfter(Flat(st.done), st.secs, x);
      GroupAppend(view, AllSecs(st), AllOwners(st), x);
    }
  }

  lemma PlacePages(st: Packing, c: Category, ci: nat, x: Item, lang: Lang, m: Metrics, r: Packing)
    requires PagesOk(st, lang, m) && st.secs != []
    requires st.secs[|st.secs| - 1].items != [] ==> st.used == SecsCost(st.secs, lang, m.charsPerLine)
    requires st.owners[|st.owners| - 1] == ci
    requires r == Place(st, c, ci, x, ItemCost(x, lang, m.charsPerLine), m)
    ensures PagesOk(r, lang, m)
  {
    var cost := ItemCost(x, lang, m.charsPerLine);
    if st.used + cost > Budget(m) && st.secs[|st.secs| - 1].items != [] {
      PlaceBreaks(st, c, ci, x, cost, m);
      PagesBreak(st, Section(c.titleBg, c.titleEn, [x]), ci, cost, lang, m, r);
    } else {
      PlaceKeeps(st, c, ci, x, cost, m);
      PagesFit(st, x, cost, lang, m, r);
    }
  }

  lemma PagesBreak(st: Packing, s: Section, ci: nat, cost: int, lang: Lang, m: Metrics, r: Packing)
    requires PagesOk(st, lang, m) && st.secs != [] && st.secs[|st.secs| - 1].items != []
    requires st.used == SecsCost(st.secs, lang, m.charsPerLine)
    requires st.owners[|st.owners| - 1] == ci
    requires |s.items| == 1 && cost == ItemCost(s.items[0], lang, m.charsPerLine) && st.used + cost > Budget(m)
    requires r == Packing(st.done + [st.secs], st.doneOwners + [st.owners], [s], [ci], TitleCost + cost)
    ensures PagesOk(r, lang, m)
  {
    assert Break(st.secs, st.owners, [s], [ci], lang, m);
    PagesNewPage(st, s, ci, r.used, lang, m);
  }

  lemma PagesFit(st: Packing, x: Item, cost: int, lang: Lang, m: Metrics, r: Packing)
    requires PagesOk(st, lang, m) && st.secs != []
    requires st.secs[|st.secs| - 1].items != [] ==> st.used == SecsCost(st.secs, lang, m.charsPerLine)
    requires cost == ItemCost(x, lang, m.charsPerLine)
    requires !(st.used + cost > Budget(m) && st.secs[|st.secs| - 1].items != [])
    requires r == st.(secs := AppendToLast(st.secs, x), used := st.used + cost)
    ensures PagesOk(r, lang, m)
  {
    var cpl := m.charsPerLine;
    var n := |st.secs| - 1;
    assert st.secs == st.secs[..n] + [st.secs[n]];
    SecsCostPush(st.secs[..n], st.secs[n], lang, cpl);
    ItemsCostPush(st.secs[n].items, x, lang, cpl);
    PagesAppend(st, x, r.used, lang, m);
  }

  /** The categories seen after the first `i` whole ones and `j` items of category `i`. */
  function View(cats: seq<Category>, i: nat, j: nat): (v: seq<Category>)
    requires i < |cats| && j <= |cats[i].items|
    ensures |v| == i + 1 && SameTitles(Section(cats[i].titleBg, cats[i].titleEn, []), v[i])
  {
    cats[..i] + [cats[i].(items := cats[i].items[..j])]
  }

  /** Category `i` has its heading on the page but none of its items yet. */
  predicate Pending(cats: seq<Category>, i: nat, j: nat) {
    j == 0 && i < |cats| && cats[i].items != []
  }

  lemma ViewNext(cats: seq<Category>, i: nat, j: nat)
    requires i < |cats| && 0 < j <= |cats[i].items|
    ensures View(cats, i, j) == Grow(View(cats, i, j - 1), cats[i].items[j - 1])
  {
    assert cats[i].items[..j] == cats[i].items[..j - 1] + [cats[i].items[j - 1]];
    assert View(cats, i, j - 1)[..i] == cats[..i];
  }

  lemma ViewDone(cats: seq<Category>, i: nat)
    requires i < |cats|
    ensures View(cats, i, |cats[i].items|) == cats[..i + 1]
  {
    assert cats[i].items[..|cats[i].items|] == cats[i].items;
    assert cats[..i + 1] == cats[..i] + [cats[i]];
  }

  lemma {:induction false} PackCatsInv(cats: seq<Category>, n: nat, lang: Lang, m: Metrics)
    requires n <= |cats|
    ensures Inv(cats[..n], PackCats(cats, n, lang, m), false, lang, m)
    decreases n, 0, 0, 0
  {
    if n == 0 {
      assert cats[..0] == [];
      StartInv(lang, m);
    } else {
      var st := PackItems(cats, n - 1, |cats[n - 1].items|, lang, m);
      PackItemsInv(cats, n - 1, |cats[n - 1].items|, lang, m);
      ViewDone(cats, n - 1);
      assert PackCats(cats, n, lang, m) == st;
    }
  }

  lemma StartInv(lang: Lang, m: Metrics)
    ensures Inv([], Start, false, lang, m)
  {
  }

  /** The invariant after the first `i` categories, the heading of category `i` and its first `j` items. */
  predicate InvAt(cats: seq<Category>, i: nat, j: nat, lang: Lang, m: Metrics)
    requires i < |cats| && j <= |cats[i].items|
  {
    Inv(View(cats, i, j), PackItems(cats, i, j, lang, m), Pending(cats, i, j), lang, m)
  }

  lemma {:induction false} PackItemsInv(cats: seq<Category>, i: nat, j: nat, lang: Lang, m: Metrics)
    requires i < |cats| && j <= |cats[i].items|
    ensures InvAt(cats, i, j, lang, m)
    decreases i, 1, j, 1
  {
    if j == 0 {
      OpenStep(cats, i, lang, m);
    } else {
      PackItemsStep(cats, i, j, lang, m);
    }
  }

  /** The invariant after item `j - 1` of category `i`, from the invariant before it. */
  lemma {:induction false} PackItemsStep(cats: seq<Category>, i: nat, j: nat, lang: Lang, m: Metrics)
    requires i < |cats| && 0 < j <= |cats[i].items|
    ensures InvAt(cats, i, j, lang, m)
    decreases i, 1, j, 0
  {
    var k := j - 1;
    PackItemsInv(cats, i, k, lang, m);
    PlaceStep(cats, i, k + 1, lang, m);
  }

  /** Opening category `i` after the categories before it. */
  lemma {:induction false} OpenStep(cats: seq<Category>, i: nat, lang: Lang, m: Metrics)
    requires i < |cats|
    ensures InvAt(cats, i, 0, lang, m)
    decreases i, 1, 0, 0
  {
    PackCatsInv(cats, i, lang, m);
    assert View(cats, i, 0) == cats[..i] + [cats[i].(items := [])];
    OpenInv(cats[..i], PackCats(cats, i, lang, m), cats[i], lang, m, View(cats, i, 0), PackItems(cats, i, 0, lang, m));
  }

  /** Placing item `j - 1` of category `i`. */
  lemma PlaceStep(cats: seq<Category>, i: nat, j: nat, lang: Lang, m: Metrics)
    requires i < |cats| && 0 < j <= |cats[i].items|
    ensures InvAt(cats, i, j - 1, lang, m) ==> InvAt(cats, i, j, lang, m)
  {
    if InvAt(cats, i, j - 1, lang, m) {
      var c, v, pending := cats[i], View(cats, i, j - 1), Pending(cats, i, j - 1);
      var st, r := PackItems(cats, i, j - 1, lang, m), PackItems(cats, i, j, lang, m);
      var x := c.items[j - 1];
      PackItemsNext(cats, i, j, lang, m);
      ViewNext(cats, i, j);
      PlaceInv(v, st, pending, c, x, lang, m, View(cats, i, j), r);
    }
  }

  /** Item `j - 1` of category `i` is placed on the state before it, whose last section holds an item unless it is the first. */
  lemma PackItemsNext(cats: seq<Category>, i: nat, j: nat, lang: Lang, m: Metrics)
    requires i < |cats| && 0 < j <= |cats[i].items|
    ensures var st, x := PackItems(cats, i, j - 1, lang, m), cats[i].items[j - 1];
            PackItems(cats, i, j, lang, m) == Place(st, cats[i], i, x, ItemCost(x, lang, m.charsPerLine), m)
            && (Pending(cats, i, j - 1) || st.secs[|st.secs| - 1].items != [])
  {
    var c := cats[i];
    if j > 1 {
      assert PackItems(cats, i, j - 1, lang, m)
             == Place(PackItems(cats, i, j - 2, lang, m), c, i, c.items[j - 2], ItemCost(c.items[j - 2], lang, m.charsPerLine), m);
    }
  }

  /* ---------- what buildPages returns ---------- */

  /**
   * The category pages buildPages returns after the cover (see
   * Packer.BuildPages): read one after another, their sections hold every
   * item of the menu once and in menu order; each category becomes one or
   * more consecutive sections under its own titles, empty only when the
   * category has no items, which together hold exactly that category's
   * items in their order; no page is empty, each keeps within the budget
   * wherever buildPages did not break, and each page ends for the reason
   * buildPages tests.
   */
  lemma PackOutput(cats: seq<Category>, lang: Lang, m: Metrics)
    ensures var st := Pack(cats, lang, m);
            SectionItems(Flat(st.done)) == AllItems(cats)
            && OwnersOk(|cats|, Flat(st.doneOwners))
            && SectionsOk(cats, Flat(st.done), Flat(st.doneOwners))
            && (forall i :: 0 <= i < |cats| ==> OwnedItems(Flat(st.done), Flat(st.doneOwners), i) == cats[i].items)
            && DoneOk(st.done, st.doneOwners, lang, m)
  {
    PackGroup(cats, lang, m);
    PackPages(cats, lang, m);
  }

  /** How the sections of the finished pages relate to the categories. */
  lemma PackGroup(cats: seq<Category>, lang: Lang, m: Metrics)
    ensures var st := Pack(cats, lang, m);
            GroupOk(cats, Flat(st.done), Flat(st.doneOwners))
  {
    var st := PackCats(cats, |cats|, lang, m);
    PackCatsInv(cats, |cats|, lang, m);
    assert cats[..|cats|] == cats;
    InvShape(cats, st, false, lang, m);
    FlushKeeps(st);
    assert AllSecs(Flush(st)) == Flat(Flush(st).done);
    assert AllOwners(Flush(st)) == Flat(Flush(st).doneOwners);
  }

  /** The finished pages, the open one pushed last. */
  lemma PackPages(cats: seq<Category>, lang: Lang, m: Metrics)
    ensures var st := Pack(cats, lang, m);
            DoneOk(st.done, st.doneOwners, lang, m)
  {
    var st := PackCats(cats, |cats|, lang, m);
    PackCatsInv(cats, |cats|, lang, m);
    assert cats[..|cats|] == cats;
    if st.secs != [] {
      DonePush(st.done, st.doneOwners, st.secs, st.owners, lang, m);
    }
  }

}
