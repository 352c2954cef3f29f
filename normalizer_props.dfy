/**
 * What normalizeMenu promises, proved about the fold of module Normalizer:
 * how each kind of raw entry is recognised, that every raw item reaches the
 * output once and in order, that annotations only ever fill or extend the most
 * recently appended item, and where the contact lines end up.
 */
module NormalizerProps {
  import opened Text
  import opened Menu
  import opened Normalizer

  /* ---------- classification ---------- */

  /** The empty text is no contact line, no allergen annotation and does not start in lower case. */
  lemma EmptyNeverContact()
    ensures !IsContactLine("") && !IsAllergensTitle("") && !IsLowercaseStart("")
  {
  }

  /** Blank entries: nothing to read and no items, so the entry adds nothing. */
  lemma BlankIff(acc: Acc, c: Category)
    ensures Classify(c) == Blank <==> TitleText(c) == "" && c.items == []
    ensures Classify(c) == Blank ==> Step(acc, c) == acc
  {
  }

  /** Contact lines: itemless entries whose text passes isContactLine; they never touch the categories. */
  lemma ContactIff(acc: Acc, c: Category)
    ensures Classify(c) == ContactLine <==> c.items == [] && IsContactLine(TitleText(c))
    ensures Classify(c) == ContactLine ==>
              Step(acc, c) == Acc(acc.categories, acc.infoLines + [TitleText(c)])
  {
    if c.items == [] && IsContactLine(TitleText(c)) {
      EmptyNeverContact();
    }
  }

  /**
   * The converse of AllergenPrefix's contract: a text that opens with a
   * keyword in any case, then white space, then ':' is always an allergen
   * annotation, and its match ends just after that colon.
   */
  lemma AllergenPrefixComplete(t: string, keyword: string, j: nat)
    requires keyword == "алергени" || keyword == "allergens"
    requires StartsWithIgnoringCase(t, keyword) && |keyword| <= j < |t|
    requires AllSpace(t[|keyword|..j]) && t[j] == ':'
    ensures IsAllergensTitle(t) && AllergenPrefix(t) == j + 1
  {
    var k := |keyword|;
    if keyword == "allergens" {
      assert Lower(t)[0] == 'a';
      assert !StartsWithIgnoringCase(t, "алергени");
    }
    assert AllergenKeyword(t) == k;
    var s := t[k..];
    assert s[..j - k] == t[k..j] && s[j - k] == ':' && !IsSpace(':');
    assert LeadingSpace(s) == j - k;
  }

  /** An allergen annotation starts with 'a' or 'а' (after lower-casing), so it is no contact line. */
  lemma AllergenIsNoContact(t: string)
    requires IsAllergensTitle(t) && Trim(t) == t
    ensures !IsContactLine(t)
  {
    var l := Lower(t);
    assert l[0] == 'a' || l[0] == '\U{0430}';
    assert LowerChar(':') == ':';
  }

  /**
   * Two tests of isNoteOnly can never decide: a text starting with ':' has
   * already been taken as a contact line, and an allergen annotation has
   * already been taken by the allergen branch.
   */
  lemma ColonIsContact(c: Category)
    requires c.items == [] && StartsWith(TitleText(c), ":")
    ensures Classify(c) == ContactLine
  {
    TrimIdempotent(RawTitle(c));
  }

  lemma AllergenBeforeNote(c: Category)
    requires IsAllergensTitle(TitleText(c))
    ensures Classify(c) == AllergenLine
  {
    TrimIdempotent(RawTitle(c));
    AllergenIsNoContact(TitleText(c));
  }

  /** Note lines, with the two unreachable tests of isNoteOnly removed. */
  lemma NoteIff(c: Category)
    ensures Classify(c) == NoteLine <==>
              c.items == [] && !IsContactLine(TitleText(c)) && !IsAllergensTitle(TitleText(c))
              && (StartsWith(TitleText(c), "/") || IsLowercaseStart(TitleText(c)))
  {
    var t := TitleText(c);
    TrimIdempotent(RawTitle(c));
    assert Trim(t) == t;
    if c.items == [] && StartsWith(t, ":") {
      ColonIsContact(c);
    }
    if IsAllergensTitle(t) {
      AllergenBeforeNote(c);
    }
    if StartsWith(t, "/") || IsLowercaseStart(t) {
      assert t != "";
    }
  }

  /** Headings: every entry with items that is not an allergen annotation. */
  lemma HeadingIff(c: Category)
    ensures Classify(c) == Heading <==> c.items != [] && !IsAllergensTitle(TitleText(c))
  {
  }

  /** The fallback: a non-blank itemless entry that nothing else recognises. */
  lemma FallbackIff(c: Category)
    ensures Classify(c) == Fallback <==>
              c.items == [] && TitleText(c) != "" && !IsContactLine(TitleText(c)) && !IsAllergensTitle(TitleText(c))
              && !StartsWith(TitleText(c), "/") && !IsLowercaseStart(TitleText(c))
  {
    NoteIff(c);
  }

  /** Every kind but an allergen annotation or a heading is itemless. */
  lemma ItemsOnlyInAllergenOrHeading(c: Category)
    ensures c.items != [] ==> Classify(c) == AllergenLine || Classify(c) == Heading
  {
  }

  /* ---------- reachable states: lastItem is the most recently appended item ---------- */

  /**
   * In every state the pass reaches, every category but the first has items
   * when it is the open one: only the fallback opens an itemless category,
   * and only when none is open.
   */
  predicate Reachable(cats: seq<Category>) {
    |cats| <= 1 || cats[|cats| - 1].items != []
  }

  lemma LastItemIsLastAppended(cats: seq<Category>)
    requires Reachable(cats)
    ensures HasLastItem(cats) <==> AllItems(cats) != []
    ensures HasLastItem(cats) ==> LastItem(cats) == AllItems(cats)[|AllItems(cats)| - 1]
  {
    if cats != [] {
      var n := |cats|;
      AllItemsAppend(cats[..n - 1], cats[n - 1]);
      assert cats[..n - 1] + [cats[n - 1]] == cats;
      if n == 1 {
        assert AllItems(cats[..0]) == [];
      }
    }
  }

  lemma AddItemsItems(cats: seq<Category>, items: seq<Item>)
    ensures AllItems(AddItems(cats, items)) == AllItems(cats) + items
  {
    var cs := if cats == [] then [Category(Others, Others, [])] else cats;
    var n := |cs|;
    var c := cs[n - 1];
    if cats == [] {
      assert AllItems(cs) == [] by {
        AllItemsAppend([], c);
      }
    }
    AllItemsAppend(cs[..n - 1], c);
    AllItemsAppend(cs[..n - 1], c.(items := c.items + items));
    assert cs[..n - 1] + [c] == cs;
  }

  lemma WithLastItemItems(cats: seq<Category>, it: Item)
    requires HasLastItem(cats)
    ensures var all := AllItems(cats);
            all != [] && AllItems(WithLastItem(cats, it)) == all[..|all| - 1] + [it]
  {
    var n := |cats|;
    var c := cats[n - 1];
    var m := |c.items|;
    var w := WithLastItem(cats, it);
    var pre := AllItems(cats[..n - 1]);
    assert AllItems(cats) == pre + c.items;
    TakeOfUpdate(cats, n - 1, w[n - 1]);
    assert AllItems(w) == pre + w[n - 1].items;
    UpdateLast(c.items, it);
    DropLastOfAppend(pre, c.items);
    AppendAssoc(pre, c.items[..m - 1], [it]);
  }

  /** Replacing the last element is dropping it and appending the new one. */
  lemma UpdateLast<T>(s: seq<T>, x: T)
    requires s != []
    ensures s[|s| - 1 := x] == s[..|s| - 1] + [x]
  {
  }

  /** Replacing element `i` leaves the elements before it alone. */
  lemma TakeOfUpdate<T>(s: seq<T>, i: nat, x: T)
    requires i < |s|
    ensures s[i := x][..i] == s[..i]
  {
  }

  lemma AppendAssoc<T>(a: seq<T>, b: seq<T>, c: seq<T>)
    ensures a + (b + c) == (a + b) + c
  {
  }

  /** Dropping the last element of `a + b`, for a non-empty `b`, drops it from `b`. */
  lemma DropLastOfAppend<T>(a: seq<T>, b: seq<T>)
    requires b != []
    ensures (a + b)[..|a + b| - 1] == a + b[..|b| - 1]
  {
  }

  lemma StepReachable(acc: Acc, c: Category)
    requires Reachable(acc.categories)
    ensures Reachable(Step(acc, c).categories)
  {
    ApplyReachable(acc, c, Classify(c), TitleText(c));
  }

  lemma ApplyReachable(acc: Acc, c: Category, kind: Kind, t: string)
    requires kind == AllergenLine ==> IsAllergensTitle(t)
    requires kind == Heading ==> |c.items| > 0
    requires Reachable(acc.categories)
    ensures Reachable(Apply(acc, c, kind, t).categories)
  {
    var cats := acc.categories;
    match kind
    case Blank =>
    case ContactLine =>
    case Fallback =>
    case NoteLine =>
      assert |AddNote(cats, t)| == |cats|;
    case AllergenLine =>
      var cats' := SetAllergens(cats, AllergenValue(t));
      assert |cats'| == |cats| && (cats' == [] || cats'[|cats'| - 1].items != [] || cats[|cats| - 1].items == []);
      if |c.items| > 0 {
        var r := AddItems(cats', c.items);
        assert r[|r| - 1].items != [];
      }
    case Heading =>
      var r := AddItems(cats + [HeadingCategory(c)], c.items);
      assert r[|r| - 1].items != [];
  }

  lemma {:induction false} FoldReachable(raw: seq<Category>)
    ensures Reachable(Fold(raw).categories)
  {
    if raw != [] {
      FoldReachable(raw[..|raw| - 1]);
      StepReachable(Fold(raw[..|raw| - 1]), raw[|raw| - 1]);
    }
  }

  /* ---------- items: conservation, order, growth only ---------- */

  /**
   * `out` is `orig` after the pass: same name, quantity and price; allergens
   * kept once set; notes only appended to.
   */
  predicate Extends(orig: Item, out: Item) {
    out.nameBg == orig.nameBg && out.nameEn == orig.nameEn
    && out.qty == orig.qty && out.price == orig.price
    && (orig.allergens != "" ==> out.allergens == orig.allergens)
    && |orig.notes| <= |out.notes| && out.notes[..|orig.notes|] == orig.notes
  }

  predicate ExtendsAll(orig: seq<Item>, out: seq<Item>) {
    |orig| == |out| && forall k :: 0 <= k < |orig| ==> Extends(orig[k], out[k])
  }

  lemma ExtendsTrans(a: Item, b: Item, c: Item)
    requires Extends(a, b) && Extends(b, c)
    ensures Extends(a, c)
  {
    assert c.notes[..|a.notes|] == c.notes[..|b.notes|][..|a.notes|];
  }

  lemma ExtendsAllTrans(a: seq<Item>, b: seq<Item>, c: seq<Item>)
    requires ExtendsAll(a, b) && ExtendsAll(b, c)
    ensures ExtendsAll(a, c)
  {
    forall k | 0 <= k < |a|
      ensures Extends(a[k], c[k])
    {
      ExtendsTrans(a[k], b[k], c[k]);
    }
  }

  lemma ExtendsAllSelf(a: seq<Item>)
    ensures ExtendsAll(a, a)
  {
    forall k | 0 <= k < |a|
      ensures Extends(a[k], a[k])
    {
      assert a[k].notes[..|a[k].notes|] == a[k].notes;
    }
  }

  /** Replacing the most recently appended item by an extension of it extends the item list. */
  lemma ExtendsLast(cats: seq<Category>, it: Item)
    requires HasLastItem(cats) && Extends(LastItem(cats), it)
    ensures ExtendsAll(AllItems(cats), AllItems(WithLastItem(cats, it)))
  {
    var all := AllItems(cats);
    WithLastItemItems(cats, it);
    AllItemsTail(cats);
    ExtendsAllSelf(all);
    var after := AllItems(WithLastItem(cats, it));
    forall k | 0 <= k < |all|
      ensures Extends(all[k], after[k])
    {
      if k < |all| - 1 {
        assert after[k] == all[k];
      }
    }
  }

  lemma AddNoteItems(cats: seq<Category>, text: string)
    ensures ExtendsAll(AllItems(cats), AllItems(AddNote(cats, text)))
  {
    var note := NormalizeNote(text);
    if HasLastItem(cats) && note != "" {
      var it := LastItem(cats);
      assert (it.notes + [note])[..|it.notes|] == it.notes;
      ExtendsLast(cats, it.(notes := it.notes + [note]));
    } else {
      ExtendsAllSelf(AllItems(cats));
    }
  }

  lemma SetAllergensItems(cats: seq<Category>, v: string)
    ensures ExtendsAll(AllItems(cats), AllItems(SetAllergens(cats, v)))
  {
    if v != "" && HasLastItem(cats) && LastItem(cats).allergens == "" {
      var it := LastItem(cats);
      assert it.notes[..|it.notes|] == it.notes;
      ExtendsLast(cats, it.(allergens := v));
    } else {
      ExtendsAllSelf(AllItems(cats));
    }
  }

  /** One step keeps the items it had (possibly annotated) and appends the entry's items. */
  lemma StepItems(acc: Acc, c: Category)
    ensures ExtendsAll(AllItems(acc.categories) + c.items, AllItems(Step(acc, c).categories))
  {
    var cats := acc.categories;
    var all := AllItems(cats);
    var t := TitleText(c);
    match Classify(c)
    case Blank =>
      ExtendsAllSelf(all);
    case ContactLine =>
      ExtendsAllSelf(all);
    case Fallback =>
      if cats == [] {
        AllItemsAppend([], Category(t, t, []));
      }
      ExtendsAllSelf(all);
    case NoteLine =>
      AddNoteItems(cats, t);
    case AllergenLine =>
      var cats' := SetAllergens(cats, AllergenValue(t));
      SetAllergensItems(cats, AllergenValue(t));
      if |c.items| > 0 {
        AddItemsItems(cats', c.items);
        ExtendsAllAppend(all, AllItems(cats'), c.items);
      }
    case Heading =>
      AllItemsAppend(cats, HeadingCategory(c));
      AddItemsItems(cats + [HeadingCategory(c)], c.items);
      ExtendsAllSelf(all + c.items);
  }

  /** The last item of a category sequence with items sits at the end of AllItems. */
  lemma AllItemsTail(cats: seq<Category>)
    requires HasLastItem(cats)
    ensures var all := AllItems(cats); all != [] && all[|all| - 1] == LastItem(cats)
  {
    var n := |cats|;
    AllItemsAppend(cats[..n - 1], cats[n - 1]);
    assert cats[..n - 1] + [cats[n - 1]] == cats;
  }

  lemma ExtendsAllAppend(a: seq<Item>, b: seq<Item>, tail: seq<Item>)
    requires ExtendsAll(a, b)
    ensures ExtendsAll(a + tail, b + tail)
  {
    ExtendsAllSelf(tail);
    forall k | 0 <= k < |a| + |tail|
      ensures Extends((a + tail)[k], (b + tail)[k])
    {
      if k >= |a| {
        assert (a + tail)[k] == tail[k - |a|] == (b + tail)[k];
      }
    }
  }

  /**
   * Item conservation: the items of the raw entries, in order, are exactly
   * the items of the pass's categories, each kept or annotated.
   */
  lemma {:induction false} FoldItems(raw: seq<Category>)
    ensures ExtendsAll(AllItems(raw), AllItems(Fold(raw).categories))
  {
    if raw != [] {
      var init := raw[..|raw| - 1];
      var c := raw[|raw| - 1];
      FoldItems(init);
      ExtendsAllAppend(AllItems(init), AllItems(Fold(init).categories), c.items);
      StepItems(Fold(init), c);
      ExtendsAllTrans(AllItems(raw), AllItems(Fold(init).categories) + c.items, AllItems(Fold(raw).categories));
    }
  }

  /** Items that arrive while no category is open go into a new "Други" category. */
  lemma OrphansGoToOthers(acc: Acc, c: Category)
    requires acc.categories == [] && c.items != [] && Classify(c) == AllergenLine
    ensures Step(acc, c).categories == [Category("Други", "Други", c.items)]
  {
    var cats := SetAllergens(acc.categories, AllergenValue(TitleText(c)));
    assert cats == [];
    assert [] + c.items == c.items;
  }

  /* ---------- annotations of the last item ---------- */

  /**
   * Allergen precedence: an annotation changes at most the allergens of the
   * most recently appended item, and only when its value is non-empty and the
   * item has none yet; an allergen value once set is never overwritten. The
   * annotation is applied first: the entry's own items come after it, at the
   * end of the open category (or of a new "Други" one when none is open), and
   * are never annotated by it.
   */
  lemma AllergenPrecedence(acc: Acc, c: Category)
    requires Reachable(acc.categories) && Classify(c) == AllergenLine
    ensures var before := AllItems(acc.categories);
            var after := AllItems(Step(acc, c).categories);
            var v := AllergenValue(TitleText(c));
            |after| == |before| + |c.items|
            && after[|before|..] == c.items
            && |Step(acc, c).categories| == (if acc.categories == [] && c.items != [] then 1 else |acc.categories|)
            && (before == [] && c.items == [] ==> Step(acc, c) == acc)
            && (before != [] ==>
                  after[..|before| - 1] == before[..|before| - 1]
                  && after[|before| - 1] ==
                       (if v != "" && before[|before| - 1].allergens == ""
                        then before[|before| - 1].(allergens := v) else before[|before| - 1]))
  {
    var v := AllergenValue(TitleText(c));
    var cats := SetAllergens(acc.categories, v);
    var r := if c.items != [] then AddItems(cats, c.items) else cats;
    assert Step(acc, c) == acc.(categories := r);
    SetAllergensLast(acc.categories, v);
    AllergenThenItems(acc.categories, cats, c.items, r);
    AnnotateThenAppend(AllItems(acc.categories), AllItems(cats), c.items, AllItems(r));
  }

  /** The items of an allergen entry go after the annotated ones, into the open category or a new one. */
  lemma AllergenThenItems(cats: seq<Category>, annotated: seq<Category>, items: seq<Item>, r: seq<Category>)
    requires |annotated| == |cats|
    requires r == if items != [] then AddItems(annotated, items) else annotated
    ensures AllItems(r) == AllItems(annotated) + items
    ensures |r| == (if cats == [] && items != [] then 1 else |cats|)
  {
    if items != [] {
      AddItemsItems(annotated, items);
    } else {
      assert AllItems(annotated) + items == AllItems(annotated);
    }
  }

  /** A list changed at most in its last element, then extended: where the old and the new elements are. */
  lemma AnnotateThenAppend<T>(before: seq<T>, mid: seq<T>, items: seq<T>, after: seq<T>)
    requires |mid| == |before| && after == mid + items
    requires before != [] ==> mid[..|before| - 1] == before[..|before| - 1]
    ensures |after| == |before| + |items| && after[|before|..] == items
    ensures before != [] ==>
              after[..|before| - 1] == before[..|before| - 1] && after[|before| - 1] == mid[|before| - 1]
  {
    if before != [] {
      assert after[..|before| - 1] == mid[..|before| - 1];
    }
  }

  /** SetAllergens touches only the last item of the flattened list, and only an empty allergens field. */
  lemma SetAllergensLast(cats: seq<Category>, v: string)
    requires Reachable(cats)
    ensures var before := AllItems(cats);
            var after := AllItems(SetAllergens(cats, v));
            |after| == |before|
            && (before == [] ==> SetAllergens(cats, v) == cats)
            && (before != [] ==>
                  after[..|before| - 1] == before[..|before| - 1]
                  && after[|before| - 1] ==
                       (if v != "" && before[|before| - 1].allergens == ""
                        then before[|before| - 1].(allergens := v) else before[|before| - 1]))
  {
    LastItemIsLastAppended(cats);
    if v != "" && HasLastItem(cats) && LastItem(cats).allergens == "" {
      WithLastItemItems(cats, LastItem(cats).(allergens := v));
    }
  }

  /**
   * Notes: a note line appends its normalised text to the notes of the most
   * recently appended item, unless that text is empty or there is no item.
   */
  lemma NoteAppends(acc: Acc, c: Category)
    requires Reachable(acc.categories) && Classify(c) == NoteLine
    ensures var before := AllItems(acc.categories);
            var after := AllItems(Step(acc, c).categories);
            var note := NormalizeNote(TitleText(c));
            |after| == |before|
            && (before == [] || note == "" ==> Step(acc, c) == acc)
            && (before != [] ==>
                  after[..|before| - 1] == before[..|before| - 1]
                  && after[|before| - 1] ==
                       (if note != "" then before[|before| - 1].(notes := before[|before| - 1].notes + [note])
                        else before[|before| - 1]))
  {
    var cats := acc.categories;
    var note := NormalizeNote(TitleText(c));
    LastItemIsLastAppended(cats);
    if note != "" && HasLastItem(cats) {
      WithLastItemItems(cats, LastItem(cats).(notes := LastItem(cats).notes + [note]));
    }
  }

  /** The fallback opens a category titled with the trimmed text exactly when none is open. */
  lemma FallbackOpensOnlyFirst(acc: Acc, c: Category)
    requires Classify(c) == Fallback
    ensures Step(acc, c) != acc <==> acc.categories == []
    ensures acc.categories == [] ==> Step(acc, c).categories == [Category(TitleText(c), TitleText(c), [])]
  {
  }

  /**
   * A heading appends exactly one category after the ones already there: its
   * titles are the entry's own, each falling back to the trimmed title when
   * empty, and its items are the entry's items. Nothing else changes.
   */
  lemma HeadingOpens(acc: Acc, c: Category)
    requires Classify(c) == Heading
    ensures var t := TitleText(c);
            var titleBg := if c.titleBg != "" then c.titleBg else t;
            var titleEn := if c.titleEn != "" then c.titleEn else t;
            Step(acc, c) == acc.(categories := acc.categories + [Category(titleBg, titleEn, c.items)])
  {
    var cs := acc.categories + [HeadingCategory(c)];
    assert cs[..|cs| - 1] == acc.categories;
    assert [] + c.items == c.items;
  }

  /* ---------- contact lines ---------- */

  /** The trimmed titles of the contact-line entries, in input order. */
  function ContactLines(raw: seq<Category>): (lines: seq<string>)
    ensures forall k :: 0 <= k < |lines| ==> IsContactLine(lines[k]) && lines[k] != ""
  {
    if raw == [] then []
    else
      var c := raw[|raw| - 1];
      ContactLines(raw[..|raw| - 1]) + (if Classify(c) == ContactLine then [TitleText(c)] else [])
  }

  lemma {:induction false} FoldContacts(raw: seq<Category>)
    ensures Fold(raw).infoLines == ContactLines(raw)
  {
    if raw != [] {
      FoldContacts(raw[..|raw| - 1]);
    }
  }

  /**
   * After the pass: the categories the pass built, then, when there were
   * contact lines, exactly one "Контакти"/"Contacts" category holding one
   * plain item per line, in input order.
   */
  lemma NormalizeShape(data: MenuDoc)
    ensures var out := Normalize(data);
            var cats := Fold(data.categories).categories;
            var lines := ContactLines(data.categories);
            out.titleBg == data.titleBg && out.titleEn == data.titleEn && out.currency == data.currency
            && (lines == [] ==> out.categories == cats)
            && (lines != [] ==>
                  |out.categories| == |cats| + 1 && out.categories[..|cats|] == cats
                  && out.categories[|cats|].titleBg == "Контакти" && out.categories[|cats|].titleEn == "Contacts"
                  && |out.categories[|cats|].items| == |lines|
                  && forall k :: 0 <= k < |lines| ==>
                       out.categories[|cats|].items[k] == Item(lines[k], lines[k], "", "", "", []))
  {
    FoldContacts(data.categories);
  }

  /**
   * The whole of normalizeMenu's item bookkeeping: the output holds the raw
   * items in order, each kept or annotated, followed by one item per contact
   * line; so its item count is the raw count plus the contact-line count.
   */
  lemma NormalizeItems(data: MenuDoc)
    ensures var raw := AllItems(data.categories);
            var out := AllItems(Normalize(data).categories);
            var lines := ContactLines(data.categories);
            |out| == |raw| + |lines|
            && ExtendsAll(raw, out[..|raw|])
            && out[|raw|..] == ContactItems(lines)
  {
    var cats := Fold(data.categories).categories;
    var lines := ContactLines(data.categories);
    FoldContacts(data.categories);
    FoldItems(data.categories);
    var raw := AllItems(data.categories);
    var out := AllItems(Normalize(data).categories);
    if lines != [] {
      AllItemsAppend(cats, ContactsCategory(lines));
      assert Normalize(data).categories == cats + [ContactsCategory(lines)];
      assert out == AllItems(cats) + ContactsCategory(lines).items;
    } else {
      assert Normalize(data).categories == cats;
      assert out == AllItems(cats) + [];
    }
    assert out[..|raw|] == AllItems(cats);
  }

  /* ---------- concrete cases ---------- */

  predicate SpaceOrSlash(s: string) {
    forall i :: 0 <= i < |s| ==> IsSpace(s[i]) || s[i] == '/'
  }

  /** `note` is a slice of `t` with only white space and '/' around it. */
  predicate CutFrom(note: string, t: string) {
    exists a :: 0 <= a <= |t| - |note| && note == t[a..a + |note|]
                && SpaceOrSlash(t[..a]) && SpaceOrSlash(t[a + |note|..])
  }

  /**
   * What normalizeNote keeps: a slice of the trimmed text, with only white
   * space and '/' cut off at either end, and no white space left at either
   * end of the note.
   */
  lemma NormalizeNoteSpec(text: string)
    ensures CutFrom(NormalizeNote(text), Trim(text))
    ensures var note := NormalizeNote(text);
            note == [] || (!IsSpace(note[0]) && !IsSpace(note[|note| - 1]))
  {
    var t := Trim(text);
    var u := DropLeadingSlashes(t);
    var w := DropTrailingSlashes(u);
    DropLeadingSpec(t);
    DropTrailingSpec(u);
    TrimSpec(w);
    var note := Trim(w);
    var d, b := |t| - |u|, LeadingSpace(w);
    assert u == t[d..] && AllSlash(t[..d]);
    assert w == u[..|w|] && AllSlash(u[|w|..]);
    assert note == w[b..b + |note|] && AllSpace(w[..b]) && AllSpace(w[b + |note|..]);
    NoteSlices(t, d, u, w, b, note);
  }

  predicate AllSlash(s: string) {
    forall i :: 0 <= i < |s| ==> s[i] == '/'
  }

  /** The leading run of '/' is what DropLeadingSlashes cuts off. */
  lemma DropLeadingSpec(s: string)
    ensures var r := DropLeadingSlashes(s);
            r == s[|s| - |r|..] && AllSlash(s[..|s| - |r|])
  {
    DropLeadingIsSuffix(s);
  }

  /** The trailing run of '/' is what DropTrailingSlashes cuts off. */
  lemma DropTrailingSpec(s: string)
    ensures var r := DropTrailingSlashes(s);
            r == s[..|r|] && AllSlash(s[|r|..])
  {
    DropTrailingIsPrefix(s);
  }

  /**
   * The three cuts of normalizeNote composed: `u` is `t` after a run of '/',
   * `w` is `u` before a run of '/', and `note` is `w` between runs of white
   * space.
   */
  lemma NoteSlices(t: string, d: nat, u: string, w: string, b: nat, note: string)
    requires d <= |t| && u == t[d..] && AllSlash(t[..d])
    requires |w| <= |u| && w == u[..|w|] && AllSlash(u[|w|..])
    requires b + |note| <= |w| && note == w[b..b + |note|] && AllSpace(w[..b]) && AllSpace(w[b + |note|..])
    ensures CutFrom(note, t)
  {
    var a := d + b;
    forall i | 0 <= i < a
      ensures IsSpace(t[..a][i]) || t[..a][i] == '/'
    {
      if i >= d {
        assert t[i] == w[..b][i - d];
      } else {
        assert t[i] == t[..d][i];
      }
    }
    var e := a + |note|;
    forall i | 0 <= i < |t| - e
      ensures IsSpace(t[e..][i]) || t[e..][i] == '/'
    {
      if i + e - d < |w| {
        assert t[e..][i] == w[b + |note|..][i];
      } else {
        assert t[e..][i] == u[|w|..][i + e - d - |w|];
      }
    }
    forall k | 0 <= k < |note|
      ensures note[k] == t[a..e][k]
    {
      assert note[k] == w[b + k] == u[b + k];
    }
    assert note == t[a..e];
    assert SpaceOrSlash(t[..a]) && SpaceOrSlash(t[e..]);
  }

  lemma NoteStripping()
    ensures NormalizeNote("/ contains nuts /") == "contains nuts"
  {
    StripOuterTrim();
    StripSlashes();
    StripInnerTrim();
  }

  lemma StripOuterTrim()
    ensures Trim("/ contains nuts /") == "/ contains nuts /"
  {
    var text := "/ contains nuts /";
    assert !IsSpace(text[0]) && !IsSpace(text[|text| - 1]);
    TrimStartNoop(text);
    TrimEndNoop(text);
  }

  lemma StripSlashes()
    ensures DropTrailingSlashes(DropLeadingSlashes("/ contains nuts /")) == " contains nuts "
  {
    var text := "/ contains nuts /";
    assert DropLeadingSlashes(text) == text[1..];
    assert DropTrailingSlashes(text[1..]) == text[1..|text| - 1];
  }

  lemma StripInnerTrim()
    ensures Trim(" contains nuts ") == "contains nuts"
  {
    var inner := " contains nuts ";
    var core := "contains nuts";
    assert TrimStart(inner) == core + " " by {
      assert inner[1..] == core + " ";
      TrimStartNoop(core + " ");
    }
    assert TrimEnd(core + " ") == core by {
      assert (core + " ")[..|core|] == core;
      TrimEndNoop(core);
    }
  }
}
