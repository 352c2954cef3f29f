# Menu book: normaliser, page packer, page metrics and navigation

A model of the logic of the restaurant-menu flip book in `script.js`. The
model covers four parts:

- **the normaliser** (`normalizeMenu`). It turns the raw menu document into
  clean categories. One left-to-right pass classifies each raw entry by its
  trimmed title and by whether it has items. Blank lines are dropped. Contact
  lines are collected. Allergen and note lines annotate the last item. Real
  categories are opened, and a fallback title opens a category when none is
  open. At the end a "Контакти"/"Contacts" category holding the contact lines
  is appended.
- **the page packer** (`estimateItemLines`, `buildPages`). A greedy packer
  lays the categories out on pages under a budget of lines.
- **the metrics** (`getLayoutMetricsForSize`). These are the lines per page
  and characters per line for a given page size.
- **the page index** (`normalizeIndex`, `canGoNext`, `canGoPrev`,
  `goNextIndex`, `goPrevIndex`). This is the index of the flip book in
  single-page and spread mode.

Modules:

- `Menu` (menu.dfy): the menu document and the language accessors.
- `Text` (text.dfy): JavaScript's `trim`, the lower-casing the prefix tests
  need, and `join`.
- `Normalizer` (normalizer.dfy): normalizeMenu.
  - The pass is specified by a fold (`Classify`, `Step`, `Fold`, `Normalize`).
  - The fold is also implemented by class `MenuNormalizer`. Its fields are the
    output categories, the contact lines and the two cursors `current` and
    `lastItem`. Its methods update the output in place, as the loop body does.
  - Object references are modelled as indices into the output: a category
    index, and a (category, position) pair.
- `NormalizerProps` (normalizer_props.dfy): what the normaliser guarantees.
- `Packer` (packer.dfy): estimateItemLines and buildPages.
  - All costs are in tenths of a line.
  - The packing is specified by a fold; method `BuildPages` is the nested loop.
- `PackerProps` (packer_props.dfy): what the packing guarantees.
- `Layout` (layout.dfy): getLayoutMetricsForSize.
- `Navigation` (navigation.dfy): the index state machine. It is written as
  class `Navigator` with fields `count`, `index` and `mode`, plus the
  functions that specify it.

An entry whose title trims to empty but which has items is a real
category in `script.js`: it is opened with a blank title and its items are
kept, because script.js:143-145 drops only blank entries without items and
script.js:168-176 opens a category for any other entry with items.

## Model

| member | source | states |
|---|---|---|
| Menu.CategoryTitle | script.js:53-54 | Bulgarian: title_bg. English: title_en, falling back to title_bg when title_en is empty. A blank result means the titles it read are blank. |
| Menu.ItemName | script.js:61-62 | Bulgarian: name_bg. English: name_en, falling back to name_bg. A blank result means the names it read are blank. |
| Menu.AllItemsAppend | script.js:123-136 | The items of a menu with one more category are the old items followed by that category's items. |
| Text.TrimSpec | script.js:140 | `trim` removes exactly the leading and the trailing runs of white space: the result is a slice of the input with white space on both sides and none at its ends. |
| Text.TrimIdempotent | script.js:140 | Trimming twice is trimming once. |
| Text.JoinLength | script.js:240-241 | `notes.join(" ")` is as long as the notes together plus one separator between each pair. |
| Normalizer.DropLeadingIsSuffix | script.js:104-107 | Removing the leading "/" run leaves a suffix of the text. |
| Normalizer.DropTrailingIsPrefix | script.js:104-107 | Removing the trailing "/" run leaves a prefix of the text. |
| Normalizer.MenuNormalizer.constructor | script.js:68-77 | The pass starts with no categories, no contact lines and neither cursor set. |
| Normalizer.MenuNormalizer.AddNotes | script.js:109-121 | A non-empty normalised note is appended to the notes of the last item. The note is dropped when it is empty or when there is no last item. Nothing else changes. |
| Normalizer.MenuNormalizer.AddItemsToCurrent | script.js:123-136 | The items are appended to the open category. With none open, a "Други"/"Други" category is opened for them first. lastItem becomes the last of them. |
| Normalizer.MenuNormalizer.AddAllergens | script.js:152-161 | The allergen value is set on the last item only if the value is non-empty and the item has none. Then the entry's items are added as addItemsToCurrent adds them. |
| Normalizer.MenuNormalizer.OpenHeading | script.js:168-177 | A new category is opened and receives the entry's items. Its titles are the entry's own title_bg and title_en, each falling back to the trimmed title when it is empty. |
| Normalizer.MenuNormalizer.OpenFallback | script.js:179-183 | A category titled with the trimmed text is opened only if none is open yet; otherwise nothing changes. |
| Normalizer.MenuNormalizer.Visit | script.js:138-184 | One iteration of the forEach changes the state exactly as the fold step `Step` does, and keeps the cursors consistent with the output. |
| Normalizer.FoldNext | script.js:138-184 | The fold over one more raw entry is one more step. |
| Normalizer.NormalizeMenu | script.js:67-202 | The method's output is the fold's result (`Normalize`), and the contacts category is added after it. |
| Normalizer.ContactLinesToItems | script.js:186-199 | One item per contact line, in order: both names are the line; quantity, price and allergens are empty; there are no notes. |
| NormalizerProps.EmptyNeverContact | script.js:79-102 | An empty title is neither a contact line, nor an allergen title, nor a lowercase start. |
| NormalizerProps.BlankIff | script.js:143-145 | An entry is dropped as blank exactly when its title trims to empty and it has no items. A blank entry changes nothing. |
| NormalizerProps.ContactIff | script.js:147-150 | An entry is a contact line exactly when it has no items and its trimmed title is a contact line. The title is then collected, and no category is opened or touched. |
| Normalizer.AllergenPrefix | script.js:79 | The length of the match of isAllergensTitle's pattern (one of the keywords "алергени" and "allergens", white space, ':'), or 0: when non-zero, the text opens with a keyword in any case, then only white space, then the ':' that ends the match. |
| NormalizerProps.AllergenPrefixComplete | script.js:79 | Conversely, a text that opens with "алергени" or "allergens" in any case, then white space, then ':' is always an allergen title, and its match ends just after that ':'. |
| NormalizerProps.AllergenIsNoContact | script.js:92-102 | A trimmed allergen title is never a contact line. |
| NormalizerProps.ColonIsContact | script.js:92-101 | An itemless title starting with ":" is always taken as a contact line, so isNoteOnly's ":" branch is never reached. |
| NormalizerProps.AllergenBeforeNote | script.js:152-166 | An allergen title is always taken as an allergen line, so isNoteOnly's allergen branch is never reached. |
| NormalizerProps.NoteIff | script.js:82-96 | An entry is a note line exactly when it has no items, is not blank, not a contact line and not an allergen line, and its trimmed title starts with "/" or with a lowercase letter. |
| NormalizerProps.HeadingIff | script.js:168-177 | An entry opens a category exactly when it has items and is not an allergen line. |
| NormalizerProps.FallbackIff | script.js:179-183 | The fallback is taken exactly for a non-blank itemless title that matches no other rule. |
| NormalizerProps.ItemsOnlyInAllergenOrHeading | script.js:138-184 | An entry with items is either an allergen line or a heading, so its items are never lost. |
| NormalizerProps.LastItemIsLastAppended | script.js:123-136 | lastItem is set exactly when the output holds an item, and then it is the last item of the output. |
| NormalizerProps.AddItemsItems | script.js:123-136 | addItemsToCurrent appends exactly the given items, in order, after the output's items. |
| NormalizerProps.WithLastItemItems | script.js:152-156 | Changing the last item replaces only the last of the output's items. |
| NormalizerProps.StepReachable | script.js:138-184 | Every step keeps the output in a shape the pass can reach: once a second category exists, the open (last) category has items. |
| NormalizerProps.FoldReachable | script.js:138-184 | The whole pass keeps that shape. |
| NormalizerProps.StepItems | script.js:138-184 | A step turns the output's items plus the entry's items into the new output's items, position by position. Names, quantity and price are kept, a set allergen value is kept, and notes only grow at the end. |
| NormalizerProps.FoldItems | script.js:138-184 | Over the whole pass, the output items correspond one to one and in order to the raw items, each kept or annotated as StepItems says. |
| NormalizerProps.OrphansGoToOthers | script.js:123-126 | Items that arrive before any category is open go into a new category titled "Други" in both languages. |
| NormalizerProps.AllergenPrecedence | script.js:152-161 | An allergen line first annotates and then appends. The last item's allergens become the trimmed remainder only when that is non-empty and the item had none; a set value is never overwritten; every other item is unchanged. Then the entry's items follow, in order. |
| NormalizerProps.NoteAppends | script.js:104-121 | A note line appends its normalised note to the last item's notes. It changes nothing when the note is empty or there is no last item, and every other item is unchanged. |
| NormalizerProps.HeadingOpens | script.js:168-177 | A heading appends exactly one category after those already there. Its titles are the entry's own, each replaced by the trimmed title when empty, and its items are the entry's items. Nothing else in the state changes. |
| NormalizerProps.FallbackOpensOnlyFirst | script.js:179-183 | The fallback changes the state exactly when no category is open. It then opens one empty category titled with the trimmed text. |
| NormalizerProps.ContactLines | script.js:147-150 | Every collected contact line is a non-empty contact line. |
| NormalizerProps.FoldContacts | script.js:147-150 | The pass collects exactly the trimmed titles of the contact-line entries, in input order. |
| NormalizerProps.NormalizeShape | script.js:186-201 | The menu's titles and currency are kept. With contact lines, exactly one "Контакти"/"Contacts" category is appended last, with one plain item per line in order. Without them, nothing is appended. |
| NormalizerProps.NormalizeItems | script.js:67-202 | The output has as many items as the raw menu plus one per contact line. The raw items come first, in order, each kept or annotated; the contact items follow. |
| NormalizerProps.NormalizeNoteSpec | script.js:104-107 | The normalised note is a slice of the trimmed text, with only white space and "/" removed on either side, and it has no white space at either end. |
| NormalizerProps.DropLeadingSpec | script.js:106 | Removing the leading "/" run removes only slashes, from the front. |
| NormalizerProps.DropTrailingSpec | script.js:106 | Removing the trailing "/" run removes only slashes, from the back. |
| NormalizerProps.NoteStripping | script.js:104-107 | "/ contains nuts /" is normalised to "contains nuts". |
| Packer.FloorDivSpec | script.js:234 | FloorDiv is `Math.floor` of the quotient. |
| Packer.CeilDivSpec | script.js:236-243 | CeilDiv is `Math.ceil` of the quotient. |
| Packer.ItemCost | script.js:231-246 | An item never costs less than 1.6 lines. |
| Packer.BuildPages | script.js:248-301 | buildPages returns one cover followed by the category pages of the packing fold. |
| Packer.PackCategory | script.js:270-297 | One iteration over a category moves the loop variables from the fold state before it to the state after it. |
| Packer.OpenCategory | script.js:270-285 | A page break comes before a category only if the page has a section and usedLines + 1.4 + 1.2 exceeds the budget. Then the category's section is added, costing 1.4, plus 1.2 when the category has no items. |
| Packer.PlaceItems | script.js:287-296 | The loop over a category's items ends in the fold's state after all of them. |
| Packer.PlaceNext | script.js:287-296 | One turn of the loop over a category's items: from the state after the first j items, placing item j gives the fold's state after j + 1 items. |
| Packer.PlaceItem | script.js:287-296 | A page break comes inside a category only if the current section holds an item and usedLines + cost exceeds the budget; the new page starts with a continuation section. The item is then appended to the last section. |
| Packer.PushPage | script.js:253-258 | pushPage adds the open page after the finished pages. |
| PackerProps.PackOutput | script.js:248-301 | Read in order, the sections of the output pages hold every item of every category once and in menu order. Each category becomes one or more consecutive sections under its own titles, and those sections together hold exactly that category's items, in order, so no item appears under another category's heading. A section is empty only as the single section of an itemless category. No page is empty. Each page keeps within the budget wherever no break was taken. Each page ends for the reason buildPages tests. |
| PackerProps.PackCatsInv | script.js:270-297 | After any number of categories, the packing state satisfies the invariant. |
| PackerProps.PackItemsInv | script.js:287-296 | After any number of a category's items, the packing state satisfies the invariant. |
| PackerProps.OpenInv | script.js:275-285 | Opening a category keeps the invariant. |
| PackerProps.PlaceInv | script.js:287-296 | Placing an item keeps the invariant. |
| PackerProps.PlaceBreaks | script.js:289-295 | When the item does not fit and the section already has an item, the page is pushed and a new page starts with one section of this category holding the item, at 1.4 plus the item's cost. |
| PackerProps.PlaceKeeps | script.js:289-295 | When the item fits, or the open section holds no item yet, the item is appended to the open section and its cost is added to usedLines. So the first item of a category never breaks the page, even when it does not fit. |
| PackerProps.DonePush | script.js:253-258 | Pushing a non-empty open page keeps every finished page non-empty, within the budget and ended for a reason. |
| PackerProps.GroupNew | script.js:260-268 | A new category opens a new empty section under its titles; the sections of every earlier category still hold exactly its items, and the new category owns no items yet. |
| PackerProps.GroupAppend | script.js:294 | An item of the last category goes into its last section, so the sections of that category hold its items followed by the new one, and those of every other category are unchanged. |
| PackerProps.GroupBreak | script.js:289-293 | A break inside a category opens a continuation section under the same titles, which starts with the item, so the sections of that category hold its items followed by the new one. |
| Layout.BaseLines | script.js:223-224 | baseLines is the floor of the content height over the line height. |
| Layout.NameColumnWidth | script.js:226 | The name column is the width less 204 pixels, but at least 120. |
| Layout.LayoutMetricsForSize | script.js:219-229 | linesPerPage is at least 8 and is ⌊0.7·baseLines⌋ otherwise. charsPerLine is at least 16 and is ⌊nameColumnWidth/7.5⌋ otherwise. |
| Layout.LinesMonotone | script.js:223-225 | A taller page never has fewer lines. |
| Layout.CharsMonotone | script.js:226-227 | A wider page never has fewer characters per line. |
| Layout.Minimums | script.js:225-227 | The minimum of 8 lines applies exactly up to a height of 382; the minimum of 16 characters applies exactly up to a width of 331. |
| Navigation.Navigator.NormalizeIndex | script.js:745-756 | The index is clamped into 0 .. pages−1, then moved back to an odd index in spread mode. With at least one page the result is valid. The page count and the mode are unchanged. |
| Navigation.Navigator.GoNextIndex | script.js:893-903 | The index advances one page (single), or from the cover to 1, or by two (spread), capped at the last page, then normalised. |
| Navigation.Navigator.GoPrevIndex | script.js:905-914 | The index steps back one page (single), or from 1 to the cover, or by two (spread), then normalised. |
| Navigation.NormalizedIsValid | script.js:745-756 | With at least one page, the normalised index is a page index, and in spread mode it is 0 or odd. |
| Navigation.NormalizeKeepsValid | script.js:745-756 | normalizeIndex leaves a valid index alone, so it is idempotent. |
| Navigation.NextIffCanGoNext | script.js:893-903 | From a valid index, goNextIndex moves forward exactly when canGoNext holds, stays put otherwise, and ends on a valid index. |
| Navigation.PrevIffCanGoPrev | script.js:905-914 | From a valid index, goPrevIndex moves back exactly when canGoPrev (index > 0) holds, stays put otherwise, and ends on a valid index. |
| Navigation.NextThenPrev | script.js:893-914 | A step forward followed by a step back returns to the same view. |
| Navigation.NextStep | script.js:893-903 | When canGoNext holds, a step forward moves one page in single mode, from the cover to page 1, or by two pages in spread mode. |

## Left out

- Rendering (`renderMenuPage`, `buildPageContent`, `renderCover`, `renderSection`, `createPageElement`, `render`, the indicator and buttons): only document APIs.
- Canvas drawing and `wrapText`: they depend on `measureText` widths.
- Loading of images, fonts and scripts, and the flip-book integration: these are asynchronous I/O.
- Event wiring, the flip animation, the wheel, dragging and resizing: input handling and timers.
- Zoom, pan and book sizing: floating-point geometry written into CSS.
- `getLayoutMetrics`: it reads the window size and the interface state, so only the variant that takes a size is modelled. The `metrics` default parameter of buildPages is not modelled; the metrics are always passed in.
- `setLanguage` and localStorage: persistence and side effects on the document. The language is a parameter instead.
- Packer.BuildPages: usedLines is summed in exact tenths, not in JavaScript floating point, so a page can hold an item that buildPages would move to the next page. Example: linesPerPage 27, one heading (1.4) and sixteen items of 1.6 each. The exact sum is 27.0, which fits; the floating-point sum is 27.000000000000007, which exceeds 27 and breaks the page at script.js:289.
- Packer.ItemCost: string lengths are counted in characters (code points), whereas JavaScript's `length` counts UTF-16 code units. A character outside the Basic Multilingual Plane counts once here and twice in `script.js` (lines 234, 237, 241). Example: with 16 characters per line, a name of 14 letters followed by "🍕" costs 1.6 lines here and 2.6 in `script.js`.
- Packer.ItemCost: charsPerLine is a positive integer. A zero or negative value (which `getLayoutMetricsForSize` never produces) would make `script.js` divide by zero or by a negative number; it is excluded by the type.
- Normalizer.Classify: the case-insensitive prefix tests lower-case only A–Z and U+0400–U+042F (the Cyrillic capitals). This covers the keywords tested ("instagram", "телефон", "алергени", "allergens"), but not full Unicode case folding.
- Layout.LayoutMetricsForSize: the factors 0.7 and 1/7.5 are computed as 7/10 and 2/15 on integers, and sizes are integers. Floating-point rounding of `baseLines * 0.7` and `width / 7.5` is not modelled. The two differ, for example, at baseLines 90 (heights 2000 to 2020): `Math.floor(90 * 0.7)` is 62 in `script.js`, because 90 * 0.7 evaluates to 62.99999999999999, while the model gives 63. For the page size script.js:604-606 passes (1240 by 1754) both give 54 lines of 138 characters.
- Navigation.Navigator: the mode is "single" or "spread"; any other string in `state.mode` is not modelled.
- Normalizer.MenuNormalizer: `current` and `lastItem` are object references in `script.js`, modelled as indices into the output. The copy of an item's notes array is a copy of a value, so aliasing between input and output is not modelled.
