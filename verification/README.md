# Tarot draw engine — a Dafny model

This project models the draw engine of the `tarot` chat plugin
(`src/data_manager.ts`). A single reading (`onetime_divine`) does four things:

- It picks a theme. Candidates are the custom theme directories under `resource/` plus the built-in themes `BilibiliTarot` and `TouhouTarot`.
- It resolves the card sub-types that theme offers.
- It draws one card of those sub-types from the card table (`tarot.json`).
- It renders that card: it checks the card's fields, finds its image in `resource/<theme>/<type>`, flips the orientation coin, and builds the text `「<name><正位|逆位>」「<meaning>」`, prefixed with `回应是`.

The model replaces everything the engine reads from outside with inputs:

- The resource tree is a map from directory paths to their listings (`Catalog.FileSystem`). A path outside the map is a directory whose `readdir` throws.
- The card table is a sequence of `CardInfo` records in `Object.values` order. A field absent from the JSON record is `None`.
- Each `Math.random()` result is an input:
  - the theme roll, a real in `[0, 1)`, turned into an index by `floor(roll * n)`;
  - the reordering produced by `sort(() => Math.random() - 0.5)`, given as a permutation of positions;
  - the orientation coin (reversed when the coin is below `0.5`).

Every `throw` is a `Failure` carrying a `Results.Error`. Three runtime errors
are `Failure`s too:
- destructuring an empty draw;
- reading an image entry that is a directory;
- calling `includes` on an inherited `Object.prototype` member in `random_cards`.

Modules:

- `Results` holds `Option`, `Result` and the error taxonomy.
- `Seqs` holds the array and `Set` operations: `filter`, `map`, and the first-insertion order of `Array.from(new Set(...))`.
- `Deck` holds the card records and the field guard.
- `Catalog` holds `OFFICIAL_THEMES`, `ALL_SUB_TYPES`, `pick_theme` and `pick_sub_types`.
- `Sampler` holds `random_cards`.
- `Renderer` holds `get_text_and_image`.
- `Divination` holds `onetime_divine`.

Constants are taken exactly from the code, including the sub-type spelling
`Sowrds`.

Some behaviours of the code that the model keeps:

- When a theme has fewer cards than requested, `random_cards` returns fewer cards without an error.
- The shuffle is `sort` with a random comparator.
- `random_cards` checks only the `type` field. The five-field check happens in `get_text_and_image`.
- The text is `「name position」「meaning」\n`.

## Model

| member | source | states |
|---|---|---|
| Seqs.Filter | src/data_manager.ts:80-83 | the filtered list keeps exactly the elements satisfying the predicate, each with its original multiplicity, in their original order |
| Seqs.Dedup | src/data_manager.ts:93 | de-duplicating through a `Set` yields each value once, exactly the values of the input, ordered by first occurrence |
| Catalog.RandomIndex | src/data_manager.ts:96 | `floor(roll * n)` for a roll in `[0, 1)` is a valid index below `n` |
| Catalog.RandomIndexHits | src/data_manager.ts:96 | every index `k < n` is produced by some roll (namely `k / n`) |
| Catalog.AllThemesMembers | src/data_manager.ts:91-93 | the theme candidates are distinct, and they are exactly the directory entries of the resource root plus the built-in theme names |
| Catalog.AllThemesAtLeastTwo | src/data_manager.ts:95-101 | there are always at least two candidates, so the fallback branch is never taken |
| Catalog.NoCustomThemes | src/data_manager.ts:91-93 | with no custom theme directory the candidates are exactly `BilibiliTarot`, `TouhouTarot`, in that order |
| Catalog.PickTheme | src/data_manager.ts:89-102 | an unreadable resource root fails; otherwise the chosen theme is a built-in theme or a directory of the root |
| Catalog.EveryThemeReachable | src/data_manager.ts:93-97 | every candidate theme is picked by some roll |
| Catalog.PickSubTypes | src/data_manager.ts:104-116 | a built-in theme gets its fixed list; another theme gets its sub-directories whose names are known sub-types, in listing order (both directions of membership); an unreadable theme directory gives `[]` |
| Catalog.SubTypeDirs | src/data_manager.ts:111-112 | the result lists exactly the entries that are directories named in `ALL_SUB_TYPES`, as a subsequence of the listing |
| Catalog.OfficialSubTypesIgnoreDisk | src/data_manager.ts:105-107 | for a built-in theme the resource tree has no influence on the sub-types, which are never empty |
| Catalog.PickSubTypesAsWritten | src/data_manager.ts:105-106 | the own-or-inherited key test treats exactly the inherited `Object.prototype` names as built-in and never scans their directories |
| Catalog.InheritedThemeNeverScanned | src/data_manager.ts:105-112 | a custom theme `toString` holding a `Cups` directory gets no sub-type list as written, but `["Cups"]` with the own-key test |
| Deck.CompleteIffAllFieldsFilled | src/data_manager.ts:50 | the guard passes exactly when all five required fields are present and non-empty |
| Sampler.PermutationBounds | src/data_manager.ts:85 | a permutation of `0 .. n-1` has length `n` and only positions below `n` |
| Sampler.ReorderMultiset | src/data_manager.ts:85 | reordering by a permutation keeps every card with its multiplicity |
| Sampler.SliceEnd | src/data_manager.ts:86 | the end index of `slice(0, num)` never exceeds the array length |
| Sampler.Draw | src/data_manager.ts:85-86 | the shuffled prefix has the sliced length, is a sub-multiset of the cards, and is all of them when the slice reaches the end |
| Sampler.RandomCards | src/data_manager.ts:73-87 | fails exactly when the sub-type list is empty; every drawn card has a defined `type` among the sub-types; no card appears more often than in the deck; the length is `min(num, valid)` for `num >= 0` (silent truncation); with `num >= valid` every valid card is drawn |
| Sampler.RandomCardsAsWritten | src/data_manager.ts:73-87 | with the inherited-key lookup, a theme that is not an inherited name draws as `Sampler.RandomCards` does; `toString`, `toLocaleString` and `valueOf` fail as having no sub-types; any other inherited name fails at `includes` exactly when some card has a `type`, and otherwise draws nothing |
| Sampler.ConstructorThemeThrows | src/data_manager.ts:80-83 | a custom theme `constructor` holding `Cups`, with one `Cups` card: the draw fails at `includes` as written, and yields the card with the own-key lookup |
| Sampler.TouhouDrawsMajorArcana | src/data_manager.ts:22-25 | drawing in `TouhouTarot` always succeeds and yields only `MajorArcana` cards |
| Renderer.FindImage | src/data_manager.ts:56 | the found file starts with the prefix and no earlier file does; no position means no file has the prefix |
| Renderer.Render | src/data_manager.ts:47-71 | rejects as incomplete exactly the cards failing the guard; an unreadable or image-less directory fails; when the first file starting with `pic + "."` is a directory it fails as unreadable, and otherwise it succeeds; on success the image is that first file and the text is `「name逆位」「down」\n` for a coin below 0.5 and `「name正位」「up」\n` otherwise |
| Renderer.CoinOnlyPicksOrientation | src/data_manager.ts:62-65 | the coin changes neither whether rendering succeeds nor which image is shown |
| Divination.OnetimeDivine | src/data_manager.ts:38-45 | a success starts with `回应是` and is the rendering of a deck card admitted by the chosen theme; an unreadable root, an empty sub-type list and an empty draw fail with their own errors; when the theme admits some card, the outcome is that of rendering one such card, with a rendering failure passed on unchanged, so it succeeds whenever every admitted card renders |
| Divination.UprightCupsReading | src/data_manager.ts:38-45 | an empty resource root, one complete `Cups` card with image `c01.png`, roll 0 and an upright coin give `回应是「圣杯一正位」「爱」` plus a newline, shown with `BilibiliTarot/Cups/c01.png` |
| Divination.TouhouReadingIsMajorArcana | src/data_manager.ts:38-45 | a reading in `TouhouTarot` shows a `MajorArcana` card of the deck, with its image taken from `TouhouTarot/MajorArcana` |

## Left out

- File system access (`fs.readdir`, `fs.readFile`, `path.join`). A snapshot of the listings is an input. A `readFile` failure is modelled only for a matched entry that is a directory. Other read errors are not modelled because the listing does not record them.
- Image bytes, the base64 data URL and `h.image`. These are foreign calls. A reading carries the path of the image file in their place.
- The loading of `tarot.json` and the `typeof card === "object"` test. The card table is given as a sequence of card records, so non-object values cannot occur.
- Non-string field values (numbers, booleans) in card records. Only absent, empty and non-empty strings are modelled.
- `src/index.ts`: command registration and the `is_chain_reply` setting, which the engine stores but never reads.
- Catalog.RandomIndex: does not model floating-point rounding of `Math.random() * n`. The product is taken as an exact real.
- Sampler.RandomCards: says nothing about how likely each permutation is. A comparator sort with random answers is not uniform, and the model makes no claim about its distribution.
- Sampler.RandomCards: resolves sub-types with the own-key lookup of `Catalog.PickSubTypes`, the corrected version from "## Findings". `Sampler.RandomCardsAsWritten` is the draw with the lookup as written.
- Divination.OnetimeDivine: draws through `Sampler.RandomCards`, so it uses the corrected own-key lookup. For a theme named after an inherited `Object.prototype` member, its outcome is not the code's. `Sampler.RandomCardsAsWritten` gives the code's outcome for that draw.
- Divination.OnetimeDivine: the reply's image element is represented by the image file's path, not by the rendered markup.

## Findings

| source | as written | input that shows it | evidently intended | confidence | as-written member | corrected member |
|---|---|---|---|---|---|---|
| src/data_manager.ts:105-106 | `theme in OFFICIAL_THEMES` is also true for names inherited from `Object.prototype`, and `OFFICIAL_THEMES[theme]` then returns the inherited member instead of a sub-type list | a custom theme directory `toString` that holds a `Cups` directory: the lookup yields `Object.prototype.toString` (length 0), so `random_cards` reports that the theme has no sub-types; a directory `constructor` makes the lookup yield the `Object` function, and `subTypes.includes` throws a TypeError at line 82 | check own keys only and scan the directory, giving `["Cups"]` | medium, not executed | Catalog.PickSubTypesAsWritten | Catalog.PickSubTypes |
