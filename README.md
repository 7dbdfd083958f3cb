# E*TRADE Portfolio Helper: a verified model of its decision and layout core

The E*TRADE Portfolio Helper is a browser content script. It colours and reorders the
rows of the E*TRADE portfolio table by two user-defined groups of ticker symbols,
*growth* and *income*. The repository carries two builds of the same
`EtradePortfolioHelper` class:

- `content.js`, the first build. It only highlights rows and stores the two symbol sets.
- `dist/etrade-portfolio-helper-v1.0.0/content.js`, the release build. It adds a
  colour switch, a persisted sorting switch, the visual group sort with a snapshot of
  the original row offsets, and two row-height heuristics.

This Dafny project models the part of that class that decides and lays things out:

- classifying a row's symbol (growth first);
- the scan-and-highlight pass over the rows;
- the three-way stable group sort at a fixed 37 px row height;
- capturing and restoring the rows' original offsets;
- parsing the panel's symbol text;
- loading and saving the configuration, with its defaults and failure paths;
- the public set-editing methods;
- the two row-height heuristics.

The model takes the form of the source:

- Each page row is an object, a `Table.Row` with mutable style fields, and the table
  is an `array<Row>`.
- Each helper build is a class whose fields are the helper's own state:
  `GroupingHelper.Helper` for the release build and `HighlightHelper.Helper` for the
  first build.
- `localStorage` is a `Storage.Store` object holding a map.
- Every loop of the source is a `method` with loop invariants. Each such method is
  proved against a specification function, and the properties are proved about those
  functions as lemmas.

Modules:

- `Wrappers`: `Option`.
- `Text`: ASCII `toUpperCase`, `trim`, and the separator class of `/[,\s]+/`.
- `OrderedSets`: a JavaScript `Set`, kept as a duplicate-free sequence in insertion order.
- `SymbolList`: the panel parser and the `join(', ')` the panel displays.
- `Classifier`: the cell-text-to-symbol step and the growth-first group test.
- `Table`: rows, highlighting, and the scan and clear passes both builds share.
- `Layout`: the group sort, the snapshot and revert, and the row-height heuristics.
- `Storage`: stored values and how the helper reads and writes them.
- `GroupingHelper`: the release build's class.
- `HighlightHelper`: the first build's class.
- `CrossBuild`: how a store written by the release build loads in the first build.

## Model

| member | source | states |
|---|---|---|
| Text.UpperChar | dist/etrade-portfolio-helper-v1.0.0/content.js:155 | `toUpperCase` on one character: a lower-case ASCII letter becomes its capital (32 code points lower), any other character is kept |
| Text.Upper | dist/etrade-portfolio-helper-v1.0.0/content.js:155 | `toUpperCase`: same length, and every character is upper-cased in place |
| Text.TrimStart | dist/etrade-portfolio-helper-v1.0.0/content.js:155 | the result is a suffix of the text that does not start with whitespace, and everything removed in front of it is whitespace |
| Text.TrimEnd | dist/etrade-portfolio-helper-v1.0.0/content.js:155 | the result is a prefix of the text that does not end with whitespace, and everything removed after it is whitespace |
| Text.Trim | dist/etrade-portfolio-helper-v1.0.0/content.js:155 | `String.prototype.trim` over ASCII whitespace: the result neither starts nor ends with whitespace |
| Text.TrimIsInfix | dist/etrade-portfolio-helper-v1.0.0/content.js:155 | the trimmed text is a contiguous part of the text, and what lies before and after it is all whitespace |
| Text.TrimOfPadded | dist/etrade-portfolio-helper-v1.0.0/content.js:155 | a word that starts and ends with a non-space, wrapped in any whitespace, trims to exactly that word |
| Text.TrimAround | dist/etrade-portfolio-helper-v1.0.0/content.js:155 | around a core that neither starts nor ends with whitespace, trimming removes the leading whitespace of what comes before and the trailing whitespace of what comes after, and keeps the core |
| OrderedSets.FromList | dist/etrade-portfolio-helper-v1.0.0/content.js:658-659 | `new Set(array)`: no repeats, exactly the array's elements, and an array with no repeats is kept as it is; `FromListOrder` adds the order |
| OrderedSets.FromListOrder | dist/etrade-portfolio-helper-v1.0.0/content.js:658-659 | `new Set(array)` keeps the elements in the order of their first occurrence, repeats included: of two elements, the one that first occurs earlier comes earlier |
| OrderedSets.FromListSnoc | dist/etrade-portfolio-helper-v1.0.0/content.js:658-659 | building the set from an array with one more element at the end is adding that element to the set built from the rest |
| OrderedSets.FromListRepeat | dist/etrade-portfolio-helper-v1.0.0/content.js:658-659 | a repeat is dropped where it recurs: `[a, b, a]` gives `[a, b]` |
| OrderedSets.Insert | dist/etrade-portfolio-helper-v1.0.0/content.js:705 | `Set.add`: the element is in the set afterwards and the other elements are unchanged; an element already present changes nothing, and a new one is appended at the end; the set keeps having no repeats |
| OrderedSets.Delete | dist/etrade-portfolio-helper-v1.0.0/content.js:719 | `Set.delete`: the element is absent afterwards and the others stay; an absent element changes nothing, and a present one is cut out of the insertion order with the rest kept in order; the set keeps having no repeats |
| OrderedSets.DeleteUndoesInsert | content.js:377-396 | removing a symbol just added to a set that did not hold it gives the set back unchanged |
| SymbolList.Split | dist/etrade-portfolio-helper-v1.0.0/content.js:649 | `split(/[,\s]+/)`: at least one piece, and no piece contains a comma or whitespace |
| SymbolList.SplitStep | dist/etrade-portfolio-helper-v1.0.0/content.js:649 | a word followed by any non-empty run of commas and whitespace and then text that does not start with one splits into the word and the pieces of that text |
| SymbolList.SplitInterleave | dist/etrade-portfolio-helper-v1.0.0/content.js:649 | words separated by arbitrary separator runs split back into exactly those words |
| SymbolList.SplitInterleaveThen | dist/etrade-portfolio-helper-v1.0.0/content.js:649 | commas and whitespace after the last word add exactly one empty piece at the end |
| SymbolList.SplitAfterSeparators | dist/etrade-portfolio-helper-v1.0.0/content.js:649 | commas and whitespace before the first word add exactly one empty piece at the front |
| SymbolList.NonEmpty | dist/etrade-portfolio-helper-v1.0.0/content.js:651 | `filter(s => s.length > 0)`: no empty element is kept, every non-empty element is kept exactly as often as it occurs, and an input with no empty element is returned as it is |
| SymbolList.NonEmptyConcat | dist/etrade-portfolio-helper-v1.0.0/content.js:651 | the filter distributes over concatenation, so it keeps the order of the elements it keeps |
| SymbolList.Normalized | dist/etrade-portfolio-helper-v1.0.0/content.js:650 | `map(s => s.trim().toUpperCase())`: one result per piece, each upper-case, and a piece without separators comes out as its upper-case form |
| SymbolList.NormalizedConcat | dist/etrade-portfolio-helper-v1.0.0/content.js:650 | the map works piece by piece: mapping a concatenation maps each part |
| SymbolList.NormalizedNonEmpty | dist/etrade-portfolio-helper-v1.0.0/content.js:650-651 | on pieces without separators, upper-casing then dropping empty pieces is dropping empty pieces then upper-casing |
| SymbolList.Tokens | dist/etrade-portfolio-helper-v1.0.0/content.js:645-656 | the trim/split/map/filter chain yields only non-empty, upper-case tokens without a comma or whitespace |
| SymbolList.ParseSymbolList | dist/etrade-portfolio-helper-v1.0.0/content.js:645-659 | the parsed set has no repeats, and every element is a non-empty, upper-case token without separators; what it holds for every text is `ParseIsWordsOf` |
| SymbolList.WordsOf | dist/etrade-portfolio-helper-v1.0.0/content.js:645-651 | the words of a text, its maximal runs of characters other than commas and whitespace: each is non-empty and has no separator |
| SymbolList.SplitWords | dist/etrade-portfolio-helper-v1.0.0/content.js:649-651 | the non-empty pieces of `split(/[,\s]+/)` are exactly the words of the text, in order |
| SymbolList.WordsOfTrim | dist/etrade-portfolio-helper-v1.0.0/content.js:645-646 | `trim` changes no word of the text |
| SymbolList.ParseIsWordsOf | dist/etrade-portfolio-helper-v1.0.0/content.js:645-659 | every text, with any commas and whitespace leading, trailing or between, parses to `new Set` of the upper-case forms of its words, in the order of first occurrence |
| SymbolList.Join | dist/etrade-portfolio-helper-v1.0.0/content.js:606-612 | `join(', ')`: the empty set shows as the empty text; otherwise the text starts with the first element and, when no element is empty, ends with the last element's last character |
| SymbolList.ParseOfTypedText | dist/etrade-portfolio-helper-v1.0.0/content.js:643-659 | any words typed between any separator runs, with any commas and whitespace before and after the whole text, parse to `new Set` of their upper-case forms; the empty pieces a leading or trailing comma leaves are dropped |
| SymbolList.ParseOfPaddedWord | dist/etrade-portfolio-helper-v1.0.0/content.js:643-659 | one word with any commas and whitespace around it parses to the one-element set of its upper-case form |
| SymbolList.ParseOfPaddedPair | dist/etrade-portfolio-helper-v1.0.0/content.js:643-659 | two words with different upper-case forms, with one separator run between and any commas and whitespace around, parse to exactly those two symbols in typing order |
| SymbolList.ParseOfTwoWords | dist/etrade-portfolio-helper-v1.0.0/content.js:643-659 | two words separated by one separator run, with different upper-case forms, parse to exactly those two symbols in typing order |
| SymbolList.ParseExample | dist/etrade-portfolio-helper-v1.0.0/content.js:643-659 | the text "aapl,  msft" parses to the set AAPL, MSFT |
| SymbolList.LeadingCommaExample | dist/etrade-portfolio-helper-v1.0.0/content.js:643-659 | the text ",aapl" parses to the set AAPL: the empty piece before the comma is dropped |
| SymbolList.TrailingCommaExample | dist/etrade-portfolio-helper-v1.0.0/content.js:643-659 | the text "AAPL, TSLA," parses to the set AAPL, TSLA: the empty piece after the last comma is dropped |
| SymbolList.PanelRoundTrip | dist/etrade-portfolio-helper-v1.0.0/content.js:606-612 | parsing the text the panel shows for a set of tokens (`join(', ')`) gives that set back, order included |
| SymbolList.ParseOfSeparatorsOnly | content.js:321-335 | text made only of commas and whitespace, the empty text included, parses to the empty set |
| SymbolList.ParseOfOneWord | content.js:324-327 | a single word without separators parses to the one-element set holding its upper-case form |
| Classifier.SymbolOf | dist/etrade-portfolio-helper-v1.0.0/content.js:154-157 | a row's symbol exists only when the row has a symbol cell; the symbol is non-empty and upper-case |
| Classifier.SymbolOfBlank | dist/etrade-portfolio-helper-v1.0.0/content.js:155-157 | a row shows no symbol exactly when it has no symbol cell or the cell's text is only whitespace |
| Classifier.SymbolOfPadded | dist/etrade-portfolio-helper-v1.0.0/content.js:155 | a cell holding a word wrapped in whitespace shows the upper-case form of that word |
| Classifier.Classify | dist/etrade-portfolio-helper-v1.0.0/content.js:163-178 | growth exactly when the symbol is in the growth set; income exactly when it is in the income set and not in the growth set; no group exactly when it is in neither |
| Classifier.SymbolIgnoresCase | dist/etrade-portfolio-helper-v1.0.0/content.js:155 | cell texts equal up to letter case give the same symbol, so "aapl" and "AAPL" classify alike |
| Classifier.SymbolOfUpper | content.js:125 | writing a cell's text in capitals does not change its symbol |
| Classifier.SymbolOfPlainText | content.js:125 | a cell holding a bare upper-case ticker shows exactly that ticker |
| Table.Row.Highlight | content.js:163-173 | `highlightRow`: the row's background becomes the group colour (`#e8f2ff` for growth, `#e8f5e8` for income) and it carries the group attribute; nothing else changes |
| Table.Row.ClearHighlight | content.js:175-178 | `clearRowHighlight`: the background is reset and the attribute removed; nothing else changes |
| Table.ColorOf | content.js:163-171 | growth rows get `#e8f2ff` and income rows `#e8f5e8`: the two groups get different colours |
| Table.BackgroundFor | content.js:163-171 | a row tagged with a group carries that group's colour and an untagged row no background, so the background tells the tag back |
| Table.Scanned | dist/etrade-portfolio-helper-v1.0.0/content.js:157-178 | a row without a symbol is untouched. Any other row keeps cell, top and transform. Its attribute is the growth-first group when colouring is on and absent otherwise, and its background is the colour of that attribute or empty |
| Table.RecordedKeys | content.js:146-151 | the positions map holds exactly the shown symbols |
| Table.RecordedAt | content.js:146-151 | a symbol's entry is the last row showing it, with its growth-first group |
| Table.GroupCountsPartition | dist/etrade-portfolio-helper-v1.0.0/content.js:163-178 | no row is counted in both groups: the two counts sum to at most the shown rows, and to exactly that when every shown symbol has a group |
| Table.ScanRow | dist/etrade-portfolio-helper-v1.0.0/content.js:153-186 | one iteration of the scan loop leaves the row as `Scanned` describes and returns its group |
| Table.Tally | dist/etrade-portfolio-helper-v1.0.0/content.js:163-185 | one row's bookkeeping: a shown symbol's entry is overwritten with the row and its group, a row without a symbol records nothing, and exactly the count of the row's group goes up by one |
| Table.ScanRows | content.js:118-156 | the scan loop leaves every row as `Scanned` describes. It returns exactly the map `Recorded` describes, and the growth and income counts of the shown symbols |
| Table.ClearedAllRemovesHighlights | content.js:180-183 | after `clearAllHighlights` no row carries the attribute, no helper-painted row keeps a group colour, and untagged rows are untouched |
| Table.ScannedIsTagged | dist/etrade-portfolio-helper-v1.0.0/content.js:157-178 | a scan never leaves a row painted in a group colour without the helper attribute, so clearing always finds it |
| Table.ClearAllHighlights | dist/etrade-portfolio-helper-v1.0.0/content.js:372-376 | the clear loop leaves the rows as `ClearedAll` describes |
| Layout.Indices | dist/etrade-portfolio-helper-v1.0.0/content.js:223-242 | each group list holds only rows of its group, in strictly increasing table order |
| Layout.SortStates | dist/etrade-portfolio-helper-v1.0.0/content.js:244-271 | sorting keeps the number of rows and every row's symbol cell and attribute |
| Layout.OrderIsPermutation | dist/etrade-portfolio-helper-v1.0.0/content.js:222-271 | the stacking order growth ++ income ++ ungrouped holds every row with a symbol exactly once, and no other row |
| Layout.RankIsSlot | dist/etrade-portfolio-helper-v1.0.0/content.js:246-271 | distinct placed rows get distinct slots, all below the number of placed rows |
| Layout.RankRespectsGroupsThenScanOrder | dist/etrade-portfolio-helper-v1.0.0/content.js:227-271 | growth rows are stacked before income rows, which are stacked before ungrouped rows, and within a group the table order is kept |
| Layout.SortLayout | dist/etrade-portfolio-helper-v1.0.0/content.js:244-271 | the row in slot c gets top c*37 and `translateY(0px)`; only ungrouped rows turn white; rows without a symbol are untouched |
| Layout.PlacedAllIsSorted | dist/etrade-portfolio-helper-v1.0.0/content.js:244-271 | writing every slot in turn yields the sorted layout |
| Layout.PlaceGroup | dist/etrade-portfolio-helper-v1.0.0/content.js:249-254 | one positioning loop writes the next slots to its group's rows, in order, and returns the position after them |
| Layout.StackGroups | dist/etrade-portfolio-helper-v1.0.0/content.js:222-271 | the grouping and the three positioning loops leave the rows as `SortStates` describes |
| Layout.GroupRows | dist/etrade-portfolio-helper-v1.0.0/content.js:223-242 | the grouping loop returns each group's rows in table order |
| Layout.SortIdempotent | dist/etrade-portfolio-helper-v1.0.0/content.js:200-274 | sorting a sorted table changes nothing |
| Layout.Capture | dist/etrade-portfolio-helper-v1.0.0/content.js:210-219 | every captured key is a non-empty, upper-case symbol |
| Layout.NextSnapshot | dist/etrade-portfolio-helper-v1.0.0/content.js:209-220 | a held snapshot is kept, an empty table captures nothing, and an empty snapshot of a non-empty table is replaced by `Capture` of it |
| Layout.CaptureRows | dist/etrade-portfolio-helper-v1.0.0/content.js:209-220 | the capture loop returns the snapshot `Capture` describes |
| Layout.CaptureAt | dist/etrade-portfolio-helper-v1.0.0/content.js:209-219 | the snapshot entry of a symbol is the `top` (or `0px`) and transform (or `translateY(0px)`) of the last row showing it |
| Layout.CaptureKeys | dist/etrade-portfolio-helper-v1.0.0/content.js:213-218 | only shown symbols are captured; rows without a symbol never are |
| Layout.CaptureEmpty | dist/etrade-portfolio-helper-v1.0.0/content.js:209-219 | the snapshot is empty exactly when no row shows a symbol |
| Layout.Reverted | dist/etrade-portfolio-helper-v1.0.0/content.js:279-291 | a row whose symbol is in the snapshot gets the captured top and transform back; any other row keeps them; every row's background is cleared |
| Layout.RevertStates | dist/etrade-portfolio-helper-v1.0.0/content.js:276-292 | every row is reverted as `Reverted` describes |
| Layout.RevertRow | dist/etrade-portfolio-helper-v1.0.0/content.js:280-290 | one iteration of the revert loop leaves the row as `Reverted` describes |
| Layout.RevertRows | dist/etrade-portfolio-helper-v1.0.0/content.js:276-292 | the revert loop leaves the rows as `RevertStates` describes |
| Layout.RevertRestoresCaptured | dist/etrade-portfolio-helper-v1.0.0/content.js:283-287 | whatever happened to the offsets after a capture, reverting gives each captured row its original top and transform |
| Layout.SortThenRevert | dist/etrade-portfolio-helper-v1.0.0/content.js:209-291 | capture, sort, revert: every captured row with set offsets is back exactly where it started |
| Layout.LaneOfTicker | dist/etrade-portfolio-helper-v1.0.0/content.js:231-240 | a row showing a bare ticker goes into the growth list if the ticker is in the growth set, else income if in the income set, else ungrouped |
| Layout.SortExample | dist/etrade-portfolio-helper-v1.0.0/content.js:244-271 | rows classified none, growth, income, growth (MSFT, AAPL, T, TSLA) get tops 111, 0, 74, 37, and only the first turns white |
| Layout.SortTickerExample | dist/etrade-portfolio-helper-v1.0.0/content.js:222-271 | the rows MSFT, AAPL, T, TSLA with growth {AAPL, TSLA} and income {T, VZ} get tops 111, 0, 74, 37, and only MSFT turns white |
| Layout.SortWithNoGroups | dist/etrade-portfolio-helper-v1.0.0/content.js:238-271 | with both sets empty every row with a symbol is ungrouped, stacked in table order and painted white |
| Layout.Sample | dist/etrade-portfolio-helper-v1.0.0/content.js:302 | the sampled offsets are the first min(n, 5) of them |
| Layout.PositiveTops | dist/etrade-portfolio-helper-v1.0.0/content.js:301-305 | every kept offset is positive and occurs among the sampled ones |
| Layout.PositiveTopsSnoc | dist/etrade-portfolio-helper-v1.0.0/content.js:302-305 | looking at one more offset appends it exactly when it is positive |
| Layout.PositiveTopsCounts | dist/etrade-portfolio-helper-v1.0.0/content.js:301-305 | every positive offset is kept exactly as often as it occurs |
| Layout.SortAscending | dist/etrade-portfolio-helper-v1.0.0/content.js:312 | `sort((a, b) => a - b)`: ascending, and a permutation of the input |
| Layout.TopOf | dist/etrade-portfolio-helper-v1.0.0/content.js:303 | the `parseInt` of a row's `top` with 0 for an unset one: an unset offset counts as 0, a set one as its value |
| Layout.EstimatedRowHeight | dist/etrade-portfolio-helper-v1.0.0/content.js:294-317 | the row-height estimate is always positive |
| Layout.SmallestGap | dist/etrade-portfolio-helper-v1.0.0/content.js:307-316 | the gap used as the row height is always positive |
| Layout.SmallestGapOfSmallestTwo | dist/etrade-portfolio-helper-v1.0.0/content.js:312-316 | the gap is the difference of the two smallest offsets when that is positive, else 40 |
| Layout.AscendingSmallestTwo | dist/etrade-portfolio-helper-v1.0.0/content.js:312-313 | an ascending sequence starts with its smallest and next smallest element |
| Layout.SortedSmallestTwo | dist/etrade-portfolio-helper-v1.0.0/content.js:312-313 | the first two sorted offsets are the smallest and the next smallest |
| Layout.EstimateIsSmallestGap | dist/etrade-portfolio-helper-v1.0.0/content.js:294-317 | the estimate is the gap between the two smallest positive offsets among the first min(n, 5) rows, or 40 when that gap is not positive |
| Storage.KeysDistinct | dist/etrade-portfolio-helper-v1.0.0/content.js:36-39 | the four storage keys are pairwise different |
| Storage.Store.GetItem | dist/etrade-portfolio-helper-v1.0.0/content.js:36-39 | `getItem` returns a value exactly when the key is stored, and then the stored value |
| Storage.Store.SetItem | dist/etrade-portfolio-helper-v1.0.0/content.js:88-91 | `setItem` stores the value under the key and changes no other key |
| Storage.UpperAll | dist/etrade-portfolio-helper-v1.0.0/content.js:43 | `map(s => s.toUpperCase())`: same length, each element upper-cased |
| Storage.ReadSymbols | dist/etrade-portfolio-helper-v1.0.0/content.js:41-55 | a falsy value gives the defaults; a boolean or malformed value throws. A list gives a duplicate-free upper-case set holding exactly the upper-cased items |
| Storage.ReadFlag | dist/etrade-portfolio-helper-v1.0.0/content.js:57-65 | a missing key keeps the current flag; a boolean is taken; a list reads as true; the empty string or malformed text throws |
| Storage.ReadWrittenSymbols | dist/etrade-portfolio-helper-v1.0.0/content.js:41-43 | a symbol set written as a JSON list reads back as the same set, order included |
| GroupingHelper.ConstantSetsValid | dist/etrade-portfolio-helper-v1.0.0/content.js:46-76 | the default and fallback sets have no repeats and are upper-case |
| GroupingHelper.TryLoad | dist/etrade-portfolio-helper-v1.0.0/content.js:35-72 | a `try` block that completes leaves valid sets; one that throws has not reached the colour flag |
| GroupingHelper.TryLoadReads | dist/etrade-portfolio-helper-v1.0.0/content.js:35-72 | the `try` block throws exactly when one of the four reads fails, and when it completes every setting is the value its read gave |
| GroupingHelper.LoadConfig | dist/etrade-portfolio-helper-v1.0.0/content.js:33-81 | the loaded sets are always valid, and a save happens only when a symbol key was falsy |
| GroupingHelper.LoadConfigRule | dist/etrade-portfolio-helper-v1.0.0/content.js:33-81 | a save happens exactly when the `try` block completes and a symbol key was falsy; a throw gives the fallback sets and no save; a completed block gives each symbol key's read, a falsy key reading as its defaults |
| GroupingHelper.SaveConfig | dist/etrade-portfolio-helper-v1.0.0/content.js:83-97 | all four keys hold the settings, and no other key changes |
| GroupingHelper.LoadAfterSave | dist/etrade-portfolio-helper-v1.0.0/content.js:33-97 | saved settings load back unchanged, and loading them saves nothing |
| GroupingHelper.LoadFirstStart | dist/etrade-portfolio-helper-v1.0.0/content.js:41-72 | an empty store gives {SPYG, AMZN, BRKW} and {SPYI, MCD, CBF}, keeps both flags, and saves |
| GroupingHelper.LoadMalformedSymbols | dist/etrade-portfolio-helper-v1.0.0/content.js:41-77 | malformed text under either symbol key gives {AAPL, TSLA, NVDA} and {T, VZ, KO}, keeps the flags, and saves nothing |
| GroupingHelper.LoadColoringFailure | dist/etrade-portfolio-helper-v1.0.0/content.js:57-77 | a sorting flag parsed before the colour key fails survives, while both sets fall back |
| GroupingHelper.AfterScan | dist/etrade-portfolio-helper-v1.0.0/content.js:144-198 | a scan keeps the number of rows and, with sorting off, the snapshot |
| GroupingHelper.ScanStatesTwice | dist/etrade-portfolio-helper-v1.0.0/content.js:157-178 | scanning scanned rows changes nothing |
| GroupingHelper.SortAfterRescan | dist/etrade-portfolio-helper-v1.0.0/content.js:194-197 | rescanning a sorted table and sorting it again gives the same table |
| GroupingHelper.RescanIdempotent | dist/etrade-portfolio-helper-v1.0.0/content.js:144-198 | a second `scanAndHighlight` leaves the rows and the snapshot as the first left them, with or without sorting |
| GroupingHelper.Helper.constructor | dist/etrade-portfolio-helper-v1.0.0/content.js:5-13 | the settings loaded over sorting off and colouring on, the store as loading leaves it, and then `init`: the scan with an empty map and snapshot, unless the document is still loading |
| GroupingHelper.Helper.Init | dist/etrade-portfolio-helper-v1.0.0/content.js:16-24 | a loading document is left as it is; otherwise the positions map and rows become what one `scanAndHighlight` gives |
| GroupingHelper.Helper.LoadConfiguration | dist/etrade-portfolio-helper-v1.0.0/content.js:33-81 | the settings and the store become what `LoadConfig` gives, and the sets are valid |
| GroupingHelper.Helper.TryLoadStored | dist/etrade-portfolio-helper-v1.0.0/content.js:35-72 | the fields and the throw flag are what `TryLoad` gives |
| GroupingHelper.Helper.SaveConfiguration | dist/etrade-portfolio-helper-v1.0.0/content.js:83-97 | the store becomes `SaveConfig` of the settings |
| GroupingHelper.Helper.ScanAndHighlight | dist/etrade-portfolio-helper-v1.0.0/content.js:144-198 | the positions map is extended by `Recorded`; the rows and snapshot become what `AfterScan` gives |
| GroupingHelper.Helper.RecordScan | dist/etrade-portfolio-helper-v1.0.0/content.js:146-190 | the row loop scans every row as `Scanned` describes, with colouring as set, and extends the positions map by `Recorded` |
| GroupingHelper.Helper.SaveAndRescan | dist/etrade-portfolio-helper-v1.0.0/content.js:706-707 | `saveConfiguration()` then `scanAndHighlight()`: the store holds the settings and the rows, map and snapshot are rescanned |
| GroupingHelper.Helper.SortRowsByGroup | dist/etrade-portfolio-helper-v1.0.0/content.js:200-274 | the rows become `SortStates`; the snapshot is taken only from a non-empty table when none is held |
| GroupingHelper.Helper.RevertSorting | dist/etrade-portfolio-helper-v1.0.0/content.js:276-292 | the rows become `RevertStates` with the held snapshot |
| GroupingHelper.Helper.ToggleSorting | dist/etrade-portfolio-helper-v1.0.0/content.js:339-353 | the sorting flag is negated and saved, the other settings and positions are unchanged, and the table is sorted if the flag is now on, else reverted |
| GroupingHelper.Helper.SaveSymbolsFromPanel | dist/etrade-portfolio-helper-v1.0.0/content.js:638-682 | the sets become the parsed panel text, sorting becomes the checkbox, colouring is kept, everything is saved and rescanned |
| GroupingHelper.Helper.ApplySymbols | dist/etrade-portfolio-helper-v1.0.0/content.js:658-664 | the given sets and sorting flag are stored, saved, and the table rescanned |
| GroupingHelper.Helper.ClearSymbolsFromPanel | dist/etrade-portfolio-helper-v1.0.0/content.js:684-691 | both sets empty, sorting off, snapshot empty, colouring and positions kept, saved, every highlight cleared |
| GroupingHelper.Helper.AddGrowthSymbol | dist/etrade-portfolio-helper-v1.0.0/content.js:704-709 | the upper-cased symbol is in the growth set, which otherwise keeps its elements; the income set and flags are unchanged; saved and rescanned |
| GroupingHelper.Helper.AddIncomeSymbol | dist/etrade-portfolio-helper-v1.0.0/content.js:711-716 | the same for the income set |
| GroupingHelper.Helper.RemoveGrowthSymbol | dist/etrade-portfolio-helper-v1.0.0/content.js:718-723 | the upper-cased symbol is absent from the growth set, which keeps its other elements; the income set and flags are unchanged; saved and rescanned |
| GroupingHelper.Helper.RemoveIncomeSymbol | dist/etrade-portfolio-helper-v1.0.0/content.js:725-730 | the same for the income set |
| GroupingHelper.Helper.SetGrowthSymbols | dist/etrade-portfolio-helper-v1.0.0/content.js:732-737 | the growth set holds exactly the upper-cased images of the array; the rest is unchanged; saved and rescanned |
| GroupingHelper.Helper.SetIncomeSymbols | dist/etrade-portfolio-helper-v1.0.0/content.js:739-744 | the same for the income set |
| GroupingHelper.Helper.GetGrowthSymbols | dist/etrade-portfolio-helper-v1.0.0/content.js:746-748 | exactly the growth set's elements, in insertion order |
| GroupingHelper.Helper.GetIncomeSymbols | dist/etrade-portfolio-helper-v1.0.0/content.js:750-752 | exactly the income set's elements, in insertion order |
| GroupingHelper.Helper.GetAllSymbols | dist/etrade-portfolio-helper-v1.0.0/content.js:754-759 | both sets |
| GroupingHelper.Helper.SampledPositiveTops | dist/etrade-portfolio-helper-v1.0.0/content.js:300-305 | the sampling loop collects the positive offsets of the first min(n, 5) rows, in order |
| GroupingHelper.Helper.CalculateRowHeight | dist/etrade-portfolio-helper-v1.0.0/content.js:294-317 | the loop and sort compute `EstimatedRowHeight` of the rows' offsets, which is positive |
| GroupingHelper.Helper.GetStartingPosition | dist/etrade-portfolio-helper-v1.0.0/content.js:319-337 | 0 for no rows; otherwise the smallest parsed offset (unset counting as 0), which some row has |
| HighlightHelper.DefaultSetsValid | content.js:41-62 | the default sets have no repeats and are upper-case |
| HighlightHelper.LoadSets | content.js:30-64 | the loaded sets are valid. A save happens exactly when both reads succeed and a key was falsy. Any throwing read gives both default sets, with no save. When both reads succeed the sets are what they read, a falsy key reading as its defaults |
| HighlightHelper.SaveSets | content.js:66-79 | both symbol keys hold the sets, and no other key changes |
| HighlightHelper.LoadAfterSave | content.js:30-79 | saved sets load back unchanged, and loading them saves nothing |
| HighlightHelper.LoadFirstStart | content.js:36-58 | an empty store gives {AAPL, TSLA, NVDA} and {T, VZ, KO} and saves them |
| CrossBuild.LoadsReleaseConfig | content.js:33-46 | a store written by the release build loads in this build with the same sets, and nothing is saved |
| HighlightHelper.Helper.constructor | content.js:5-11 | `init` runs before loading: the scan with empty sets (unless the document is still loading), then the sets and store as `LoadSets` gives |
| HighlightHelper.Helper.Init | content.js:13-21 | a loading document is left as it is; otherwise the positions map and rows become what one `scanAndHighlight` gives |
| HighlightHelper.Helper.LoadConfiguration | content.js:30-64 | the sets and the store become what `LoadSets` gives, and the sets are valid |
| HighlightHelper.Helper.SaveConfiguration | content.js:66-79 | the store becomes `SaveSets` of the sets |
| HighlightHelper.Helper.SaveAndRescan | content.js:379-380 | `saveConfiguration()` then `scanAndHighlight()`: the store holds the sets and the rows and map are rescanned |
| HighlightHelper.Helper.ScanAndHighlight | content.js:111-161 | the rows are scanned with colouring, and the positions map is extended by `Recorded` |
| HighlightHelper.Helper.SaveSymbolsFromPanel | content.js:315-357 | the sets become the parsed panel text; saved and rescanned |
| HighlightHelper.Helper.ApplySymbols | content.js:334-339 | the given sets are stored, saved, and the table rescanned |
| HighlightHelper.Helper.ClearSymbolsFromPanel | content.js:359-364 | both sets empty, positions kept, saved, every highlight cleared |
| HighlightHelper.Helper.AddGrowthSymbol | content.js:377-382 | the upper-cased symbol is in the growth set, which otherwise keeps its elements; the income set is unchanged; saved and rescanned |
| HighlightHelper.Helper.AddIncomeSymbol | content.js:384-389 | the same for the income set |
| HighlightHelper.Helper.RemoveGrowthSymbol | content.js:391-396 | the upper-cased symbol is absent from the growth set, which keeps its other elements; the income set is unchanged; saved and rescanned |
| HighlightHelper.Helper.RemoveIncomeSymbol | content.js:398-403 | the same for the income set |
| HighlightHelper.Helper.SetGrowthSymbols | content.js:405-410 | the growth set holds exactly the upper-cased images of the array; saved and rescanned |
| HighlightHelper.Helper.SetIncomeSymbols | content.js:412-417 | the same for the income set |
| HighlightHelper.Helper.GetGrowthSymbols | content.js:419-421 | exactly the growth set's elements, in insertion order |
| HighlightHelper.Helper.GetIncomeSymbols | content.js:423-425 | exactly the income set's elements, in insertion order |
| HighlightHelper.Helper.GetAllSymbols | content.js:427-432 | both sets |

## Left out

- The `MutationObserver`, `setTimeout` debouncing and retries, the `DOMContentLoaded` listener and console logging are event, timer and logging plumbing. A constructor's `loading` parameter only says whether the initial scan runs at once.
- Panel and button construction, CSS, hover handlers and status texts are UI. This covers `createConfigPanel`, the toggle buttons, `updateConfigPanel` and `updateConfigPanelIfExists`. The one thing kept is the round trip between the panel's `join(', ')` and the parser.
- The release build's colour and sorting checkbox handlers are UI. `debugRows` and the `scan()` alias, which only calls `scanAndHighlight`, are left out too.
- `querySelectorAll`, `querySelector` and `getComputedStyle` are foreign DOM calls. The queried rows are a given `array<Row>` of distinct objects, and a row's symbol cell is an optional text.
- `clearAllHighlights` queries `[data-etrade-helper]` over the whole document. The model clears the tagged rows of the table only.
- `localStorage` and `JSON.parse`/`stringify` are external. A stored value is modelled by its shape: the empty string, a string list, a boolean, or text that does not parse. Other JSON shapes, such as numbers or lists of non-strings, are not modelled. A flag key holding a list is read as `true`, because the flag then holds a truthy array.
- Storage write errors, which `saveConfiguration` catches and only logs, are left out.
- The try/catch around the panel's text fields, which only fires when the panel elements are missing, is UI.
- `toUpperCase` and `trim` are modelled on ASCII. The whitespace class is space, tab, newline, vertical tab, form feed and carriage return; JavaScript's full Unicode behaviour is not modelled.
- `top` is an optional integer number of pixels, and `parseInt` details are not modelled. The snapshot stores the offset as a number rather than the `"…px"` string.
- The per-row try/catch of `scanAndHighlight` is left out, because nothing in the model of one row can throw.
- The sort's group lists hold row indices instead of row objects. The unused `originalData` lookup in the grouping loop is left out.
- `Table.ScanRows` builds the scan's new map entries in a local map, which the helper adds to `positions` after the pass. The source writes each entry into `positions` as it goes; the final map is the same.
- Loading follows what the code does:
  - After a failed load the fallback sets are used and nothing is saved.
  - A flag parsed before the failure is kept.
  - In the release build the fallback sets differ from the first-start defaults.
  - The first build scans the table before it loads the stored sets.
