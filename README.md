# Paint Your Day: the data store, its builders and the day strip

Paint Your Day is a time tracker: each calendar day is split into 24
hour blocks, and the user paints each block with a category (Rest,
Work, Movement, ...). This project models three parts of it in Dafny:

- the `DataService` singleton (`constants/dataService.ts`). It holds one
  optional cached document: a list of categories and a map from a
  `YYYY-MM-DD` date to that day's blocks. Its operations create days,
  paint blocks, add, update and delete categories (the delete also
  clears every block that used the category), and compute the insights
  view: per-category block counts sorted by use;
- the data types and pure builders (`constants/types.ts`): the six
  default categories, the empty day, fresh application data, and the
  date key `formatDate`;
- the day strip's grouping of a day into twelve two-hour groups, each
  group's time label, and its press handler (`components/DayStrip.tsx`).

Layout:

- `wrappers.dfy`: `Option` (JavaScript `null`/`undefined`) and
  `Result` (a value, or a thrown `Error` with its message).
- `types.dfy`: module `Types`. The datatypes, `DEFAULT_CATEGORIES`,
  `initializeEmptyDay`, `initializeAppData`, and decimal printing,
  `padStart(2, '0')` and `formatDate`.
- `store.dfy`: module `Store`. Each operation's effect on the document,
  written as a function on `AppData`. Lemmas state what each effect
  means, and that each keeps the document's shape (`WellFormed`).
- `statistics.dfy`: module `Statistics`. The `getInsights` tally loops
  and its sort/map/filter pipeline, proved against a reference multiset
  of the ids of all assigned blocks.
- `service.dfy`: module `Service`. The class `DataService`, with the
  field `cache` and a ghost counter `writes` of storage writes. Each
  method is proved to produce the effect function's result, or to fail
  with the source's message before `initialize`.
- `daystrip.dfy`: module `DayStrip`. The grouping loop, the label and
  the press handler.

The store keeps no version counter and never derives `darkColor`.
`getDays` returns the live map, not a copy. The cascade of
`deleteCategory` compares ids with `===`.

The insights screen and the categories screen call a `getVersion()`
method that `dataService.ts` does not define. Those screens are not
part of this model.

## Model

| member | source | states |
|---|---|---|
| Types.DefaultCategories | constants/types.ts:30-37 | There are exactly six default categories, their ids are pairwise distinct, and each one has a dark colour. |
| Types.InitializeEmptyDay | constants/types.ts:42-48 | The new day carries the given date and has exactly 24 blocks. Block `i` has hour `i`, and every block is unassigned (`null`). |
| Types.EmptyDayHours | constants/types.ts:44-47 | Some block of an empty day has hour `h` exactly when `0 <= h < 24`. No two blocks share an hour. |
| Types.InitializeAppData | constants/types.ts:53-56 | Fresh data has the default categories and no days. |
| Types.NatToString | constants/types.ts:63-64 | `String(n)` of a non-negative number is a non-empty run of digits with no leading zero. |
| Types.DecimalValueOfString | constants/types.ts:63-64 | Reading back the digits of `String(n)` gives `n`. |
| Types.NatToStringLength | constants/types.ts:63-64 | `String(n)` has `k` digits when `10^(k-1) <= n < 10^k`. |
| Types.PadStart2 | constants/types.ts:63-64 | `padStart(2, '0')` gives length 2 for a shorter string and keeps a longer one. The original string is a suffix of the result, and only '0's are added. |
| Types.Pad2Digits | constants/types.ts:63-64 | Padding a non-negative number prepends "0" exactly when `n < 10`. Otherwise it leaves the decimal digits unchanged. |
| Types.Pad2RoundTrip | constants/types.ts:63-64 | For `0 <= n < 100` the padded field is two digits that read back as `n`. |
| Types.FormatDateRoundTrip | constants/types.ts:61-66 | For a four-digit year, a month index 0..11 and a day 1..31, the key has 10 characters with dashes at positions 4 and 7. Its year, month (`month0 + 1`) and day fields read back as the inputs. |
| Types.DashedFields | constants/types.ts:65 | In `y-m-d` with a four-character year and two-character month and day, each field sits at its fixed position. |
| Types.IntToString | constants/types.ts:63-65 | `String(n)` for any integer: a minus sign before the digits of `-n` when negative. Its meaning for non-negative numbers is stated by `NatToString` and `DecimalValueOfString`. |
| Types.Pad2 | constants/types.ts:63-64 | `String(n).padStart(2, '0')`. Its meaning is stated by `Pad2Digits` and `Pad2RoundTrip`. |
| Types.FormatDate | constants/types.ts:61-66 | The key `${year}-${month}-${day}`, with the month index plus one and both fields padded. Its meaning is stated by `FormatDateRoundTrip`. |
| Store.FindHour | constants/dataService.ts:84 | `blocks.find(b => b.hour === hour)` yields the first block with that hour, or nothing when no block has it. |
| Store.FindHourIndexed | constants/dataService.ts:84 | On a day built by the store, the block for hour `h` is block `h` when `0 <= h < 24`, and there is none otherwise. |
| Store.LookupCategory | constants/dataService.ts:97 | `categories.find(c => c.id === id)` is the first category with that id. It is missing exactly when no category has that id. |
| Store.WithoutCategory | constants/dataService.ts:139 | After the filter, a category remains exactly when it was present and its id differs from the deleted one. |
| Store.ClearBlocks | constants/dataService.ts:143-147 | After the cascade, no block refers to the deleted id and hours and length are kept. Blocks with another id or none are untouched; those that referred to the id become `null`. |
| Store.WithDayEffect | constants/dataService.ts:62-71 | `getOrCreateDay` on an absent date adds exactly an empty day and keeps every other day. On a present date it changes nothing. Categories are never touched. |
| Store.SetBlockEffect | constants/dataService.ts:76-90 | `updateBlock` writes the new id into the first block with that hour. Every other block of that day is unchanged, including later blocks with the same hour. Every other day and all categories are unchanged, and hours are kept. With no such block, only the day's possible creation remains. |
| Store.SetBlockWellFormed | constants/dataService.ts:83-89 | On a well-formed document and an hour in 0..23, exactly block `hour` is set to the new id. |
| Store.AppendCategoryEffect | constants/dataService.ts:103-114 | `addCategory` appends one category with the given fields and the new id at the end. Earlier categories and all days are unchanged. |
| Store.UpdateCategoriesEffect | constants/dataService.ts:119-130 | On a found id, only the fields present in the update are overwritten and the id is kept. Every other category is unchanged. An unknown id changes nothing. |
| Store.WithoutCategoryConcat | constants/dataService.ts:139 | The filter distributes over concatenation, so the surviving categories keep their relative order. |
| Store.WithoutCategoryDistinct | constants/dataService.ts:139 | Filtering a list with distinct ids keeps the ids distinct. |
| Store.RemoveCategoryEffect | constants/dataService.ts:135-151 | After `deleteCategory`, no category with the id remains and the others are all kept. The set of dates is unchanged and no block refers to the id. Blocks with other ids or none are untouched. |
| Store.InitialDataWellFormed | constants/types.ts:53-56 | Fresh data has distinct category ids and no malformed day. |
| Store.SetBlockPreservesWellFormed | constants/dataService.ts:62-90 | `getOrCreateDay` and `updateBlock` keep every day under its own date, with 24 hour-indexed blocks. |
| Store.AppendCategoryPreservesWellFormed | constants/dataService.ts:103-114 | `addCategory` keeps category ids distinct when the new id is not already taken. |
| Store.UpdateCategoriesPreservesWellFormed | constants/dataService.ts:119-130 | `updateCategory` keeps the document well formed, because ids never change. |
| Store.RemoveCategoryPreservesWellFormed | constants/dataService.ts:135-151 | `deleteCategory` keeps the document well formed. |
| Store.ClearReferences | constants/dataService.ts:143-147 | The inner loop of the cascade produces exactly the cleared blocks. |
| Store.FindCategory | constants/dataService.ts:125 | `categories.find(c => c.id === categoryId)` in `updateCategory`: the index of the first category with that id, and none exactly when no category has it. |
| Store.WithDay | constants/dataService.ts:62-71 | The document after `getOrCreateDay`. Its meaning is stated by `WithDayEffect`. |
| Store.SetBlock | constants/dataService.ts:76-90 | The document after `updateBlock`. Its meaning is stated by `SetBlockEffect` and `SetBlockWellFormed`. |
| Store.NewCategory | constants/dataService.ts:106-109 | The category built from the given fields under the new id. Its meaning is stated by `AppendCategoryEffect`. |
| Store.AppendCategory | constants/dataService.ts:103-114 | The document after `addCategory`. Its meaning is stated by `AppendCategoryEffect`. |
| Store.Patch | constants/dataService.ts:127 | `Object.assign(category, updates)`: the fields present in the update overwrite, and the id is kept. Its meaning is stated by `UpdateCategoriesEffect`. |
| Store.UpdateCategories | constants/dataService.ts:119-130 | The category list after `updateCategory`. Its meaning is stated by `UpdateCategoriesEffect`. |
| Store.ClearBlock | constants/dataService.ts:144-146 | One block after the cascade: a block whose id is `===` the deleted id becomes `null`. Its meaning is stated by `ClearBlocks`. |
| Store.ClearDays | constants/dataService.ts:142-148 | Every day after the cascade. Its meaning is stated by `RemoveCategoryEffect` and `AssignedIdsAfterRemove`. |
| Store.RemoveCategory | constants/dataService.ts:135-151 | The document after `deleteCategory`. Its meaning is stated by `RemoveCategoryEffect`. |
| Statistics.AssignedIdsRemove | constants/dataService.ts:170 | The reference count does not depend on the order in which days are visited. |
| Statistics.Tag | constants/dataService.ts:173 | The id one block contributes to the tally: its `categoryId` when truthy, and nothing otherwise. Its meaning is stated by `TallyBlock`. |
| Statistics.BlockIdsUnassigned | constants/dataService.ts:171-172 | A day with no assigned block contributes nothing to the counts. |
| Statistics.AssignedIdsWithEmptyDay | constants/dataService.ts:65-66 | Creating an empty day leaves every count unchanged. |
| Statistics.BlockIdsConcat | constants/dataService.ts:171 | The ids of a run of blocks are the ids of its parts. |
| Statistics.BlockIdsUpdate | constants/dataService.ts:87 | Overwriting one block trades that block's id for the new one in the day's ids. |
| Statistics.ReplaceDay | constants/dataService.ts:170 | Replacing one day trades that day's ids for the new day's in the totals. |
| Statistics.AssignedIdsAfterSetBlock | constants/dataService.ts:76-90 | After `updateBlock`, the counts plus the old block's id equal the earlier counts plus the new id. Without a matching block the days are only those after `getOrCreateDay`. |
| Statistics.BlockIdsCleared | constants/dataService.ts:143-147 | The cascade on one day removes every count of the deleted id and nothing else. |
| Statistics.AssignedIdsAfterRemove | constants/dataService.ts:142-148 | After `deleteCategory(id)`, no block counts for `id`, and every other id's count is unchanged. |
| Statistics.TallyAdd | constants/dataService.ts:173-174 | `(usage[id] \|\| 0) + 1` keeps the dictionary equal to the multiplicities of the ids seen. |
| Statistics.TallyBlock | constants/dataService.ts:172-176 | The callback counts one block: a truthy id is added once to the dictionary and to the counter, and any other block changes neither. |
| Statistics.TallyBlocks | constants/dataService.ts:171-177 | The inner loop adds exactly the truthy ids of one day to the dictionary, and adds their number to the counter. |
| Statistics.TallyDays | constants/dataService.ts:167-178 | The dictionary holds, for each id, the number of blocks over all days whose `categoryId` is that id, and no zero entries. `totalBlocksAssigned` is the number of blocks with a truthy id. |
| Statistics.ListOne | constants/dataService.ts:180 | Listing one more dictionary key keeps the listed entries exact. |
| Statistics.UsageEntries | constants/dataService.ts:180 | `Object.entries` lists each key of the dictionary exactly once, with its count, and nothing else. The counts add up to the reference multiset. |
| Statistics.ListedAll | constants/dataService.ts:180 | Once every key is listed, the entries' counts make up exactly the tallied multiset. Each key appears once and every key has an entry. |
| Statistics.Prepend | constants/dataService.ts:180 | Putting an entry in front adds its id, its count and itself. |
| Statistics.IdsOfMember | constants/dataService.ts:180 | An id counted among the entries belongs to some entry. |
| Statistics.InsertByCountSorted | constants/dataService.ts:181 | Inserting into a list sorted by decreasing count keeps it sorted. Nothing in the result exceeds the larger of the inserted count and the old head. |
| Statistics.InsertByCountAdds | constants/dataService.ts:181 | Inserting adds exactly the new entry to the elements. |
| Statistics.InsertByCountTotals | constants/dataService.ts:181 | Inserting adds the new entry's id to the ids and its count to the total. |
| Statistics.InsertByCount | constants/dataService.ts:181 | One insertion step of the sort by decreasing count. Its meaning is stated by `InsertByCountSorted`, `InsertByCountAdds` and `InsertByCountTotals`. |
| Statistics.SortByCount | constants/dataService.ts:181 | `.sort(([, a], [, b]) => b - a)`. Its meaning is stated by `SortByCountSorted`, `SortByCountPermutes` and `SortByCountTotals`. |
| Statistics.SortByCountSorted | constants/dataService.ts:181 | The sort's result is non-increasing by count. |
| Statistics.SortByCountPermutes | constants/dataService.ts:181 | The sort's result is a permutation of its input. |
| Statistics.SortByCountTotals | constants/dataService.ts:181 | The sort keeps the multiset of ids and the total count. |
| Statistics.ResolveSound | constants/dataService.ts:182-186 | Each kept element holds the first category with its id, and the count of an entry for that id. |
| Statistics.ResolveComplete | constants/dataService.ts:182-186 | Every entry whose id names a known category is kept with that category and its count. |
| Statistics.ResolveDrops | constants/dataService.ts:186 | The filter only drops elements, so the summed counts can only go down and the ids form a sub-multiset. |
| Statistics.ResolveSorted | constants/dataService.ts:181-186 | Mapping and filtering a sorted list keeps it non-increasing by count. |
| Statistics.Resolve | constants/dataService.ts:182-186 | The `.map` to `{ category, count }` followed by the `.filter` of unknown categories. Its meaning is stated by `ResolveSound`, `ResolveComplete`, `ResolveDrops` and `ResolveSorted`. |
| Statistics.UsageIdsDistinct | constants/dataService.ts:180-186 | An id that occurs at most once in the usage list belongs to at most one of its elements. |
| Statistics.UsageIdsHas | constants/dataService.ts:182-186 | Every element's id is among the usage list's ids. |
| Statistics.ResolvedCountsTrue | constants/dataService.ts:170-186 | Each reported count is positive and equals the number of blocks carrying that category. |
| Statistics.ResolvedComplete | constants/dataService.ts:170-186 | Every known category that some block carries is reported. |
| Statistics.ResolvedHas | constants/dataService.ts:180-186 | A known category that some block carries is found among the reported elements. |
| Statistics.ResolvedDistinct | constants/dataService.ts:180-186 | No category is reported twice. |
| Statistics.ComputeInsights | constants/dataService.ts:167-193 | The insights hold these facts. `totalDaysTracked` is the number of dates and `totalBlocksAssigned` the number of blocks with a truthy id. `categoryUsage` holds, for each known category in use and only for those, its true positive count, once, in non-increasing count order. The counts sum to at most the assigned total. `mostUsedCategory` is the first element's category, or none. |
| Service.DataService.constructor | constants/dataService.ts:16-17 | The cache starts as `null`, with nothing written. |
| Service.DataService.Save | constants/dataService.ts:50-57 | `save` writes exactly when there is a cache. |
| Service.DataService.Initialize | constants/dataService.ts:22-35 | A parsed stored document is adopted as it is, with no write. A missing or unreadable record gives the default data, written once. |
| Service.DataService.Data | constants/dataService.ts:40-45 | The getter yields the cache, or fails with "Data not initialized. Call initialize() first." exactly when there is none. |
| Service.DataService.GetOrCreateDay | constants/dataService.ts:62-71 | Before `initialize`, it fails with "Data not initialized" and changes nothing. Otherwise the cache becomes `WithDay` of the old one and the stored day is returned. It writes only when the day was created. |
| Service.DataService.UpdateBlock | constants/dataService.ts:76-90 | Before `initialize`, it fails and changes nothing. Otherwise the cache becomes `SetBlock` of the old one. It writes once for a created day and once for a found block. |
| Service.DataService.GetCategory | constants/dataService.ts:95-98 | It gives nothing before `initialize`, and otherwise the first category with the id. It changes no state. |
| Service.DataService.AddCategory | constants/dataService.ts:103-114 | Before `initialize`, it fails and changes nothing. Otherwise the new category is appended, returned, and equal to the last element; one write. |
| Service.DataService.UpdateCategory | constants/dataService.ts:119-130 | Before `initialize`, it fails and changes nothing. Otherwise only the category list changes, by `UpdateCategories`. It writes only when the id was found. |
| Service.DataService.DeleteCategory | constants/dataService.ts:135-151 | Before `initialize`, it fails and changes nothing. Otherwise the nested loops leave exactly `RemoveCategory` of the old document; one write. |
| Service.DataService.GetDays | constants/dataService.ts:156-159 | It gives an empty map before `initialize`, and otherwise the cached day map itself. |
| Service.DataService.GetInsights | constants/dataService.ts:164-194 | It gives `null` before `initialize`, and otherwise insights that satisfy `Describes` for the cached document. |
| Service.DataService.ClearAll | constants/dataService.ts:199-202 | In every state, the cache becomes fresh default data and no save is counted. The removal of the stored record itself is not modelled. |
| DayStrip.BlockAt | components/DayStrip.tsx:22 | `day.blocks[h]` is the block when `h` is in range and `undefined` past the end. |
| DayStrip.LeadCategory | components/DayStrip.tsx:27 | The group's category is the first block's id when that id is truthy, and `null` otherwise, so it is never the empty string. |
| DayStrip.GroupTwoHours | components/DayStrip.tsx:18-29 | There are exactly 12 groups. Group `i` starts at `2i` and ends at `2i + 1`, because the `% 24` never changes it. It holds blocks `2i` and `2i + 1` and takes its category from block `2i`. Start hours strictly increase and cover every even hour 0..22. |
| DayStrip.OddHourIgnored | components/DayStrip.tsx:22-27 | Changing block `2i + 1` never changes group `i`'s category. |
| DayStrip.SelectedMeansLeadBlock | components/DayStrip.tsx:48 | A group is highlighted exactly when its first block carries the selected category and that category is non-empty. |
| DayStrip.IsSelected | components/DayStrip.tsx:48 | `selectedCategory !== null && block.categoryId === selectedCategory`. Its meaning is stated by `SelectedMeansLeadBlock`. |
| DayStrip.TimeLabelShape | components/DayStrip.tsx:59 | A label has 13 characters, `HH:00 - HH:00`. Its fields read back as the start hour and as `(start + 2) % 24`. |
| DayStrip.LabelFields | components/DayStrip.tsx:59 | Each field of the label sits at its fixed position. |
| DayStrip.LastLabel | components/DayStrip.tsx:59 | The last group's label is "22:00 - 00:00". |
| DayStrip.TimeLabel | components/DayStrip.tsx:59 | The label `HH:00 - HH:00` of a group. Its meaning is stated by `TimeLabelShape` and `LastLabel`. |
| DayStrip.PressReport | components/DayStrip.tsx:13-15 | A press reports the group's start hour and `selectedCategory \|\| null`: the selection when it is non-empty, and `null` otherwise. |
| DayStrip.PressWritesStartHour | components/DayStrip.tsx:13-15 | When a press on group `i` is handed to `updateBlock` on a well-formed document, it writes block `2i` and no other. Hour `2i + 1` keeps its value. |

## Left out

- Storage. AsyncStorage reads, writes and removal are not modelled, and
  neither are `JSON.parse` and `JSON.stringify`. What `initialize`
  found is a parameter (`StoredDocument`). Each `save` is counted in the
  ghost field `writes`; a failed write is not modelled.
- `async`/`await`: each operation is one atomic step; interleaved calls
  are not modelled.
- The id `custom_${Date.now()}` of `addCategory` is a parameter. The code
  does not guarantee it is fresh, so freshness appears only as the
  requirement of `Store.AppendCategoryPreservesWellFormed`.
- `getTodayString` and `getDateString` read the clock, so they are left
  out. `formatDate` takes the year, the month index and the day as
  integers rather than a `Date`.
- Aliasing. In the program `initializeAppData` shares the
  `DEFAULT_CATEGORIES` array, so a later `push` or `Object.assign` also
  changes the defaults. The day that `getOrCreateDay` returns, and the
  map that `getDays` returns, are live objects that callers may mutate.
  The model uses values, so none of this sharing is reproduced. In particular, `clearAll` in the program
  installs the shared `DEFAULT_CATEGORIES` array again. After an
  `addCategory` or `updateCategory` on default data, that array may
  hold more than six categories or edited ones.
  `Service.DataService.ClearAll` always gives the six original
  categories.
- Service.DataService.GetInsights: the order of categories with equal
  counts is not stated. It depends on the key order of
  `Object.entries`, and the model visits the keys in an unspecified
  order.
- Service.DataService.Initialize: a parsed document is adopted as it
  is. Its shape is not checked, and no operation assumes `WellFormed`.
  A stored document that is not an `AppData` cannot be represented.
- Service.DataService.UpdateCategory: an update field explicitly set to
  `undefined` is treated as absent. `Object.assign` would copy it.
- Date keys and category ids are plain map keys. In the program `days`
  and the `categoryUsage` tally are plain objects, so a key inherited
  from `Object.prototype` (such as `"constructor"`) already looks
  present. Such keys are out of scope: for them the program would skip
  creating a day, or build a string in the tally, and the model does
  neither.
- A block's `hour` is an integer in the model. The source's `number` also
  admits fractions and `NaN`.
- DayStrip rendering, scrolling and styling are not modelled. The today
  screen passes `DayStrip` a different set of props; that screen is not
  part of this model.
- `constants/theme.ts`, `components/TimeBlock.tsx`,
  `components/TimeBlockNew.tsx`, `components/tab-icon.tsx` and the `app/`
  screens are not part of this model.
