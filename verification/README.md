# Movie and tour inventory: a verified model

This project models the inventory core of a booking benchmark app in Dafny and
proves what its code promises. The core has five parts:

- **The native inventory module** (`InventoryModule.kt`) is a React Native
  module. It holds a registry of datasets. `generateAndIndex` draws a dataset
  of movie shows from a xorshift random generator. A show is one price, a seat
  count and optional seat classes. The shows go into a nested tree:
  language → format → date → cinema → show time. The module then builds sorted
  indexes over the tree and answers getters on the stored datasets:
  `getLanguages`, `getFormats`, `getDates`, `getInventoryFor` (one day's
  slice) and `destroyDataset`.
- **The JavaScript generator** (`inventoryUtils.ts`) has
  `generateBackendInventory`, the same generator written over a mulberry32
  random generator. It produces a flat list of show rows plus dictionaries.
  `buildInventoryMap` folds that list into the same nested tree.
- **The booking processor** (`bookingInventoryProcessor.ts`) has
  `processInventory`. It files a product's tour availabilities under every
  variant that contains the tour, by tour and start date. For each date it
  keeps the cheapest availability and one availability per start time. For
  each tour it keeps the first and the last date.
- **The fixture generator** (`generate_inventory.py`) has
  `generate_availabilities`. It writes one availability per day, 15-minute
  slot, tour and vendor.
- **The fixture cleaner** (`clean_inventory.py`) has `shift_dates`. It moves
  every date string of a JSON document by the distance between two start
  dates.

Code that updates things step by step is modelled as methods with loops. This
covers the generator loops, the index loops, the slice loop, the fold,
`processInventory` and the fixture loops. Each method is proved equal to a
specification function. The properties are proved as lemmas about those
functions.

- The random generators are classes whose state the methods advance. The
  native generator's state is a `bv32`. The JavaScript generator is
  described by its starting counter and the number of draws taken.
- The dataset registry is a class whose `datasets` map the operations update.
- The string orders, decimal printing and parsing, and the calendar (day
  numbers, ISO dates, Python's `strptime`) are written out in Dafny. The
  calendar is the proleptic Gregorian one of Python's `datetime` and of
  JavaScript dates. Java's `SimpleDateFormat` differs from it before
  1582-10-15; "## Left out" says how.

Module layout:

| file | module | models |
|---|---|---|
| wrappers.dfy | Wrappers | `Option`, `Result` and the error kinds |
| decimal.dfy | Decimal | `toString` / `String(n)`, `padStart`, digit strings |
| ordering.dfy | Ordering | string order, `sorted()`, `sortedWith(compareBy(..))`, `lowercase`, insertion-ordered sets |
| arith.dfy | Arith | truncating `/` and `%`, `Math.floor`, `toInt()`, `round` / `Math.round` |
| calendar.dfy | Calendar | proleptic Gregorian dates, day numbers, `yyyy-MM-dd` printing and strict parsing |
| pydate.dfy | PyDateTime | `strptime` with `%Y-%m-%d` and `%H:%M:%S`, `strftime` |
| timeofday.dfy | TimeOfDay | `parseMinutes`, the two `HH:mm` formatters |
| native_rng.dfy | NativeRng | class `RNG` |
| tree.dfy | InventoryTree | the nested show tree and its `getOrPut` insertion |
| native_gen.dfy | NativeGen | `generateAndReduce`'s tables, dates, show times and one show |
| native_fill.dfy | NativeFill | the show, cinema, date and format loops |
| native_generate.dfy | NativeGenerate | the language loop and `generateAndReduce` as a whole |
| native_index.dfy | NativeIndex | `buildIndexes` and the index lookups |
| native_slice.dfy | NativeSlice | the body of `getInventoryFor` |
| native_registry.dfy | NativeRegistry | class `InventoryModule`: the dataset registry and its API |
| js_rng.dfy | JsRng | mulberry32 `rnd`, `randInt`, `pick` |
| js_gen.dfy | JsGen | `generateBackendInventory`'s tables, dates, `mkShowTimes`, one row |
| js_items.dfy | JsItems | the item loops and the response |
| js_item_facts.dfy | JsItemFacts | what every generated row satisfies |
| js_item_count.dfy | JsItemCount | how many rows the item loops push, and where |
| seqs.dfy | Seqs | joining per-key blocks in key order |
| js_reduce.dfy | JsReduce | `buildInventoryMap` |
| booking.dfy | Booking | `processInventory` |
| fixtures.dfy | Fixtures | `generate_availabilities` |
| clean_dates.dfy | CleanInventory | `shift_dates` and `update_date` |

## Model

| member | source | states |
|---|---|---|
| Arith.TruncAgreesOnNatural | android/app/src/main/java/com/inventorybenchmark/inventory/InventoryModule.kt:246 | For a non-negative dividend and positive divisor, Kotlin's `/` and `%`, and `Math.floor` of the quotient, agree with Euclidean division |
| Arith.TruncDivBounds | android/app/src/main/java/com/inventorybenchmark/inventory/InventoryModule.kt:246 | Kotlin's truncated quotient lies between zero and the exact quotient |
| Arith.TruncRealBounds | android/app/src/main/java/com/inventorybenchmark/inventory/InventoryModule.kt:275 | `Double.toInt()` drops the fraction toward zero: the result is within one unit of x, on the side of zero |
| Arith.RoundHalfEvenIsNearest | android/app/src/main/java/com/inventorybenchmark/inventory/InventoryModule.kt:451-454 | `kotlin.math.round` gives an integer within one half of its argument |
| Arith.RoundHalfUpIsNearest | src/utils/inventoryUtils.ts:182-183 | `Math.round` gives an integer within one half of its argument, ties upward |
| Arith.RoundingNonNegative | src/utils/inventoryUtils.ts:182-183 | Both roundings keep a non-negative value non-negative |
| Decimal.NatToString | src/utils/inventoryUtils.ts:111 | `String(n)` of a natural number is a non-empty digit string |
| Decimal.ParseNatToString | src/utils/inventoryUtils.ts:111 | Reading the decimal text of n back gives n |
| Decimal.NatToStringInjective | android/app/src/main/java/com/inventorybenchmark/inventory/InventoryModule.kt:219 | Different numbers print differently, so `"l${i + 1}"` and `cin_…` keys never collide |
| Decimal.PadStartShape | android/app/src/main/java/com/inventorybenchmark/inventory/InventoryModule.kt:233 | `padStart(w, c)` ends with the original text and is filled with c in front, up to width w |
| Decimal.PaddedIsFixed | src/utils/inventoryUtils.ts:111 | Zero-padding a number that fits in k digits gives exactly its k-digit form |
| Decimal.ParsePadded | src/utils/inventoryUtils.ts:152-153 | Zero padding does not change the value the text reads back as |
| Decimal.PaddedInjective | src/utils/inventoryUtils.ts:111 | Different numbers have different zero-padded forms |
| Ordering.LtTransitive | android/app/src/main/java/com/inventorybenchmark/inventory/InventoryModule.kt:313 | String order is transitive |
| Ordering.LtTotal | android/app/src/main/java/com/inventorybenchmark/inventory/InventoryModule.kt:313 | Any two different strings are ordered one way |
| Ordering.LtAsymmetric | android/app/src/main/java/com/inventorybenchmark/inventory/InventoryModule.kt:313 | String order is never both ways |
| Ordering.SortedKeysSpec | android/app/src/main/java/com/inventorybenchmark/inventory/InventoryModule.kt:313 | `keys.sorted()` is strictly ascending and holds every key exactly once |
| Ordering.SortedUnique | android/app/src/main/java/com/inventorybenchmark/inventory/InventoryModule.kt:319-322 | Only one ascending list holds a given set of keys, so the index lists are fixed by the tree whatever order the tree is visited in |
| Ordering.PairLtTransitive | android/app/src/main/java/com/inventorybenchmark/inventory/InventoryModule.kt:137-139 | `compareBy({ name }, { id })` is transitive |
| Ordering.PairLtTotal | android/app/src/main/java/com/inventorybenchmark/inventory/InventoryModule.kt:137-139 | `compareBy({ name }, { id })` orders any two different pairs |
| Ordering.SortedPairsSpec | android/app/src/main/java/com/inventorybenchmark/inventory/InventoryModule.kt:137-139 | `sortedWith(compareBy(..))` is ascending and holds every pair exactly once |
| Ordering.Lower | android/app/src/main/java/com/inventorybenchmark/inventory/InventoryModule.kt:138 | On ASCII text, which is all the generator produces for cinema names, `lowercase(Locale.ROOT)` keeps the length and maps each letter A-Z to a-z and every other character to itself |
| Ordering.DedupProperties | android/app/src/main/java/com/inventorybenchmark/inventory/InventoryModule.kt:248-256 | An insertion-ordered set keeps exactly the elements added, each once, no more than were added, in the order of their first addition |
| Ordering.SortedDistinct | android/app/src/main/java/com/inventorybenchmark/inventory/InventoryModule.kt:313 | A sorted key list repeats nothing |
| Calendar.NextDay | android/app/src/main/java/com/inventorybenchmark/inventory/InventoryModule.kt:477 | Adding 86 400 000 ms in UTC moves to the date whose day number is one more |
| Calendar.ShiftBy | clean_inventory.py:18 | Adding a `timedelta` of n days gives the date whose day number is n more |
| Calendar.DayNumberInjective | android/app/src/main/java/com/inventorybenchmark/inventory/InventoryModule.kt:471-472 | A date is fixed by its epoch day number |
| Calendar.ValidByDayNumber | clean_inventory.py:18-19 | A date is within years 1 to 9999 exactly when its day number is at most that of 9999-12-31 |
| Calendar.ParseIsoOfIso | android/app/src/main/java/com/inventorybenchmark/inventory/InventoryModule.kt:463-476 | Parsing what `yyyy-MM-dd` printed gives the date back |
| Calendar.IsoOfParseIso | android/app/src/main/java/com/inventorybenchmark/inventory/InventoryModule.kt:468-469 | Every string the strict parser accepts is the printed form of its own date |
| Calendar.IsoInjective | android/app/src/main/java/com/inventorybenchmark/inventory/InventoryModule.kt:476 | Different dates print differently |
| Calendar.DayNumberOrder | android/app/src/main/java/com/inventorybenchmark/inventory/InventoryModule.kt:474-475 | A smaller epoch time means an earlier (year, month, day) |
| Calendar.IsoLt | android/app/src/main/java/com/inventorybenchmark/inventory/InventoryModule.kt:322 | Text order of printed dates is calendar order |
| Calendar.DaysAt | android/app/src/main/java/com/inventorybenchmark/inventory/InventoryModule.kt:475-478 | Entry i of the day list is the date i days after the first |
| Calendar.DaysSorted | android/app/src/main/java/com/inventorybenchmark/inventory/InventoryModule.kt:475-478 | Consecutive days up to 9999-12-31 print in strictly ascending order |
| PyDateTime.ParseDate | clean_inventory.py:11-12 | `strptime(s, "%Y-%m-%d")` returns only real dates of years 1 to 9999 |
| PyDateTime.ParseTime | generate_inventory.py:20-21 | `strptime(s, "%H:%M:%S").time()` gives a time of day below 86 400 seconds |
| PyDateTime.ParseDateOfIso | clean_inventory.py:17-19 | `strptime` reads back every date `strftime("%Y-%m-%d")` prints |
| PyDateTime.ParseTimeOfText | generate_inventory.py:32-33 | `strptime` reads back every time `strftime("%H:%M:%S")` prints |
| TimeOfDay.ToIntOrNull | android/app/src/main/java/com/inventorybenchmark/inventory/InventoryModule.kt:458-459 | `toIntOrNull` gives only values within Kotlin's Int range |
| TimeOfDay.FormatsAgree | src/utils/inventoryUtils.ts:152-154 | For 00:00 to 99:59, the JavaScript and Kotlin formatters print the same text, exactly two digits, a colon and two digits |
| TimeOfDay.ParseMinutesOfFormat | android/app/src/main/java/com/inventorybenchmark/inventory/InventoryModule.kt:456-461 | `parseMinutes` reads back what the show-time formatter printed |
| TimeOfDay.FormatHHmmInjective | android/app/src/main/java/com/inventorybenchmark/inventory/InventoryModule.kt:253 | Different minutes from 00:00 to 99:59 print differently |
| TimeOfDay.ParseMinutesOfHHmm | android/app/src/main/java/com/inventorybenchmark/inventory/InventoryModule.kt:456-461 | `parseMinutes("HH:mm")` is `HH * 60 + mm` |
| NativeRng.InitialState | android/app/src/main/java/com/inventorybenchmark/inventory/InventoryModule.kt:430 | A zero seed is replaced by 0x9E3779B9; any other seed is kept |
| NativeRng.XorshiftNonZero | android/app/src/main/java/com/inventorybenchmark/inventory/InventoryModule.kt:432-436 | The xorshift step maps a non-zero state to a non-zero state |
| NativeRng.DrawIsUnclamped | android/app/src/main/java/com/inventorybenchmark/inventory/InventoryModule.kt:442-446 | `coerceIn` never has to act: the scaled draw already lies in [min, max] |
| NativeRng.IntFrom | android/app/src/main/java/com/inventorybenchmark/inventory/InventoryModule.kt:442-446 | `int(min, max)` returns min without a draw when min >= max, otherwise a value in [min, max] after one step |
| NativeRng.Rng.constructor | android/app/src/main/java/com/inventorybenchmark/inventory/InventoryModule.kt:430 | The generator starts from the seed, or 0x9E3779B9 for 0 |
| NativeRng.Rng.Float | android/app/src/main/java/com/inventorybenchmark/inventory/InventoryModule.kt:431-440 | `float()` advances the state by one xorshift step and returns it as the unsigned numerator of u / 2^32 |
| NativeRng.Rng.Int | android/app/src/main/java/com/inventorybenchmark/inventory/InventoryModule.kt:442-446 | `int(min, max)`: no draw for min >= max, otherwise one draw scaled into [min, max]; the result and new state are `IntFrom` of the old state |
| NativeRng.Rng.Pick | android/app/src/main/java/com/inventorybenchmark/inventory/InventoryModule.kt:448 | `pick(indices)` gives an index of the list, without a draw for a one-element list |
| InventoryTree.DayOf | android/app/src/main/java/com/inventorybenchmark/inventory/InventoryModule.kt:132 | `map[lang]?.get(fmt)?.get(day) ?: emptyMap()` holds exactly the cinemas of that day, and is empty when a level is missing |
| InventoryTree.Lookup | src/utils/inventoryUtils.ts:288 | A show is found exactly when its cinema node exists and holds that time |
| InventoryTree.AddShow | android/app/src/main/java/com/inventorybenchmark/inventory/InventoryModule.kt:293-298 | The `getOrPut` chain then `shows[time] = show` changes only that show; the cinema keeps its first name and every other entry stays |
| InventoryTree.InsertShow | android/app/src/main/java/com/inventorybenchmark/inventory/InventoryModule.kt:293-298 | The in-place insertion is that insertion and never leaves an empty level |
| InventoryTree.InsertedEntries | android/app/src/main/java/com/inventorybenchmark/inventory/InventoryModule.kt:293-300 | Inserting a show adds exactly its (language, format, date, cinema, time) entry |
| InventoryTree.InsertedCells | android/app/src/main/java/com/inventorybenchmark/inventory/InventoryModule.kt:293-297 | Inserting a show adds exactly its cinema cell |
| InventoryTree.AddShowPruned | src/utils/inventoryUtils.ts:278-288 | Insertion never leaves an empty language, format, date or cinema map |
| InventoryTree.CellsOfEntries | android/app/src/main/java/com/inventorybenchmark/inventory/InventoryModule.kt:293-298 | In a tree without empty levels the cells are exactly the prefixes of the show entries |
| NativeGen.Languages | android/app/src/main/java/com/inventorybenchmark/inventory/InventoryModule.kt:218-220 | `languages` has `languagesCount` entries (none for a negative count), entry i being the pool code or `l<i+1>` |
| NativeGen.Formats | android/app/src/main/java/com/inventorybenchmark/inventory/InventoryModule.kt:224-227 | Language li's format list has `formatsPerLanguage` entries, entry fi being the rotated pool code or `f<fi+1>` |
| NativeGen.FormatsByLang | android/app/src/main/java/com/inventorybenchmark/inventory/InventoryModule.kt:222-229 | `formatsByLang` maps every language code to the formats of its index |
| NativeGen.FormatsByLangKeys | android/app/src/main/java/com/inventorybenchmark/inventory/InventoryModule.kt:222-229 | `formatsByLang` has no other key |
| NativeGen.LanguageInjective | android/app/src/main/java/com/inventorybenchmark/inventory/InventoryModule.kt:218-220 | Different language indices give different codes |
| NativeGen.LanguagesDistinct | android/app/src/main/java/com/inventorybenchmark/inventory/InventoryModule.kt:218-220 | The language list repeats no code |
| NativeGen.FormatsDistinct | android/app/src/main/java/com/inventorybenchmark/inventory/InventoryModule.kt:224-227 | A language's format list repeats no code |
| NativeGen.LanguageColonFree | android/app/src/main/java/com/inventorybenchmark/inventory/InventoryModule.kt:219 | Language codes contain no ':' |
| NativeGen.FormatColonFree | android/app/src/main/java/com/inventorybenchmark/inventory/InventoryModule.kt:225-226 | Format codes contain no ':' |
| NativeGen.CinemaIdInjective | android/app/src/main/java/com/inventorybenchmark/inventory/InventoryModule.kt:233 | Different cinema indices give different `cin_NNN` ids |
| NativeGen.CinemasDistinct | android/app/src/main/java/com/inventorybenchmark/inventory/InventoryModule.kt:232-236 | Cinema i has id `cin_<i+1>` padded to three digits, and the ids are pairwise different, so `associate` keeps every cinema |
| NativeGen.BuildCinemas | android/app/src/main/java/com/inventorybenchmark/inventory/InventoryModule.kt:232-236 | The cinema loop gives the cinema list of the starting state, two picks per cinema |
| NativeGen.DateListErrors | android/app/src/main/java/com/inventorybenchmark/inventory/InventoryModule.kt:468-474 | `buildDateList` fails on an unparsable start, else on an unparsable end, else with "dateEnd must be >= dateStart" on a reversed range, each exactly when it is the first thing wrong |
| NativeGen.DateListProperties | android/app/src/main/java/com/inventorybenchmark/inventory/InventoryModule.kt:463-480 | A valid range gives every day from start to end, one day apart, starting with start, ending with end, strictly ascending |
| NativeGen.DaysBetween | android/app/src/main/java/com/inventorybenchmark/inventory/InventoryModule.kt:475-478 | The day list from s of the range's length starts at s, ends at e and ascends |
| NativeGen.DayReadBack | android/app/src/main/java/com/inventorybenchmark/inventory/InventoryModule.kt:476 | Each day-list entry parses back to its own date |
| NativeGen.BuildDateList | android/app/src/main/java/com/inventorybenchmark/inventory/InventoryModule.kt:463-480 | The parsing and stepping loop computes the date list or the error |
| NativeGen.Gap | android/app/src/main/java/com/inventorybenchmark/inventory/InventoryModule.kt:243-246 | The gap is at least 60; the window is split into n + 1 parts otherwise; n = -1 divides by zero |
| NativeGen.ShowMinuteInWindow | android/app/src/main/java/com/inventorybenchmark/inventory/InventoryModule.kt:251-252 | For a non-empty window each jittered, clamped minute lies in [winStart, winEnd - 1] |
| NativeGen.ShowTimesShape | android/app/src/main/java/com/inventorybenchmark/inventory/InventoryModule.kt:247-257 | `makeShowTimes` gives distinct times, at most n, at least one when n >= 1, and exactly the drawn ones |
| NativeGen.ShowTimesInWindow | android/app/src/main/java/com/inventorybenchmark/inventory/InventoryModule.kt:247-257 | Inside a window within 00:00..99:59 every show time is `HH:mm` and reads back as a minute of the window |
| NativeGen.ShowTimesAreDedup | android/app/src/main/java/com/inventorybenchmark/inventory/InventoryModule.kt:248-256 | Filling the linked set is de-duplicating the drawn times, keeping first occurrences |
| NativeGen.MakeShowTimes | android/app/src/main/java/com/inventorybenchmark/inventory/InventoryModule.kt:247-257 | The loop takes one draw per show and returns the specified show times |
| NativeGen.RoundTo5 | android/app/src/main/java/com/inventorybenchmark/inventory/InventoryModule.kt:451-454 | `roundTo5` gives a multiple of 5 |
| NativeGen.RoundTo5NonNegative | android/app/src/main/java/com/inventorybenchmark/inventory/InventoryModule.kt:451-454 | `roundTo5` of a non-negative value is non-negative |
| NativeGen.SeatClassesConserve | android/app/src/main/java/com/inventorybenchmark/inventory/InventoryModule.kt:280-289 | Silver, gold and platinum share out all available seats, none negative, prices multiples of 5, silver at the show price |
| NativeGen.ShowFromProperties | android/app/src/main/java/com/inventorybenchmark/inventory/InventoryModule.kt:274-275 | Capacity lies in [min, max] (min itself when min >= max) and availability in [cap / 5, cap] |
| NativeGen.ShowFromOk | android/app/src/main/java/com/inventorybenchmark/inventory/InventoryModule.kt:274-291 | Every drawn show has a price that is a multiple of 5 (non-negative for a non-negative base and jitter of at most 100%), seats within the configured bounds, and seat classes exactly when asked for, conserving seats |
| NativeGen.PriceNonNegative | android/app/src/main/java/com/inventorybenchmark/inventory/InventoryModule.kt:276-278 | A non-negative base with jitter in [0, 1] never gives a negative price |
| NativeGen.DrawShow | android/app/src/main/java/com/inventorybenchmark/inventory/InventoryModule.kt:274-291 | The capacity, availability and jitter draws, in that order, give the specified show, which is well formed |
| NativeFill.InsertedCounts | android/app/src/main/java/com/inventorybenchmark/inventory/InventoryModule.kt:298-300 | Inserting a show not yet present adds one tree entry, matching `itemCount++` |
| NativeFill.InsertedCellShows | android/app/src/main/java/com/inventorybenchmark/inventory/InventoryModule.kt:273-298 | The shows of the cell being filled are exactly the times inserted so far |
| NativeFill.ShowTimesOk | android/app/src/main/java/com/inventorybenchmark/inventory/InventoryModule.kt:247-257 | One cinema's times are distinct, present exactly when shows are asked for, and well formed |
| NativeFill.FillShows | android/app/src/main/java/com/inventorybenchmark/inventory/InventoryModule.kt:273-301 | The show loop inserts every time into a new cell; the count grows by the number of times and equals the tree's entries; the tree stays well formed |
| NativeFill.FillDate | android/app/src/main/java/com/inventorybenchmark/inventory/InventoryModule.kt:271-302 | The cinema loop adds one cell per cinema when shows are asked for and none otherwise, keeping the count equal to the entries |
| NativeFill.FillFormat | android/app/src/main/java/com/inventorybenchmark/inventory/InventoryModule.kt:270-303 | The date loop adds the cells of every date under one format |
| NativeFill.FillLanguage | android/app/src/main/java/com/inventorybenchmark/inventory/InventoryModule.kt:268-304 | The format loop adds the cells of every format of one language |
| NativeGenerate.BuildFormatsByLang | android/app/src/main/java/com/inventorybenchmark/inventory/InventoryModule.kt:222-229 | The `forEachIndexed` loop builds the specified `formatsByLang` |
| NativeGenerate.PlannedCellShape | android/app/src/main/java/com/inventorybenchmark/inventory/InventoryModule.kt:267-297 | Every filled cell pairs a generated language with one of its formats, a listed date and a generated cinema id |
| NativeGenerate.PlannedCellFromIndices | android/app/src/main/java/com/inventorybenchmark/inventory/InventoryModule.kt:267-297 | Every such combination is filled when shows are asked for |
| NativeGenerate.DateListDistinct | android/app/src/main/java/com/inventorybenchmark/inventory/InventoryModule.kt:463-480 | The date list repeats no date |
| NativeGenerate.FillAll | android/app/src/main/java/com/inventorybenchmark/inventory/InventoryModule.kt:265-305 | The four nested loops, from the empty tree, fill exactly the planned cells and count every show once |
| NativeGenerate.GenerateAndReduce | android/app/src/main/java/com/inventorybenchmark/inventory/InventoryModule.kt:202-308 | An invalid date range fails with its error; a show count of -1 divides by zero; otherwise the tree is well formed, its cells are exactly the planned ones, `items` is its number of shows and `days` the number of dates |
| NativeIndex.BuildIndexes | android/app/src/main/java/com/inventorybenchmark/inventory/InventoryModule.kt:310-332 | The languages are the sorted tree keys; each language maps to its sorted formats; each `lang::fmt` key maps to the pair's sorted dates |
| NativeIndex.DatesIndexedAdd | android/app/src/main/java/com/inventorybenchmark/inventory/InventoryModule.kt:321-323 | Writing one pair's sorted dates keeps the index correct for the pairs written so far |
| NativeIndex.DateKeyInjective | android/app/src/main/java/com/inventorybenchmark/inventory/InventoryModule.kt:323 | A `lang::fmt` key of ':'-free codes comes from that pair only |
| NativeIndex.FormatsForTree | android/app/src/main/java/com/inventorybenchmark/inventory/InventoryModule.kt:94 | `getFormats` over built indexes lists the language's formats in order, and nothing for an unknown language |
| NativeIndex.DatesForTree | android/app/src/main/java/com/inventorybenchmark/inventory/InventoryModule.kt:109 | `getDates` over built indexes lists the pair's dates in order, and nothing for an unknown pair, when codes contain no ':' |
| NativeSlice.CinemaOrderSpec | android/app/src/main/java/com/inventorybenchmark/inventory/InventoryModule.kt:137-139 | The cinema order lists every cinema of the day once, ascending by (lower-cased name, id) |
| NativeSlice.ShowsOfSpec | android/app/src/main/java/com/inventorybenchmark/inventory/InventoryModule.kt:143-163 | A cinema's shows are listed once each, with their own info, in ascending time order |
| NativeSlice.CollectSlice | android/app/src/main/java/com/inventorybenchmark/inventory/InventoryModule.kt:132-183 | The slice loop computes the specified slice |
| NativeSlice.SliceOfMissing | android/app/src/main/java/com/inventorybenchmark/inventory/InventoryModule.kt:132 | A missing language, format or date gives no theatres and zero counts |
| NativeSlice.SliceTheatresSorted | android/app/src/main/java/com/inventorybenchmark/inventory/InventoryModule.kt:137-139 | Theatres are listed by lower-cased name, ties broken by id |
| NativeSlice.SliceTheatresExact | android/app/src/main/java/com/inventorybenchmark/inventory/InventoryModule.kt:141-180 | Every cinema of the day is listed exactly once, with its name and shows, and `meta.theatres` is the number of theatres |
| NativeSlice.SliceShowCount | android/app/src/main/java/com/inventorybenchmark/inventory/InventoryModule.kt:164-181 | `meta.shows` counts every (cinema, time) show of the day exactly once |
| NativeRegistry.GeneratedCodesColonFree | android/app/src/main/java/com/inventorybenchmark/inventory/InventoryModule.kt:109 | Generated language and format codes contain no ':', so every `lang::fmt` key is unambiguous |
| NativeRegistry.InventoryModule.constructor | android/app/src/main/java/com/inventorybenchmark/inventory/InventoryModule.kt:27 | The registry starts empty |
| NativeRegistry.InventoryModule.GenerateAndIndex | android/app/src/main/java/com/inventorybenchmark/inventory/InventoryModule.kt:30-74 | Missing params or a generation error reject and change nothing; otherwise the dataset is stored under the requested or random id, replacing only that id, and its counts are returned |
| NativeRegistry.InventoryModule.GetLanguages | android/app/src/main/java/com/inventorybenchmark/inventory/InventoryModule.kt:77-87 | A missing id or unknown dataset is rejected; otherwise the dataset's languages are returned in ascending order |
| NativeRegistry.InventoryModule.GetFormats | android/app/src/main/java/com/inventorybenchmark/inventory/InventoryModule.kt:89-101 | Rejections as above; otherwise the language's formats in ascending order, none for an unknown language |
| NativeRegistry.InventoryModule.GetDates | android/app/src/main/java/com/inventorybenchmark/inventory/InventoryModule.kt:103-116 | Rejections as above; otherwise the pair's dates in ascending order, none for an unknown pair |
| NativeRegistry.InventoryModule.GetInventoryFor | android/app/src/main/java/com/inventorybenchmark/inventory/InventoryModule.kt:118-188 | Rejections as above; otherwise the day's slice of the stored tree |
| NativeRegistry.InventoryModule.DestroyDataset | android/app/src/main/java/com/inventorybenchmark/inventory/InventoryModule.kt:190-198 | A missing id is rejected; otherwise that id alone is removed, and an unknown id is not an error |
| JsRng.RndMixesSkip | src/utils/inventoryUtils.ts:44-50 | Draw k mixes the counter after k + 1 additions of 0x6d2b79f5 |
| JsRng.RandIntInRange | src/utils/inventoryUtils.ts:51-52 | `randInt(min, max)` lies in [min, max] when min <= max |
| JsRng.PickInRange | src/utils/inventoryUtils.ts:53 | `pick` of a non-empty array gives an index of it |
| JsRng.SignedBounds | src/utils/inventoryUtils.ts:181 | `rnd() * 2 - 1` lies in [-1, 1) |
| JsRng.Mulberry.constructor | src/utils/inventoryUtils.ts:44 | The generator starts at `seed >>> 0` with no draws taken |
| JsRng.Mulberry.Next | src/utils/inventoryUtils.ts:45-50 | `rnd()` is draw number `draws` of the starting counter, and advances by one draw |
| JsRng.Mulberry.RandInt | src/utils/inventoryUtils.ts:51-52 | `randInt` takes one draw and lands in [min, max] when min <= max |
| JsRng.Mulberry.Pick | src/utils/inventoryUtils.ts:53 | `pick` takes one draw and gives an index of the array |
| JsGen.JsLanguage | src/utils/inventoryUtils.ts:77-80 | Language i has the pool code for i < 10 and `l<i+1>` after |
| JsGen.JsFormat | src/utils/inventoryUtils.ts:84-96 | Format fi of language li has the rotated pool code, or `f<fi+1>` when more than five are asked for, and the rotated pool name |
| JsGen.CodesAgreeWithNative | src/utils/inventoryUtils.ts:77-97 | Both generators give every language and format the same code |
| JsGen.JsCinemaIds | src/utils/inventoryUtils.ts:109-122 | Cinema i is keyed `cin_<i+1>` padded, its city comes from the pool, and the keys differ, so `cinemas` keeps every cinema |
| JsGen.BuildJsCinemas | src/utils/inventoryUtils.ts:109-122 | The cinema loop takes three draws per cinema and gives the specified cinemas |
| JsGen.JsDateListEmpty | src/utils/inventoryUtils.ts:125-130 | The date list is empty exactly when a date does not parse or the end is before the start |
| JsGen.JsGap | src/utils/inventoryUtils.ts:137-141 | The gap is at least 60, the window split into n + 1 parts otherwise, and Infinity when n = -1 |
| JsGen.JsShowTimesShape | src/utils/inventoryUtils.ts:143-158 | `mkShowTimes` gives distinct times, at most n, at least one when n >= 1, exactly the drawn ones, in the order of first appearance |
| JsGen.JsShowTimesInWindow | src/utils/inventoryUtils.ts:143-158 | Inside a window within 00:00..99:59 every time is `HH:mm` and reads back as a minute of the window |
| JsGen.MkShowTimes | src/utils/inventoryUtils.ts:143-158 | The loop takes one draw per show and returns the specified times |
| JsGen.JsRoundTo5 | src/utils/inventoryUtils.ts:182-183 | `Math.round(v / 5) * 5` is a multiple of 5 |
| JsGen.JsSeatClassesConserve | src/utils/inventoryUtils.ts:209-233 | The seat classes share out all available seats, none negative, prices multiples of 5, silver at the show price |
| JsGen.Sanitize | src/utils/inventoryUtils.ts:186-189 | `.replace(/[^a-zA-Z0-9_]/g, '')` keeps only identifier characters and never lengthens |
| JsGen.SanitizeClean | src/utils/inventoryUtils.ts:186-189 | Text of identifier characters is left unchanged |
| JsGen.ShowIdShape | src/utils/inventoryUtils.ts:185-189 | Every show id starts with `show_`, holds only [A-Za-z0-9_], and sanitising it again changes nothing |
| JsGen.ShowRowProperties | src/utils/inventoryUtils.ts:176-233 | One row: capacity in [min, max], availability in [floor(cap × 0.2), cap], a price that is a multiple of 5, auditorium `Audi 1`..`Audi 7`, seat classes exactly when asked for and conserving seats |
| JsGen.DrawShowRow | src/utils/inventoryUtils.ts:178-190 | The four draws, in the source's order, give the specified row |
| JsItems.PushRows | src/utils/inventoryUtils.ts:176-236 | The show-time loop pushes one row per time, four draws each |
| JsItems.PushCell | src/utils/inventoryUtils.ts:175-236 | One cinema on one date: `mkShowTimes`, then its rows |
| JsItems.PushDate | src/utils/inventoryUtils.ts:174-237 | The cinema loop pushes the specified rows of one date |
| JsItems.PushFormat | src/utils/inventoryUtils.ts:173-238 | The date loop pushes the specified rows of one format |
| JsItems.PushLanguage | src/utils/inventoryUtils.ts:171-239 | The format loop pushes the specified rows of one language |
| JsItems.PushLanguages | src/utils/inventoryUtils.ts:170-240 | The language loop pushes the specified rows of the first n languages |
| JsItems.JsFormatsByLang | src/utils/inventoryUtils.ts:82-97 | `formatsByLang` maps each language code to its formats |
| JsItems.Assigned | src/utils/inventoryUtils.ts:242-250 | An object built by assignment holds exactly the keys assigned |
| JsItems.GenerateBackendInventory | src/utils/inventoryUtils.ts:42-262 | The response holds the currency, the language and format dictionaries, the cinemas and the specified rows |
| JsItemFacts.GeneratedItemsOk | src/utils/inventoryUtils.ts:169-240 | Every row has a generated language and one of its formats, a listed date, a generated cinema with its name, drawn values in range and a clean show id; its time is `HH:mm` within a sensible window |
| JsItemFacts.NoItemsWithoutDates | src/utils/inventoryUtils.ts:125-130 | An end before the start, or an unparsable date, gives no rows |
| JsItemCount.LanguageLevel | src/utils/inventoryUtils.ts:169-236 | The four nested loops push exactly the rows, and leave the generator at exactly the draw, of one loop over the (language, format, date, cinema) cells taken in nesting order |
| JsItemCount.CellsCount | src/utils/inventoryUtils.ts:170-174 | There are languages × formats per language × dates × cinemas cells |
| JsItemCount.CellsAt | src/utils/inventoryUtils.ts:170-174 | Cell (language li, format fi, date dj, cinema cj) is at the mixed-radix position of (li, fi, dj, cj): languages outermost, cinemas innermost |
| JsItemCount.ShowCountSum | src/utils/inventoryUtils.ts:175-176 | The rows pushed by the first i cells number the sum of `showTimes.length` over those cells |
| JsItemCount.ItemCount | src/utils/inventoryUtils.ts:169-236 | `items.length` is the sum of `showTimes.length` over every cell |
| JsItemCount.CellItems | src/utils/inventoryUtils.ts:175-234 | The rows of cell i are a contiguous block of `items`, after the rows of every earlier cell: one row per time `mkShowTimes` gave that cell, in that order, drawn after those times |
| JsReduce.CinemaNameOf | src/utils/inventoryUtils.ts:268-269 | `cinemaNameOf` is the dictionary name, else the item's own name, else the id |
| JsReduce.BuildInventoryMap | src/utils/inventoryUtils.ts:265-296 | The loop folds the items in order into the specified tree, which has no empty level |
| JsReduce.ReducedEntries | src/utils/inventoryUtils.ts:271-293 | The tree holds exactly one entry per distinct item key |
| JsReduce.ReducedEntriesBound | src/utils/inventoryUtils.ts:288-292 | There are never more entries than items: a repeated key overwrites |
| JsReduce.LastItemWins | src/utils/inventoryUtils.ts:288-292 | An item no later item shares a key with has its price, seats and seat classes in the tree |
| JsReduce.FirstItemNames | src/utils/inventoryUtils.ts:281-286 | A cinema node keeps the name chosen when its first item arrived |
| JsReduce.ReducedPruned | src/utils/inventoryUtils.ts:278-288 | The folded tree has no empty level |
| JsReduce.KeyOrderSpec | src/utils/inventoryUtils.ts:271-286 | The `Object.keys` order of every level, where the fold appends a key when `!map[k]` finds it missing, is the first-occurrence de-duplication of the keys the items name there, and holds exactly that level's keys of the tree |
| JsReduce.KeyOrderFirstAppearance | src/utils/inventoryUtils.ts:271-286 | Each level lists each of its keys once, in the order the items first name them |
| Booking.TourTableSpec | src/utils/bookingInventoryProcessor.ts:72-84 | `tourIdsInfoMap[t]` exists exactly for the tours of some variant, and lists those variants in order (repeats included) |
| Booking.VariantsWithMembers | src/utils/bookingInventoryProcessor.ts:74-82 | A variant is listed for tour t exactly when it has a tour with id t |
| Booking.VariantTableSpec | src/utils/bookingInventoryProcessor.ts:73 | `variantIdToVariantMap` holds every variant id, mapped to the last variant with that id |
| Booking.FileUnder | src/utils/bookingInventoryProcessor.ts:89-241 | Filing under one variant changes only that variant's entry for the availability's tour, by one tour step |
| Booking.FileAllViews | src/utils/bookingInventoryProcessor.ts:86-244 | After the loop each variant and tour holds the entry built from what was filed there |
| Booking.FileAllFails | src/utils/bookingInventoryProcessor.ts:87-88 | The loop throws exactly when some availability's tour is in no variant |
| Booking.FiledTour | src/utils/bookingInventoryProcessor.ts:89-241 | Everything filed under a tour belongs to that tour and to the input |
| Booking.TourOfDates | src/utils/bookingInventoryProcessor.ts:137-214 | A tour entry keeps its tour id and holds a date entry for exactly the start dates filed, each built from that date's availabilities |
| Booking.DateOfMin | src/utils/bookingInventoryProcessor.ts:96-136 | `minPricedAvailability` is one of the date's availabilities, no dearer than any, and every later one is strictly dearer |
| Booking.DateOfSlotKeys | src/utils/bookingInventoryProcessor.ts:96-151 | A date's time slots are exactly the start times filed |
| Booking.DateOfSlotValues | src/utils/bookingInventoryProcessor.ts:96-151 | Each time slot holds one availability, the last one filed at that time |
| Booking.TourOfSpan | src/utils/bookingInventoryProcessor.ts:155-187 | When every start date is a valid date, `firstAvailableDate` and `lastAvailableDate` are the earliest and latest of them |
| Booking.ProcessViews | src/utils/bookingInventoryProcessor.ts:63-256 | Each variant and tour of the result holds the entry built from its filed availabilities, present exactly when something was filed |
| Booking.EveryAvailabilityFiled | src/utils/bookingInventoryProcessor.ts:86-244 | Every availability appears under every variant of its tour, by its start date |
| Booking.ProcessFails | src/utils/bookingInventoryProcessor.ts:86-88 | `processInventory` throws exactly when an availability's tour belongs to no variant |
| Booking.AddVariantTours | src/utils/bookingInventoryProcessor.ts:74-83 | The tour loop of one variant builds the specified tour table |
| Booking.FileAvailability | src/utils/bookingInventoryProcessor.ts:89-242 | The variant loop files one availability under each variant id in turn |
| Booking.ProcessInventory | src/utils/bookingInventoryProcessor.ts:63-256 | The whole method computes the specified result or throws |
| Fixtures.AvailabilitiesOutcome | generate_inventory.py:16-49 | A bound `strptime` rejects fails; a range reaching 9999-12-31 overflows; otherwise there is one record per day, slot, tour and vendor |
| Fixtures.GeneratedCount | generate_inventory.py:27-49 | One record per day, slot, tour and vendor; none when either range is empty |
| Fixtures.GeneratedAt | generate_inventory.py:27-49 | Records run date by date, then slot by slot, tour by tour, vendor by vendor: each sits at its mixed-radix index |
| Fixtures.GeneratedInWindow | generate_inventory.py:31-46 | Every record's date is in the range, its start is on the 15-minute grid of the window, it ends three hours later on the clock, and it names a given tour and vendor at price 100 |
| Fixtures.GenerateAvailabilities | generate_inventory.py:5-49 | The method parses the four bounds and runs the day loop to the specified result |
| Fixtures.EnumerateDays | generate_inventory.py:27-49 | The day loop appends each day's records and overflows after 9999-12-31 |
| Fixtures.AppendDay | generate_inventory.py:31-48 | The slot loop appends one block per 15-minute slot |
| CleanInventory.ShiftOf | clean_inventory.py:11-13 | Both bounds must parse; the shift is the day distance between them |
| CleanInventory.ShiftTree | clean_inventory.py:23-39 | The dict and list loops compute the specified document |
| CleanInventory.ShiftDates | clean_inventory.py:10-39 | The whole function fails on an unparsable bound, else returns the shifted document |
| CleanInventory.UpdateDateMeaning | clean_inventory.py:15-21 | A string `strptime` rejects, or one shifted out of years 1 to 9999, is kept; any other becomes the printed date exactly `days` later |
| CleanInventory.UpdateDateInverse | clean_inventory.py:15-21 | Shifting a canonical date forward and back gives it back |
| CleanInventory.OldStartAgrees | clean_inventory.py:25-30 | The special case for `old_start` agrees with the general rule when `new_start` is in canonical form |
| CleanInventory.ShiftedSameShape | clean_inventory.py:23-39 | Only strings change: keys, order, lengths, numbers, booleans and nulls stay |
| CleanInventory.ShiftedAt | clean_inventory.py:23-38 | Every value below the top is rewritten by its container's rule |

## Left out

- Platform I/O is not modelled: the React Native promise and `Arguments` maps,
  `console.log`, `json.load` / `json.dump`, file names and `print`.
- Clocks are not modelled: `SystemClock` timings,
  `new Date().toISOString()` (`lastUpdatedIso`, `generatedAtIso`),
  `datetime.now()` and the processing start time of `processInventory`.
- NativeRegistry.InventoryModule.GenerateAndIndex: the random dataset id
  (`Random.nextInt()`) is a parameter. The timings are not stored. Reading the
  parameters from a `ReadableMap` with defaults is not part of this model.
- Floating point is modelled as exact reals. This covers prices, jitter and
  `rnd()` divided by 2^32. Four products are assumed to floor as in exact
  arithmetic: `avail * 0.5`, `avail * 0.3`, `cap * 0.2` and, in the
  JavaScript `mkShowTimes`, `Math.floor(gap * 0.6)`. The last is modelled as
  the integer `(gap * 6) / 10` that the Kotlin generator computes.
- NativeGen.SeatClassesOf: the gold and platinum prices round the exact
  products `price * 1.15` and `price * 1.30`, where Kotlin rounds the double
  product. For prices below 10^12 the two differ only when the exact quotient
  by 5 is halfway between two integers. For example, at price 50 the double `50 * 1.15` is
  57.49999999999999, so Kotlin gives gold 55 and the model gives 60.
- NativeGen.DrawShow: its specified show uses NativeGen.SeatClassesOf, so it
  inherits the difference above at such prices.
- JsGen.JsSeatClassesOf: `Math.round((price * 1.15) / 5) * 5` and the 1.3
  product are taken exactly, so at price 50 the model gives gold 60 where
  JavaScript gives 55, as above.
- JsGen.DrawShowRow: its specified row uses JsGen.JsSeatClassesOf, so it
  inherits that difference.
- JsReduce.BuildInventoryMap: the tree it returns is a map and carries no key
  order. The order of `Object.keys` at each level is stated beside it by
  `KeyOrder`. JavaScript lists keys that look like array indices ("7") first,
  in numeric order, and that is not modelled.
- JsReduce.Reduced: keys naming `Object.prototype` members are not modelled.
  For example, `!map["constructor"]` finds the inherited function, and
  `cinemas?.["toString"]?.name` is "toString". Generated codes, dates and
  cinema ids never take such names or look like array indices.
- 32-bit `Int` overflow in the native generator is not modelled. This covers
  `max - min + 1`, `cur += gap`, `itemCount` and the price product.
  JavaScript numbers beyond 2^53 are not modelled either.
- JsItems.GenerateBackendInventory: the mulberry32 counter `s` is a JavaScript
  number, so `s += 0x6d2b79f5` is exact only while `s` stays below 2^53. That
  holds for about 4.9 million draws from a seed below 2^32. A run takes
  3 draws per cinema and then, for every (language, format, date, cinema)
  cell, `showsPerCinemaPerDay` draws plus 4 per show time (the cell sums of
  JsItemCount.ItemCount). The contract is stated for every input, so it
  claims exact counter arithmetic past that bound too.
- JsItems.GenerateBackendInventory: the default arguments (seed 42, currency
  `'INR'`, base price 200, jitter 0.2, seats 60 to 180, window `09:00` to
  `23:00`, no seat classes) are not applied. `JsParams` carries every field
  explicitly, as the native `ReadableMap` defaults are left out above.
- NativeGen.BuildDateList: the model's calendar is proleptic Gregorian, while
  Java's `SimpleDateFormat` works on a `GregorianCalendar`, which is Julian
  before 1582-10-15. For dates from 1582-10-15 on the two agree. Before that
  they differ: from "1582-10-04" to "1582-10-15" Kotlin makes one
  86 400 000 ms step and lists two dates, where the model lists twelve.
- NativeGen.DateListErrors: the error messages are not modelled, only which
  check failed. `SimpleDateFormat.parse` throws a `ParseException`
  ("Unparseable date: ...") on an unparsable bound and never returns null, so
  the `?: error("Invalid dateStart")` and `?: error("Invalid dateEnd")`
  fallbacks at InventoryModule.kt:468-469 are never reached.
- NativeGen.DateListErrors: for the same reason as above, a date that exists only in
  the Julian calendar, such as "1500-02-29", is accepted by Kotlin and
  reported by the model as invalid.
- Ordering.Lower: it lowercases ASCII letters only. Kotlin's
  `lowercase(Locale.ROOT)` also maps other letters, and some, such as
  U+0130, to two characters. The generated cinema names are ASCII, so the
  cinema order is unaffected.
- Calendar.ParseIso: it accepts exactly `DDDD-DD-DD` naming a real date.
  `SimpleDateFormat.parse` and `dayjs` also accept unpadded fields and ignore
  trailing text. The model reports those inputs as invalid.
- Calendar.Iso: it pads years below 1000 to four digits. Python's
  `strftime("%Y")` does not pad them on glibc, so `update_date` results for
  such years are not modelled faithfully.
- Fixtures.Generated: for a range starting before year 1000 (a `startDate`
  such as "0999-01-01", which `%Y` accepts), Python's
  `strftime("%Y-%m-%d")` prints "999-01-01" where the model prints the
  padded "0999-01-01".
- Fixtures.GeneratedAt: for the same years its `startDate` is the padded
  form, where generate_inventory.py:34 prints the unpadded one.
- Fixtures.GeneratedInWindow: for the same years it claims that each
  `startDate` reads back with `%Y-%m-%d`. Python's unpadded "999-01-01" does
  not, because `%Y` takes four digits.
- PyDateTime.ParseDate: `%Y` takes exactly four digits and `\d` ASCII digits
  only. Non-ASCII digits and locale effects are left out.
- PyDateTime.ParseTime: `%H`, `%M` and `%S` accept ASCII digits only. Python's
  `\d` and `int()` also accept other Unicode decimal digits, such as
  Arabic-Indic "٠٩:٠٠:٠٠"; the model rejects those times.
- TimeOfDay.ToIntOrNull: it reads ASCII digits only. Kotlin's `toIntOrNull`
  reads any Unicode decimal digit through `Character.digit`, so
  `parseMinutes("٠٩:٠٠")` is 540 in Kotlin and 0 in the model. The generator's
  own times are ASCII; only a caller-supplied show window can differ.
- Ordering.Lt: it compares characters as Unicode scalar values. Kotlin's
  `String.compareTo` and the default JavaScript sort compare UTF-16 code
  units, which order a character above U+FFFF below one in U+E000..U+FFFF.
  Every generated key is ASCII, where the two orders agree.
- The JavaScript date list: `dayjs` parsing and `diff` are modelled by the same
  strict parser and day numbers as the native generator.
- The JavaScript parameters carry the show window in minutes. The
  `split(':').map(Number)` of `showtimeWindow` is not part of this model.
- The native generator's exact RNG state after the nested generation loops is
  not stated. `MakeShowTimes`, `DrawShow` and `BuildCinemas` pin it draw by
  draw; the loops below promise only a valid generator and the tree's shape,
  counts and per-show guarantees.
- NativeFill.FillShows: the RNG state and the drawn prices and seats after the
  show loop are not pinned to the seed.
- NativeFill.FillDate: the RNG state and drawn values after the cinema loop are
  not pinned to the seed.
- NativeFill.FillFormat: the RNG state and drawn values after the date loop are
  not pinned to the seed.
- NativeFill.FillLanguage: the RNG state and drawn values after the format loop
  are not pinned to the seed.
- NativeGenerate.FillAll: the RNG state and drawn values after the language
  loop are not pinned to the seed.
- NativeGenerate.GenerateAndReduce: the tree's drawn prices and seats are only
  range-bounded, not pinned to the seed.
- In the booking processor, `getPriceFromPriceProfile` and `dayjs(startDate)` are
  parameters, because their code is not part of this model. Variant ids are
  kept as numbers rather than the template strings the source pushes.
- CleanInventory.ShiftTree rewrites a value. The in-place update of the
  decoded dict or list, and aliasing between shared sub-documents, are not
  modelled. `json.load`'s number types are collapsed into one real kind.
- The booking processor's elapsed processing time is only logged with
  `console.log`; that log is left out with the other I/O.
