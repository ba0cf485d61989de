# spoty launcher core, modelled in Dafny

spoty is a keyboard launcher for Linux desktops. A frameless window shows a
search box. The renderer sends every query to the main process. The main
process's `search` handler answers with a list of result items. The renderer
shows that list and acts on the keyboard: Enter, the arrows, Tab and
Ctrl/Cmd+digit choose an item, and executing an item launches it, runs it or
copies it.

The model covers these parts:

- **`search` handler** (`main.js`). The steps run in the handler's order:
  - the weather short-circuit;
  - the alias lookup;
  - the exclusive branches: `>` shell line, `g `/`? ` web search, system
    command, calculator and clipboard history;
  - the last branch: the unit, temperature and currency converter, then the
    fallback of at most 5 applications, 3 bookmarks and 3 files;
  - the final cap `slice(0, maxResults)`.

  `Search.Resolve` states all of this as one function of the query, the
  configuration, the environment's answers, the clipboard history and the rate
  cache. `Search.Launcher.Search` runs it step by step over the launcher's
  state and is proved equal to it.
- **Clipboard monitor.** A history of at most 20 entries, newest first, with no
  text twice (`Clipboard`).
- **Exchange-rate cache.** Rates live for one hour. A failed fetch keeps the
  old table (`ExchangeRates`).
- **Converter's regular expression.** It is modelled as maximal character runs.
  A proof shows the regular expression can split a query in only one way
  (`Converter`).
- **Applications, bookmarks, files and icons** (`Sources`):
  - application search reads desktop entries from two directories;
  - bookmark search walks Chromium-family bookmark trees and removes repeated
    URLs;
  - file search looks in three home folders;
  - icon lookup tries three directories and four extensions.

  Each is a function of a filesystem snapshot, and each loop is a method proved
  against that function.
- **Renderer** (`src/renderer.js`). Key handling, selection, the
  empty-query gate and the state resets are modelled in the
  `Renderer.ResultView` class. Its methods are proved against the pure key
  transition `Renderer.KeyStep`.

The JavaScript string operations the code relies on live in `Text` and
`UriEncoding`:

- `\s`, `trim`, `toLowerCase` and `toUpperCase`;
- UTF-16 `length`, `includes` and `encodeURIComponent`.

The result items live in `Items`.

Web-search, bookmark, system-command, alias and weather items are inert in the
renderer. `executeItem` has no case for the types `web`, `syscommand`, `alias`
or `weather`. `Renderer.ExecuteItem` is `None` on them, as the code is.

## Model

| member | source | states |
|---|---|---|
| Text.ToLower | main.js:487 | lower-casing maps each character through the letter case table and keeps the length (see "Left out" for what `toLowerCase` does beyond the table) |
| Text.ToLowerIdempotent | main.js:487-488 | lower-casing an already lower-cased query changes nothing |
| Text.ToUpper | main.js:471 | upper-casing maps each character through the letter case table and keeps the length (see "Left out" for what `toUpperCase` does beyond the table) |
| Text.Utf16Length | main.js:271 | a query's `length` is between its character count and twice that |
| Text.RunEnd | main.js:561 | a maximal run of a character class: everything before the end is in the class, the end is not, and a run to the end of the string ends there |
| Text.RunEndUnique | main.js:561 | any boundary with the two run properties is the run's end |
| Text.RunEndCovers | main.js:561 | a run reaches at least as far as any stretch of the class from its start |
| Text.TrimStart | main.js:463 | the front half of `trim`: it removes only whitespace from the front and leaves a non-space first character |
| Text.TrimEnd | main.js:498 | the back half of `trim`: it removes only whitespace from the back and leaves a non-space last character |
| Text.Trim | main.js:510 | `trim` gives a slice of the input with only whitespace cut at both ends, non-space at both ends of the result, and it is empty exactly when the input is all whitespace |
| Text.TrimPieces | main.js:463 | after both halves of `trim`, the result sits in the input between a whitespace prefix and a whitespace suffix |
| Text.TrimBlank | main.js:499 | the trimmed command is empty exactly when the rest of the query is all whitespace |
| Text.TrimDropsLeadingSpaces | main.js:461-463 | whitespace in front of a string does not change what `trim` gives |
| Text.TrimStartDropsSpaces | main.js:461-463 | whitespace in front of a string does not change what the front half of `trim` gives |
| Text.BlankTrimsStart | main.js:499 | an all-whitespace string trims to nothing |
| UriEncoding.HexDigit | main.js:515 | a nibble becomes an upper-case hexadecimal digit |
| UriEncoding.Escape | main.js:515 | one byte becomes a `%XX` triple of upper-case hex digits |
| UriEncoding.Utf8 | main.js:515 | a character encodes to 1 to 4 bytes, each below 256, and to one byte exactly when it is ASCII |
| UriEncoding.EscapeAll | main.js:515 | escaping `n` bytes gives `3n` URI-safe characters |
| UriEncoding.EncodeChar | main.js:515 | unreserved characters pass through; every other character becomes `%`-escapes; the output is URI-safe |
| UriEncoding.EncodeUriComponent | main.js:515 | `encodeURIComponent` outputs only URI-safe characters and never shortens its input |
| UriEncoding.EncodeUnreservedIdentity | main.js:515 | a query made only of unreserved characters is put into the search URL unchanged |
| UriEncoding.EncodeAppend | main.js:515 | encoding distributes over concatenation |
| Clipboard.Captured | main.js:207-215 | an empty or already-present text leaves the history alone; a new text goes to the head and the history grows by one up to 20 |
| Clipboard.CapturedWellFormed | main.js:208-215 | a poll keeps the history at most 20 long, without repeats and without empty texts |
| Clipboard.CapturedContainsText | main.js:208-212 | after a poll with a non-empty text the history holds it, and it is at the head exactly when it was new or already first |
| Clipboard.CapturedIdempotent | main.js:208 | polling the same text twice is polling it once |
| Clipboard.ClipboardHistory.constructor | main.js:11 | the history starts empty |
| Clipboard.ClipboardHistory.Includes | main.js:208 | the loop finds the text exactly when some entry holds it |
| Clipboard.ClipboardHistory.Poll | main.js:206-216 | one tick of the monitor replaces the history by `Captured` of it and keeps the invariant |
| ExchangeRates.Fetch | main.js:114-130 | it fetches exactly when there is no table or the table is an hour old; only a body with `rates` replaces the table and stamps it; it returns the table it ends with |
| ExchangeRates.FreshServedWithoutFetch | main.js:116-118 | a table younger than an hour is returned without a fetch and nothing changes |
| ExchangeRates.FailedFetchKeepsSnapshot | main.js:122-128 | a throwing fetch or a body without `rates` keeps the old table and returns it |
| ExchangeRates.SuccessfulFetchStamps | main.js:122-125 | a successful fetch stores the new table with the current time |
| ExchangeRates.SnapshotNeverLost | main.js:122-125 | once a table is held, no sequence of calls loses it |
| ExchangeRates.NoRefetchWithinHour | main.js:116-117 | calls within the hour after a fetch change nothing |
| ExchangeRates.TimestampNotAhead | main.js:115-124 | the stamp never runs ahead of the latest call time |
| ExchangeRates.RateCache.constructor | main.js:14-15 | the cache starts with no table and time 0 |
| ExchangeRates.RateCache.FetchExchangeRates | main.js:114-130 | the method's new state and result are those of `Fetch` |
| Converter.KeywordChars | main.js:561 | each of `in`, `to`, `ba`, `be` in any case is two ASCII letters |
| Converter.Span | main.js:561 | the maximal run of a character class from a position: every character up to its end is in the class, and the end is the string's end or a character outside it |
| Converter.SpanUnique | main.js:561 | any boundary with those two properties is the run's end |
| Converter.GreedyCut | main.js:561 | the greedy run boundaries are ordered and within the query |
| Converter.GreedyFromRuns | main.js:561 | five boundaries that are, one after another, the maximal runs of the pattern's groups form the greedy split |
| Converter.MatchIsGreedy | main.js:561 | any split at which the pattern matches is the greedy split |
| Converter.AmountEnds | main.js:561 | in a match, the amount group is the maximal leading run of digits, dots and commas |
| Converter.FirstGapEnds | main.js:561 | in a match, the optional gap is the maximal whitespace run after the amount |
| Converter.SourceUnitEnds | main.js:561 | in a match, the source unit is the maximal letter run |
| Converter.SecondGapEnds | main.js:561 | in a match, the whitespace before the keyword is a maximal run |
| Converter.ThirdGapEnds | main.js:561 | in a match, the whitespace after the keyword is a maximal run |
| Converter.MatchConvert | main.js:561-562 | the pattern matches exactly when it matches at the greedy split, and then gives the groups of every matching split |
| Converter.OnlyGreedyCutMatches | main.js:561 | the pattern can match a query at only one split |
| Converter.GreedyShapeMatches | main.js:561 | matching at the greedy split is the same as that split having the pattern's shape |
| Converter.IndexOf | main.js:563 | the first position of a character, or the length when the character is absent |
| Converter.ReplaceFirstComma | main.js:563 | `replace(',', '.')` changes only the first comma and keeps the string inside the amount alphabet |
| Converter.Pow10 | main.js:564 | powers of ten are positive |
| Converter.ParseFloat | main.js:564 | on the amount alphabet, `parseFloat` is NaN exactly when the string starts with neither a digit nor a dot followed by a digit |
| Converter.ParseFloatDecimal | main.js:563-564 | `parseFloat` reads `whole.frac` followed by anything from a comma on as that decimal |
| Converter.ParseFloatInteger | main.js:563-564 | `parseFloat` reads a whole number followed by nothing or by a comma part as that number |
| Converter.TemperatureConversion | main.js:572-574 | a temperature result exists exactly for `c` to `f` and `f` to `c` |
| Converter.TemperatureRoundTrip | main.js:572-573 | converting C to F and back, or F to C and back, gives the amount |
| Converter.UnitTablePositive | main.js:584-588 | every unit factor is positive |
| Converter.UnitConversion | main.js:584-593 | a unit result exists exactly when both units are in the table |
| Converter.UnitRoundTrip | main.js:593 | converting between two units and back gives the amount |
| Converter.UnitComposition | main.js:593 | converting through an intermediate unit is converting directly |
| Converter.CurrencyConversion | main.js:600-603 | a currency result exists exactly when both upper-cased codes have a rate |
| Converter.CurrencyComposition | main.js:602-603 | converting through an intermediate currency is converting directly |
| Converter.Convert | main.js:568-611 | temperature wins and leaves the rate cache alone; otherwise the cache is consulted, then the unit table, then the currency rates decide the item |
| Converter.ConverterStep | main.js:561-613 | an item comes only from a matching query and is a calc item; a non-matching query changes nothing; the cache is either unchanged or the result of one fetch |
| Converter.ConverterDispatch | main.js:561-566 | a matching query with a readable amount is converted from its groups, units lower-cased |
| Converter.UnreadableAmountIgnored | main.js:564-568 | a matching query whose amount is NaN yields nothing and leaves the cache alone |
| Converter.InheritedUnitConverts | main.js:584-593 | the query `5 constructor to m` matches and passes the unit test as written, while the corrected unit table has no such unit |
| Converter.ConstructorQueryGroups | main.js:561-566 | the groups of `5 constructor to m` are `5`, `constructor` and `m` |
| Converter.ConstructorQueryMatches | main.js:561 | `5 constructor to m` matches the pattern at its natural split |
| Converter.ConstructorNotInTable | main.js:584-593 | `constructor` is not a unit, so the corrected conversion yields nothing |
| Sources.JoinPath | main.js:244 | `path.join` starts with the directory and ends with the name |
| Sources.LineAt | main.js:236 | a line holds no line terminator |
| Sources.NoLineStartInside | main.js:236 | no line starts strictly inside a line |
| Sources.ValueFrom | main.js:236-238 | the value of the first `key=` line with a non-empty value from a position on, or none when there is none |
| Sources.Value | main.js:236-238 | `content.match(/^Key=(.+)$/m)?.[1]` is none exactly when no line carries the key with a value |
| Sources.DesktopEntry | main.js:234-248 | a desktop file gives an app exactly when it has a `Name=` line; its name is the `Name=` value, its icon the `Icon=` value or `application` when there is none, and its description the `Comment=` value or the empty string when there is none |
| Sources.EntryApps | main.js:231-252 | a `.desktop` file with a readable body and a name gives one app, anything else none |
| Sources.DirApps | main.js:231-252 | every app of a directory comes from a desktop entry |
| Sources.DirAppsComplete | main.js:231-252 | every app of a directory's entry is in the directory's list |
| Sources.AllApps | main.js:228-256 | every app of the two directories comes from a desktop entry |
| Sources.AllAppsComplete | main.js:228-256 | every app of every readable directory's entry is listed |
| Sources.Applications | main.js:220-256 | the collected apps all come from desktop entries |
| Sources.ScanDirectory | main.js:231-252 | the loop over one directory's files gives `DirApps` |
| Sources.ScanApplications | main.js:220-256 | the loops over both directories give `Applications` |
| Sources.Ranked | main.js:258-264 | the fuzzy matcher's picks are apps of the list |
| Sources.SearchApplications | main.js:220-267 | an empty query gets all apps in scan order; every result comes from a desktop entry |
| Sources.Walk | main.js:282-297 | every item `extractUrls` pushes is a web item with a name and a URL, one of which contains the query ignoring case |
| Sources.WalkAll | main.js:292-296 | the children's hits, in order, stop at the first throw |
| Sources.WalkFindsHits | main.js:282-297 | the walk pushes the subtree's hits in depth-first order up to the first URL `new URL` rejects; it returns normally exactly when there is no such URL, and then it has pushed every hit |
| Sources.WalkAllFindsHits | main.js:292-296 | the same for a list of siblings: a prefix of their hits, all of them when no URL is rejected |
| Sources.FileBookmarks | main.js:302-308 | one bookmark file contributes only matching bookmarks |
| Sources.Collected | main.js:299-313 | the files in order contribute only matching bookmarks |
| Sources.FirstOccurrences | main.js:315-323 | deduplication keeps a sub-list of the input |
| Sources.FirstOccurrencesDistinct | main.js:315-323 | deduplication loses no URL and keeps no URL twice |
| Sources.FirstOccurrencesKept | main.js:318-322 | the first item with each URL is kept |
| Sources.FirstWithUrlUnseen | main.js:319 | an item is the first with its URL exactly when its URL is not among the earlier ones |
| Sources.UrlsSnoc | main.js:320 | appending an item adds its URL to the set of URLs |
| Sources.DedupByUrl | main.js:315-325 | the loop with the `Set` of seen URLs gives the first occurrences |
| Sources.Bookmarks | main.js:270-326 | nothing when disabled or shorter than 2 UTF-16 units; otherwise only matching bookmarks |
| Sources.BookmarksDistinct | main.js:315-325 | the bookmark results carry each URL found exactly once |
| Sources.SearchBookmarks | main.js:270-326 | the method gives `Bookmarks` |
| Sources.FolderHits | main.js:341-351 | every hit of a folder is a file of the listing whose lower-cased name contains the query, with its joined path and folder |
| Sources.FolderHitsComplete | main.js:342-350 | every matching entry of a listing is a hit |
| Sources.AllFolderHits | main.js:339-355 | every hit is a file whose name contains the query |
| Sources.Files | main.js:328-358 | nothing when disabled or shorter than 3 UTF-16 units; otherwise only files whose names contain the query |
| Sources.ScanFolder | main.js:342-351 | the inner loop gives `FolderHits` |
| Sources.SearchFiles | main.js:328-358 | the loops give `Files` |
| Sources.IconCandidates | main.js:363-371 | the 12 candidate paths, directory-major, extension-minor |
| Sources.FirstReadable | main.js:369-381 | the first readable candidate, or none exactly when none is readable |
| Sources.FirstReadableIs | main.js:369-378 | a readable candidate with no readable one before it is the answer |
| Sources.IconPath | main.js:360-382 | an empty name gives none; otherwise the answer is the first readable candidate in directory-then-extension order, and none exactly when no candidate is readable |
| Sources.GetIconPath | main.js:360-382 | the nested loops give `IconPath` |
| Search.WeatherKeyword | main.js:461 | the keyword `időjárás` or `weather`, in any letter case, lies within the query |
| Search.WeatherCity | main.js:461-463 | there is a city exactly when the weather pattern matches, and it is the trimmed group of every match |
| Search.GroupsAgree | main.js:461-463 | every possible start of the group lies in the whitespace after the keyword and trims to the same city |
| Search.GroupAtRunEnd | main.js:461 | the group can start where the whitespace ends when no line break follows |
| Search.GroupAtLast | main.js:461 | backtracking lets the group be the last character |
| Search.NoGroupInBlank | main.js:461 | with nothing left for the group, the pattern does not match |
| Search.GroupsTrimAlike | main.js:463 | starting the group anywhere in the whitespace gives the same trimmed city |
| Search.LineBreakInGroup | main.js:461 | a line break after the whitespace stops every match |
| Search.Capitalized | main.js:471 | the city with its first character upper-cased and the rest unchanged |
| Search.WeatherAnswer | main.js:461-483 | an item exactly when the pattern matches and the lookup succeeded, and then the weather item for the capitalized city with the report |
| Search.SysAction | main.js:521-527 | each system token maps to its name and command |
| Search.IsArithmetic | main.js:537 | a query the calculator accepts is non-empty, holds no letter, and never starts a shell line or a web search |
| Search.BranchOf | main.js:497-558 | the branch taken: a `>` query is always a shell line; every other branch is taken only when its switch is on and its test passes; an arithmetic query reaches the calculator and `clip` the history whenever those are switched on |
| Search.AliasItems | main.js:486-495 | at most one alias item, present exactly when the lower-cased query is a configured alias |
| Search.UpperCaseAliasUnreachable | main.js:487-488 | an alias key with an upper-case letter is never hit |
| Search.InheritedKeyAliasHit | main.js:488 | with no aliases, the query `constructor` passes the test as written but gets no item from the corrected test |
| Search.BranchItems | main.js:497-548 | the shell, web, system and calculator branches each add one item exactly when their trimmed remainder is non-empty or the evaluation is finite |
| Search.ShellIgnoresFlags | main.js:497-509 | a `>` query goes to the shell branch whatever the flags |
| Search.EmptyRemainderAddsNothing | main.js:497-519 | a blank command or web query adds nothing after the alias |
| Search.ClipName | main.js:554 | the clipboard item name is the first 50 characters, or the whole text when it is shorter |
| Search.ClipItems | main.js:551-557 | one clipboard item per history entry, in order |
| Search.ClipReturnsHistory | main.js:550-557 | the `clip` query returns the whole history, uncapped |
| Search.Take | main.js:622-624 | `slice(0, n)` is the first `n` items, or the whole list when it is shorter |
| Search.Slice | main.js:628 | `slice(0, m)` is a prefix; a negative `m` drops from the end |
| Search.MergeOrdered | main.js:621-624 | apps, then bookmarks, then files, ordered by source |
| Search.TakenMerge | main.js:622-624 | the sliced merge is ordered by source and holds only the three kinds |
| Search.FallbackItems | main.js:615-625 | at most 11 items |
| Search.FallbackShape | main.js:615-625 | the fallback is ordered apps, bookmarks, files, and holds nothing but apps from desktop entries, matching bookmarks and files whose names contain the query |
| Search.FromSource | main.js:622-624 | the items of one source taken out of a list, each of that source |
| Search.FallbackBySource | main.js:617-624 | the fallback's apps are the first 5 the app search found, its bookmarks the first 3 the bookmark search found and its files the first 3 the file search found, each in its source's order |
| Search.SplitBySource | main.js:622-624 | a merge of apps, bookmarks and files falls apart into its three parts again |
| Search.FallbackIfEmpty | main.js:616 | the fallback replaces an empty list for a non-empty query and otherwise nothing changes |
| Search.FallbackOnlyWhenNothingFound | main.js:616 | with an alias, a conversion or an empty query, no fallback item appears |
| Search.FallbackWhenNothingFound | main.js:616-625 | with no alias and no conversion, a non-empty query gets exactly the fallback |
| Search.AliasSuppressesFallback | main.js:488-625 | an alias hit in the last branch gives the alias item followed by exactly the conversion's item, when there is one |
| Search.Gathered | main.js:486-626 | the alias item comes first; an exclusive branch adds at most one item after it and leaves the cache alone; the last branch changes the cache only by the converter, and once an alias or a conversion is found (or the query is empty) its list is the alias item followed by exactly the conversion's item |
| Search.GatheredBranch | main.js:497-548 | in an exclusive branch the list is the alias item followed by exactly that branch's items |
| Search.Resolve | main.js:457-629 | weather answers alone; `clip` answers the history; otherwise the first `maxResults` of the gathered list, as `slice(0, maxResults)` gives them; the cache changes only in the last branch and only by one fetch |
| Search.AliasComesFirst | main.js:486-495 | with a cap of at least 1, the alias item heads the answer |
| Search.Launcher.constructor | main.js:11-45 | the launcher holds the configuration, history and cache it is given |
| Search.Launcher.RunConverter | main.js:561-613 | the method gives `ConverterStep`'s item and cache |
| Search.Launcher.RunFallback | main.js:616-625 | the method gives `FallbackItems` |
| Search.Launcher.EarlyBranch | main.js:497-548 | the exclusive branches give `Gathered` |
| Search.Launcher.Collect | main.js:486-626 | everything after the alias lookup, outside the clipboard branch, gives `Gathered`'s items and cache |
| Search.Launcher.LastBranch | main.js:559-626 | the last branch gives `Gathered`'s items and cache |
| Search.Launcher.Search | main.js:457-629 | the handler's answer and new cache are those of `Resolve` |
| Renderer.ExecuteItem | src/renderer.js:157-173 | apps and files launch their path, commands run, calc and clipboard items copy; every other type sends nothing |
| Renderer.ArrowDownIndex | src/renderer.js:205-210 | one down, stopping at the last item |
| Renderer.ArrowUpIndex | src/renderer.js:212-217 | one up, stopping at the first item |
| Renderer.TabIndex | src/renderer.js:225 | one down, wrapping to the first item |
| Renderer.ShiftTabIndex | src/renderer.js:223 | one up, wrapping to the last item |
| Renderer.TabRoundTrip | src/renderer.js:219-228 | Tab and Shift+Tab undo each other |
| Renderer.ArrowsStopAtEnds | src/renderer.js:205-217 | the arrows stop at the ends and undo each other inside |
| Renderer.TabCycles | src/renderer.js:225 | `k` Tabs from `sel` select `(sel + k) mod n` |
| Renderer.ModStep | src/renderer.js:225 | one more step advances the remainder by one or wraps it to 0 |
| Renderer.EnterTarget | src/renderer.js:197-203 | Enter picks the selected item when it is in range, otherwise the first, and nothing in an empty list |
| Renderer.DigitTarget | src/renderer.js:231-236 | Ctrl/Cmd+1..9 picks item `digit - 1` when it exists |
| Renderer.Run | src/renderer.js:157-173 | running a target sends exactly that item's action message, and sends nothing when there is no target or the item's type has no action |
| Renderer.KeyStep | src/renderer.js:187-237 | Escape clears or hides; Enter and digits execute; on a non-empty list ArrowDown, ArrowUp, Tab and Shift+Tab move the selection to the index their index functions give, and keep the list; on an empty list they do nothing |
| Renderer.DigitPastEndIgnored | src/renderer.js:231-236 | a digit past the end of the list does nothing |
| Renderer.ResultView.constructor | src/renderer.js:5-6 | no input, no results, nothing selected |
| Renderer.ResultView.SelectItem | src/renderer.js:175-185 | only the selection changes |
| Renderer.ResultView.ClearResults | src/renderer.js:246-251 | the results empty and the selection resets |
| Renderer.ResultView.RenderResults | src/renderer.js:61-84 | rendering resets the selection |
| Renderer.ResultView.ClearSearch | src/renderer.js:239-244 | input, results and selection reset |
| Renderer.ResultView.HandleSearchInput | src/renderer.js:32-47 | an empty input clears the results and schedules nothing; otherwise the query is scheduled |
| Renderer.ResultView.PerformSearch | src/renderer.js:49-59 | the response, or nothing on an error, becomes the results with no selection |
| Renderer.ResultView.HandleKeyPress | src/renderer.js:187-237 | the new view and the messages sent are those of `KeyStep` |

## Left out

- Network calls are parameters of the model, not calls it makes:
  - the weather lookup is an `Option<WeatherReport>`;
  - the exchange-rate fetch is a `FetchOutcome`;
  - the URL built for the weather service is not modelled.
- Filesystem reads are answered by a `FileSystem` snapshot:
  - `readdir`, `readFile`, `existsSync`, JSON parsing and `access`;
  - a file that changes between calls is not modelled.
- The calculator's `Function('return ' + query)()` is an `EvalOutcome`: it
  threw, it gave a non-finite value, or it gave a finite real.
  `Search.BranchItems` states only how the outcome gates the item.
- Fuse fuzzy matching is a function from the apps and the query to indices.
  `Sources.Ranked` keeps the picks that are in range. Fuse's scoring is not
  modelled.
- Number formatting is not modelled: `toFixed`, `toLocaleString`, `toString`
  and the `= …` item names.
  - A calc item carries its real value.
  - `Renderer.ExecuteItem` sends that value as `CopyNumber` instead of the
    string `item.value`.
  - Floating-point rounding is not modelled; amounts are exact reals.
- Display-only text is not kept in items: descriptions, the bookmark hostname
  from `new URL(...)`, the alias item's name and count, and the weather
  description. The only part of `new URL` kept is whether it throws, as
  `Node.validUrl`.
- `path.join` is modelled for a relative, already normal name (`JoinPath`).
  `path.basename` of the three file folders is a constant.
- `Text.Utf16Length`: counts UTF-16 units for the length gates. `substring(0,
  50)` in `ClipName` and `slice` count characters, not UTF-16 units.
- Text.ToLower: case mapping covers ASCII and the Hungarian accented letters
  only, and keeps the length. `toLowerCase` also maps other scripts and can
  lengthen a string (`İ`, U+0130, becomes `i` followed by a combining dot).
- Text.ToUpper: covers the same table only, and keeps the length. JavaScript's
  `toUpperCase` also maps other scripts (`ä`, `ō`, Cyrillic) and can lengthen
  a string (`ß` becomes `SS`).
- Search.Capitalized: upper-cases the city's first character through that
  table, so a city starting with `ß` or with a letter outside the table is
  named differently from `charAt(0).toUpperCase()`.
- Search.FallbackItems: its own contract bounds the length to 11 only;
  `Search.FallbackBySource` and `Search.FallbackShape` state its parts and
  order.
- Converter.GreedyCut: its own contract states only that the boundaries are
  ordered; the `*Ends` lemmas and `Converter.MatchIsGreedy` state what they are.
- The fire-and-forget `fetchExchangeRates()` at startup (main.js:132) is not
  modelled as a step. `Search.Launcher` takes any initial rate cache, so a
  cache that startup fetch has already filled is covered.
- Timing is not modelled:
  - the 200 ms debounce and `clearTimeout`. `Renderer.ResultView.HandleSearchInput`
    returns the query it would schedule. `clearSearch` does not cancel a
    pending timer, and that search can still land.
  - the one-second clipboard poll: `Clipboard.ClipboardHistory.Poll` is one
    tick;
  - the one-hour clock: `now` is a parameter.
- Concurrency is not modelled. Two `search` calls can interleave their
  `await`s, and the fallback's three sources are awaited one after another.
  The model runs one call at a time.
- DOM work is not modelled: element creation, icons in the list, window
  resizing and focus. The selection highlight is only the `selectedIndex`
  field.
- Not modelled at all:
  - configuration loading and saving;
  - the global hotkey;
  - the window and tray plumbing;
  - the IPC handlers other than `search`;
  - the AI relay (`ask-ai`).
- `Search.Resolve`: `maxResults` is an integer. A configuration value that is
  not a number (for example `NaN`, for which `slice(0, NaN)` is empty) is not
  modelled.

## Findings

| source | as written | input that shows it | evidently intended | confidence | as-written member | corrected member |
|---|---|---|---|---|---|---|
| main.js:488 | `config.aliases[qLower]` on a plain object is truthy for keys inherited from `Object.prototype` | the query `constructor` with no aliases configured gives an alias item whose commands are the `Object` function | only configured aliases give an alias item | not executed | Search.InheritedKeyAliasHit | Search.AliasItems |
| main.js:592 | `units[from] && units[to]` on an object literal is truthy for inherited keys | `5 constructor to m` passes the unit test and is converted to NaN | only the 13 listed units convert; other words fall through to the currency rates | not executed | Converter.InheritedUnitConverts | Converter.UnitConversion |
