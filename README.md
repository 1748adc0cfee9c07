# target-cashier core in Dafny

target-cashier is a single-page lookup tool for store cashiers. A cashier
types a query and the application shows the matching catalog items with
their barcodes. It also shows the arithmetic result of the query and the
"round up to the next dollar" amount. This project models the logic behind
that screen and proves properties of it:

- **Main view** (`MainView.dfy`). The committed query is split into
  sub-queries on the query separator. It is tried as arithmetic and as a
  round-up amount. The keyboard moves between sub-queries and resets the
  query. The component's React state is the class
  `MainView.MainViewState`; its methods are the event handlers together with
  the effects that React runs after them.
- **Result list of one sub-query** (`QueryResults.dfy`). A `tag:` query
  filters the catalog by tag. Any other query goes to the fuzzy search with
  the organic modifier removed. A run of 4 to 24 digits in the query is
  shown as a generated barcode. Results are paged by a "+" button. The
  state is the class `QueryResults.QueryResultsView`.
- **Application state** (`AppState.dfy`). This covers the preferences and
  their defaults, the preferences read back from storage, the catalog
  compiled from the remote database and the user's own items, and the chain
  of rebuilds after each state update. It also covers the remote refresh and
  the reset of all preferences. The provider is the class
  `AppState.AppStateProvider`.
- **Barcode format selection** (`Barcode.dfy`): QR code, `upc` or
  `CODE128`.
- **Tab-index inheritance** (`TabIndex.dfy`): nested `Untabbable` wrappers
  and `useTabIndex`.
- **Shared definitions.** `Js.dfy` writes out the JavaScript, lodash and
  regular-expression behaviour the code relies on: `split`, a global
  `replace`, `filter`, `clamp`, `slice`, `padStart`, `\d`/`\w`/`\s` and
  leftmost matching. `Types.dfy` holds the item and database records.
  `Wrappers.dfy` holds `Option`.

Foreign code becomes a parameter of the model:

| foreign code | parameter | meaning of the parameter |
|---|---|---|
| mathjs `evaluate` | `evaluate: string -> MathOutcome` | its outcome: threw, a number, or another value |
| `JSON.parse` of stored preferences | `parseJson` | `None` when the parse throws |
| `yaml.safeLoad` followed by `lodash.toPairs` | `parseYaml` | `None` when the parse throws |
| a Fuse.js index's search | `fuzzy` / `search` | its ranked results |
| the validated cached database | an `Option<Db>` | `None` when there is no cached database |
| the fetched remote database | an `Option<Db>` | `None` when the fetch fails |

React's behaviour is modelled explicitly:

- a state setter called with an unchanged value changes nothing and runs no
  effect;
- an effect runs after the state it depends on changes;
- `setState` calls made inside `componentDidUpdate` are batched, so the
  rebuilds in one cycle read the state as it was before that cycle;
- React calls `componentDidUpdate` again after every update until one
  changes nothing. `AppState.AppStateProvider.Settle` runs that loop.

### Where the code and its documentation differ (the model follows the code)

- An empty query separator splits the query into single characters. This is
  what `split('')` does; the query is not left whole.
- The tag regular expression is not anchored, so `tag:` may appear anywhere
  in a sub-query. A bare `tag:` captures an empty name, and the query then
  goes to the fuzzy search (`QueryResults.BarePrefixIsSearched`).
- The organic modifier is removed everywhere in the query, not only at its
  end.
- The "No items found." placeholder is shown whenever there are no results.
  It is shown even when a generated barcode for a typed code is shown above
  it.

## Model

| member | source | states |
|---|---|---|
| MainView.SplitQuery | components/MainView.tsx:153-156 | every sub-query is non-empty; with a non-empty separator no sub-query contains it; an empty separator gives the query's single characters |
| MainView.SplitQueryConcat | components/MainView.tsx:153-156 | the sub-queries, put together, are the query with every separator removed |
| MainView.SplitQueryWithoutSeparator | components/MainView.tsx:153-156 | a non-empty query without the separator is one sub-query, itself |
| MainView.TryMath | components/MainView.tsx:158-166 | a pure digit string never gives a result; otherwise there is a result exactly when the evaluator returns a number, and the result is that number |
| MainView.MathDisplay | components/MainView.tsx:116-122 | the math result is shown exactly when the query is not a pure integer and the evaluator returns a truthy number, and the shown value is that number |
| MainView.MathZeroNeverShown | components/MainView.tsx:116-122 | a result of 0 or NaN is never shown |
| MainView.IsPureInteger | components/MainView.tsx:160 | `/^\d+$/`: a pure integer is non-empty, and every 1- or 2-digit query is one, so a round-up query never yields a math result |
| MainView.RoundUpDisplay | components/MainView.tsx:124-130 | the round-up amount is shown exactly when there is one and it is not 0; a shown amount is between 1 and 99 |
| MainView.TryRoundUp | components/MainView.tsx:168-174 | there is a result exactly for a query of 1 or 2 digits; the result is between 0 and 99; it is 0 exactly for all-zero digits; otherwise it adds to the query's value to make 100 |
| MainView.RoundUpShown | components/MainView.tsx:124-130 | the round-up amount is shown exactly for the 1- and 2-digit queries other than "0" and "00"; it is between 1 and 99 and adds to the query's value to make 100 |
| MainView.DispatchKey | components/MainView.tsx:52-91 | the handler's outcome for each event, each case stated as an if-and-only-if: ignored exactly when inactive or a modifier is held; Enter clears the input; otherwise the reset key resets; otherwise the left key, then the right key, moves the view exactly when there are several sub-queries and no open shadowbox; otherwise focus is taken exactly for a word or space character typed outside the input; anything else is unhandled |
| MainView.NavigationNeedsSeveralQueries | components/MainView.tsx:72-85 | with one sub-query or an open shadowbox, neither view key navigates |
| MainView.LeftOf | components/MainView.tsx:202-204 | the new index lies within the sub-queries; it is one less, or 0 at the left end |
| MainView.RightOf | components/MainView.tsx:206-208 | the new index lies within the sub-queries; it is one more, or the last index at the right end |
| MainView.MainViewState.constructor | components/MainView.tsx:20-39 | mounting starts at the default query, the first sub-query and the text keyboard, and runs the query-change effect |
| MainView.MainViewState.OnChangedQuery | components/MainView.tsx:104-138 | an empty query changes nothing; otherwise the sub-queries, the math result and the round-up result are those of the query, the shadowbox closes and the first sub-query becomes active |
| MainView.MainViewState.OnChangeSplitQueries | components/MainView.tsx:136-138 | new sub-queries make the first one active |
| MainView.MainViewState.SetQuery | components/MainView.tsx:20-37 | an unchanged query changes nothing; a new non-empty query re-derives the sub-queries, math and round-up results and makes the first sub-query active; an empty one changes only the query, leaving sub-queries, results and shadowbox as they were; the keyboard type never changes |
| MainView.MainViewState.OnCommit | components/MainView.tsx:226 | an empty committed value, or one equal to the current query, changes nothing; any other becomes the query with its sub-queries, makes the first sub-query active and closes the shadowbox; the keyboard type never changes |
| MainView.MainViewState.ResetQuery | components/MainView.tsx:140-151 | back to the default query, the first sub-query and the text keyboard, with the shadowbox closed; with an empty default query the sub-queries and the math and round-up results stay as they were |
| MainView.MainViewState.ToggleNumInput | components/MainView.tsx:187-190 | the keyboard type flips and the query empties; the sub-queries, the active index, the math and round-up results and the shadowbox stay as they were |
| MainView.MainViewState.ClickResetButton | components/MainView.tsx:192-195 | the same end state as a reset, including an empty default query leaving the sub-queries and results alone |
| MainView.MainViewState.PickShadowBoxElem | components/MainView.tsx:197-200 | picking an item opens the shadowbox |
| MainView.MainViewState.SetActiveQueryLeft | components/MainView.tsx:202-204 | the active index moves to `LeftOf` and stays valid |
| MainView.MainViewState.SetActiveQueryRight | components/MainView.tsx:206-208 | the active index moves to `RightOf` and stays valid |
| MainView.MainViewState.HandleKeyDown | components/MainView.tsx:52-91 | the action is `DispatchKey` on the state before the event; reset restores the default query, the first sub-query, the text keyboard and a closed shadowbox, and with an empty default query keeps the sub-queries and results; navigation changes only the active index; every other action changes nothing |
| QueryResults.MatchTagName | components/MainViewQueryResults.tsx:54-55 | there is a match exactly when the prefix occurs; the capture is the longest run of non-space characters after the leftmost occurrence |
| QueryResults.TagFilterName | components/MainViewQueryResults.tsx:56 | the tag branch is taken only for a non-empty captured name |
| QueryResults.BarePrefixIsSearched | components/MainViewQueryResults.tsx:54-61 | a query that is exactly the prefix goes to the fuzzy search |
| QueryResults.TagFilter | components/MainViewQueryResults.tsx:58 | the result holds exactly the catalog items carrying the tag |
| QueryResults.TagFilterConcat | components/MainViewQueryResults.tsx:58 | tag filtering keeps the catalog's order |
| QueryResults.IgnoreModifier | components/MainViewQueryResults.tsx:63-67 | an empty or absent modifier leaves the query as it is; a one-character modifier keeps exactly the other characters, in order; the result is never longer |
| QueryResults.ModifierGone | components/MainViewQueryResults.tsx:65 | no occurrence of a one-character modifier remains |
| QueryResults.FirstFourDigits | components/MainViewQueryResults.tsx:70 | the leftmost position where four digits start |
| QueryResults.TypedCode | components/MainViewQueryResults.tsx:70-76 | a code exists exactly when four digits occur; it is the greedy digit run at the leftmost such place, 4 to 24 digits long, ending at a non-digit, at the end, or at 24 |
| QueryResults.NextCount | components/MainViewQueryResults.tsx:79-82 | the new count lies between 1 and the number of results; it is one page more, capped at the number of results |
| QueryResults.ShowMoreProgress | components/MainViewQueryResults.tsx:79-122 | while "+" is visible, each click reveals one more page, or the rest when less than a page remains |
| QueryResults.ShowMoreExample | components/MainViewQueryResults.tsx:80 | pages of 4 over 10 results grow 4, 8, 10, 10 |
| QueryResults.ListNodes | components/MainViewQueryResults.tsx:102-121 | no results gives the placeholder, and the placeholder appears only then; otherwise the first `count` results with paging and all of them without, in order |
| QueryResults.Render | components/MainViewQueryResults.tsx:91-127 | exactly the optional generated-code card, then the result list unchanged, then the optional "+": the card comes first exactly when it is shown; the placeholder appears exactly when there are no results; "+" appears, last, exactly when paging is on and results remain hidden; nothing else is rendered |
| QueryResults.QueryResultsView.constructor | components/MainViewQueryResults.tsx:17-33 | mounting starts from the search of the query and runs `updateQuery` |
| QueryResults.QueryResultsView.UpdateQuery | components/MainViewQueryResults.tsx:45-77 | an empty query changes nothing; otherwise the page size resets; the results are the tag filter without paging or the search with paging; the typed code is updated |
| QueryResults.QueryResultsView.ShowMore | components/MainViewQueryResults.tsx:79-82 | only the count changes, to `NextCount` |
| QueryResults.QueryResultsView.Rendered | components/MainViewQueryResults.tsx:91-127 | for the component's state: exactly the optional typed-code card, the result list and the optional "+"; the card is first exactly when shown; the placeholder appears exactly when there are no results; "+" appears exactly when paging hides results |
| AppState.PrefsExtensional | components/AppStateProvider.tsx:9-24 | two preference records that agree on every key are equal |
| AppState.DefaultPrefs | components/AppStateProvider.tsx:9-22 | the defaults: no user items, 4 items per page, no tokenizing, `;` separator, `!` modifier, `tag:` prefix |
| AppState.MergePrefs | components/AppStateProvider.tsx:68 | for every key, a value present in the stored preferences wins and otherwise the base value stays; null adds nothing |
| AppState.GetLocalPrefs | components/AppStateProvider.tsx:113-124 | nothing stored or an empty string gives null without parsing; any other stored string gives exactly its parse, null when the parse fails |
| AppState.InitialPrefs | components/AppStateProvider.tsx:55-68 | every key holds its stored value when one is present and its default otherwise |
| AppState.MissingPrefsMeanDefaults | components/AppStateProvider.tsx:113-124 | missing, empty or unparsable stored preferences leave exactly the defaults |
| AppState.InitialUserItemsAgree | components/AppStateProvider.tsx:56-68 | the `?? ''` the constructor builds user items from equals the merged state's `userItems` |
| AppState.BuildItemData | components/AppStateProvider.tsx:131-135 | no compiled item is a duplicate or ignored; every compiled item comes from the inputs; every unflagged input item is kept; the length is at most the sum of the inputs' |
| AppState.BuildItemDataOrder | components/AppStateProvider.tsx:132-133 | remote items come first and user items after, each filtered in its own order |
| AppState.BuildItemDataKeepsUnflagged | components/AppStateProvider.tsx:133 | when nothing is flagged, the result is remote followed by user items, unchanged |
| AppState.BuildItemDataIdempotent | components/AppStateProvider.tsx:131-135 | compiling a compiled catalog again changes nothing |
| AppState.UserItemsOf | components/AppStateProvider.tsx:145-147 | one item per pair, in order, with its name and value and the single tag `user`; no keywords, no colour, no flags set |
| AppState.BuildUserItemsData | components/AppStateProvider.tsx:137-148 | a failed parse gives no items; otherwise one item per parsed pair, in order, with the pair's name and value, tagged `user`, never flagged |
| AppState.UserItemsNeverRejected | components/AppStateProvider.tsx:131-148 | the compiled catalog is the kept remote items followed by every user item |
| AppState.InitialRemoteAsWritten | components/AppStateProvider.tsx:45-68 | the state's remote data is the cached items with a valid cache and undefined without one |
| AppState.BuildItemDataAsWritten | components/AppStateProvider.tsx:131-133 | spreading undefined remote data throws; defined data compiles as `BuildItemData` |
| AppState.EarlyUserItemsEditThrows | components/AppStateProvider.tsx:57-96 | without a cached database, the rebuild after any user-items edit throws until the first fetch answers |
| AppState.InitialRemote | components/AppStateProvider.tsx:57 | the start-up remote data is the cached items or the empty list, the same value the constructor compiles from |
| AppState.InitialRemoteAlwaysBuilds | components/AppStateProvider.tsx:57-58 | with that start-up value every rebuild succeeds |
| AppState.ChangedPrefs | components/AppStateProvider.tsx:88-101 | a key is reported changed exactly when its values differ; nothing is reported exactly when the records are equal |
| AppState.AppStateProvider.constructor | components/AppStateProvider.tsx:42-71 | the preferences are the defaults merged with the stored ones; the remote data and database info come from the cache, the remote data being the empty list without one; every derived field is built |
| AppState.AppStateProvider.Search | components/AppStateProvider.tsx:105-107 | in a settled state, the search runs over an index of the compiled catalog with the current tokenize option |
| AppState.AppStateProvider.ComponentDidUpdate | components/AppStateProvider.tsx:84-103 | a user-items change rebuilds the user items' data; a change to that data or to the remote data recompiles the catalog from the state before the cycle; a catalog or tokenize change replaces the index; a new URL starts a fetch; what is not yet rebuilt stays pending and the pending height drops |
| AppState.AppStateProvider.Settle | components/AppStateProvider.tsx:84-103 | once the cascade settles, the user items' data, the compiled catalog and the index all match their sources; a fetch started exactly when the URL changed |
| AppState.AppStateProvider.SetPrefs | components/AppStateProvider.tsx:84-103 | after a preference update settles, every derived field matches the new preferences; a fetch starts exactly when the URL changed |
| AppState.AppStateProvider.ResetAll | components/AppStateProvider.tsx:109-111 | every preference key holds its default and the derived state is rebuilt |
| AppState.AppStateProvider.UpdateRemoteItemDataState | components/AppStateProvider.tsx:150-165 | success stores the database's items with its name and version; failure stores no items and no info; the catalog is then recompiled |
| Barcode.IsPlu | components/Barcode.tsx:5 | `/^\d{4,5}$/`: a PLU has 4 or 5 characters and is never a UPC number |
| Barcode.IsUpc | components/Barcode.tsx:6 | `/^\d{11,12}$/`: a UPC number has at least 11 characters, so padding it to 11 leaves it unchanged |
| Barcode.FormatName | components/Barcode.tsx:49-52 | the two format names the barcode library receives |
| Barcode.RenderBarcode | components/Barcode.tsx:38-54 | a QR code exactly for 4 or 5 digits; `upc` exactly for 11 or 12 digits; `CODE128` for everything else; the drawn text is always the value itself |
| Barcode.PluAndUpcDisjoint | components/Barcode.tsx:5-6 | no value matches both patterns |
| Barcode.UpcPaddingIsIdentity | components/Barcode.tsx:50 | padding a UPC-matched value to 11 characters leaves it unchanged |
| Barcode.ExactlyOneFormat | components/Barcode.tsx:39-54 | exactly one of the three outcomes is chosen |
| Barcode.RenderExamples | components/Barcode.tsx:38-54 | example values of each kind, and the empty value, take the expected path |
| TabIndex.Untabbable | lib/tabindex.ts:5-13 | a reset wrapper provides its `active` value; any other provides `active` or the inherited value |
| TabIndex.DefaultsMakeUntabbable | lib/tabindex.ts:6-11 | with the default props the subtree is untabbable, whatever it inherits |
| TabIndex.ContextUnderCharacterized | lib/tabindex.ts:3-11 | under a chain of wrappers, a subtree is untabbable exactly when some active wrapper is not followed by a reset wrapper inside it |
| TabIndex.UntabbableIsInherited | lib/tabindex.ts:11 | a non-reset wrapper inside an untabbable context stays untabbable |
| TabIndex.UseTabIndex | lib/tabindex.ts:15-18 | -1 inside an untabbable subtree; otherwise the given index unchanged |
| TabIndex.TabIndexUnderChain | lib/tabindex.ts:10-18 | an element's tab index under a chain of wrappers follows that characterization |
| Js.Clamp | components/MainView.tsx:203-207 | `lodash.clamp`: within the bounds when they are ordered; the lower bound when they are not |
| Js.SliceTo | components/MainViewQueryResults.tsx:113 | `slice(0, n)` is a prefix of length `n`, capped at the length; a negative `n` counts from the back |
| Js.Filter | components/MainView.tsx:155 | the kept elements all pass the test, come from the input, and include every input element that passes |
| Js.FilterConcat | components/MainView.tsx:155 | filtering keeps the relative order |
| Js.FilterKeepsAll | components/AppStateProvider.tsx:133 | nothing is dropped when every element passes |
| Js.FilterIdempotent | components/AppStateProvider.tsx:133 | filtering twice is filtering once |
| Js.ConcatNonEmpty | components/MainView.tsx:155 | dropping empty pieces does not change their concatenation |
| Js.IsDigit | components/MainView.tsx:160 | `\d`: exactly the ten characters `0`-`9` |
| Js.IsWordChar | components/MainView.tsx:88 | `\w`: contains the digits and `_`, and only ASCII characters |
| Js.IsSpace | components/MainView.tsx:88 | `\s`: contains space, tab and newline, and no word character |
| Js.DigitsValue | components/MainView.tsx:170 | `Number` of a digit string of length `k` is below `10` to the power `k` |
| Js.TwoDigitsBelowHundred | components/MainView.tsx:169-171 | one or two digits denote a number below 100 |
| Js.DigitsValueZero | components/MainView.tsx:170-171 | a digit string denotes 0 exactly when all its digits are `0` |
| Js.IndexFrom | components/MainViewQueryResults.tsx:55 | the leftmost occurrence at or after a position |
| Js.IndexOf | components/MainViewQueryResults.tsx:55 | an occurrence is found exactly when one exists, and it is the leftmost |
| Js.LeadingRun | components/MainViewQueryResults.tsx:54-70 | the greedy run: a prefix whose characters all pass, ending before the first that does not |
| Js.Chars | components/MainView.tsx:154 | `split('')`: one string per character, in order |
| Js.SplitOn | components/MainView.tsx:154 | `split` with a non-empty separator always yields at least one piece |
| Js.Split | components/MainView.tsx:154 | an empty separator gives the characters; any other gives at least one piece |
| Js.SplitJoin | components/MainView.tsx:154 | joining the pieces with the separator gives back the string |
| Js.RemoveAll | components/MainViewQueryResults.tsx:65 | removal never lengthens the string or adds characters |
| Js.SplitConcat | components/MainView.tsx:154 | the pieces, put together, are the string with every separator removed |
| Js.RemoveAbsent | components/MainViewQueryResults.tsx:65 | a string without the pattern is unchanged |
| Js.RemoveCharIsFilter | components/MainViewQueryResults.tsx:65 | removing a one-character pattern keeps exactly the other characters, in order |
| Js.SplitFirstIsPrefix | components/MainView.tsx:154 | the first piece is a prefix of the string |
| Js.SplitPiecesFree | components/MainView.tsx:154 | no piece contains the separator |
| Js.SplitAbsent | components/MainView.tsx:154 | a string without the separator splits into itself |
| Js.PadStart | components/Barcode.tsx:50 | `padStart`: the length is at least `n`, the string is kept at the end, and only fill characters come before it |

## Left out

- Fuse.js ranking, weights and options (components/AppStateProvider.tsx:167-180). The index is the pair (catalog, tokenize option) it is built from. Its search is the parameter `fuzzy`.
- mathjs evaluation and js-yaml parsing. They are the parameters `evaluate` and `parseYaml`. Floating-point results are opaque `real`s.
- Stored preferences with a value of the wrong type. `PartialPrefs` is typed, so `parseJson` stands for a parse that yields the preference types.
- Saving preferences to local storage on every update (components/AppStateProvider.tsx:85-86, 126-129). Saving and clearing the cached database. These are I/O.
- The timing of the remote fetch. `UpdateRemoteItemDataState` takes the fetch's answer as its argument. `ComponentDidUpdate` and `SetPrefs` report that a fetch starts.
- Regular-expression metacharacters in the tag prefix and the organic modifier. They are matched literally; the defaults `tag:` and `!` contain none.
- AppState.AppStateProvider.constructor: starts from the corrected remote data, the empty list when there is no cached database, rather than the undefined value the source leaves in the state. That undefined start, and the throw it causes, are modelled by `AppState.InitialRemoteAsWritten`, `AppState.BuildItemDataAsWritten` and `AppState.EarlyUserItemsEditThrows` (see Findings).
- AppState.UserItem: the user items of the source have no `priorityKeywords`, `keywords`, `uiColor` or flags at all; the model gives them `[]`, `None` and `false`, which the core's membership and truthiness tests read the same way.
- QueryResults.IgnoreModifier: for a modifier of two or more characters the contract states only that the result is no longer than the query. The exact content is `Js.RemoveAll` together with its lemmas.
- MainView.MainViewState: the separator, default query and key bindings are fixed while the view is mounted. A preference change that re-renders a mounted view is not modelled.
- Scrolling, history and URL handling in both views, input focus and selection, and clearing the input element. The `sb` URL parameter appears only as `showShadowbox`.
- The throbber, the debounced text input (components/DelayedTextInput.ts) and the weight calculator (components/WeightCalcView.tsx). These are timing and floating point.
- The QR-code and barcode drawing calls in components/Barcode.tsx. These are foreign libraries.
- UTF-16: strings are sequences of Unicode scalar values, not of code units.
- The database loader and validator (src/db.ts), the service worker (src/sw.js) and the remaining rendering components. These are not part of this model.

## Findings

| source | as written | input that shows it | evidently intended | confidence | as-written member | corrected member |
|---|---|---|---|---|---|---|
| components/AppStateProvider.tsx:45-68, 94-96 | without a valid cached database, the constructor compiles from `remoteItemData ?? []` but never stores `remoteItemData` in the state, so it stays undefined until the first fetch answers; a user-items edit in that window makes `_buildItemData(undefined, …)` throw on the spread | no cached database, a slow or hanging fetch, and the cashier edits the user items in the preferences view | the state holds the same empty list the constructor compiled from, and every rebuild succeeds | medium, not executed | AppState.EarlyUserItemsEditThrows | AppState.InitialRemote |
