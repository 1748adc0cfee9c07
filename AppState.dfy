/**
 * The application-state provider (components/AppStateProvider.tsx): user
 * preferences with their defaults, the catalog compiled from the remote
 * database and the user's own items, and the chain of rebuilds that React
 * runs after every state update.
 *
 * Foreign engines are parameters: `parseJson` stands for `JSON.parse` of the
 * stored preferences (None when it throws), `parseYaml` for
 * `lodash.toPairs(yaml.safeLoad(text))` (None when it throws) and `fuzzy`
 * for a Fuse.js index's ranked search.
 */
module AppState {
  import opened Wrappers
  import opened Js
  import opened Types

  // ---------------------------------------------------------------------
  // Preferences
  // ---------------------------------------------------------------------

  /** The user preferences, one field per key of the defaults record. */
  datatype Prefs = Prefs(
    dbUrl: string,
    userItems: string,
    itemsPerPage: int,
    defaultQuery: string,
    tokenizeSearch: bool,
    resetQueryKey: string,
    appNavBackKey: string,
    appNavViewLeftKey: string,
    appNavViewRightKey: string,
    querySeparator: string,
    organicModifier: string,
    itemTagPrefix: string)

  /** The preference keys, as an object's own keys. */
  datatype PrefKey =
    | DbUrl | UserItems | ItemsPerPage | DefaultQuery | TokenizeSearch
    | ResetQueryKey | AppNavBackKey | AppNavViewLeftKey | AppNavViewRightKey
    | QuerySeparator | OrganicModifier | ItemTagPrefix

  const AllPrefKeys: set<PrefKey> := {
    DbUrl, UserItems, ItemsPerPage, DefaultQuery, TokenizeSearch,
    ResetQueryKey, AppNavBackKey, AppNavViewLeftKey, AppNavViewRightKey,
    QuerySeparator, OrganicModifier, ItemTagPrefix }

  lemma KeyListed(k: PrefKey)
    ensures k in AllPrefKeys
  {
    match k
    case DbUrl =>
    case UserItems =>
    case ItemsPerPage =>
    case DefaultQuery =>
    case TokenizeSearch =>
    case ResetQueryKey =>
    case AppNavBackKey =>
    case AppNavViewLeftKey =>
    case AppNavViewRightKey =>
    case QuerySeparator =>
    case OrganicModifier =>
    case ItemTagPrefix =>
  }

  /** A preference value of any of the three types the defaults use. */
  datatype PrefValue = TextPref(s: string) | IntPref(n: int) | BoolPref(b: bool)

  /** `prefs[key]`. */
  function Get(p: Prefs, k: PrefKey): PrefValue {
    match k
    case DbUrl => TextPref(p.dbUrl)
    case UserItems => TextPref(p.userItems)
    case ItemsPerPage => IntPref(p.itemsPerPage)
    case DefaultQuery => TextPref(p.defaultQuery)
    case TokenizeSearch => BoolPref(p.tokenizeSearch)
    case ResetQueryKey => TextPref(p.resetQueryKey)
    case AppNavBackKey => TextPref(p.appNavBackKey)
    case AppNavViewLeftKey => TextPref(p.appNavViewLeftKey)
    case AppNavViewRightKey => TextPref(p.appNavViewRightKey)
    case QuerySeparator => TextPref(p.querySeparator)
    case OrganicModifier => TextPref(p.organicModifier)
    case ItemTagPrefix => TextPref(p.itemTagPrefix)
  }

  /** Two preference records that agree on every key are the same record. */
  lemma PrefsExtensional(a: Prefs, b: Prefs)
    requires forall k :: Get(a, k) == Get(b, k)
    ensures a == b
  {
    assert Get(a, DbUrl) == Get(b, DbUrl);
    assert Get(a, UserItems) == Get(b, UserItems);
    assert Get(a, ItemsPerPage) == Get(b, ItemsPerPage);
    assert Get(a, DefaultQuery) == Get(b, DefaultQuery);
    assert Get(a, TokenizeSearch) == Get(b, TokenizeSearch);
    assert Get(a, ResetQueryKey) == Get(b, ResetQueryKey);
    assert Get(a, AppNavBackKey) == Get(b, AppNavBackKey);
    assert Get(a, AppNavViewLeftKey) == Get(b, AppNavViewLeftKey);
    assert Get(a, AppNavViewRightKey) == Get(b, AppNavViewRightKey);
    assert Get(a, QuerySeparator) == Get(b, QuerySeparator);
    assert Get(a, OrganicModifier) == Get(b, OrganicModifier);
    assert Get(a, ItemTagPrefix) == Get(b, ItemTagPrefix);
  }

  /** The defaults record. */
  function DefaultPrefs(): (r: Prefs)
    ensures r.userItems == "" && r.itemsPerPage == 4 && !r.tokenizeSearch
    ensures r.querySeparator == ";" && r.organicModifier == "!" && r.itemTagPrefix == "tag:"
  {
    Prefs(
      "https://db1.gianteagle.turtlemay.us/", "", 4, "stamps", false,
      "`", "Escape", "[", "]", ";", "!", "tag:")
  }

  /** Preferences read back from storage: any key may be absent. */
  datatype PartialPrefs = PartialPrefs(
    dbUrl: Option<string>,
    userItems: Option<string>,
    itemsPerPage: Option<int>,
    defaultQuery: Option<string>,
    tokenizeSearch: Option<bool>,
    resetQueryKey: Option<string>,
    appNavBackKey: Option<string>,
    appNavViewLeftKey: Option<string>,
    appNavViewRightKey: Option<string>,
    querySeparator: Option<string>,
    organicModifier: Option<string>,
    itemTagPrefix: Option<string>)

  /** `partial[key]`, None when the key is absent. */
  function GetPartial(p: PartialPrefs, k: PrefKey): Option<PrefValue> {
    match k
    case DbUrl => if p.dbUrl.Some? then Some(TextPref(p.dbUrl.value)) else None
    case UserItems => if p.userItems.Some? then Some(TextPref(p.userItems.value)) else None
    case ItemsPerPage => if p.itemsPerPage.Some? then Some(IntPref(p.itemsPerPage.value)) else None
    case DefaultQuery => if p.defaultQuery.Some? then Some(TextPref(p.defaultQuery.value)) else None
    case TokenizeSearch => if p.tokenizeSearch.Some? then Some(BoolPref(p.tokenizeSearch.value)) else None
    case ResetQueryKey => if p.resetQueryKey.Some? then Some(TextPref(p.resetQueryKey.value)) else None
    case AppNavBackKey => if p.appNavBackKey.Some? then Some(TextPref(p.appNavBackKey.value)) else None
    case AppNavViewLeftKey =>
      if p.appNavViewLeftKey.Some? then Some(TextPref(p.appNavViewLeftKey.value)) else None
    case AppNavViewRightKey =>
      if p.appNavViewRightKey.Some? then Some(TextPref(p.appNavViewRightKey.value)) else None
    case QuerySeparator => if p.querySeparator.Some? then Some(TextPref(p.querySeparator.value)) else None
    case OrganicModifier => if p.organicModifier.Some? then Some(TextPref(p.organicModifier.value)) else None
    case ItemTagPrefix => if p.itemTagPrefix.Some? then Some(TextPref(p.itemTagPrefix.value)) else None
  }

  /**
   * `Object.assign({}, base, over)` restricted to the preference keys: a
   * key present in `over` wins, every other key keeps its value in `base`;
   * a null `over` adds nothing.
   */
  function MergePrefs(base: Prefs, over: Option<PartialPrefs>): (r: Prefs)
    ensures forall k :: (Get(r, k) == if over.Some? && GetPartial(over.value, k).Some?
                                       then GetPartial(over.value, k).value else Get(base, k))
    ensures over.None? ==> r == base
  {
    if over.None? then base
    else
      var o := over.value;
      Prefs(
        o.dbUrl.GetOr(base.dbUrl),
        o.userItems.GetOr(base.userItems),
        o.itemsPerPage.GetOr(base.itemsPerPage),
        o.defaultQuery.GetOr(base.defaultQuery),
        o.tokenizeSearch.GetOr(base.tokenizeSearch),
        o.resetQueryKey.GetOr(base.resetQueryKey),
        o.appNavBackKey.GetOr(base.appNavBackKey),
        o.appNavViewLeftKey.GetOr(base.appNavViewLeftKey),
        o.appNavViewRightKey.GetOr(base.appNavViewRightKey),
        o.querySeparator.GetOr(base.querySeparator),
        o.organicModifier.GetOr(base.organicModifier),
        o.itemTagPrefix.GetOr(base.itemTagPrefix))
  }

  /**
   * `_getLocalPrefs`: nothing stored, or the empty string, gives null
   * without parsing; otherwise the parse, which is null when it throws.
   */
  function GetLocalPrefs(stored: Option<string>, parseJson: string -> Option<PartialPrefs>)
    : (r: Option<PartialPrefs>)
    ensures (stored.None? || stored.value == "") ==> r.None?
    ensures stored.Some? && stored.value != "" ==> r == parseJson(stored.value)
  {
    if stored.None? || stored.value == "" then None else parseJson(stored.value)
  }

  /**
   * The preferences in the initial state: the defaults, overridden key by
   * key by whatever was stored. The cached database and the computed fields
   * set no preference key, so they leave these alone.
   */
  function InitialPrefs(local: Option<PartialPrefs>): (r: Prefs)
    ensures forall k :: StoredOr(local, k, Get(DefaultPrefs(), k)) == Get(r, k)
  {
    MergePrefs(DefaultPrefs(), local)
  }

  /** The stored value of a key when there is one, otherwise `fallback`. */
  function StoredOr(local: Option<PartialPrefs>, k: PrefKey, fallback: PrefValue): PrefValue {
    if local.Some? && GetPartial(local.value, k).Some? then GetPartial(local.value, k).value else fallback
  }

  /** Missing or unreadable stored preferences leave every default in place. */
  lemma MissingPrefsMeanDefaults(stored: Option<string>, parseJson: string -> Option<PartialPrefs>)
    requires stored.None? || stored.value == "" || parseJson(stored.value).None?
    ensures InitialPrefs(GetLocalPrefs(stored, parseJson)) == DefaultPrefs()
  {
  }

  /**
   * The constructor builds the user items from `localPrefs?.userItems ?? ''`;
   * that is exactly the `userItems` preference of the merged initial state.
   */
  lemma InitialUserItemsAgree(local: Option<PartialPrefs>)
    ensures InitialPrefs(local).userItems ==
      (if local.Some? && local.value.userItems.Some? then local.value.userItems.value else "")
  {
    assert Get(InitialPrefs(local), UserItems) == TextPref(InitialPrefs(local).userItems);
  }

  // ---------------------------------------------------------------------
  // Catalog builders
  // ---------------------------------------------------------------------

  /** An item that neither duplicates another nor is marked to be ignored. */
  predicate Kept(item: Item) {
    !(item.duplicate || item.ignore)
  }

  /** `_buildItemData`: remote then user items, rejecting flagged ones. */
  function BuildItemData(remote: seq<Item>, user: seq<Item>): (r: seq<Item>)
    ensures forall i :: 0 <= i < |r| ==> !r[i].duplicate && !r[i].ignore
    ensures forall i :: 0 <= i < |r| ==> r[i] in remote || r[i] in user
    ensures forall i :: 0 <= i < |remote| && Kept(remote[i]) ==> remote[i] in r
    ensures forall i :: 0 <= i < |user| && Kept(user[i]) ==> user[i] in r
    ensures |r| <= |remote| + |user|
  {
    assert forall i :: 0 <= i < |remote| ==> (remote + user)[i] == remote[i];
    assert forall i :: 0 <= i < |user| ==> (remote + user)[|remote| + i] == user[i];
    Filter(remote + user, Kept)
  }

  /** Remote items come first and user items after, each in its own order. */
  lemma BuildItemDataOrder(remote: seq<Item>, user: seq<Item>)
    ensures BuildItemData(remote, user) == Filter(remote, Kept) + Filter(user, Kept)
  {
    FilterConcat(remote, user, Kept);
  }

  /** Without flagged items nothing is dropped. */
  lemma BuildItemDataKeepsUnflagged(remote: seq<Item>, user: seq<Item>)
    requires forall i :: 0 <= i < |remote| ==> Kept(remote[i])
    requires forall i :: 0 <= i < |user| ==> Kept(user[i])
    ensures BuildItemData(remote, user) == remote + user
  {
    var all := remote + user;
    forall i | 0 <= i < |all|
      ensures Kept(all[i])
    {
      if i < |remote| { assert all[i] == remote[i]; } else { assert all[i] == user[i - |remote|]; }
    }
    FilterKeepsAll(all, Kept);
  }

  /** Rebuilding from an already compiled catalog changes nothing. */
  lemma BuildItemDataIdempotent(remote: seq<Item>, user: seq<Item>)
    ensures BuildItemData(BuildItemData(remote, user), []) == BuildItemData(remote, user)
  {
    var r := BuildItemData(remote, user);
    assert r + [] == r;
    FilterKeepsAll(r, Kept);
  }

  /** The item `{name, value, tags: ['user']}` made from one parsed pair. */
  function UserItem(name: string, value: ItemValue): Item {
    Item(name, value, [], [], ["user"], None, false, false, false)
  }

  /** One user item per parsed pair, in order. */
  function UserItemsOf(pairs: seq<(string, ItemValue)>): (r: seq<Item>)
    ensures |r| == |pairs|
    ensures forall i :: 0 <= i < |r| ==>
      && r[i].name == pairs[i].0 && r[i].value == pairs[i].1 && r[i].tags == ["user"]
      && r[i].priorityKeywords == [] && r[i].keywords == [] && r[i].uiColor.None?
      && !r[i].alwaysShowBarcode && Kept(r[i])
  {
    if pairs == [] then [] else [UserItem(pairs[0].0, pairs[0].1)] + UserItemsOf(pairs[1..])
  }

  /** `_buildUserItemsData`: nothing when the text does not parse. */
  function BuildUserItemsData(text: string, parseYaml: string -> Option<seq<(string, ItemValue)>>)
    : (r: seq<Item>)
    ensures parseYaml(text).None? ==> r == []
    ensures parseYaml(text).Some? ==> |r| == |parseYaml(text).value|
    ensures parseYaml(text).Some? ==> forall i :: 0 <= i < |r| ==>
      r[i].name == parseYaml(text).value[i].0 && r[i].value == parseYaml(text).value[i].1
    ensures forall i :: 0 <= i < |r| ==> r[i].tags == ["user"] && Kept(r[i])
  {
    match parseYaml(text)
    case None => []
    case Some(pairs) => UserItemsOf(pairs)
  }

  /** The compiled catalog never loses a user item. */
  lemma UserItemsNeverRejected(
    remote: seq<Item>, text: string, parseYaml: string -> Option<seq<(string, ItemValue)>>)
    ensures BuildItemData(remote, BuildUserItemsData(text, parseYaml))
      == Filter(remote, Kept) + BuildUserItemsData(text, parseYaml)
  {
    var user := BuildUserItemsData(text, parseYaml);
    BuildItemDataOrder(remote, user);
    FilterKeepsAll(user, Kept);
  }

  // ---------------------------------------------------------------------
  // Remote data at start-up (see Findings in README.md)
  // ---------------------------------------------------------------------

  /**
   * As written, the constructor puts the cached database's items into the
   * state only when a valid cache exists; otherwise `remoteItemData` stays
   * undefined (None here) until the first fetch completes.
   */
  function InitialRemoteAsWritten(cache: Option<Db>): (r: Option<seq<Item>>)
    ensures r.None? <==> cache.None?
    ensures r.Some? ==> r.value == cache.value.items
  {
    if cache.Some? then Some(cache.value.items) else None
  }

  /** `_buildItemData` as written: spreading an undefined array throws (None). */
  function BuildItemDataAsWritten(remote: Option<seq<Item>>, user: seq<Item>): (r: Option<seq<Item>>)
    ensures r.None? <==> remote.None?
    ensures remote.Some? ==> r.value == BuildItemData(remote.value, user)
  {
    if remote.None? then None else Some(BuildItemData(remote.value, user))
  }

  /**
   * Without a cached database, editing the user items before the first
   * fetch completes makes the rebuild of the compiled catalog throw,
   * whatever the edit is.
   */
  lemma EarlyUserItemsEditThrows(text: string, parseYaml: string -> Option<seq<(string, ItemValue)>>)
    ensures BuildItemDataAsWritten(InitialRemoteAsWritten(None), BuildUserItemsData(text, parseYaml)).None?
  {
  }

  /**
   * Corrected: the state holds the same `remoteItemData ?? []` that the
   * constructor itself compiles from, so it is always an array.
   */
  function InitialRemote(cache: Option<Db>): (r: seq<Item>)
    ensures cache.None? ==> r == []
    ensures cache.Some? ==> r == cache.value.items
    ensures r == InitialRemoteAsWritten(cache).GetOr([])
  {
    if cache.Some? then cache.value.items else []
  }

  /** With the corrected start-up value every rebuild succeeds. */
  lemma InitialRemoteAlwaysBuilds(cache: Option<Db>, user: seq<Item>)
    ensures BuildItemDataAsWritten(Some(InitialRemote(cache)), user) == Some(BuildItemData(InitialRemote(cache), user))
  {
  }

  // ---------------------------------------------------------------------
  // The provider and its update cascade
  // ---------------------------------------------------------------------

  /** What a Fuse.js index is built from: the catalog and the tokenize option. */
  datatype SearchIndex = SearchIndex(items: seq<Item>, tokenize: bool)

  /** A state key that a setState call can change. */
  datatype Field =
    | PrefField(key: PrefKey)
    | DbInfoField
    | RemoteItemDataField
    | UserItemDataField
    | CompiledItemDataField

  /** The preference keys whose values differ between two records. */
  function ChangedPrefs(a: Prefs, b: Prefs): (r: set<Field>)
    ensures forall k :: PrefField(k) in r <==> Get(a, k) != Get(b, k)
    ensures forall f :: f in r ==> f.PrefField?
    ensures r == {} <==> a == b
  {
    var r := set k | k in AllPrefKeys && Get(a, k) != Get(b, k) :: PrefField(k);
    assert r == {} ==> a == b by {
      if r == {} {
        forall k
          ensures Get(a, k) == Get(b, k)
        {
          KeyListed(k);
          assert PrefField(k) !in r;
        }
        PrefsExtensional(a, b);
      }
    }
    r
  }

  /**
   * How far a change still has to travel: user items feed the user items'
   * data, which with the remote data feeds the compiled catalog, which feeds
   * the index.
   */
  function Height(changed: set<Field>): nat {
    if PrefField(UserItems) in changed then 4
    else if UserItemDataField in changed || RemoteItemDataField in changed then 3
    else if CompiledItemDataField in changed then 2
    else if changed != {} then 1
    else 0
  }

  class AppStateProvider {
    const parseYaml: string -> Option<seq<(string, ItemValue)>>
    const fuzzy: (SearchIndex, string) -> seq<Item>

    var prefs: Prefs
    var dbInfo: Option<DbInfo>
    var remoteItemData: seq<Item>
    var userItemData: seq<Item>
    var compiledItemData: seq<Item>
    /** The `_fuse` field. */
    var fuse: SearchIndex

    predicate UserItemsBuilt()
      reads this
    {
      userItemData == BuildUserItemsData(prefs.userItems, parseYaml)
    }

    predicate CompiledBuilt()
      reads this
    {
      compiledItemData == BuildItemData(remoteItemData, userItemData)
    }

    predicate IndexBuilt()
      reads this
    {
      fuse == SearchIndex(compiledItemData, prefs.tokenizeSearch)
    }

    /**
     * The state after an update that set `changed`: everything not
     * downstream of a changed key is already rebuilt.
     */
    predicate Pending(changed: set<Field>)
      reads this
    {
      && (PrefField(UserItems) !in changed ==> UserItemsBuilt())
      && (UserItemDataField !in changed && RemoteItemDataField !in changed ==> CompiledBuilt())
      && (CompiledItemDataField !in changed && PrefField(TokenizeSearch) !in changed ==> IndexBuilt())
    }

    /** The settled state: every derived field matches its sources. */
    predicate Valid()
      reads this
    {
      Pending({})
    }

    /**
     * The constructor: preferences from the defaults and storage, remote
     * data from the validated cache (None when absent or invalid), and the
     * derived fields built from them.
     */
    constructor(
      stored: Option<string>,
      parseJson: string -> Option<PartialPrefs>,
      cache: Option<Db>,
      parseYaml: string -> Option<seq<(string, ItemValue)>>,
      fuzzy: (SearchIndex, string) -> seq<Item>)
      ensures this.parseYaml == parseYaml && this.fuzzy == fuzzy
      ensures prefs == InitialPrefs(GetLocalPrefs(stored, parseJson))
      ensures dbInfo == if cache.Some? then Some(DbInfo(cache.value.name, cache.value.version)) else None
      ensures remoteItemData == InitialRemote(cache)
      ensures Valid()
    {
      var local := GetLocalPrefs(stored, parseJson);
      var user := BuildUserItemsData(if local.Some? then local.value.userItems.GetOr("") else "", parseYaml);
      var remote := InitialRemote(cache);
      var compiled := BuildItemData(remote, user);
      InitialUserItemsAgree(local);
      this.parseYaml := parseYaml;
      this.fuzzy := fuzzy;
      prefs := InitialPrefs(local);
      dbInfo := if cache.Some? then Some(DbInfo(cache.value.name, cache.value.version)) else None;
      remoteItemData := remote;
      userItemData := user;
      compiledItemData := compiled;
      fuse := SearchIndex(compiled, InitialPrefs(local).tokenizeSearch);
    }

    /** `search`: the index's ranked matches. */
    function Search(query: string): (r: seq<Item>)
      reads this
      ensures Valid() ==> r == fuzzy(SearchIndex(compiledItemData, prefs.tokenizeSearch), query)
    {
      fuzzy(fuse, query)
    }

    /**
     * One `componentDidUpdate` after an update that set `changed`. Every
     * rebuild reads the state as it was before this call: the two setState
     * calls are batched, so a compiled catalog rebuilt here still uses the
     * previous user items' data. The index is replaced at once. Returns the
     * keys the batched update sets and whether a fetch of the remote
     * database starts.
     */
    method ComponentDidUpdate(changed: set<Field>) returns (next: set<Field>, fetch: bool)
      requires Pending(changed)
      modifies this
      ensures prefs == old(prefs) && dbInfo == old(dbInfo) && remoteItemData == old(remoteItemData)
      ensures userItemData ==
        if PrefField(UserItems) in changed then BuildUserItemsData(prefs.userItems, parseYaml)
        else old(userItemData)
      ensures compiledItemData ==
        if UserItemDataField in changed || RemoteItemDataField in changed
        then BuildItemData(old(remoteItemData), old(userItemData))
        else old(compiledItemData)
      ensures fuse ==
        if CompiledItemDataField in changed || PrefField(TokenizeSearch) in changed
        then SearchIndex(old(compiledItemData), prefs.tokenizeSearch)
        else old(fuse)
      ensures next ==
        (if PrefField(UserItems) in changed then {UserItemDataField} else {}) +
        (if UserItemDataField in changed || RemoteItemDataField in changed then {CompiledItemDataField} else {})
      ensures fetch <==> PrefField(DbUrl) in changed
      ensures Pending(next)
      ensures changed != {} ==> Height(next) < Height(changed)
    {
      fetch := PrefField(DbUrl) in changed;
      var newUser := userItemData;
      var newCompiled := compiledItemData;
      next := {};
      if PrefField(UserItems) in changed {
        newUser := BuildUserItemsData(prefs.userItems, parseYaml);
        next := next + {UserItemDataField};
      }
      if UserItemDataField in changed || RemoteItemDataField in changed {
        newCompiled := BuildItemData(remoteItemData, userItemData);
        next := next + {CompiledItemDataField};
      }
      if CompiledItemDataField in changed || PrefField(TokenizeSearch) in changed {
        fuse := SearchIndex(compiledItemData, prefs.tokenizeSearch);
      }
      userItemData := newUser;
      compiledItemData := newCompiled;
    }

    /**
     * React calls `componentDidUpdate` again after every batched update
     * until an update sets nothing; the result says whether any of them
     * started a fetch.
     */
    method Settle(changed: set<Field>) returns (fetch: bool)
      requires Pending(changed)
      modifies this
      ensures prefs == old(prefs) && dbInfo == old(dbInfo) && remoteItemData == old(remoteItemData)
      ensures userItemData == BuildUserItemsData(prefs.userItems, parseYaml)
      ensures compiledItemData == BuildItemData(remoteItemData, userItemData)
      ensures fuse == SearchIndex(compiledItemData, prefs.tokenizeSearch)
      ensures fetch <==> PrefField(DbUrl) in changed
    {
      var pending := changed;
      fetch := false;
      while pending != {}
        invariant Pending(pending)
        invariant prefs == old(prefs) && dbInfo == old(dbInfo) && remoteItemData == old(remoteItemData)
        invariant (fetch || PrefField(DbUrl) in pending) <==> PrefField(DbUrl) in changed
        decreases Height(pending)
      {
        var next, f := ComponentDidUpdate(pending);
        fetch := fetch || f;
        pending := next;
      }
    }

    /**
     * A setState of preferences (from the preferences view), followed by
     * the cascade it triggers.
     */
    method SetPrefs(p: Prefs) returns (fetch: bool)
      requires Valid()
      modifies this
      ensures prefs == p && dbInfo == old(dbInfo) && remoteItemData == old(remoteItemData)
      ensures userItemData == BuildUserItemsData(p.userItems, parseYaml)
      ensures compiledItemData == BuildItemData(remoteItemData, userItemData)
      ensures fuse == SearchIndex(compiledItemData, p.tokenizeSearch)
      ensures fetch <==> p.dbUrl != old(prefs.dbUrl)
    {
      var changed := ChangedPrefs(prefs, p);
      assert Get(prefs, DbUrl) != Get(p, DbUrl) <==> prefs.dbUrl != p.dbUrl;
      assert Get(prefs, UserItems) == Get(p, UserItems) <==> prefs.userItems == p.userItems;
      assert Get(prefs, TokenizeSearch) == Get(p, TokenizeSearch) <==> prefs.tokenizeSearch == p.tokenizeSearch;
      prefs := p;
      fetch := Settle(changed);
    }

    /** `resetAll`: every preference key back to its default value. */
    method ResetAll() returns (fetch: bool)
      requires Valid()
      modifies this
      ensures forall k :: Get(prefs, k) == Get(DefaultPrefs(), k)
      ensures dbInfo == old(dbInfo) && remoteItemData == old(remoteItemData)
      ensures Valid()
      ensures fetch <==> old(prefs.dbUrl) != DefaultPrefs().dbUrl
    {
      fetch := SetPrefs(DefaultPrefs());
    }

    /**
     * `_updateRemoteItemDataState` once the fetch has answered: a database
     * replaces the remote data and records its name and version; no
     * database empties the remote data and forgets the database. The
     * cascade then recompiles the catalog and the index.
     */
    method UpdateRemoteItemDataState(db: Option<Db>)
      requires Valid()
      modifies this
      ensures prefs == old(prefs) && userItemData == old(userItemData)
      ensures db.Some? ==> remoteItemData == db.value.items && dbInfo == Some(DbInfo(db.value.name, db.value.version))
      ensures db.None? ==> remoteItemData == [] && dbInfo == None
      ensures compiledItemData == BuildItemData(remoteItemData, userItemData)
      ensures Valid()
    {
      if db.Some? {
        dbInfo := Some(DbInfo(db.value.name, db.value.version));
        remoteItemData := db.value.items;
      } else {
        dbInfo := None;
        remoteItemData := [];
      }
      var fetch := Settle({DbInfoField, RemoteItemDataField});
    }
  }
}
