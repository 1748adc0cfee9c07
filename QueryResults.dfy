/**
 * The result list of one sub-query (components/MainViewQueryResults.tsx): a
 * tag filter or a fuzzy search over the catalog, a numeric code typed into
 * the query, and a "show more" window over the results.
 *
 * The tag prefix and the organic modifier are used as regular-expression
 * sources; they are assumed to hold no regular-expression metacharacters
 * (the defaults `tag:` and `!` hold none), so they match literally.
 */
module QueryResults {
  import opened Wrappers
  import opened Js
  import opened Types

  /** The application-state values a result list reads. */
  datatype ResultsContext = ResultsContext(
    itemsPerPage: int,
    itemTagPrefix: string,
    organicModifier: string,
    compiledItemData: seq<Item>,
    search: string -> seq<Item>)

  // ---------------------------------------------------------------------
  // Tag filter
  // ---------------------------------------------------------------------

  /**
   * `query.match(new RegExp(prefix + '(\\S*)'))?.[1]`: the regular expression
   * is not anchored, so it matches at the leftmost occurrence of the prefix
   * and captures the run of non-space characters that follows it.
   */
  function MatchTagName(query: string, prefix: string): (r: Option<string>)
    ensures r.Some? <==> Contains(query, prefix)
    ensures r.Some? ==> forall i :: 0 <= i < |r.value| ==> IsNonSpace(r.value[i])
    ensures r.Some? ==>
      var start := IndexOf(query, prefix).value + |prefix|;
      && start + |r.value| <= |query|
      && query[start..start + |r.value|] == r.value
      && (start + |r.value| == |query| || IsSpace(query[start + |r.value|]))
  {
    match IndexOf(query, prefix)
    case None => None
    case Some(k) =>
      var rest := query[k + |prefix|..];
      var name := LeadingRun(rest, IsNonSpace);
      assert rest[..|name|] == name;
      Some(name)
  }

  /** `if (matchedTagName)`: the tag branch is taken only for a non-empty name. */
  function TagFilterName(query: string, prefix: string): (r: Option<string>)
    ensures r.Some? ==> r.value != [] && MatchTagName(query, prefix) == Some(r.value)
    ensures r.None? ==> MatchTagName(query, prefix).None? || MatchTagName(query, prefix) == Some([])
  {
    match MatchTagName(query, prefix)
    case Some(name) => if name != [] then Some(name) else None
    case None => None
  }

  /** A query that is the bare prefix (`"tag:"`) captures nothing and is searched instead. */
  lemma BarePrefixIsSearched(prefix: string)
    ensures TagFilterName(prefix, prefix) == None
  {
    assert OccursAt(prefix, prefix, 0);
    assert prefix[|prefix|..] == [];
  }

  predicate HasTag(item: Item, tag: string) {
    tag in item.tags
  }

  /** `compiledItemData.filter(v => v.tags?.includes(tag))` */
  function TagFilter(catalog: seq<Item>, tag: string): (r: seq<Item>)
    ensures forall i :: 0 <= i < |r| ==> r[i] in catalog && HasTag(r[i], tag)
    ensures forall i :: 0 <= i < |catalog| && HasTag(catalog[i], tag) ==> catalog[i] in r
  {
    Filter(catalog, (item: Item) => HasTag(item, tag))
  }

  /** Tag filtering respects the catalog's order: it distributes over concatenation. */
  lemma TagFilterConcat(a: seq<Item>, b: seq<Item>, tag: string)
    ensures TagFilter(a + b, tag) == TagFilter(a, tag) + TagFilter(b, tag)
  {
    FilterConcat(a, b, (item: Item) => HasTag(item, tag));
  }

  // ---------------------------------------------------------------------
  // Fuzzy-search branch
  // ---------------------------------------------------------------------

  /**
   * `ignoreModifier`: every occurrence of the organic modifier is removed from
   * the query before it is searched; an empty modifier removes nothing.
   */
  function IgnoreModifier(query: string, modifier: string): (r: string)
    ensures modifier == [] ==> r == query
    ensures modifier != [] && !Contains(query, modifier) ==> r == query
    ensures |modifier| == 1 ==> r == Filter(query, Other(modifier[0]))
    ensures |r| <= |query|
  {
    if modifier != [] then
      assert |modifier| == 1 ==> RemoveAll(query, modifier) == Filter(query, Other(modifier[0])) by {
        if |modifier| == 1 {
          assert modifier == [modifier[0]];
          RemoveCharIsFilter(query, modifier[0]);
        }
      }
      assert !Contains(query, modifier) ==> RemoveAll(query, modifier) == query by {
        if !Contains(query, modifier) { RemoveAbsent(query, modifier); }
      }
      RemoveAll(query, modifier)
    else query
  }

  /** A one-character modifier leaves no trace in the searched string. */
  lemma ModifierGone(query: string, modifier: string)
    requires |modifier| == 1
    ensures modifier[0] !in IgnoreModifier(query, modifier)
  {
  }

  // ---------------------------------------------------------------------
  // Typed code: /\d{4,24}/
  // ---------------------------------------------------------------------

  /** Four digits start at index `i`. */
  predicate FourDigitsAt(s: string, i: int) {
    0 <= i && i + 4 <= |s| && AllDigits(s[i..i + 4])
  }

  /** The leftmost index at or after `from` where four digits start. */
  function FirstFourDigits(s: string, from: nat): (r: Option<nat>)
    ensures r.Some? ==> from <= r.value && FourDigitsAt(s, r.value)
    ensures r.Some? ==> forall j :: from <= j < r.value ==> !FourDigitsAt(s, j)
    ensures r.None? ==> forall j :: from <= j ==> !FourDigitsAt(s, j)
    decreases |s| - from
  {
    if from + 4 > |s| then None
    else if FourDigitsAt(s, from) then Some(from)
    else FirstFourDigits(s, from + 1)
  }

  /**
   * `query.match(/\d{4,24}/)?.[0]`: at the leftmost place where four digits
   * start, the greedy run of digits, cut at 24.
   */
  function TypedCode(query: string): (r: Option<string>)
    ensures r.Some? <==> exists i :: FourDigitsAt(query, i)
    ensures r.Some? ==> AllDigits(r.value) && 4 <= |r.value| <= 24
    ensures r.Some? ==>
      var i := FirstFourDigits(query, 0).value;
      && (forall j :: 0 <= j < i ==> !FourDigitsAt(query, j))
      && i + |r.value| <= |query|
      && query[i..i + |r.value|] == r.value
      && (|r.value| == 24 || i + |r.value| == |query| || !IsDigit(query[i + |r.value|]))
  {
    match FirstFourDigits(query, 0)
    case None => None
    case Some(i) =>
      var rest := query[i..];
      var run := LeadingRun(rest, IsDigit);
      assert |run| >= 4 by {
        assert forall k :: 0 <= k < 4 ==> rest[k] == query[i..i + 4][k];
      }
      assert rest[..|run|] == run;
      Some(if |run| <= 24 then run else run[..24])
  }

  // ---------------------------------------------------------------------
  // Paging and the rendered list
  // ---------------------------------------------------------------------

  /** `showMore`: `clamp(count + itemsPerPage, 1, total)`. */
  function NextCount(count: int, itemsPerPage: int, total: nat): (r: int)
    ensures total >= 1 ==> 1 <= r <= total
    ensures total == 0 ==> r == 1
    ensures 1 <= count + itemsPerPage <= total ==> r == count + itemsPerPage
    ensures 1 <= total < count + itemsPerPage ==> r == total
  {
    Clamp(count + itemsPerPage, 1, total)
  }

  /**
   * While the "+" button is visible, a click reveals one more page, or the
   * rest of the results when less than a page remains.
   */
  lemma ShowMoreProgress(count: int, itemsPerPage: int, total: nat)
    requires 1 <= itemsPerPage && 0 <= count < total
    ensures count < NextCount(count, itemsPerPage, total) <= total
    ensures NextCount(count, itemsPerPage, total) - count ==
            if total - count < itemsPerPage then total - count else itemsPerPage
  {
  }

  /** A page of 4 over 10 results: 4, then 8, then 10. */
  lemma ShowMoreExample()
    ensures NextCount(4, 4, 10) == 8 && NextCount(8, 4, 10) == 10 && NextCount(10, 4, 10) == 10
  {
  }

  /** One node of the rendered list. */
  datatype Node = GeneratedCode(code: string) | NoItemsFound | StoreItem(item: Item) | ShowMoreButton

  /** The result part of the list: the placeholder, the first `count` items, or all of them. */
  function ListNodes(results: seq<Item>, paging: bool, count: int): (r: seq<Node>)
    ensures results == [] ==> r == [NoItemsFound]
    ensures results != [] && !paging ==> |r| == |results|
    ensures results != [] && paging ==> |r| == |SliceTo(results, count)|
    ensures results != [] ==> forall i :: 0 <= i < |r| ==> r[i] == StoreItem(results[i])
    ensures forall n :: n in r ==> n == NoItemsFound || n.StoreItem?
    ensures NoItemsFound in r <==> results == []
  {
    if results == [] then [NoItemsFound]
    else
      var shown := if paging then SliceTo(results, count) else results;
      seq(|shown|, i requires 0 <= i < |shown| => StoreItem(shown[i]))
  }

  /** `enablePaging && numRenderResultItems < searchResults.length` */
  predicate ShowMoreVisible(results: seq<Item>, paging: bool, count: int) {
    paging && count < |results|
  }

  /** The list a result view renders: the typed code first, then the results, then "+". */
  function Render(showTypedCode: bool, typedCode: string, results: seq<Item>, paging: bool, count: int): (r: seq<Node>)
    ensures showTypedCode <==> (|r| > 0 && r[0].GeneratedCode?)
    ensures showTypedCode ==> |r| > 0 && r[0] == GeneratedCode(typedCode)
    ensures forall i :: 0 < i < |r| ==> !r[i].GeneratedCode?
    ensures NoItemsFound in r <==> results == []
    ensures ShowMoreButton in r <==> ShowMoreVisible(results, paging, count)
    ensures ShowMoreVisible(results, paging, count) ==> r[|r| - 1] == ShowMoreButton
    ensures var k := if showTypedCode then 1 else 0;
            var l := ListNodes(results, paging, count);
            k + |l| <= |r| && r[k..k + |l|] == l
    ensures |r| == (if showTypedCode then 1 else 0) + |ListNodes(results, paging, count)|
                   + (if ShowMoreVisible(results, paging, count) then 1 else 0)
  {
    var head := if showTypedCode then [GeneratedCode(typedCode)] else [];
    var list := ListNodes(results, paging, count);
    var tail := if ShowMoreVisible(results, paging, count) then [ShowMoreButton] else [];
    Layout(head, list, tail);
    head + list + tail
  }

  /** Where the parts of a rendered list end up: the card first, the list next, "+" last. */
  lemma Layout(head: seq<Node>, list: seq<Node>, tail: seq<Node>)
    requires |head| <= 1 && |tail| <= 1
    requires forall n :: n in head ==> n.GeneratedCode?
    requires forall n :: n in list ==> n == NoItemsFound || n.StoreItem?
    requires forall n :: n in tail ==> n == ShowMoreButton
    ensures var r := head + list + tail;
      && |r| == |head| + |list| + |tail|
      && r[|head|..|head| + |list|] == list
      && (|r| > 0 ==> (r[0].GeneratedCode? <==> head != []))
      && (head != [] ==> r[0] == head[0])
      && (forall i :: 0 < i < |r| ==> !r[i].GeneratedCode?)
      && (NoItemsFound in r <==> NoItemsFound in list)
      && (ShowMoreButton in r <==> tail != [])
      && (tail != [] ==> r[|r| - 1] == ShowMoreButton)
  {
    var r := head + list + tail;
    assert r[|head|..|head| + |list|] == list;
    forall i | 0 < i < |r| ensures !r[i].GeneratedCode? {
      if i < |head| + |list| {
        assert r[i] == list[i - |head|] && list[i - |head|] in list;
      } else {
        assert r[i] == tail[i - |head| - |list|] && tail[i - |head| - |list|] in tail;
      }
    }
    assert ShowMoreButton !in head + list;
    assert NoItemsFound !in head && NoItemsFound !in tail;
    if tail != [] {
      assert tail[0] in tail && r[|r| - 1] == tail[0];
    }
    if |r| > 0 && head == [] {
      assert r[0] in list + tail;
    }
  }

  // ---------------------------------------------------------------------
  // The component's state
  // ---------------------------------------------------------------------

  /** The state of one sub-query's result list. */
  class QueryResultsView {
    var searchResults: seq<Item>
    var numRenderResultItems: int
    var typedCode: string
    var showTypedCode: bool
    var enablePaging: bool

    /** The state `updateQuery` leaves for a non-empty query. */
    ghost predicate Resolved(query: string, ctx: ResultsContext)
      reads this
    {
      && numRenderResultItems == ctx.itemsPerPage
      && (match TagFilterName(query, ctx.itemTagPrefix)
          case Some(tag) =>
            !enablePaging && searchResults == TagFilter(ctx.compiledItemData, tag)
          case None =>
            enablePaging && searchResults == ctx.search(IgnoreModifier(query, ctx.organicModifier)))
      && showTypedCode == TypedCode(query).Some?
      && (showTypedCode ==> typedCode == TypedCode(query).value)
    }

    /** Mounting: the initial state, then the mount-time `updateQuery`. */
    constructor (query: string, ctx: ResultsContext)
      ensures query == [] ==>
        && searchResults == ctx.search(query) && numRenderResultItems == ctx.itemsPerPage
        && typedCode == [] && !showTypedCode && enablePaging
      ensures query != [] ==> Resolved(query, ctx)
    {
      searchResults := ctx.search(query);
      numRenderResultItems := ctx.itemsPerPage;
      typedCode := [];
      showTypedCode := false;
      enablePaging := true;
      new;
      UpdateQuery(query, ctx);
    }

    /**
     * `updateQuery`, run whenever the sub-query, the database or the catalog
     * changes. The typed code is looked for in both branches.
     */
    method UpdateQuery(query: string, ctx: ResultsContext)
      modifies this
      ensures query == [] ==> unchanged(this)
      ensures query != [] ==> Resolved(query, ctx)
      ensures query != [] && !showTypedCode ==> typedCode == old(typedCode)
    {
      if |query| == 0 {
        return;
      }
      numRenderResultItems := ctx.itemsPerPage;
      var matchedTagName := TagFilterName(query, ctx.itemTagPrefix);
      if matchedTagName.Some? {
        enablePaging := false;
        searchResults := TagFilter(ctx.compiledItemData, matchedTagName.value);
      } else {
        enablePaging := true;
        searchResults := ctx.search(IgnoreModifier(query, ctx.organicModifier));
      }
      var matchedBarcodeValue := TypedCode(query);
      if matchedBarcodeValue.Some? {
        typedCode := matchedBarcodeValue.value;
        showTypedCode := true;
      } else {
        showTypedCode := false;
      }
    }

    /** `showMore`, the "+" button. */
    method ShowMore(ctx: ResultsContext)
      modifies this`numRenderResultItems
      ensures numRenderResultItems == NextCount(old(numRenderResultItems), ctx.itemsPerPage, |searchResults|)
    {
      numRenderResultItems := NextCount(numRenderResultItems, ctx.itemsPerPage, |searchResults|);
    }

    /** What the view renders from its state. */
    function Rendered(): (r: seq<Node>)
      reads this
      ensures showTypedCode <==> (|r| > 0 && r[0].GeneratedCode?)
      ensures showTypedCode ==> |r| > 0 && r[0] == GeneratedCode(typedCode)
      ensures NoItemsFound in r <==> searchResults == []
      ensures ShowMoreButton in r <==> ShowMoreVisible(searchResults, enablePaging, numRenderResultItems)
      ensures var k := if showTypedCode then 1 else 0;
              var l := ListNodes(searchResults, enablePaging, numRenderResultItems);
              k + |l| <= |r| && r[k..k + |l|] == l
      ensures |r| == (if showTypedCode then 1 else 0) + |ListNodes(searchResults, enablePaging, numRenderResultItems)|
                     + (if ShowMoreVisible(searchResults, enablePaging, numRenderResultItems) then 1 else 0)
    {
      Render(showTypedCode, typedCode, searchResults, enablePaging, numRenderResultItems)
    }
  }
}
