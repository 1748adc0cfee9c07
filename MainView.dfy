/**
 * The main lookup view (components/MainView.tsx): a committed query is split
 * into sub-queries on the query separator, evaluated as arithmetic and as a
 * "round up to the next dollar" amount, and navigated with the keyboard.
 *
 * The pure helpers (`splitQuery`, `tryMath`, `tryRoundUp`, the key dispatch)
 * are functions; the component's React state is the class `MainViewState`,
 * whose methods are the component's event handlers together with the
 * effects they set off.
 */
module MainView {
  import opened Wrappers
  import opened Js

  // ---------------------------------------------------------------------
  // splitQuery
  // ---------------------------------------------------------------------

  /** `query.split(separator)` with the empty pieces dropped. */
  function SplitQuery(query: string, separator: string): (r: seq<string>)
    ensures forall i :: 0 <= i < |r| ==> r[i] != []
    ensures separator != [] ==> forall i :: 0 <= i < |r| ==> !Contains(r[i], separator)
    ensures separator == [] ==> r == Chars(query)
  {
    if separator == [] then
      FilterKeepsAll(Chars(query), IsNonEmpty);
      Filter(Split(query, separator), IsNonEmpty)
    else
      SplitPiecesFree(query, separator);
      Filter(Split(query, separator), IsNonEmpty)
  }

  /** The sub-queries, put together, are the query with every separator removed. */
  lemma SplitQueryConcat(query: string, separator: string)
    requires separator != []
    ensures Concat(SplitQuery(query, separator)) == RemoveAll(query, separator)
  {
    ConcatNonEmpty(SplitOn(query, separator));
    SplitConcat(query, separator);
  }

  /** A non-empty query without the separator is a single sub-query. */
  lemma SplitQueryWithoutSeparator(query: string, separator: string)
    requires separator != [] && query != [] && !Contains(query, separator)
    ensures SplitQuery(query, separator) == [query]
  {
    SplitAbsent(query, separator);
    assert Filter([query], IsNonEmpty) == [query] + Filter([query][1..], IsNonEmpty);
  }

  // ---------------------------------------------------------------------
  // tryMath
  // ---------------------------------------------------------------------

  /** A JavaScript number. */
  datatype JsNumber = Finite(x: real) | NaN | Infinity(positive: bool) {
    /** JavaScript truthiness: every number except `0` and `NaN`. */
    predicate Truthy() {
      !NaN? && !(Finite? && x == 0.0)
    }
  }

  /** What the expression evaluator does with a string: throws, or returns a value. */
  datatype MathOutcome = Threw | Number(n: JsNumber) | NonNumber

  /** The query matches `/^\d+$/`. */
  predicate IsPureInteger(query: string): (r: bool)
    ensures r ==> query != []
    ensures DigitsOfLength(query, 1, 2) ==> r
  {
    DigitsOfLength(query, 1, |query|)
  }

  /** `tryMath`: a pure integer is a code, not arithmetic; errors are swallowed. */
  function TryMath(query: string, evaluate: string -> MathOutcome): (r: Option<JsNumber>)
    ensures IsPureInteger(query) ==> r == None
    ensures r.Some? <==> !IsPureInteger(query) && evaluate(query).Number?
    ensures r.Some? ==> evaluate(query) == Number(r.value)
  {
    if IsPureInteger(query) then None
    else match evaluate(query)
      case Number(n) => Some(n)
      case _ => None
  }

  /** The math result the view shows for a query (`if (gotMathResult)`): only a truthy one. */
  function MathDisplay(query: string, evaluate: string -> MathOutcome): (r: Option<JsNumber>)
    ensures r.Some? <==> !IsPureInteger(query) && evaluate(query).Number? && evaluate(query).n.Truthy()
    ensures r.Some? ==> evaluate(query) == Number(r.value)
  {
    match TryMath(query, evaluate)
    case Some(n) => if n.Truthy() then Some(n) else None
    case None => None
  }

  /** A result of zero is never shown, whatever the query. */
  lemma MathZeroNeverShown(query: string, evaluate: string -> MathOutcome)
    requires evaluate(query) == Number(Finite(0.0)) || evaluate(query) == Number(NaN)
    ensures MathDisplay(query, evaluate) == None
  {
  }

  // ---------------------------------------------------------------------
  // tryRoundUp
  // ---------------------------------------------------------------------

  /**
   * `tryRoundUp`: a query of one or two digits `n` gives the change `100 - n`
   * needed to round up to the next dollar, or `0` when `n` is not in 1..99;
   * any other query gives nothing.
   */
  function TryRoundUp(query: string): (r: Option<int>)
    ensures r.Some? <==> DigitsOfLength(query, 1, 2)
    ensures r.Some? ==> 0 <= r.value <= 99
    ensures r.Some? ==> (r.value == 0 <==> forall i :: 0 <= i < |query| ==> query[i] == '0')
    ensures r.Some? && r.value != 0 ==> DigitsValue(query) + r.value == 100
  {
    if DigitsOfLength(query, 1, 2) then
      var n := DigitsValue(query);
      TwoDigitsBelowHundred(query);
      DigitsValueZero(query);
      Some(if 1 <= n < 100 then 100 - n else 0)
    else None
  }

  /** The round-up amount the view shows (`if (gotRoundUpResult)`): a zero amount is hidden. */
  function RoundUpDisplay(query: string): (r: Option<int>)
    ensures r.Some? <==> TryRoundUp(query).Some? && TryRoundUp(query).value != 0
    ensures r.Some? ==> 1 <= r.value <= 99
  {
    match TryRoundUp(query)
    case Some(n) => if n != 0 then Some(n) else None
    case None => None
  }

  /**
   * The round-up amount is shown exactly for the one- and two-digit queries
   * other than "0" and "00", and it completes the query's value to 100.
   */
  lemma RoundUpShown(query: string)
    ensures RoundUpDisplay(query).Some? <==> DigitsOfLength(query, 1, 2) && query != "0" && query != "00"
    ensures RoundUpDisplay(query).Some? ==>
      1 <= RoundUpDisplay(query).value <= 99 && DigitsValue(query) + RoundUpDisplay(query).value == 100
  {
    if DigitsOfLength(query, 1, 2) {
      var zeros := forall i :: 0 <= i < |query| ==> query[i] == '0';
      if |query| == 1 {
        assert zeros <==> query == "0";
      } else {
        assert zeros <==> query == "00";
      }
    }
  }

  // ---------------------------------------------------------------------
  // The keydown handler's dispatch
  // ---------------------------------------------------------------------

  /** A keydown event; `keyCodeChar` is `String.fromCharCode(e.keyCode)`. */
  datatype KeyEvent = KeyEvent(
    key: string, code: string,
    ctrlKey: bool, altKey: bool, shiftKey: bool, metaKey: bool,
    keyCodeChar: char)

  /** The key preferences the view listens to. */
  datatype KeyBindings = KeyBindings(resetQueryKey: string, viewLeftKey: string, viewRightKey: string)

  /** What the keydown handler decides to do. */
  datatype KeyAction =
    | Ignored      // the view is inactive or a modifier key is held
    | ClearInput   // Enter: focus the input field and empty it
    | Reset        // the reset key: reset the query
    | ViewLeft     // the left key: previous sub-query
    | ViewRight    // the right key: next sub-query
    | FocusInput   // a word or space character typed outside the input field
    | Unhandled

  predicate HasModifier(e: KeyEvent) {
    e.ctrlKey || e.altKey || e.shiftKey || e.metaKey
  }

  /** `[e.key, e.code].includes(binding)` */
  predicate Names(e: KeyEvent, binding: string) {
    e.key == binding || e.code == binding
  }

  /** The order of the tests in `handleKeyDown`; the first that applies wins. */
  function DispatchKey(e: KeyEvent, active: bool, showShadowbox: bool, splitCount: nat,
                       keys: KeyBindings, inputFocused: bool): (a: KeyAction)
    ensures a == Ignored <==> !active || HasModifier(e)
    ensures a == ClearInput <==> active && !HasModifier(e) && e.key == "Enter"
    ensures a == Reset <==> active && !HasModifier(e) && e.key != "Enter" && Names(e, keys.resetQueryKey)
    ensures a == ViewLeft <==>
      active && !HasModifier(e) && e.key != "Enter" && !Names(e, keys.resetQueryKey)
      && !showShadowbox && splitCount > 1 && Names(e, keys.viewLeftKey)
    ensures a == ViewRight <==>
      active && !HasModifier(e) && e.key != "Enter" && !Names(e, keys.resetQueryKey)
      && !showShadowbox && splitCount > 1 && !Names(e, keys.viewLeftKey) && Names(e, keys.viewRightKey)
    ensures a == FocusInput <==>
      active && !HasModifier(e) && e.key != "Enter" && !Names(e, keys.resetQueryKey)
      && !(!showShadowbox && splitCount > 1 && (Names(e, keys.viewLeftKey) || Names(e, keys.viewRightKey)))
      && !inputFocused && (IsWordChar(e.keyCodeChar) || IsSpace(e.keyCodeChar))
    ensures a == Unhandled <==>
      active && !HasModifier(e) && e.key != "Enter" && !Names(e, keys.resetQueryKey)
      && !(!showShadowbox && splitCount > 1 && (Names(e, keys.viewLeftKey) || Names(e, keys.viewRightKey)))
      && !(!inputFocused && (IsWordChar(e.keyCodeChar) || IsSpace(e.keyCodeChar)))
  {
    if !active then Ignored
    else if HasModifier(e) then Ignored
    else if e.key == "Enter" then ClearInput
    else if Names(e, keys.resetQueryKey) then Reset
    else if !showShadowbox && splitCount > 1 && Names(e, keys.viewLeftKey) then ViewLeft
    else if !showShadowbox && splitCount > 1 && Names(e, keys.viewRightKey) then ViewRight
    else if !inputFocused && (IsWordChar(e.keyCodeChar) || IsSpace(e.keyCodeChar)) then FocusInput
    else Unhandled
  }

  /** With a single sub-query or the shadowbox open, the navigation keys do nothing. */
  lemma NavigationNeedsSeveralQueries(e: KeyEvent, active: bool, showShadowbox: bool, splitCount: nat,
                                      keys: KeyBindings, inputFocused: bool)
    requires splitCount <= 1 || showShadowbox
    ensures DispatchKey(e, active, showShadowbox, splitCount, keys, inputFocused) !in {ViewLeft, ViewRight}
  {
  }

  // ---------------------------------------------------------------------
  // Moving between sub-queries
  // ---------------------------------------------------------------------

  /** `setActiveQueryLeft`: `clamp(index - 1, 0, count - 1)`. */
  function LeftOf(index: int, count: nat): (r: int)
    ensures count >= 1 ==> 0 <= r < count
    ensures count == 0 ==> r == 0
    ensures 0 < index < count ==> r == index - 1
    ensures index <= 0 ==> r == 0
  {
    Clamp(index - 1, 0, count - 1)
  }

  /** `setActiveQueryRight`: `clamp(index + 1, 0, count - 1)`. */
  function RightOf(index: int, count: nat): (r: int)
    ensures count >= 1 ==> 0 <= r < count
    ensures count == 0 ==> r == 0
    ensures 0 <= index < count - 1 ==> r == index + 1
    ensures count >= 1 && index >= count - 1 ==> r == count - 1
  {
    Clamp(index + 1, 0, count - 1)
  }

  // ---------------------------------------------------------------------
  // The component's state
  // ---------------------------------------------------------------------

  /**
   * The state of one mounted main view. The preferences it reads
   * (separator, default query, key bindings) and the expression evaluator
   * are fixed for the lifetime of the object. `showShadowbox` mirrors
   * whether the page URL carries the `sb` parameter.
   */
  class MainViewState {
    const querySeparator: string
    const defaultQuery: string
    const keys: KeyBindings
    const evaluate: string -> MathOutcome

    var query: string
    var splitQueries: seq<string>
    var activeQueryIndex: int
    var mathResult: JsNumber
    var showMathResult: bool
    var roundUpResult: int
    var showRoundUpResult: bool
    var useNumInput: bool
    var showShadowbox: bool

    /** What the last non-empty committed query determines. */
    ghost predicate QueryDerived()
      reads this`query, this`splitQueries, this`mathResult, this`showMathResult,
            this`roundUpResult, this`showRoundUpResult
    {
      && splitQueries == SplitQuery(query, querySeparator)
      && showMathResult == MathDisplay(query, evaluate).Some?
      && (showMathResult ==> mathResult == MathDisplay(query, evaluate).value)
      && showRoundUpResult == RoundUpDisplay(query).Some?
      && (showRoundUpResult ==> roundUpResult == RoundUpDisplay(query).value)
    }

    /** The active index names a sub-query (or is 0 when there is none). */
    ghost predicate Valid()
      reads this
    {
      && 0 <= activeQueryIndex
      && (activeQueryIndex == 0 || activeQueryIndex < |splitQueries|)
      && (query != [] ==> QueryDerived())
    }

    /** Mounting: the initial state, then the mount-time effects. */
    constructor (separator: string, defaultQuery: string, keys: KeyBindings,
                 evaluate: string -> MathOutcome, sbInUrl: bool)
      ensures Valid()
      ensures this.querySeparator == separator && this.defaultQuery == defaultQuery
      ensures this.keys == keys && this.evaluate == evaluate
      ensures query == defaultQuery && activeQueryIndex == 0 && !useNumInput
      ensures defaultQuery == [] ==>
        splitQueries == [[]] && !showMathResult && !showRoundUpResult && showShadowbox == sbInUrl
      ensures defaultQuery != [] ==> !showShadowbox
    {
      querySeparator := separator;
      this.defaultQuery := defaultQuery;
      this.keys := keys;
      this.evaluate := evaluate;
      query := defaultQuery;
      splitQueries := [defaultQuery];
      activeQueryIndex := 0;
      mathResult := Finite(0.0);
      showMathResult := false;
      roundUpResult := 0;
      showRoundUpResult := false;
      useNumInput := false;
      showShadowbox := sbInUrl;
      new;
      OnChangedQuery();
    }

    /**
     * The effect of a changed query (`onChangedQuery`), followed by the effect
     * of the fresh split array it stores (`onChangeSplitQueries`).
     */
    method OnChangedQuery()
      modifies this
      ensures query == [] ==> unchanged(this)
      ensures query == old(query) && useNumInput == old(useNumInput)
      ensures query != [] ==> QueryDerived() && activeQueryIndex == 0 && !showShadowbox
      ensures query != [] && !showMathResult ==> mathResult == old(mathResult)
      ensures query != [] && !showRoundUpResult ==> roundUpResult == old(roundUpResult)
    {
      if |query| == 0 {
        return;
      }
      splitQueries := SplitQuery(query, querySeparator);
      // removing `sb` from the URL closes the shadowbox
      showShadowbox := false;
      var gotMathResult := MathDisplay(query, evaluate);
      if gotMathResult.Some? {
        mathResult := gotMathResult.value;
        showMathResult := true;
      } else {
        showMathResult := false;
      }
      var gotRoundUpResult := RoundUpDisplay(query);
      if gotRoundUpResult.Some? {
        roundUpResult := gotRoundUpResult.value;
        showRoundUpResult := true;
      } else {
        showRoundUpResult := false;
      }
      OnChangeSplitQueries();
    }

    /** `onChangeSplitQueries`: a new list of sub-queries starts at the first. */
    method OnChangeSplitQueries()
      modifies this`activeQueryIndex
      ensures activeQueryIndex == 0
    {
      activeQueryIndex := 0;
    }

    /**
     * `setQuery`: React keeps the state (and runs no effect) when the value is
     * unchanged; otherwise the query-change effect runs.
     */
    method SetQuery(v: string)
      requires Valid()
      modifies this
      ensures Valid()
      ensures query == v && useNumInput == old(useNumInput)
      ensures v == old(query) ==> unchanged(this)
      ensures v != old(query) && v != [] ==> activeQueryIndex == 0 && !showShadowbox
      ensures v == [] ==> splitQueries == old(splitQueries) && activeQueryIndex == old(activeQueryIndex)
                          && showShadowbox == old(showShadowbox)
                          && mathResult == old(mathResult) && showMathResult == old(showMathResult)
                          && roundUpResult == old(roundUpResult) && showRoundUpResult == old(showRoundUpResult)
    {
      if v != query {
        query := v;
        OnChangedQuery();
      }
    }

    /** The input field's `onCommit`: an empty committed value is ignored. */
    method OnCommit(v: string)
      requires Valid()
      modifies this
      ensures Valid()
      ensures v == [] || v == old(query) ==> unchanged(this)
      ensures useNumInput == old(useNumInput)
      ensures v != [] ==> query == v && splitQueries == SplitQuery(v, querySeparator)
      ensures v != [] && v != old(query) ==> activeQueryIndex == 0 && !showShadowbox
    {
      if |v| > 0 {
        SetQuery(v);
      }
    }

    /** `resetQuery`: back to the default query, the first sub-query and the text keyboard. */
    method ResetQuery()
      requires Valid()
      modifies this
      ensures Valid()
      ensures query == defaultQuery && activeQueryIndex == 0 && !useNumInput && !showShadowbox
      ensures defaultQuery == [] ==>
        && splitQueries == old(splitQueries)
        && mathResult == old(mathResult) && showMathResult == old(showMathResult)
        && roundUpResult == old(roundUpResult) && showRoundUpResult == old(showRoundUpResult)
    {
      activeQueryIndex := 0;
      showShadowbox := false;
      SetQuery(defaultQuery);
      useNumInput := false;
    }

    /** `onClickToggleKbButton`: switch the keyboard type and empty the query. */
    method ToggleNumInput()
      requires Valid()
      modifies this
      ensures Valid()
      ensures useNumInput == !old(useNumInput) && query == []
      ensures splitQueries == old(splitQueries) && activeQueryIndex == old(activeQueryIndex)
      ensures showShadowbox == old(showShadowbox)
      ensures mathResult == old(mathResult) && showMathResult == old(showMathResult)
      ensures roundUpResult == old(roundUpResult) && showRoundUpResult == old(showRoundUpResult)
    {
      useNumInput := !useNumInput;
      SetQuery([]);
    }

    /** `onClickResetButton` */
    method ClickResetButton()
      requires Valid()
      modifies this
      ensures Valid()
      ensures query == defaultQuery && activeQueryIndex == 0 && !useNumInput && !showShadowbox
      ensures defaultQuery == [] ==>
        && splitQueries == old(splitQueries)
        && mathResult == old(mathResult) && showMathResult == old(showMathResult)
        && roundUpResult == old(roundUpResult) && showRoundUpResult == old(showRoundUpResult)
    {
      ResetQuery();
      useNumInput := false;
    }

    /** `onPickShadowBoxElem`: pushing `?sb` opens the shadowbox. */
    method PickShadowBoxElem()
      requires Valid()
      modifies this`showShadowbox
      ensures Valid() && showShadowbox
    {
      showShadowbox := true;
    }

    /** `setActiveQueryLeft` */
    method SetActiveQueryLeft()
      requires Valid()
      modifies this`activeQueryIndex
      ensures Valid()
      ensures activeQueryIndex == LeftOf(old(activeQueryIndex), |splitQueries|)
      ensures |splitQueries| >= 1 ==> activeQueryIndex == if old(activeQueryIndex) > 0 then old(activeQueryIndex) - 1 else 0
    {
      ghost var derived := query != [] ==> QueryDerived();
      activeQueryIndex := LeftOf(activeQueryIndex, |splitQueries|);
      // the derived state does not read the index
      assert derived == (query != [] ==> QueryDerived());
    }

    /** `setActiveQueryRight` */
    method SetActiveQueryRight()
      requires Valid()
      modifies this`activeQueryIndex
      ensures Valid()
      ensures activeQueryIndex == RightOf(old(activeQueryIndex), |splitQueries|)
      ensures |splitQueries| >= 1 ==>
        activeQueryIndex == if old(activeQueryIndex) < |splitQueries| - 1 then old(activeQueryIndex) + 1 else |splitQueries| - 1
    {
      ghost var derived := query != [] ==> QueryDerived();
      activeQueryIndex := RightOf(activeQueryIndex, |splitQueries|);
      assert derived == (query != [] ==> QueryDerived());
    }

    /**
     * `handleKeyDown`: decide, then act. Focusing and clearing the input
     * element change the page, not this state.
     */
    method HandleKeyDown(e: KeyEvent, active: bool, inputFocused: bool) returns (action: KeyAction)
      requires Valid()
      modifies this
      ensures Valid()
      ensures action == DispatchKey(e, active, old(showShadowbox), |old(splitQueries)|, keys, inputFocused)
      ensures action == Reset ==> query == defaultQuery && activeQueryIndex == 0 && !useNumInput && !showShadowbox
      ensures action == Reset && defaultQuery == [] ==>
        && splitQueries == old(splitQueries)
        && mathResult == old(mathResult) && showMathResult == old(showMathResult)
        && roundUpResult == old(roundUpResult) && showRoundUpResult == old(showRoundUpResult)
      ensures action in {ViewLeft, ViewRight} ==>
        && query == old(query) && splitQueries == old(splitQueries) && useNumInput == old(useNumInput)
        && showShadowbox == old(showShadowbox)
        && mathResult == old(mathResult) && showMathResult == old(showMathResult)
        && roundUpResult == old(roundUpResult) && showRoundUpResult == old(showRoundUpResult)
      ensures action == ViewLeft ==> activeQueryIndex == LeftOf(old(activeQueryIndex), |splitQueries|)
      ensures action == ViewRight ==> activeQueryIndex == RightOf(old(activeQueryIndex), |splitQueries|)
      ensures action !in {Reset, ViewLeft, ViewRight} ==> unchanged(this)
    {
      action := DispatchKey(e, active, showShadowbox, |splitQueries|, keys, inputFocused);
      match action {
        case Reset => ResetQuery();
        case ViewLeft => SetActiveQueryLeft();
        case ViewRight => SetActiveQueryRight();
        case _ =>
      }
    }
  }
}
