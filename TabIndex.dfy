/**
 * Tab-index inheritance (lib/tabindex.ts): an `Untabbable` wrapper tells its
 * subtree whether it is untabbable, and `useTabIndex` turns that into the
 * tab index an element receives.
 */
module TabIndex {
  import opened Wrappers

  /** An `Untabbable` wrapper's props; an omitted prop takes its default. */
  datatype UntabbableProps = UntabbableProps(active: Option<bool>, reset: Option<bool>)

  /** `active` defaults to true. */
  function Active(p: UntabbableProps): bool {
    p.active.GetOr(true)
  }

  /** `reset` defaults to false. */
  function Reset(p: UntabbableProps): bool {
    p.reset.GetOr(false)
  }

  /**
   * The value an `Untabbable` provides below it, given the value it
   * inherits: a reset wrapper ignores its ancestors, any other is
   * untabbable when it is active or when an ancestor already is.
   */
  function Untabbable(p: UntabbableProps, inherited: bool): (r: bool)
    ensures Reset(p) ==> r == Active(p)
    ensures !Reset(p) ==> (r <==> Active(p) || inherited)
    ensures !Reset(p) && inherited ==> r
  {
    if Reset(p) then Active(p) else Active(p) || inherited
  }

  /** With every prop omitted the subtree is untabbable, whatever it inherits. */
  lemma DefaultsMakeUntabbable(inherited: bool)
    ensures Untabbable(UntabbableProps(None, None), inherited)
  {
  }

  /**
   * The context value under a chain of nested wrappers, outermost first;
   * outside every wrapper the context holds its default, false.
   */
  function ContextUnder(chain: seq<UntabbableProps>): bool {
    if chain == [] then false
    else Untabbable(chain[|chain| - 1], ContextUnder(chain[..|chain| - 1]))
  }

  /**
   * Wrapper `i` is active and no wrapper nested inside it resets: its
   * untabbability reaches the bottom of the chain.
   */
  predicate ReachesBottom(chain: seq<UntabbableProps>, i: int) {
    0 <= i < |chain| && Active(chain[i]) && forall j :: i < j < |chain| ==> !Reset(chain[j])
  }

  /**
   * A subtree is untabbable exactly when some active wrapper above it is not
   * undone by a reset wrapper nested inside that one.
   */
  lemma {:induction false} ContextUnderCharacterized(chain: seq<UntabbableProps>)
    ensures ContextUnder(chain) <==> exists i :: ReachesBottom(chain, i)
  {
    if chain != [] {
      var n := |chain| - 1;
      var front := chain[..n];
      var last := chain[n];
      ContextUnderCharacterized(front);
      if ContextUnder(chain) {
        if Active(last) {
          assert ReachesBottom(chain, n);
        } else {
          var i :| ReachesBottom(front, i);
          assert ReachesBottom(chain, i) by {
            forall j | i < j < |chain|
              ensures !Reset(chain[j])
            {
              if j < n { assert chain[j] == front[j]; }
            }
            assert chain[i] == front[i];
          }
        }
      } else {
        forall i | 0 <= i < |chain|
          ensures !ReachesBottom(chain, i)
        {
          if i < n {
            assert forall j :: i <= j < n ==> front[j] == chain[j];
            assert ReachesBottom(chain, i) ==> ReachesBottom(front, i) && !Reset(last);
          }
        }
      }
    }
  }

  /** A non-reset wrapper below an untabbable context keeps it untabbable. */
  lemma {:induction false} UntabbableIsInherited(chain: seq<UntabbableProps>, p: UntabbableProps)
    requires ContextUnder(chain) && !Reset(p)
    ensures ContextUnder(chain + [p])
  {
    assert (chain + [p])[..|chain|] == chain;
  }

  /** `useTabIndex`: -1 inside an untabbable subtree, the given index otherwise. */
  function UseTabIndex(untabbable: bool, tabIndex: Option<int>): (r: Option<int>)
    ensures untabbable ==> r == Some(-1)
    ensures !untabbable ==> r == tabIndex
  {
    if untabbable then Some(-1) else tabIndex
  }

  /** An element under any chain that is not untabbable keeps its own tab index. */
  lemma TabIndexUnderChain(chain: seq<UntabbableProps>, tabIndex: Option<int>)
    ensures UseTabIndex(ContextUnder(chain), tabIndex) ==
      if exists i :: ReachesBottom(chain, i) then Some(-1) else tabIndex
  {
    ContextUnderCharacterized(chain);
  }
}
