/** The page's arrangement signal (App.tsx): it starts as the assembled tree and the toggle
    button flips it between the tree and the scattered cloud. */
module App {
  import opened Types
  import opened Morph

  /** The state the page mounts with. */
  function InitialState(): (s: TreeState)
    ensures Target(s) == 1.0
  {
    TreeShape
  }

  /** The toggle's state update: the tree scatters and the cloud assembles. */
  function Toggle(prev: TreeState): (next: TreeState)
    ensures next != prev
    ensures Target(next) == 1.0 - Target(prev)
  {
    if prev == TreeShape then Scattered else TreeShape
  }

  /** Toggling twice restores the state. */
  lemma ToggleInvolution(s: TreeState)
    ensures Toggle(Toggle(s)) == s
  {
  }

  /** The state after n toggles. */
  function Toggled(s: TreeState, n: nat): TreeState {
    if n == 0 then s else Toggle(Toggled(s, n - 1))
  }

  /** After n presses from mount the page shows the tree exactly when n is even. */
  lemma {:induction false} ToggleParity(n: nat)
    ensures Toggled(InitialState(), n) == TreeShape <==> n % 2 == 0
  {
    if n > 0 {
      ToggleParity(n - 1);
    }
  }

  /** The page: it owns the arrangement state. */
  class Page {
    var treeState: TreeState

    /** `useState(TreeState.TREE_SHAPE)`. */
    constructor ()
      ensures treeState == InitialState()
    {
      treeState := InitialState();
    }

    /** `toggleState`: the functional update `prev => prev === TREE_SHAPE ? SCATTERED : TREE_SHAPE`. */
    method ToggleState()
      modifies this
      ensures treeState == Toggle(old(treeState))
    {
      treeState := if treeState == TreeShape then Scattered else TreeShape;
    }
  }
}
