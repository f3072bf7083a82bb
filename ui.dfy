/** The one piece of behaviour in the UI: the button that flips the app state. */
module UI {
  import opened Types

  /** The button's click handler: SCATTERED becomes TREE_SHAPE and anything else
      becomes SCATTERED. */
  function Toggle(s: AppState): (r: AppState)
    ensures r != s
    ensures r.Scattered? <==> s.TreeShape?
  {
    if s.Scattered? then TreeShape else Scattered
  }

  /** Two clicks restore the state. */
  lemma ToggleInvolutive(s: AppState)
    ensures Toggle(Toggle(s)) == s
  {
  }
}
