/** The input component's decision rules: which icon shows, whether the result
    tiles show, what a key press does, and whether the submit button is disabled.
    Rendering, React state and effects are not modelled; each rule is a function
    of the props and state it reads. `showSearchFeatures` is the prop after its
    default is applied: a component given no such prop reads it as `true`. */
module HeroInput {
  import opened JsString
  import opened UrlPattern

  /** The link icon replaces the search icon only while search features are on. */
  predicate IsURLInput(showSearchFeatures: bool, value: string)
    ensures IsURLInput(showSearchFeatures, value) <==> showSearchFeatures && Matches(Trim(value))
  {
    if showSearchFeatures then IsURL(value) else false
  }

  /** The tiles show for a focused, non-blank search term that is not a URL. */
  predicate ShowTiles(showSearchFeatures: bool, value: string, isFocused: bool)
    ensures ShowTiles(showSearchFeatures, value, isFocused) ==>
              isFocused && !IsURLInput(showSearchFeatures, value) && !SubmitDisabled(value)
    ensures ShowTiles(showSearchFeatures, value, isFocused) <==>
              && showSearchFeatures
              && (exists k :: 0 <= k < |value| && !IsWs(value[k]))
              && !Matches(Trim(value))
              && isFocused
  {
    showSearchFeatures && Trim(value) != [] && !IsURL(value) && isFocused
  }

  /** The submit button is disabled while the value is blank. */
  predicate SubmitDisabled(value: string)
    ensures SubmitDisabled(value) <==> forall k :: 0 <= k < |value| ==> IsWs(value[k])
  {
    Trim(value) == []
  }

  datatype KeyPress = KeyPress(key: string, shiftKey: bool)

  /** What `handleKeyDown` does, in order. */
  datatype Effect = PreventDefault | Submit

  /** Enter without Shift stops the newline and submits; anything else falls
      through to the text area. */
  function HandleKeyDown(e: KeyPress): (effects: seq<Effect>)
    ensures multiset(effects)[Submit] == (if e.key == "Enter" && !e.shiftKey then 1 else 0)
    ensures PreventDefault in effects <==> Submit in effects
    ensures multiset(effects)[PreventDefault] == multiset(effects)[Submit]
    ensures Submit in effects ==> effects[0] == PreventDefault
  {
    if e.key == "Enter" && !e.shiftKey then [PreventDefault, Submit] else []
  }

  /** Without search features the input never counts as a URL and the tiles
      never show. */
  lemma NoSearchFeatures(value: string, isFocused: bool)
    ensures !IsURLInput(false, value) && !ShowTiles(false, value, isFocused)
  {
  }

  /** The tiles and the link icon never show together, and a URL is never blank,
      so the link icon implies an enabled submit button. */
  lemma TilesAndLinkExclusive(showSearchFeatures: bool, value: string, isFocused: bool)
    ensures !(ShowTiles(showSearchFeatures, value, isFocused) && IsURLInput(showSearchFeatures, value))
    ensures IsURLInput(showSearchFeatures, value) ==> !SubmitDisabled(value)
  {
  }
}
