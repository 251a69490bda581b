/** The jersey style picker over the style table. */
module StyleSelector {
  import opened Wrappers
  import opened Selection
  import opened Jersey

  /** What a press on `style` passes to `onStyleChange`. */
  function PressStyle(selected: Option<string>, style: JerseyStyle): (r: Option<string>)
    ensures r == None <==> selected == Some(style.id)
    ensures r != None ==> r == Some(style.id)
  {
    Toggle(selected, style.id)
  }

  /** The styles drawn highlighted: at most one, the one whose id is selected. */
  function HighlightedStyles(selected: Option<string>): (r: seq<JerseyStyle>)
    ensures |r| <= 1
    ensures forall s :: s in r <==> s in JerseyStyles && IsHighlighted(selected, s.id)
  {
    StyleIdsAreDistinct();
    Highlighted(JerseyStyles, (s: JerseyStyle) => s.id, selected)
  }
}
