/** The preset colour-palette picker over the palette table. */
module PaletteSelector {
  import opened Wrappers
  import opened Selection
  import opened Jersey

  /** What a press on `palette` passes to `onPaletteChange`. */
  function PressPalette(selected: Option<string>, palette: ColorPalette): (r: Option<string>)
    ensures r == None <==> selected == Some(palette.id)
    ensures r != None ==> r == Some(palette.id)
  {
    Toggle(selected, palette.id)
  }

  /** The palettes drawn highlighted: exactly those whose id is the selected one, so at most one. */
  function HighlightedPalettes(selected: Option<string>): (r: seq<ColorPalette>)
    ensures |r| <= 1
    ensures forall p :: p in r <==> p in ColorPalettes && IsHighlighted(selected, p.id)
  {
    PaletteIdsAreDistinct();
    Highlighted(ColorPalettes, (p: ColorPalette) => p.id, selected)
  }
}
