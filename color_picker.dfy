/**
 * The custom-palette builder: a palette name, a list of at most five distinct
 * colour strings, and a custom-colour input that always starts with '#'.
 * The accepted custom colour is the six-digit `#RRGGBB` form of section 5.2
 * of CSS Color Module Level 4, as the pattern `^#[0-9A-Fa-f]{6}$` states.
 */
module ColorPicker {
  import opened Wrappers
  import opened JsText
  import opened Seqs

  const MaxColors := 5
  const MinColors := 2

  predicate IsHexDigit(c: char) {
    '0' <= c <= '9' || 'A' <= c <= 'F' || 'a' <= c <= 'f'
  }

  /** `HEX_COLOR_REGEX.test(s)`: '#' and six hex digits, seven characters in all. */
  predicate IsHexColor(s: string): (b: bool)
    ensures b ==> |s| == 7 && s[0] == '#'
  {
    |s| == 7 && s[0] == '#' && forall k :: 1 <= k < 7 ==> IsHexDigit(s[k])
  }

  /** The digit class takes both cases, so a matching string still matches once its
      letters are upper- or lower-cased. */
  lemma HexColorIgnoresCase(s: string)
    ensures IsHexColor(s) ==> IsHexColor(Upper(s)) && IsHexColor(Lower(s))
  {
  }

  const PresetColors: seq<string> := [
    "#FF0000", "#FF4500", "#FF8C00", "#FFD700", "#FFFF00",
    "#00FF00", "#00CED1", "#00BFFF", "#0000FF", "#8A2BE2",
    "#FF00FF", "#FF1493", "#FFFFFF", "#808080", "#000000"
  ]

  /** Every preset is a valid hex colour, and no preset is listed twice. */
  lemma PresetColorsAreHex()
    ensures forall c :: c in PresetColors ==> IsHexColor(c)
    ensures Distinct(PresetColors)
  {
  }

  /** The custom input's onChangeText: text typed with its '#' is upper-cased, text
      without one gets a '#' in front and keeps its case. */
  function NormalizeHexInput(text: string): (r: string)
    ensures |r| >= 1 && r[0] == '#'
    ensures |text| > 0 && text[0] == '#' ==> r == Upper(text)
    ensures !(|text| > 0 && text[0] == '#') ==> r == "#" + text
  {
    if |text| > 0 && text[0] == '#' then Upper(text) else "#" + text
  }

  /** A valid colour typed with its '#' stays valid, in upper case; six hex digits typed
      without one become a valid colour as they are. */
  lemma NormalizeKeepsHexColors(text: string)
    ensures IsHexColor(text) ==> IsHexColor(NormalizeHexInput(text)) &&
                                 NormalizeHexInput(text) == Upper(text)
    ensures IsHexColor("#" + text) && !(|text| > 0 && text[0] == '#') ==>
              NormalizeHexInput(text) == "#" + text
  {
  }

  /** The duplicate check compares strings, so one colour can be chosen twice: "ff0000"
      typed without its '#' is kept in lower case ... */
  lemma LowerCaseInputKept()
    ensures NormalizeHexInput("ff0000") == "#ff0000" && IsHexColor("#ff0000")
  {
  }

  /** ... and differs from the preset "#FF0000", which names the same colour. */
  lemma SameColourTwoSpellings()
    ensures PresetColors[0] == "#FF0000" && "#ff0000" != PresetColors[0]
    ensures Lower("#ff0000") == Lower(PresetColors[0])
  {
    assert "#ff0000"[1] != "#FF0000"[1];
    assert Lower("#FF0000") == "#ff0000";
  }

  /** `selectedColors.filter((c) => c !== color)`. */
  function Without(colors: seq<string>, color: string): (r: seq<string>)
    ensures color !in r
    ensures forall c :: c in r <==> c in colors && c != color
    ensures IsSubsequence(r, colors)
    ensures Distinct(colors) ==> Distinct(r)
  {
    FilterDistinct(colors, c => c != color);
    Filter(colors, c => c != color)
  }

  /** The Create button's condition: a name that is not blank and at least two colours. */
  function CanCreate(name: string, colors: seq<string>): (b: bool)
    ensures b <==> !AllWhitespace(name) && |colors| >= MinColors
  {
    Trim(name) != "" && |colors| >= MinColors
  }

  /** What Create hands to `onCreatePalette`. */
  datatype CustomPalette = CustomPalette(name: string, colors: seq<string>)

  class PaletteBuilder {
    var paletteName: string
    var selectedColors: seq<string>
    var customColor: string

    /** At most five colours, none twice, and a custom input that starts with '#'. */
    predicate Valid()
      reads this
    {
      && |selectedColors| <= MaxColors
      && Distinct(selectedColors)
      && |customColor| >= 1 && customColor[0] == '#'
    }

    constructor ()
      ensures Valid()
      ensures paletteName == "" && selectedColors == [] && customColor == "#"
    {
      paletteName, selectedColors, customColor := "", [], "#";
    }

    method Reset()
      modifies this
      ensures Valid()
      ensures paletteName == "" && selectedColors == [] && customColor == "#"
    {
      paletteName := "";
      selectedColors := [];
      customColor := "#";
    }

    /** A preset was tapped: appended when there is room and it is not already chosen. */
    method AddColor(color: string)
      requires Valid()
      modifies this`selectedColors
      ensures Valid()
      ensures selectedColors ==
                if |old(selectedColors)| < MaxColors && color !in old(selectedColors)
                then old(selectedColors) + [color] else old(selectedColors)
    {
      if |selectedColors| < MaxColors && color !in selectedColors {
        selectedColors := selectedColors + [color];
      }
    }

    /** A chosen colour was tapped: it leaves the list and the rest keep their order. */
    method RemoveColor(color: string)
      requires Valid()
      modifies this`selectedColors
      ensures Valid()
      ensures selectedColors == Without(old(selectedColors), color)
    {
      selectedColors := Without(selectedColors, color);
    }

    /** The Add button: the custom colour is appended, and the input reset, only when it
        is a valid hex colour, not yet chosen, and there is room. */
    method AddCustomColor()
      requires Valid()
      modifies this`selectedColors, this`customColor
      ensures Valid()
      ensures var accepted := IsHexColor(old(customColor)) && old(customColor) !in old(selectedColors)
                              && |old(selectedColors)| < MaxColors;
              && (accepted ==> selectedColors == old(selectedColors) + [old(customColor)] && customColor == "#")
              && (!accepted ==> selectedColors == old(selectedColors) && customColor == old(customColor))
    {
      if IsHexColor(customColor) && customColor !in selectedColors && |selectedColors| < MaxColors {
        selectedColors := selectedColors + [customColor];
        customColor := "#";
      }
    }

    /** The Create button: hands over the trimmed name and the colours, then resets. The
        dialog's `onClose()` follows the handover, so `emitted.Some?` also stands for the
        close; when nothing is handed over the dialog stays open. */
    method Create() returns (emitted: Option<CustomPalette>)
      requires Valid()
      modifies this
      ensures Valid()
      ensures emitted.Some? <==> CanCreate(old(paletteName), old(selectedColors))
      ensures emitted.Some? ==>
                && emitted.value == CustomPalette(Trim(old(paletteName)), old(selectedColors))
                && paletteName == "" && selectedColors == [] && customColor == "#"
      ensures emitted.None? ==>
                && paletteName == old(paletteName) && selectedColors == old(selectedColors)
                && customColor == old(customColor)
    {
      if Trim(paletteName) != "" && |selectedColors| >= MinColors {
        emitted := Some(CustomPalette(Trim(paletteName), selectedColors));
        Reset();
      } else {
        emitted := None;
      }
    }

    /** The name input's onChangeText. */
    method SetPaletteName(text: string)
      requires Valid()
      modifies this`paletteName
      ensures Valid()
      ensures paletteName == text
    {
      paletteName := text;
    }

    /** The custom input's onChangeText. */
    method OnCustomColorChange(text: string)
      requires Valid()
      modifies this`customColor
      ensures Valid()
      ensures customColor == NormalizeHexInput(text)
    {
      if |text| > 0 && text[0] == '#' {
        customColor := Upper(text);
      } else {
        customColor := "#" + text;
      }
    }
  }
}
