/**
 * The constant tables of the jersey creator: team colours for pre-filling,
 * the preset colour palettes and the jersey styles.
 */
module Jersey {
  import opened ColorPicker
  import opened Selection

  datatype TeamColors = TeamColors(name: string, primaryColor: string, secondaryColor: string, style: string)

  datatype ColorPalette = ColorPalette(id: string, name: string, colors: seq<string>)

  datatype JerseyStyle = JerseyStyle(id: string, name: string, icon: string)

  const TeamData: map<string, TeamColors> := map[
    "real-madrid" := TeamColors("Real Madrid", "#FFFFFF", "#00529F", "classic white with blue accents"),
    "barcelona" := TeamColors("Barcelona", "#A50044", "#004D98", "red and blue stripes"),
    "man-united" := TeamColors("Man United", "#DA291C", "#FBE122", "classic red with gold details"),
    "liverpool" := TeamColors("Liverpool", "#C8102E", "#00B2A9", "vibrant red with teal accents"),
    "bayern" := TeamColors("Bayern Munich", "#DC052D", "#0066B2", "bold red with blue trim"),
    "psg" := TeamColors("Paris SG", "#004170", "#DA291C", "navy blue with red stripe"),
    "juventus" := TeamColors("Juventus", "#000000", "#FFFFFF", "black and white stripes"),
    "portugal" := TeamColors("Portugal", "#006600", "#FF0000", "green and red national colors")
  ]

  const ColorPalettes: seq<ColorPalette> := [
    ColorPalette("classic", "Classic", ["#FFFFFF", "#000000", "#C8102E"]),
    ColorPalette("ocean", "Ocean", ["#0077B6", "#00B4D8", "#90E0EF"]),
    ColorPalette("sunset", "Sunset", ["#FF6B6B", "#FFA500", "#FFE66D"]),
    ColorPalette("forest", "Forest", ["#2D5A27", "#52B788", "#95D5B2"]),
    ColorPalette("royal", "Royal", ["#5E548E", "#9F86C0", "#BE95C4"]),
    ColorPalette("neon", "Neon", ["#FF00FF", "#00FFFF", "#39FF14"])
  ]

  const JerseyStyles: seq<JerseyStyle> := [
    JerseyStyle("classic", "Classic", "shirt-outline"),
    JerseyStyle("modern", "Modern", "flash-outline"),
    JerseyStyle("retro", "Retro", "time-outline"),
    JerseyStyle("minimalist", "Minimal", "remove-outline"),
    JerseyStyle("bold", "Bold", "bonfire-outline"),
    JerseyStyle("gradient", "Gradient", "color-fill-outline")
  ]

  lemma PaletteIdsAreDistinct()
    ensures IdsDistinct(ColorPalettes, (p: ColorPalette) => p.id)
  {
  }

  lemma StyleIdsAreDistinct()
    ensures IdsDistinct(JerseyStyles, (s: JerseyStyle) => s.id)
  {
  }

  /** Every preset palette has three colours, each a six-digit hex colour. */
  lemma PalettesAreThreeHexColors()
    ensures forall p :: p in ColorPalettes ==>
              |p.colors| == 3 && forall c :: c in p.colors ==> IsHexColor(c)
  {
    forall p | p in ColorPalettes
      ensures |p.colors| == 3 && forall c :: c in p.colors ==> IsHexColor(c)
    {
      var i :| 0 <= i < |ColorPalettes| && ColorPalettes[i] == p;
      forall k | 0 <= k < 3 ensures IsHexColor(ColorPalettes[i].colors[k]) {
        HexColorTable(i, k);
      }
    }
  }

  lemma HexColorTable(i: nat, k: nat)
    requires i < |ColorPalettes| && k < 3
    ensures |ColorPalettes[i].colors| == 3 && IsHexColor(ColorPalettes[i].colors[k])
  {
  }

  /** Every team's two colours are six-digit hex colours. */
  lemma TeamColorsAreHex()
    ensures forall key :: key in TeamData ==>
              IsHexColor(TeamData[key].primaryColor) && IsHexColor(TeamData[key].secondaryColor)
  {
    forall key | key in TeamData
      ensures IsHexColor(TeamData[key].primaryColor) && IsHexColor(TeamData[key].secondaryColor)
    {
      TeamEntryHex(key);
    }
  }

  lemma TeamEntryHex(key: string)
    requires key in TeamData
    ensures IsHexColor(TeamData[key].primaryColor) && IsHexColor(TeamData[key].secondaryColor)
  {
    if key == "real-madrid" {
    } else if key == "barcelona" {
    } else if key == "man-united" {
    } else if key == "liverpool" {
    } else if key == "bayern" {
    } else if key == "psg" {
    } else if key == "juventus" {
    } else {
      assert key == "portugal";
    }
  }
}
