/** The colour lookup used to paint a timeline item. */
module TimelineItemHelpers {
  import opened ColorSchemes

  datatype Colors = Colors(background: string, border: string)

  /**
   * Background and border of a colour scheme. "secondary" and "tertiary"
   * have their own pair; every other name (including "primary", an unknown
   * name and the empty string that stands for an absent scheme) falls back
   * to the primary pair.
   */
  function GetColorProperties(colorScheme: string): (c: Colors)
    ensures colorScheme == "secondary" ==> c == Colors("#e1f5fe", "#81d4fa")
    ensures colorScheme == "tertiary" ==> c == Colors("#e8eaf6", "#9fa8da")
    ensures colorScheme != "secondary" && colorScheme != "tertiary" ==> c == Colors("#e3f2fd", "#b3e5fc")
  {
    var background, border := "#e3f2fd", "#b3e5fc";
    if colorScheme == "secondary" then Colors("#e1f5fe", "#81d4fa")
    else if colorScheme == "tertiary" then Colors("#e8eaf6", "#9fa8da")
    else Colors(background, border)
  }

  /** The hard-coded pairs agree with the palette, entry by entry. */
  lemma ColorPropertiesMatchPalette(i: nat)
    requires i < |Palette|
    ensures GetColorProperties(Palette[i].name) == Colors(Palette[i].background, Palette[i].border)
  {
  }

  /** Names outside the palette get the first palette entry's colours. */
  lemma UnknownSchemeIsPrimary(colorScheme: string)
    requires IndexOf(colorScheme) == -1
    ensures GetColorProperties(colorScheme) == Colors(Palette[0].background, Palette[0].border)
  {
    assert Palette[1].name == "secondary" && Palette[2].name == "tertiary";
  }
}
