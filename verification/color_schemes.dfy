/** The fixed palette of item colour schemes, in palette order. */
module ColorSchemes {

  datatype Scheme = Scheme(name: string, background: string, border: string, hoverShadow: string)

  const Palette: seq<Scheme> := [
    Scheme("primary", "#e3f2fd", "#b3e5fc", "0 2px 6px rgba(33, 150, 243, 0.3)"),
    Scheme("secondary", "#e1f5fe", "#81d4fa", "0 2px 6px rgba(3, 169, 244, 0.3)"),
    Scheme("tertiary", "#e8eaf6", "#9fa8da", "0 2px 6px rgba(63, 81, 181, 0.3)")
  ]

  /** Index of the first scheme at or after `k` called `name`, or -1 (`findIndex`). */
  function IndexFrom(name: string, k: nat): (r: int)
    requires k <= |Palette|
    ensures r == -1 || k <= r < |Palette|
    ensures r >= 0 ==> Palette[r].name == name
    ensures r >= 0 ==> forall j :: k <= j < r ==> Palette[j].name != name
    ensures r == -1 ==> forall j :: k <= j < |Palette| ==> Palette[j].name != name
    decreases |Palette| - k
  {
    if k == |Palette| then -1
    else if Palette[k].name == name then k
    else IndexFrom(name, k + 1)
  }

  /** `COLOR_SCHEMES.findIndex(cs => cs.name === name)`. */
  function IndexOf(name: string): (r: int)
    ensures -1 <= r < |Palette|
    ensures r >= 0 ==> Palette[r].name == name
    ensures r >= 0 ==> forall j :: 0 <= j < r ==> Palette[j].name != name
    ensures r == -1 <==> forall j :: 0 <= j < |Palette| ==> Palette[j].name != name
  {
    IndexFrom(name, 0)
  }
}
