/** `AppTheme` and the theme picker of `ThemeSettingView`, which stores the chosen
    theme's raw string under "selectedTheme". */
module Theme {
  import opened Wrappers

  datatype AppTheme = System | Light | Dark

  /** `AppTheme.allCases`. */
  const AllThemes: seq<AppTheme> := [System, Light, Dark]

  function RawValue(t: AppTheme): string {
    match t
    case System => "system"
    case Light => "light"
    case Dark => "dark"
  }

  /** `AppTheme(rawValue:)`. */
  function FromRawValue(s: string): (r: Option<AppTheme>)
    ensures r.Some? ==> RawValue(r.value) == s
    ensures forall t :: RawValue(t) == s ==> r == Some(t)
  {
    if s == "system" then Some(System)
    else if s == "light" then Some(Light)
    else if s == "dark" then Some(Dark)
    else None
  }

  /** `id` (Identifiable): the raw value, which tells the cases apart. */
  function Id(t: AppTheme): (r: string)
    ensures forall u :: RawValue(u) == r ==> u == t
    ensures FromRawValue(r) == Some(t)
  {
    RawValue(t)
  }

  /** The picker's label for the theme. */
  function DisplayName(t: AppTheme): string {
    match t
    case System => "Sistem Ayarları"
    case Light => "Açık Tema"
    case Dark => "Koyu Tema"
  }

  /** `allCases` lists the three themes once each; their raw values round-trip and
      their labels are pairwise distinct. */
  lemma ThemeTables(t: AppTheme, u: AppTheme)
    ensures |AllThemes| == 3 && t in AllThemes
    ensures forall i, j :: 0 <= i < j < |AllThemes| ==> AllThemes[i] != AllThemes[j]
    ensures FromRawValue(RawValue(t)) == Some(t)
    ensures RawValue(t) == RawValue(u) <==> t == u
    ensures DisplayName(t) == DisplayName(u) <==> t == u
  {
  }

  class ThemeSettingView {
    /** `@AppStorage("selectedTheme")`. */
    var selectedThemeRaw: string

    /** Opening the view reads the "selectedTheme" entry `stored`; the raw value of
        `.system` is the default used only when the key is absent. */
    constructor (stored: Option<string>)
      ensures selectedThemeRaw == stored.GetOr(RawValue(System))
      ensures stored.None? ==> Selected() == System
      ensures forall t :: stored == Some(RawValue(t)) ==> Selected() == t
    {
      selectedThemeRaw := stored.GetOr(RawValue(System));
    }

    /** The binding's getter: the stored theme, or `.system` when the stored string
        names no theme. */
    function Selected(): (t: AppTheme)
      reads this
      ensures RawValue(t) == selectedThemeRaw || (t == System && forall u :: RawValue(u) != selectedThemeRaw)
    {
      FromRawValue(selectedThemeRaw).GetOr(System)
    }

    /** The binding's setter: stores the raw value, so the getter then returns the
        theme just chosen. */
    method Select(t: AppTheme)
      modifies this
      ensures selectedThemeRaw == RawValue(t)
      ensures Selected() == t
    {
      selectedThemeRaw := RawValue(t);
    }
  }
}
