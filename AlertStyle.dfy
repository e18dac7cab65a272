/**
 * The style resolver: the `theme` / `type` switch that fills the local `uiSettings`
 * object with the icon classes and the box classes of one alert.
 */
module AlertStyle {

  /** The resolved `uiSettings`: the icon's classes and the alert box's classes. */
  datatype Style = Style(icon: string, boxClass: string)

  /** The alert types the switch knows; any other falls back to `info`. */
  const KnownTypes: set<string> := {"error", "info", "success", "warning"}

  /** What `uiSettings` starts as, and stays when the theme is not recognised. */
  const Unstyled: Style := Style("", "")

  /** The `immersive` branch of the switch. */
  function ImmersiveStyle(alertType: string): Style
  {
    match alertType
    case "error" => Style("remove circle icon", "ui icon message suiAlert-container__error")
    case "info" => Style("info circle icon", "ui icon message suiAlert-container__info")
    case "success" => Style("check circle icon", "ui icon message suiAlert-container__success")
    case "warning" => Style("warning circle icon", "ui icon message suiAlert-container__warning")
    case _ => Style("info circle icon", "ui icon message suiAlert-container__info")
  }

  /** The `basic` branch of the switch. */
  function BasicStyle(alertType: string): Style
  {
    match alertType
    case "error" => Style("remove circle icon", "ui negative icon message")
    case "info" => Style("info circle icon", "ui info icon message")
    case "success" => Style("check circle icon", "ui positive icon message")
    case "warning" => Style("warning circle icon", "ui warning icon message")
    case _ => Style("info circle icon", "ui info icon message")
  }

  /**
   * The whole resolver. Total: an unknown theme leaves both strings empty, and a
   * known theme always yields a non-empty icon and box class.
   */
  function ResolveStyle(theme: string, alertType: string): (r: Style)
    ensures theme != "immersive" && theme != "basic" ==> r == Unstyled
    ensures theme == "immersive" || theme == "basic" ==> r.icon != "" && r.boxClass != ""
  {
    if theme == "immersive" then ImmersiveStyle(alertType)
    else if theme == "basic" then BasicStyle(alertType)
    else Unstyled
  }

  /** The `immersive` table, written as data rather than as a switch. */
  const ImmersiveTable: map<string, Style> := map[
    "error" := Style("remove circle icon", "ui icon message suiAlert-container__error"),
    "info" := Style("info circle icon", "ui icon message suiAlert-container__info"),
    "success" := Style("check circle icon", "ui icon message suiAlert-container__success"),
    "warning" := Style("warning circle icon", "ui icon message suiAlert-container__warning")]

  /** The `basic` table, written as data rather than as a switch. */
  const BasicTable: map<string, Style> := map[
    "error" := Style("remove circle icon", "ui negative icon message"),
    "info" := Style("info circle icon", "ui info icon message"),
    "success" := Style("check circle icon", "ui positive icon message"),
    "warning" := Style("warning circle icon", "ui warning icon message")]

  /** Looks a type up in a table, falling back to the table's `info` entry. */
  function LookUp(table: map<string, Style>, alertType: string): Style
    requires "info" in table
  {
    if alertType in table then table[alertType] else table["info"]
  }

  /** The switch agrees with the tables for both themes and every type string. */
  lemma ResolveMatchesTables(alertType: string)
    ensures ImmersiveTable.Keys == BasicTable.Keys == KnownTypes
    ensures ResolveStyle("immersive", alertType) == LookUp(ImmersiveTable, alertType)
    ensures ResolveStyle("basic", alertType) == LookUp(BasicTable, alertType)
  {
  }

  /** A type outside the four known ones resolves exactly as `info` does, in any theme. */
  lemma UnknownTypeIsInfo(theme: string, alertType: string)
    requires alertType !in KnownTypes
    ensures ResolveStyle(theme, alertType) == ResolveStyle(theme, "info")
  {
  }

  /** Both themes use the same icon for a type; only the box class tells them apart. */
  lemma ThemesShareIcons(alertType: string)
    ensures ResolveStyle("immersive", alertType).icon == ResolveStyle("basic", alertType).icon
    ensures ResolveStyle("immersive", alertType).boxClass != ResolveStyle("basic", alertType).boxClass
  {
  }

  /** Within a known theme, the four known types get four different box classes. */
  lemma KnownTypesAreDistinguished(theme: string, t1: string, t2: string)
    requires theme == "immersive" || theme == "basic"
    requires t1 in KnownTypes && t2 in KnownTypes && t1 != t2
    ensures ResolveStyle(theme, t1).boxClass != ResolveStyle(theme, t2).boxClass
  {
  }
}
