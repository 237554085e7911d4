/** The widget configuration accepted by `configure` and its defaulting rules. */
module Settings {
  import opened Options

  datatype Position = BottomRight | BottomLeft

  /** The string value of the `Position` enum. */
  function PositionName(p: Position): (s: string)
    ensures s == "bottom-right" || s == "bottom-left"
    ensures s == "bottom-right" <==> p == BottomRight
  {
    match p
    case BottomRight => "bottom-right"
    case BottomLeft => "bottom-left"
  }

  /** A `HeapchatConfig`; only `apiKey` is mandatory. */
  datatype Config = Config(
    apiKey: string,
    position: Option<Position>,
    supportImage: Option<string>,
    showToggleButton: Option<bool>)

  /** `config.position || Position.BOTTOM_RIGHT`. */
  function PositionOrDefault(p: Option<Position>): (r: Position)
    ensures p.Some? ==> r == p.value
    ensures p.None? ==> r == BottomRight
  {
    match p
    case Some(q) => q
    case None => BottomRight
  }

  /** `config.showToggleButton !== false`: only an explicit `false` hides the button. */
  function ToggleButtonVisible(show: Option<bool>): (visible: bool)
    ensures visible <==> show != Some(false)
  {
    match show
    case Some(b) => b
    case None => true
  }
}
