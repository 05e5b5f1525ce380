/**
 * The direction vocabulary and the command translator: the `switch` over the
 * ten PTZ_CMD_* strings that fills a pan/tilt Vector2D and a zoom Vector1D.
 * Translate is the table of both OperatingCamera copies (scaled by the
 * caller's speed); FixedTranslate is the table of TestDevice, with fixed
 * magnitudes 0.2 and, for zooming out, 0.21.
 */
module Ptz {
  import opened Onvif

  datatype Direction =
    | Left | Right | Up | Down
    | LeftUp | LeftDown | RightUp | RightDown
    | ZoomIn | ZoomOut

  const PanTiltSpace: string := "http://www.onvif.org/ver10/tptz/PanTiltSpaces/PositionGenericSpace"
  const ZoomSpace: string := "http://www.onvif.org/ver10/tptz/ZoomSpaces/PositionGenericSpace"

  /** DirectionEnum.name(): the command string callers pass. */
  function CommandName(d: Direction): string {
    match d
    case Left => "PTZ_CMD_LEFT"
    case Right => "PTZ_CMD_RIGHT"
    case Up => "PTZ_CMD_UP"
    case Down => "PTZ_CMD_DOWN"
    case LeftUp => "PTZ_CMD_LEFTUP"
    case LeftDown => "PTZ_CMD_LEFTDOWN"
    case RightUp => "PTZ_CMD_RIGHTUP"
    case RightDown => "PTZ_CMD_RIGHTDOWN"
    case ZoomIn => "PTZ_CMD_ZOOM_IN"
    case ZoomOut => "PTZ_CMD_ZOOM_OUT"
  }

  /** Which `case` label of the switch a string selects; None for the `default` branch. */
  function ParseCommand(s: string): (r: Option<Direction>)
    ensures r.Some? ==> CommandName(r.value) == s
  {
    if s == "PTZ_CMD_LEFT" then Some(Left)
    else if s == "PTZ_CMD_RIGHT" then Some(Right)
    else if s == "PTZ_CMD_UP" then Some(Up)
    else if s == "PTZ_CMD_DOWN" then Some(Down)
    else if s == "PTZ_CMD_LEFTUP" then Some(LeftUp)
    else if s == "PTZ_CMD_LEFTDOWN" then Some(LeftDown)
    else if s == "PTZ_CMD_RIGHTUP" then Some(RightUp)
    else if s == "PTZ_CMD_RIGHTDOWN" then Some(RightDown)
    else if s == "PTZ_CMD_ZOOM_IN" then Some(ZoomIn)
    else if s == "PTZ_CMD_ZOOM_OUT" then Some(ZoomOut)
    else None
  }

  /** Every direction's name selects that direction's case. */
  lemma ParseCommandName(d: Direction)
    ensures ParseCommand(CommandName(d)) == Some(d)
  {
  }

  /** The sign table of the command vocabulary: pan, tilt and zoom factors in {-1, 0, 1}. */
  function PanSign(d: Direction): int {
    match d
    case Left | LeftUp | LeftDown => -1
    case Right | RightUp | RightDown => 1
    case _ => 0
  }

  function TiltSign(d: Direction): int {
    match d
    case Up | LeftUp | RightUp => 1
    case Down | LeftDown | RightDown => -1
    case _ => 0
  }

  function ZoomSign(d: Direction): int {
    match d
    case ZoomIn => 1
    case ZoomOut => -1
    case _ => 0
  }

  predicate IsZoom(d: Direction) {
    d == ZoomIn || d == ZoomOut
  }

  /** The direction with every sign reversed. */
  function Opposite(d: Direction): Direction {
    match d
    case Left => Right
    case Right => Left
    case Up => Down
    case Down => Up
    case LeftUp => RightDown
    case RightDown => LeftUp
    case LeftDown => RightUp
    case RightUp => LeftDown
    case ZoomIn => ZoomOut
    case ZoomOut => ZoomIn
  }

  /** Whether the switch reads the boxed speed (every `case` does, `default` does not), so a null speed throws. */
  predicate NeedsSpeed(direction: string) {
    ParseCommand(direction).Some?
  }

  /** The speed vectors before the switch has set anything. */
  function Unset(): PtzSpeed {
    PtzSpeed(Vector2D(PanTiltSpace, None, None), Vector1D(ZoomSpace, None))
  }

  /** The switch of executeContinuousMove, speedValue = s. */
  function Translate(direction: string, s: real): (r: PtzSpeed)
    ensures r.panTilt.space == PanTiltSpace && r.zoom.space == ZoomSpace
  {
    var xy, z := Unset().panTilt, Unset().zoom;
    match ParseCommand(direction)
    case None => PtzSpeed(xy, z)
    case Some(Left) => PtzSpeed(xy.(x := Some(-s), y := Some(0.0)), z)
    case Some(Right) => PtzSpeed(xy.(x := Some(s), y := Some(0.0)), z)
    case Some(Up) => PtzSpeed(xy.(x := Some(0.0), y := Some(s)), z)
    case Some(Down) => PtzSpeed(xy.(x := Some(0.0), y := Some(-s)), z)
    case Some(LeftUp) => PtzSpeed(xy.(x := Some(-s), y := Some(s)), z)
    case Some(LeftDown) => PtzSpeed(xy.(x := Some(-s), y := Some(-s)), z)
    case Some(RightUp) => PtzSpeed(xy.(x := Some(s), y := Some(s)), z)
    case Some(RightDown) => PtzSpeed(xy.(x := Some(s), y := Some(-s)), z)
    case Some(ZoomIn) => PtzSpeed(xy.(x := Some(0.0), y := Some(0.0)), z.(x := Some(s)))
    case Some(ZoomOut) => PtzSpeed(xy.(x := Some(0.0), y := Some(0.0)), z.(x := Some(-s)))
  }

  /** Every recognised command sets pan and tilt to its sign times s, and zoom only for the two zoom commands. */
  lemma TranslateFollowsSignTable(d: Direction, s: real)
    ensures Translate(CommandName(d), s).panTilt.x == Some(PanSign(d) as real * s)
    ensures Translate(CommandName(d), s).panTilt.y == Some(TiltSign(d) as real * s)
    ensures Translate(CommandName(d), s).zoom.x == if IsZoom(d) then Some(ZoomSign(d) as real * s) else None
  {
    ParseCommandName(d);
    assert 0 as real * s == 0.0 && 1 as real * s == s && -1 as real * s == -s;
  }

  /** An unrecognised command sets no component, whatever the speed. */
  lemma TranslateUnknown(direction: string, s: real)
    requires ParseCommand(direction).None?
    ensures Translate(direction, s) == Unset()
    ensures Wire(Translate(direction, s).panTilt.x) == 0.0
    ensures Wire(Translate(direction, s).panTilt.y) == 0.0
    ensures Wire(Translate(direction, s).zoom.x) == 0.0
  {
  }

  /** Negating the speed is the same as sending the opposite command. */
  lemma TranslateNegatedSpeed(d: Direction, s: real)
    ensures Translate(CommandName(d), -s) == Translate(CommandName(Opposite(d)), s)
  {
    ParseCommandName(d);
    ParseCommandName(Opposite(d));
  }

  /** For a speed in [0, 1] every wire component lies in [-1, 1] and has magnitude at most s. */
  lemma TranslateBounded(direction: string, s: real)
    requires 0.0 <= s <= 1.0
    ensures var r := Translate(direction, s);
      && -s <= Wire(r.panTilt.x) <= s && -s <= Wire(r.panTilt.y) <= s && -s <= Wire(r.zoom.x) <= s
      && -1.0 <= Wire(r.panTilt.x) <= 1.0 && -1.0 <= Wire(r.panTilt.y) <= 1.0 && -1.0 <= Wire(r.zoom.x) <= 1.0
  {
  }

  /** The switch of TestDevice.executeContinuousMove: fixed magnitudes instead of a speed. */
  function FixedTranslate(direction: string): (r: PtzSpeed)
    ensures r.panTilt.space == PanTiltSpace && r.zoom.space == ZoomSpace
  {
    var xy, z := Unset().panTilt, Unset().zoom;
    match ParseCommand(direction)
    case None => PtzSpeed(xy, z)
    case Some(Left) => PtzSpeed(xy.(x := Some(-0.2), y := Some(0.0)), z)
    case Some(Right) => PtzSpeed(xy.(x := Some(0.2), y := Some(0.0)), z)
    case Some(Up) => PtzSpeed(xy.(x := Some(0.0), y := Some(0.2)), z)
    case Some(Down) => PtzSpeed(xy.(x := Some(0.0), y := Some(-0.2)), z)
    case Some(LeftUp) => PtzSpeed(xy.(x := Some(-0.2), y := Some(0.2)), z)
    case Some(LeftDown) => PtzSpeed(xy.(x := Some(-0.2), y := Some(-0.2)), z)
    case Some(RightUp) => PtzSpeed(xy.(x := Some(0.2), y := Some(0.2)), z)
    case Some(RightDown) => PtzSpeed(xy.(x := Some(0.2), y := Some(-0.2)), z)
    case Some(ZoomIn) => PtzSpeed(xy.(x := Some(0.0), y := Some(0.0)), z.(x := Some(0.2)))
    case Some(ZoomOut) => PtzSpeed(xy.(x := Some(0.0), y := Some(0.0)), z.(x := Some(-0.21)))
  }

  /** Apart from zooming out, the fixed table is the scaled table at speed 0.2. */
  lemma FixedIsScaledTable(direction: string)
    requires direction != CommandName(ZoomOut)
    ensures FixedTranslate(direction) == Translate(direction, 0.2)
  {
  }

  /** Zooming out uses -0.21, so the fixed zoom-in and zoom-out are not opposite. */
  lemma FixedZoomAsymmetric()
    ensures FixedTranslate(CommandName(ZoomOut)).zoom.x == Some(-0.21)
    ensures FixedTranslate(CommandName(ZoomOut)) != Translate(CommandName(ZoomOut), 0.2)
    ensures Wire(FixedTranslate(CommandName(ZoomIn)).zoom.x) + Wire(FixedTranslate(CommandName(ZoomOut)).zoom.x) != 0.0
  {
    ParseCommandName(ZoomIn);
    ParseCommandName(ZoomOut);
  }
}
