/**
  The string dispatchers of TestEngine: pressKey, click and longClick with a corner,
  swipe with a direction, and setOrientation. Each lower-cases its argument and picks one
  device call by comparing it with fixed names; an unrecognised name makes no device call.
  The device call itself is opaque: a dispatcher yields the call it would make, or None.
*/
module Dispatch {

  datatype Option<+T> = None | Some(value: T)

  /** Character.toLowerCase on the ASCII letters. */
  function LowerChar(c: char): char
  {
    if 'A' <= c <= 'Z' then (c as int - 'A' as int + 'a' as int) as char else c
  }

  /** String.toLowerCase. */
  function ToLower(s: string): (r: string)
    ensures |r| == |s|
    ensures forall i :: 0 <= i < |s| ==> r[i] == LowerChar(s[i])
  {
    if s == [] then [] else [LowerChar(s[0])] + ToLower(s[1..])
  }

  /** Equal up to ASCII case. */
  predicate EqualsIgnoreCase(a: string, b: string)
  {
    |a| == |b| && forall i :: 0 <= i < |a| ==> LowerChar(a[i]) == LowerChar(b[i])
  }

  /** Strings equal up to case lower-case to the same string. */
  lemma LowerOfEqualsIgnoreCase(a: string, b: string)
    requires EqualsIgnoreCase(a, b)
    ensures ToLower(a) == ToLower(b)
  {
    assert forall i :: 0 <= i < |a| ==> ToLower(a)[i] == ToLower(b)[i];
  }

  // ---------------------------------------------------------------- pressKey

  /** android.view.KeyEvent key codes used by pressKey. */
  const KeycodeVolumeUp: int := 24
  const KeycodeVolumeDown: int := 25
  const KeycodePower: int := 26
  const KeycodeCamera: int := 27
  const KeycodeVolumeMute: int := 164

  /** The UiDevice key presses pressKey can make. */
  datatype KeyPress =
    | PressHome | PressBack | PressDPadLeft | PressDPadRight | PressDPadUp | PressDPadDown
    | PressDPadCenter | PressMenu | PressSearch | PressEnter | PressDelete | PressRecentApps
    | PressKeyCode(code: int)

  /** The names pressKey accepts, after lower-casing, and the press each one makes. */
  const KeyTable: map<string, KeyPress> := map[
    "home" := PressHome, "back" := PressBack,
    "left" := PressDPadLeft, "right" := PressDPadRight,
    "up" := PressDPadUp, "down" := PressDPadDown, "center" := PressDPadCenter,
    "menu" := PressMenu, "search" := PressSearch, "enter" := PressEnter,
    "delete" := PressDelete, "del" := PressDelete, "recent" := PressRecentApps,
    "volume_up" := PressKeyCode(KeycodeVolumeUp),
    "volume_down" := PressKeyCode(KeycodeVolumeDown),
    "volume_mute" := PressKeyCode(KeycodeVolumeMute),
    "camera" := PressKeyCode(KeycodeCamera),
    "power" := PressKeyCode(KeycodePower)]

  /** The if-chain of pressKey on an already lower-cased name: exactly the names of
      KeyTable are recognised, each with the press the table lists. */
  function PressOfLowerName(k: string): (r: Option<KeyPress>)
    ensures r == if k in KeyTable then Some(KeyTable[k]) else None
  {
    if k == "home" then Some(PressHome)
    else if k == "back" then Some(PressBack)
    else if k == "left" then Some(PressDPadLeft)
    else if k == "right" then Some(PressDPadRight)
    else if k == "up" then Some(PressDPadUp)
    else if k == "down" then Some(PressDPadDown)
    else if k == "center" then Some(PressDPadCenter)
    else if k == "menu" then Some(PressMenu)
    else if k == "search" then Some(PressSearch)
    else if k == "enter" then Some(PressEnter)
    else if k == "delete" || k == "del" then Some(PressDelete)
    else if k == "recent" then Some(PressRecentApps)
    else if k == "volume_up" then Some(PressKeyCode(KeycodeVolumeUp))
    else if k == "volume_down" then Some(PressKeyCode(KeycodeVolumeDown))
    else if k == "volume_mute" then Some(PressKeyCode(KeycodeVolumeMute))
    else if k == "camera" then Some(PressKeyCode(KeycodeCamera))
    else if k == "power" then Some(PressKeyCode(KeycodePower))
    else None
  }

  /** pressKey(key): the press made for `key`, or None (pressKey returns false). */
  function PressKeyCall(key: string): (r: Option<KeyPress>)
    ensures r.None? <==> ToLower(key) !in KeyTable
    ensures r == Some(PressKeyCode(KeycodePower)) <==> ToLower(key) == "power"
  {
    PressOfLowerName(ToLower(key))
  }

  // ---------------------------------------------------------------- click / longClick

  datatype Corner = BottomRight | TopLeft | Center

  /** The corner names click and longClick accept, after lower-casing. */
  const CornerTable: map<string, Corner> := map[
    "br" := BottomRight, "bottomright" := BottomRight,
    "tl" := TopLeft, "topleft" := TopLeft,
    "c" := Center, "center" := Center]

  /** The corner if-chain of click and longClick on an already lower-cased name: exactly
      the names of CornerTable are recognised. */
  function CornerOfLowerName(c: string): (r: Option<Corner>)
    ensures r == if c in CornerTable then Some(CornerTable[c]) else None
  {
    if c == "br" || c == "bottomright" then Some(BottomRight)
    else if c == "tl" || c == "topleft" then Some(TopLeft)
    else if c == "c" || c == "center" then Some(Center)
    else None
  }

  /** The corner of click(selector, corner) and longClick(selector, corner); a null corner
      (None) means "center". */
  function CornerOf(corner: Option<string>): (r: Option<Corner>)
    ensures corner.None? ==> r == Some(Center)
    ensures corner.Some? ==>
      r == (if ToLower(corner.value) in CornerTable then Some(CornerTable[ToLower(corner.value)]) else None)
  {
    CornerOfLowerName(ToLower(if corner.None? then "center" else corner.value))
  }

  /** The UiObject gestures the selector-based dispatchers make. */
  datatype ObjectCall =
    | ClickBottomRight | ClickTopLeft | Click
    | LongClickBottomRight | LongClickTopLeft | LongClick
    | SwipeUp(steps: int) | SwipeDown(steps: int) | SwipeLeft(steps: int) | SwipeRight(steps: int)

  /** click(selector, corner): the click made, or None (click returns false). */
  function ClickCall(corner: Option<string>): (r: Option<ObjectCall>)
    ensures r.None? <==> CornerOf(corner).None?
    ensures r == Some(ClickBottomRight) <==> CornerOf(corner) == Some(BottomRight)
    ensures r == Some(ClickTopLeft) <==> CornerOf(corner) == Some(TopLeft)
    ensures r == Some(Click) <==> CornerOf(corner) == Some(Center)
  {
    match CornerOf(corner)
    case Some(BottomRight) => Some(ClickBottomRight)
    case Some(TopLeft) => Some(ClickTopLeft)
    case Some(Center) => Some(Click)
    case None => None
  }

  /** longClick(selector, corner): the long click made, or None (longClick returns false). */
  function LongClickCall(corner: Option<string>): (r: Option<ObjectCall>)
    ensures r.None? <==> CornerOf(corner).None?
    ensures r == Some(LongClickBottomRight) <==> CornerOf(corner) == Some(BottomRight)
    ensures r == Some(LongClickTopLeft) <==> CornerOf(corner) == Some(TopLeft)
    ensures r == Some(LongClick) <==> CornerOf(corner) == Some(Center)
  {
    match CornerOf(corner)
    case Some(BottomRight) => Some(LongClickBottomRight)
    case Some(TopLeft) => Some(LongClickTopLeft)
    case Some(Center) => Some(LongClick)
    case None => None
  }

  // ---------------------------------------------------------------- swipe

  datatype Direction = Up | Down | Left | Right

  /** The direction names swipe accepts, after lower-casing. */
  const DirectionTable: map<string, Direction> := map[
    "u" := Up, "up" := Up, "d" := Down, "down" := Down,
    "l" := Left, "left" := Left, "r" := Right, "right" := Right]

  /** The UiObject swipe towards `d`. */
  function SwipeTowards(d: Direction, steps: int): ObjectCall
  {
    match d
    case Up => SwipeUp(steps)
    case Down => SwipeDown(steps)
    case Left => SwipeLeft(steps)
    case Right => SwipeRight(steps)
  }

  /** swipe(selector, dir, steps): the swipe made, or None (swipe returns false). */
  function SwipeCall(dir: string, steps: int): (r: Option<ObjectCall>)
    ensures r.None? <==> ToLower(dir) !in DirectionTable
    ensures r.Some? ==> r.value == SwipeTowards(DirectionTable[ToLower(dir)], steps)
  {
    var d := ToLower(dir);
    if d == "u" || d == "up" then Some(SwipeUp(steps))
    else if d == "d" || d == "down" then Some(SwipeDown(steps))
    else if d == "l" || d == "left" then Some(SwipeLeft(steps))
    else if d == "r" || d == "right" then Some(SwipeRight(steps))
    else None
  }

  // ---------------------------------------------------------------- setOrientation

  datatype Orientation = OrientationLeft | OrientationRight | OrientationNatural

  /** The orientation names setOrientation accepts, after lower-casing. */
  const OrientationTable: map<string, Orientation> := map[
    "left" := OrientationLeft, "l" := OrientationLeft,
    "right" := OrientationRight, "r" := OrientationRight,
    "natural" := OrientationNatural, "n" := OrientationNatural]

  /** setOrientation(dir): the orientation set, or None (nothing happens). */
  function OrientationCall(dir: string): (r: Option<Orientation>)
    ensures r == (if ToLower(dir) in OrientationTable then Some(OrientationTable[ToLower(dir)]) else None)
  {
    var d := ToLower(dir);
    if d == "left" || d == "l" then Some(OrientationLeft)
    else if d == "right" || d == "r" then Some(OrientationRight)
    else if d == "natural" || d == "n" then Some(OrientationNatural)
    else None
  }

  // ---------------------------------------------------------------- results

  /** The boolean a dispatcher returns: false without any device call when nothing was
      recognised, otherwise whatever the device reports for the call. */
  function Outcome<C>(call: Option<C>, device: C -> bool): (ok: bool)
    ensures ok ==> call.Some?
    ensures call.Some? ==> ok == device(call.value)
  {
    match call
    case None => false
    case Some(c) => device(c)
  }

  /** Every dispatcher ignores case: arguments equal up to case make the same call. */
  lemma DispatchIgnoresCase(a: string, b: string, steps: int)
    requires EqualsIgnoreCase(a, b)
    ensures PressKeyCall(a) == PressKeyCall(b)
    ensures CornerOf(Some(a)) == CornerOf(Some(b))
    ensures ClickCall(Some(a)) == ClickCall(Some(b))
    ensures LongClickCall(Some(a)) == LongClickCall(Some(b))
    ensures SwipeCall(a, steps) == SwipeCall(b, steps)
    ensures OrientationCall(a) == OrientationCall(b)
  {
    LowerOfEqualsIgnoreCase(a, b);
  }

  /** "POWER" reaches KEYCODE_POWER: pressKey lower-cases before comparing. */
  lemma UpperCasePowerPressesPower()
    ensures PressKeyCall("POWER") == Some(PressKeyCode(KeycodePower))
  {
    assert ToLower("POWER") == "power";
  }

  /** "volumeup", the value of Constant.VOLUMEUP, is not a name pressKey accepts: only
      "volume_up" is. */
  lemma VolumeUpNeedsUnderscore()
    ensures PressKeyCall("volumeup") == None
  {
    assert ToLower("volumeup") == "volumeup";
  }
}
