/** The camera enumerations of a frame’s settings, and their names in the settings file. */
module Camera {

  // Camera types, in declaration order.
  const Disabled: int := 0
  const Planar: int := 1
  const Trackball: int := 2
  const Turntable: int := 3

  // Camera up-axis conventions, in declaration order.
  const ZUp: int := 0
  const YUp: int := 1
  const XUp: int := 2
  const ZDown: int := 3
  const YDown: int := 4
  const XDown: int := 5

  /** The name of camera type i is entry i. */
  const CameraTypeNames: seq<string> := ["disabled", "planar", "trackball", "turntable"]

  /** The name of up-axis convention i is entry i. */
  const CameraUpNames: seq<string> := ["z_up", "y_up", "x_up", "z_down", "y_down", "x_down"]

  predicate IsCameraType(t: int)
  {
    0 <= t < |CameraTypeNames|
  }

  predicate IsCameraUp(u: int)
  {
    0 <= u < |CameraUpNames|
  }

  /** The name written for a camera type; a value outside the enumeration is written as "disabled". */
  function CameraTypeToStr(t: int): (s: string)
    ensures IsCameraType(t) ==> s == CameraTypeNames[t]
    ensures !IsCameraType(t) ==> s == CameraTypeNames[Disabled]
  {
    if t == Disabled then "disabled"
    else if t == Planar then "planar"
    else if t == Trackball then "trackball"
    else if t == Turntable then "turntable"
    else "disabled"
  }

  /** The name written for an up-axis convention; a value outside the enumeration is written as "z_up". */
  function CameraUpToStr(u: int): (s: string)
    ensures IsCameraUp(u) ==> s == CameraUpNames[u]
    ensures !IsCameraUp(u) ==> s == CameraUpNames[ZUp]
  {
    if u == ZUp then "z_up"
    else if u == YUp then "y_up"
    else if u == XUp then "x_up"
    else if u == ZDown then "z_down"
    else if u == YDown then "y_down"
    else if u == XDown then "x_down"
    else "z_up"
  }
}
