/**
 * The values the settings file persists: per-frame settings, the global camera and
 * window settings, and the whole settings record, with their defaults.
 */
module Model {
  import opened Numbers
  import Camera

  /** The most frames the settings record can hold. */
  const MaxFrameSettings: nat := 1024

  const MaxRenderScaleDown: int := 3
  const MaxRenderScaleUp: int := 3

  /** A 4x4 matrix of floats, element i at index i. */
  datatype Mat4 = Mat4(data: seq<Float32>)

  datatype Vec4 = Vec4(x: Float32, y: Float32, z: Float32, w: Float32)

  datatype TrackballSettings = TrackballSettings(r: Mat4, t: Vec4, zoom: Float32)

  datatype TurntableSettings = TurntableSettings(angleX: Float32, angleY: Float32, radius: Float32)

  datatype FrameSettings = FrameSettings(
    name: string,
    cameraType: int,
    trackball: TrackballSettings,
    turntable: TurntableSettings,
    yFov: Float32,
    minDepth: Float32,
    maxDepth: Float32,
    cameraUp: int,
    gridVisible: bool,
    gridScale: Float32,
    cubeVisible: bool,
    renderScaleDown: int,
    renderScaleUp: int)

  datatype GlobalCameraSettings = GlobalCameraSettings(
    mouseSensitivity: Float32,
    scrollSensitivity: Float32,
    moveSpeedNormal: Float32,
    moveSpeedSlow: Float32,
    kpZoom: Float32,
    kpTranslate: Float32,
    kpRotate: Float32)

  datatype WindowSettings = WindowSettings(x: int, y: int, width: int, height: int)

  /** The settings record; `frames` holds the first num_frames entries of the frame array. */
  datatype Document = Document(
    camera: GlobalCameraSettings,
    window: WindowSettings,
    frames: seq<FrameSettings>,
    neverAskOnExit: bool,
    showMainMenu: bool,
    fontSize: int,
    canIdle: bool,
    autoStepDelayMs: int,
    dpiScale: int)

  const Zero: Float32 := Float32("0")
  const One: Float32 := Float32("1")

  /** The identity matrix, row by row. */
  function Identity(): (m: Mat4)
    ensures |m.data| == 16
    ensures forall i | 0 <= i < 16 :: m.data[i] == (if i % 5 == 0 then One else Zero)
  {
    Mat4([One, Zero, Zero, Zero,
          Zero, One, Zero, Zero,
          Zero, Zero, One, Zero,
          Zero, Zero, Zero, One])
  }

  /** DefaultFrameSettings: a frame named `name` with every other field at its default. */
  function DefaultFrameSettings(name: string): (fs: FrameSettings)
    ensures fs.name == name
  {
    FrameSettings(
      name,
      Camera.Disabled,
      TrackballSettings(Identity(), Vec4(Zero, Zero, Zero, One), One),
      TurntableSettings(Zero, Zero, One),
      Float32("0.7"),
      Float32("0.1"),
      Float32("50"),
      Camera.ZUp,
      false,
      Float32("2"),
      false,
      0,
      0)
  }

  /** The settings LoadOrDefault starts from before it reads the file. */
  function DefaultDocument(defaultFontSize: int): (d: Document)
    ensures d.frames == [] && d.fontSize == defaultFontSize
  {
    Document(
      GlobalCameraSettings(Float32("50"), Float32("5"), One, Float32("0.5"), Float32("5"), Float32("5"), Float32("10")),
      WindowSettings(-1, -1, 1000, 600),
      [],
      false,
      true,
      defaultFontSize,
      false,
      250,
      100)
  }
}
