/** The value types shared by the whole visualisation: gestures, landmarks,
    the pointer sample, photos and the application state. */
module Types {

  datatype Option<+T> = None | Some(value: T)

  /** The three hand gestures. CLOSED (the neutral hand) forms the tree, OPEN
      explodes the particles into a galaxy, PINCH zooms the nearest photo. */
  datatype Gesture = Closed | Open | Pinch

  /** One keypoint of a detected hand, in normalized image coordinates. */
  datatype Landmark = Landmark(x: real, y: real, z: real)

  /** The latest pointer sample: screen x and y in [0, 1], a hand-size proxy
      for depth, and whether a hand is currently seen. */
  datatype HandSample = HandSample(x: real, y: real, z: real, present: bool)

  datatype Vec3 = Vec3(x: real, y: real, z: real)

  /** A photo placed on the tree. Position and rotation never change after
      the photo is created. */
  datatype UserPhoto = UserPhoto(id: string, url: string, position: Vec3, rotation: Vec3, aspectRatio: real)

  datatype ThemeConfig = ThemeConfig(
    id: string, name: string,
    primary: string, secondary: string, glow: string, background: string, light: string)

  datatype AppState = AppState(
    isCameraReady: bool,
    permissionGranted: bool,
    gesture: Gesture,
    loading: bool,
    error: Option<string>,
    theme: ThemeConfig,
    photos: seq<UserPhoto>)

  /** The decimal digit character for d. */
  function DigitChar(d: nat): (c: char)
    requires d < 10
    ensures '0' <= c <= '9' && (c as int) - ('0' as int) == d
  {
    ('0' as int + d) as char
  }

  /** `n.toString()` for the integers `Date.now()` returns: non-negative
      and far below 2^53, where JavaScript prints plain decimal digits, most
      significant first, without leading zeros. */
  function NatToString(n: nat): (s: seq<char>)
    ensures |s| >= 1
    ensures forall k :: 0 <= k < |s| ==> '0' <= s[k] <= '9'
    ensures n < 10 <==> |s| == 1
  {
    if n < 10 then [DigitChar(n)] else NatToString(n / 10) + [DigitChar(n % 10)]
  }
}
