/** Shared value types of the application: JavaScript strings as UTF-16 code
    units, the camera-angle and generated-image records, and the errors the
    handlers surface. */
module Types {

  /** One UTF-16 code unit, the element of a JavaScript string. */
  newtype CodeUnit = x: int | 0 <= x < 0x1_0000

  /** A JavaScript string: a sequence of UTF-16 code units (surrogate halves included). */
  type JsString = seq<CodeUnit>

  /** A calendar day as `toISOString().split('T')[0]` renders it (YYYY-MM-DD). */
  type Date = JsString

  datatype Option<T> = None | Some(value: T) {
    function GetOr(default: T): T {
      match this
      case Some(v) => v
      case None => default
    }
  }

  /** The code unit of one character of a program literal. Every literal the
      application uses lies in the Basic Multilingual Plane, where a character
      is exactly one code unit; anything else would be U+FFFD here. */
  function Unit(c: char): CodeUnit {
    if c as int < 0x1_0000 then c as int as CodeUnit else 0xFFFD
  }

  /** A program literal as a JavaScript string. */
  function Literal(s: string): (r: JsString)
    ensures |r| == |s|
  {
    seq(|s|, i requires 0 <= i < |s| => Unit(s[i]))
  }

  /** A camera-angle definition (name is its identity key). */
  datatype CameraAngle = CameraAngle(name: JsString, description: JsString, promptHint: JsString)

  /** The uploaded photo: its data URL and the MIME type of its file. */
  datatype UploadedImage = UploadedImage(dataUrl: JsString, contentType: JsString)

  /** One result in the gallery. The optional boolean flags of the source
      are `bool` here: an absent flag and `false` behave alike everywhere. */
  datatype GeneratedImage = GeneratedImage(
    id: JsString,
    src: JsString,
    angle: CameraAngle,
    isUpscaling: bool,
    isRemovingBackground: bool,
    originalSrc: Option<JsString>)

  /** The user-visible error messages, one constructor per distinct message. */
  datatype AppError =
    | DailyLimitReached
    | GenerationFailed(angleName: JsString)
    | UpscaleFailed(angleName: JsString)
    | RemoveBackgroundFailed(angleName: JsString)
    | ChangeBackgroundFailed(angleName: JsString)

  /** What a remote image call answered: an encoded payload or an error. */
  datatype CallResult = Succeeded(payload: JsString) | Failed

  /** One answer of the remote service together with the clock readings the
      handler takes right after it: the calendar day used by the usage
      increment and the `Date.now()` text used in a fresh result id. */
  datatype Reply = Reply(result: CallResult, today: Date, now: JsString)

  /** The image source a handler stores for a payload: `data:image/png;base64,` + payload. */
  function DataUrl(payload: JsString): (r: JsString)
    ensures |r| == 22 + |payload|
    ensures r[..22] == Literal("data:image/png;base64,") && r[22..] == payload
  {
    Literal("data:image/png;base64,") + payload
  }
}
