/** The host application's side of the plugin: the custom-code record it
    delivers to the panel, and the setter the panel calls to change it.
    The setter itself is not modelled; a call is recorded as a `SetCall`
    and what the host answered is an input (`Outcome`).
 */
module HostApi {

  /** A value that may be absent (JavaScript `null`/`undefined`). */
  datatype Option<+T> = None | Some(value: T) {
    function GetOr(default: T): T {
      match this
      case Some(v) => v
      case None => default
    }
  }

  /** One injection point's entry: the injected html (absent when nothing is
      injected) and whether the user switched it off in the host's settings. */
  datatype HeadCode = HeadCode(html: Option<string>, disabled: bool)

  /** The host's custom-code record: one entry per injection point. */
  datatype CustomCode = CustomCode(headStart: HeadCode, headEnd: HeadCode)

  /** The two injection points of the host document. */
  datatype Location = HeadStart | HeadEnd

  /** One call of the host's custom-code setter. */
  datatype SetCall = SetCall(location: Location, html: Option<string>)

  /** What a setter call did: returned normally, or threw an error whose
      `message` property may be missing. */
  datatype Outcome = Succeeded | Threw(message: Option<string>)
}
