/** Extracting a readable message from a thrown value (src/utils/error.ts). */
module ErrorUtil {
  import opened Js

  const DefaultFallback := "An error occurred"

  /** The value carries a message that `getErrorMessage` reports. */
  predicate CarriesMessage(error: JsValue)
  {
    error.ErrorInstance? || error.Str? || (error.Obj? && HasKey(error.props, "message"))
  }

  /** `getErrorMessage(error, fallback)`: the message of an `Error` (even an
      empty one), a string as it is, `String(message)` for any other object
      with a `message` key, and the fallback for everything else. */
  function GetErrorMessage(error: JsValue, fallback: string := DefaultFallback): (r: string)
    ensures error.ErrorInstance? ==> HasProperty(error, "message") && r == error.message
    ensures error.Str? ==> r == error.s
    ensures error.Obj? && HasKey(error.props, "message") ==> r == ToJsString(Lookup(error.props, "message"))
    ensures !CarriesMessage(error) ==> r == fallback
    ensures IsNullish(error) ==> r == fallback
  {
    if error.ErrorInstance? then error.message
    else if error.Str? then error.s
    else if Truthy(error) && TypeOf(error) == "object" && HasProperty(error, "message") then
      ToJsString(GetProperty(error, "message"))
    else fallback
  }
}
