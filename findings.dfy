/**
 * The error-code lookup of `book` as written.  `map[data?.error]` reads a
 * property of a plain object literal, so a code that names a property every
 * object inherits from `Object.prototype` finds that inherited value (a
 * function, or the prototype itself for `__proto__`), which is truthy and
 * becomes the message in place of the code.  The session uses the own-entry
 * lookup `BookingErrorText` instead.
 */
module Findings {
  import opened Responses

  /** The properties an object literal inherits from `Object.prototype`. */
  const InheritedKeys: set<string> := {
    "constructor", "hasOwnProperty", "isPrototypeOf", "propertyIsEnumerable",
    "toString", "toLocaleString", "valueOf", "__proto__",
    "__defineGetter__", "__defineSetter__", "__lookupGetter__", "__lookupSetter__"}

  /** `String(map[key])` for an inherited key, in V8's rendering of native functions. */
  function InheritedText(key: string): string
  {
    if key == "__proto__" then "[object Object]"
    else if key == "constructor" then "function Object() { [native code] }"
    else "function " + key + "() { [native code] }"
  }

  /** `map[data?.error] || data?.error || data?.message || "Buchung fehlgeschlagen"`
      with the object literal's full property lookup. */
  function BookingErrorTextAsWritten(error: string, message: string): (r: string)
    ensures r != ""
  {
    if error in ErrorCodeTable then ErrorCodeTable[error]
    else if error in InheritedKeys then InheritedText(error)
    else Or(Or(error, message), BookingFallback)
  }

  /** Away from the inherited names the code as written and the own-entry lookup agree. */
  lemma AsWrittenAgreesOffPrototype(error: string, message: string)
    requires error !in InheritedKeys
    ensures BookingErrorTextAsWritten(error, message) == BookingErrorText(error, message)
  {
  }

  /** On every inherited name the code as written reports something other than the code,
      where the own-entry lookup returns the code verbatim. */
  lemma InheritedCodesMisreported(error: string, message: string)
    requires error in InheritedKeys
    ensures BookingErrorText(error, message) == error
    ensures BookingErrorTextAsWritten(error, message) == InheritedText(error)
    ensures BookingErrorTextAsWritten(error, message) != error
  {
    assert error !in ErrorCodeTable;
    var t := InheritedText(error);
    if error != "__proto__" && error != "constructor" {
      assert |t| > |error|;
    }
  }
}
