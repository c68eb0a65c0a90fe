/**
 * What a network round trip of the booking flow can hand back, and the
 * messages the flow derives from it.  Every request is read the same way:
 * the body text is parsed as JSON, a parse failure is reported with an
 * excerpt of the raw text, and a response whose HTTP status or `ok` field is
 * not truthy is reported with the server's `error`, else its `message`, else
 * a fixed text of the stage.  Whatever is thrown in the `try` block reaches
 * the `catch` as `String(e.message || e)`.
 */
module Responses {
  import opened Wrappers
  import opened JsText

  /** A thrown JavaScript value, reduced to the two things `String(e.message || e)` reads. */
  datatype Exception = Exception(name: string, message: string)

  /** `String(e.message || e)`: the message, or, when it is empty,
      `Error.prototype.toString`, which then yields the name alone. */
  function CaughtText(e: Exception): string
  {
    if e.message != "" then e.message else e.name
  }

  /** The text a `catch` block reads from `throw new Error(msg)`. */
  function Thrown(msg: string): (r: string)
    ensures msg != "" ==> r == msg
    ensures msg == "" ==> r == "Error"
  {
    CaughtText(Exception("Error", msg))
  }

  /** A parsed JSON body: `null`, or an object with the fields the flow reads
      (`""` stands for a field that is absent or falsy).  A JSON number, string
      or boolean reads every field as `undefined` and so behaves as
      `Obj(false, "", "", None)`. */
  datatype Body<T> = Null | Obj(ok: bool, error: string, message: string, payload: Option<T>)

  /** The outcome of `fetch` followed by `res.text()` and `JSON.parse`. */
  datatype Response<T> =
    | NetworkFailure(e: Exception)         // fetch or res.text() rejected
    | Unparsable(raw: string)              // JSON.parse threw on the body text
    | Parsed(httpOk: bool, body: Body<T>)  // res.ok and the parsed body
  {
    /** `!res.ok || !data.ok` evaluates `data.ok` on a `null` body, which throws a TypeError. */
    predicate ReadsOkOfNull()
    {
      Parsed? && httpOk && body.Null?
    }
  }

  /** The test `!(!res.ok || !data.ok)` passed: the request counts as successful. */
  predicate Accepted<T>(resp: Response<T>)
  {
    resp.Parsed? && resp.httpOk && resp.body.Obj? && resp.body.ok
  }

  /** Message of the TypeError raised by reading `ok` of `null` (V8's wording). */
  const NullOkText := "Cannot read properties of null (reading 'ok')"

  /** Length of the raw-text excerpt, `txt.slice(0, 200)`. */
  const MaxExcerpt: nat := 200

  /** `data?.error` and `data?.message` with `""` for undefined. */
  function ErrorField<T>(b: Body<T>): string
  {
    if b.Obj? then b.error else ""
  }

  function MessageField<T>(b: Body<T>): string
  {
    if b.Obj? then b.message else ""
  }

  /** JavaScript's `a || b` on two strings. */
  function Or(a: string, b: string): string
  {
    if a != "" then a else b
  }

  /** The text caught for a refused response, given the stage's prefix for an
      unparsable body and the stage's `||` chain over a parsed body. */
  function RejectionText<T>(resp: Response<T>, invalidPrefix: string, chain: Body<T> -> string): string
    requires !Accepted(resp)
  {
    match resp
    case NetworkFailure(e) => CaughtText(e)
    case Unparsable(raw) => Thrown(invalidPrefix + Prefix(raw, MaxExcerpt))
    case Parsed(_, _) =>
      if resp.ReadsOkOfNull() then CaughtText(Exception("TypeError", NullOkText))
      else Thrown(chain(resp.body))
  }

  // ----- loading the course catalog and the slots of a course -----

  const CourseInvalidPrefix := "Ungültige Antwort vom Server: "
  const CourseFallback := "Kurse konnten nicht geladen werden"
  const SlotInvalidPrefix := "Ungültige Antwort: "
  const SlotFallback := "Termine konnten nicht geladen werden"

  /** `data?.error || data?.message || fallback`. */
  function LoadChain<T>(b: Body<T>, fallback: string): string
  {
    Or(Or(ErrorField(b), MessageField(b)), fallback)
  }

  /** How a completed load ends: the list to show, or the stage's error text. */
  datatype LoadResult<T> = Loaded(items: seq<T>) | LoadFailed(message: string)

  /** The outcome of one load round trip (catalog or slots). */
  function LoadOutcome<T>(resp: Response<seq<T>>, invalidPrefix: string, fallback: string): (r: LoadResult<T>)
    requires invalidPrefix != "" && fallback != ""
    // success exactly when status and `ok` are truthy; the list is the payload, or empty when absent
    ensures r.Loaded? <==> Accepted(resp)
    ensures r.Loaded? && resp.body.payload.Some? ==> r.items == resp.body.payload.value
    ensures r.Loaded? && resp.body.payload.None? ==> r.items == []
    // transport failures report the caught exception
    ensures resp.NetworkFailure? ==> r == LoadFailed(CaughtText(resp.e))
    // an unparsable body: the fixed prefix followed by the first 200 characters of the raw text
    ensures resp.Unparsable? ==> r == LoadFailed(invalidPrefix + Prefix(resp.raw, MaxExcerpt))
    // a refused parsed body: `error`, else `message`, else the fallback
    ensures resp.Parsed? && !Accepted(resp) && !resp.ReadsOkOfNull() ==>
              r.LoadFailed? &&
              r.message == (if ErrorField(resp.body) != "" then ErrorField(resp.body)
                            else if MessageField(resp.body) != "" then MessageField(resp.body)
                            else fallback)
    ensures resp.ReadsOkOfNull() ==> r == LoadFailed(NullOkText)
    // a failure the server or the parser caused is never reported with an empty text
    ensures r.LoadFailed? && !resp.NetworkFailure? ==> r.message != ""
  {
    if Accepted(resp) then Loaded(resp.body.payload.GetOr([]))
    else LoadFailed(RejectionText(resp, invalidPrefix, b => LoadChain(b, fallback)))
  }

  // ----- submitting a booking -----

  const AlreadyBookedText := "Diese Person ist für diesen Termin bereits eingetragen."
  const SlotFullText := "Termin ist leider voll."
  const UnknownSlotText := "Unbekannter Termin."
  const FieldsMissingText := "Bitte alle Felder ausfüllen."
  const BookingFallback := "Buchung fehlgeschlagen"
  const BookingInvalidPrefix := "Ungültige Antwort: "

  /** The own entries of the object literal `map` in `book`. */
  const ErrorCodeTable: map<string, string> := map[
    "ALREADY_BOOKED" := AlreadyBookedText,
    "SLOT_FULL" := SlotFullText,
    "UNKNOWN_SLOT" := UnknownSlotText,
    "FIELDS_MISSING" := FieldsMissingText]

  /** `map[error] || error || message || "Buchung fehlgeschlagen"`, reading only
      the table's own entries (see the finding on inherited properties). */
  function BookingErrorText(error: string, message: string): (r: string)
    ensures error == "ALREADY_BOOKED" ==> r == "Diese Person ist für diesen Termin bereits eingetragen."
    ensures error == "SLOT_FULL" ==> r == "Termin ist leider voll."
    ensures error == "UNKNOWN_SLOT" ==> r == "Unbekannter Termin."
    ensures error == "FIELDS_MISSING" ==> r == "Bitte alle Felder ausfüllen."
    ensures error != "" && error !in ErrorCodeTable ==> r == error
    ensures error == "" && message != "" ==> r == message
    ensures error == "" && message == "" ==> r == "Buchung fehlgeschlagen"
    ensures r != ""
  {
    if error in ErrorCodeTable then ErrorCodeTable[error]
    else Or(Or(error, message), BookingFallback)
  }

  /** How a booking round trip ends. */
  datatype BookingResult = Booked | Refused(message: string)

  /** The outcome of one booking round trip.  A refused parsed body is
      reported through `BookingErrorText`, the own-entry reading of the code
      table. */
  function BookingOutcome(resp: Response<()>): (r: BookingResult)
    ensures r.Booked? <==> Accepted(resp)
    ensures resp.NetworkFailure? ==> r == Refused(CaughtText(resp.e))
    ensures resp.Unparsable? ==> r == Refused(BookingInvalidPrefix + Prefix(resp.raw, MaxExcerpt))
    ensures resp.Parsed? && !Accepted(resp) && !resp.ReadsOkOfNull() ==>
              r == Refused(BookingErrorText(ErrorField(resp.body), MessageField(resp.body)))
    ensures resp.ReadsOkOfNull() ==> r == Refused(NullOkText)
  {
    if Accepted(resp) then Booked
    else Refused(RejectionText(resp, BookingInvalidPrefix,
                               b => BookingErrorText(ErrorField(b), MessageField(b))))
  }
}
