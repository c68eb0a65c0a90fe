# Booking flow of the swimming-course make-up registration

The `App` component of this single-page client lets a participant pick a
course, pick a time slot of that course and register a first and last name
for it against a remote booking service.  This project models the session
state of that component and its transitions, and proves what each transition
does to the state, which messages each failure produces, and the invariants
the session keeps.

- `Wrappers`: the `Option` type standing for JavaScript's `null`.
- `JsText`: JavaScript's `String.prototype.trim` (with the ECMAScript set of
  white-space and line-terminator characters) and `slice(0, n)`.
- `Responses`: what a round trip can hand back (a transport failure, a body
  that is not JSON, or a parsed body with the HTTP status), and the pure
  decision functions over it: the load failure chain of the catalog and slot
  loads, the booking error-code table with its fallback chain, and the
  outcome of a booking.
- `SlotList`: the slot record and the two tests the slot list applies, full
  (`remaining <= 0`, button disabled) and selected (date and time equal).
- `BookingApp`: the readiness predicate `canSubmit`, the request body, and the
  class `App` whose fields are the component's 13 state hooks.  Every
  asynchronous block is split at its first `await` into a `Begin…` (or
  `SelectCourse` / `Book`) method and a `Complete…` method that receives the
  response.  `Book` returns the request it built; `CompleteBooking` is called
  with it, because the component's closure keeps the values of the moment of
  submission.  `Valid()` is kept by every method: the confirmation is open,
  or the status is `success`, only with a remembered booking, and that booking
  has a non-empty course and trimmed, non-empty names.
- `Findings`: the error-code lookup exactly as written (see "Findings").
- `Scenarios`: scenarios of the session, proved from the contracts of `App` alone.

Responses are inputs: a transport failure carries the thrown exception's
name and message, an unparsable body carries its raw text, a parsed body is
`null` or an object whose `ok`, `error`, `message` and list payload the flow
reads (an empty string stands for an absent or falsy field, following
JavaScript's `||`).  The methods may be called in any order, which is how the
model expresses that nothing ties a response to the request it answers.

Behaviour of the code that the model keeps as it is, although a race-safe
design of this flow would differ:

- A slot response is applied whatever course is selected when it arrives
  (`Scenarios.LateSlotResponseIsApplied`).
- `book` re-checks only `canSubmit`; only the disabled button keeps a second
  submission out while one is loading (`App.PressBook`,
  `Scenarios.OnlyTheButtonBlocksASecondSubmit`).
- A throw during the refresh after a successful booking reaches `book`'s
  `catch` and overwrites the `success` status with `error`, while the
  confirmation stays open (`Scenarios.RefreshFailureOverwritesSuccess`).
- Choosing the already-selected course changes nothing and starts no reload;
  choosing a course whose name is the empty string starts no load and keeps
  the previous slot selection.
- An error code outside the table of four is shown verbatim, before the
  server's message, in the corrected reading of the table the model uses
  (the code as written differs on inherited property names, see "Findings").
- The refresh after a success asks for the course of the booking, not the
  course selected by then, and its list replaces the one shown
  (`Scenarios.RefreshLandsUnderLaterCourse`).
- The messages are the code's German texts.

## Model

| member | source | states |
|---|---|---|
| JsText.TrimStartSpec | src/App.jsx:96 | what trimming the front leaves: the suffix starting at the first non-white-space character; everything dropped is white space |
| JsText.TrimEndSpec | src/App.jsx:96 | what trimming the end leaves: the prefix ending at the last non-white-space character; everything dropped is white space |
| JsText.TrimSpec | src/App.jsx:96 | `name.trim()` is a substring of `name` that neither starts nor ends with white space, and is empty (falsy) exactly when the name is all white space |
| JsText.TrimUntouched | src/App.jsx:105-106 | a string that neither starts nor ends with white space is its own trim |
| JsText.TrimIdempotent | src/App.jsx:144-145 | trimming a trimmed name changes nothing |
| JsText.Prefix | src/App.jsx:43 | `txt.slice(0, 200)` is a prefix of the raw text, of length 200 or the whole text when shorter |
| Responses.Thrown | src/App.jsx:51 | the caught text of `new Error(msg)` is `msg`, or `"Error"` when `msg` is empty |
| Responses.LoadOutcome | src/App.jsx:38-49 | a load succeeds exactly when status and `ok` are truthy, with the payload or `[]`; otherwise the caught exception's text, exactly the stage's prefix plus the first 200 raw characters for an unparsable body, or `error`, else `message`, else the stage's fixed text; never empty unless the transport failed (the slot load at lines 73-86 is the same chain) |
| Responses.BookingErrorText | src/App.jsx:119-132 | the four codes map to their fixed German texts; any other non-empty code is returned verbatim; otherwise `message`, else "Buchung fehlgeschlagen"; never empty |
| Responses.BookingOutcome | src/App.jsx:112-133 | a booking is accepted exactly when status and `ok` are truthy; a refused parsed body goes through the code table, an unparsable one gets exactly "Ungültige Antwort: " plus the first 200 raw characters |
| SlotList.Click | src/App.jsx:364-372 | a full slot's button hands nothing on; any other hands on exactly its `{date, time}`, which then shows the slot as selected |
| SlotList.SelectedIffKey | src/App.jsx:365-366 | a slot shows as selected exactly when the stored key is its date and time |
| SlotList.AtMostOneSelected | src/App.jsx:362-366 | with distinct dates and times in the list, at most one slot shows as selected |
| BookingApp.ReadyIff | src/App.jsx:95-98 | `canSubmit` holds exactly when a non-empty course and a slot are chosen and each name has a character that is not white space |
| BookingApp.RequestOf | src/App.jsx:104-110 | the request body carries the chosen course, date and time and the trimmed names, and is well formed |
| BookingApp.WellFormedNamesTrimmed | src/App.jsx:144-145 | the names remembered for the confirmation are their own trim |
| BookingApp.App.constructor | src/App.jsx:7-27 | the initial values of the 13 state hooks |
| BookingApp.App.BeginCourseLoad | src/App.jsx:30-33 | the catalog load sets its loading flag and clears its error, nothing else |
| BookingApp.App.CompleteCourseLoad | src/App.jsx:34-54 | the catalog load ends with its flag false; on success the course list is the payload or empty, on failure only the catalog error is set |
| BookingApp.App.SelectCourse | src/App.jsx:59-65 | a changed, non-empty course starts a slot load that sets the loading flag and empties error, list and slot selection; the same course changes nothing; an empty name starts nothing |
| BookingApp.App.CompleteSlotLoad | src/App.jsx:66-91 | the slot load ends with its flag false; on success the slot list is the payload or empty, on failure only the slot error is set |
| BookingApp.App.ChooseSlot | src/App.jsx:364-372 | a full slot cannot be chosen; otherwise exactly its date and time are stored and nothing else changes |
| BookingApp.App.SetFirstName | src/App.jsx:251 | only the first name changes; the remembered booking stays |
| BookingApp.App.SetLastName | src/App.jsx:262 | only the last name changes; the remembered booking stays |
| BookingApp.App.Book | src/App.jsx:100-111 | without `canSubmit` nothing changes and nothing is sent; otherwise only the status becomes loading and the request body is returned |
| BookingApp.App.PressBook | src/App.jsx:269-271 | the button does nothing unless `canSubmit` holds and no booking is loading |
| BookingApp.App.CompleteBooking | src/App.jsx:112-153 | a refusal changes only the booking state; a success sets status and text, remembers the submitted request and opens the confirmation, and leaves a refresh outstanding for the submitted course |
| BookingApp.App.CompleteRefresh | src/App.jsx:149-160 | a body with truthy `ok` replaces only the slots; another body changes nothing; a throw replaces only the booking state with an error |
| BookingApp.App.CloseSuccess | src/App.jsx:293-297 | closing the confirmation clears only its flag |
| Findings.BookingErrorTextAsWritten | src/App.jsx:120-132 | the lookup as written never yields an empty text |
| Findings.AsWrittenAgreesOffPrototype | src/App.jsx:120-132 | except on the inherited property names the lookup as written agrees with `BookingErrorText` |
| Findings.InheritedCodesMisreported | src/App.jsx:127-129 | on every inherited property name the lookup as written yields the inherited value's text instead of the code |
| Scenarios.SlotFullRefusal | src/App.jsx:123 | `{ok: false, error: "SLOT_FULL"}` yields "Termin ist leider voll." |
| Scenarios.ConfirmationKeepsSubmittedValues | src/App.jsx:139-147 | the confirmation shows the values of the moment of submission although name and course changed in flight |
| Scenarios.OnlyTheButtonBlocksASecondSubmit | src/App.jsx:100-102 | while loading the button ignores a press but `book` starts a second submission |
| Scenarios.RefreshShowsServerCount | src/App.jsx:149-157 | after a success the refreshed list is the server's, with its new remaining count |
| Scenarios.LateSlotResponseIsApplied | src/App.jsx:59-93 | a late slot response for course A is shown under course B |
| Scenarios.RefreshLandsUnderLaterCourse | src/App.jsx:149-157 | the refresh asks for the booked course A, and its slots are shown although course B is selected by then |
| Scenarios.FullSlotRefusalKeepsInput | src/App.jsx:119-132 | a refusal shows its text and keeps names and slot selection |
| Scenarios.RefreshFailureOverwritesSuccess | src/App.jsx:149-159 | a throwing refresh turns the status into an error while the confirmation stays open |

## Left out

- The `fetch` calls, the endpoint URL, the `Date.now()` cache-busting parameter, `cache: "no-store"` and `encodeURIComponent`: network plumbing; a response is an input value.
- `JSON.parse`, `res.text()` and `res2.json()` themselves: library calls; only their outcome is modelled (parsed fields, or the raw text, or the thrown exception).
- Concurrency: each begin/complete pair is a pair of sequential events; the interleavings of outstanding requests are any order of calls.
- The render between `setSelectedCourse` and the slot effect (React runs effects after committing the render): `SelectCourse` applies both at once.
- React's hook mechanics (`useState`, `useEffect`, `useMemo`): replaced by fields, methods and predicates.
- All rendering: `Skeleton`, `InfoBox`, `ErrorBox`, `CourseGrid`, the markup of `SlotList` and `SuccessModal`; only the full and selected tests and the confirmation flag are kept.
- Field values of other JSON types (a numeric `error`, a `courses` that is not an array): the fields are strings and lists.
- JsText.Prefix: counts Unicode scalar values, whereas `slice` counts UTF-16 code units, so a text with characters outside the Basic Multilingual Plane is cut at a different place.
- Responses.NullOkText: the TypeError text for reading `ok` of a `null` body is engine-specific; the model uses V8's wording.
- Findings.InheritedText: the rendering of native functions is engine-specific; the model uses V8's.
- Responses.BookingOutcome: reads a refused code through the corrected `BookingErrorText`, so on a code naming an inherited `Object.prototype` property (such as "toString") the session shows the code, where the code as written shows that property's text; the as-written lookup is modelled on its own in `Findings`.
- A thrown value that is not an `Error` object: an exception is modelled by its name and message.

## Findings

| source | as written | input that shows it | evidently intended | confidence | as-written member | corrected member |
|---|---|---|---|---|---|---|
| src/App.jsx:120-132 | `map[data?.error]` looks the code up in a plain object literal, so a code naming a property inherited from `Object.prototype` finds that property, which is truthy | a refused booking `{ok: false, error: "toString"}` shows "function toString() { [native code] }" instead of the code | codes outside the table are shown verbatim ("toString") | low that a server sends such a code; the behaviour itself follows from the language, not executed | Findings.BookingErrorTextAsWritten (counterexample family: Findings.InheritedCodesMisreported) | Responses.BookingErrorText |
