/**
 * The booking session of the `App` component: the course catalog, the slots
 * of the chosen course, the registrant's names, the chosen slot, the state
 * of the last booking and the confirmation.  Each asynchronous block of the
 * component is split at its first `await` into a method that starts it and a
 * method that receives the response; the values the block captured when it
 * started (the booking request) are handed from the first to the second.
 */
module BookingApp {
  import opened Wrappers
  import opened JsText
  import opened Responses
  import opened SlotList

  /** `bookingState.status`: "idle", "loading", "success" or "error". */
  datatype Status = Idle | Loading | Success | Error

  datatype BookingState = BookingState(status: Status, message: string)

  /** A registration: the request body of `book` and the details of the confirmation. */
  datatype Booking = Booking(course: string, date: string, time: string, firstName: string, lastName: string)

  /** What the refresh after a successful booking hands back: `fetch` or
      `res2.json()` threw, or the parsed body (whose HTTP status is not read). */
  datatype Refresh = RefreshFailure(e: Exception) | RefreshParsed(body: Body<seq<Slot>>)

  /** Every field of the session at one moment. */
  datatype Snapshot = Snapshot(
    courses: seq<string>, coursesLoading: bool, courseError: string,
    selectedCourse: Option<string>, slots: seq<Slot>, slotsLoading: bool, slotsError: string,
    firstName: string, lastName: string, selectedSlot: Option<SlotKey>,
    bookingState: BookingState, showSuccess: bool, lastBooking: Option<Booking>)

  const LoadingText := "Buchen…"
  const SuccessText := "Erfolgreich eingetragen!"

  /** `selectedCourse` is truthy: set, and not the empty string. */
  predicate IsChosen(course: Option<string>)
  {
    course.Some? && course.value != ""
  }

  /** `canSubmit`: `selectedCourse && selectedSlot && firstName.trim() && lastName.trim()`. */
  predicate Ready(course: Option<string>, slot: Option<SlotKey>, firstName: string, lastName: string)
  {
    IsChosen(course) && slot.Some? && Trim(firstName) != "" && Trim(lastName) != ""
  }

  /** Ready exactly when a course and a slot are chosen and each name holds a
      character that is not white space. */
  lemma ReadyIff(course: Option<string>, slot: Option<SlotKey>, firstName: string, lastName: string)
    ensures Ready(course, slot, firstName, lastName) <==>
              IsChosen(course) && slot.Some? && !AllWhiteSpace(firstName) && !AllWhiteSpace(lastName)
  {
    TrimSpec(firstName);
    TrimSpec(lastName);
  }

  /** A name that `trim` leaves as it is and that is not empty. */
  predicate IsTrimmedName(s: string)
  {
    s != "" && !IsWhiteSpace(s[0]) && !IsWhiteSpace(s[|s| - 1])
  }

  /** A booking `book` can send: a course, and names that are trimmed and non-empty. */
  predicate WellFormed(b: Booking)
  {
    b.course != "" && IsTrimmedName(b.firstName) && IsTrimmedName(b.lastName)
  }

  /** The names of a well-formed booking are their own trim. */
  lemma WellFormedNamesTrimmed(b: Booking)
    requires WellFormed(b)
    ensures Trim(b.firstName) == b.firstName && Trim(b.lastName) == b.lastName
  {
    TrimUntouched(b.firstName);
    TrimUntouched(b.lastName);
  }

  /** The body `book` sends: trimmed names, the course and the slot's date and time. */
  function RequestOf(course: Option<string>, slot: Option<SlotKey>, firstName: string, lastName: string): (b: Booking)
    requires Ready(course, slot, firstName, lastName)
    ensures WellFormed(b)
    ensures b.course == course.value && b.date == slot.value.date && b.time == slot.value.time
    ensures b.firstName == Trim(firstName) && b.lastName == Trim(lastName)
  {
    TrimSpec(firstName);
    TrimSpec(lastName);
    Booking(course.value, slot.value.date, slot.value.time, Trim(firstName), Trim(lastName))
  }

  class App {
    var courses: seq<string>
    var coursesLoading: bool
    var courseError: string

    var selectedCourse: Option<string>
    var slots: seq<Slot>
    var slotsLoading: bool
    var slotsError: string

    var firstName: string
    var lastName: string
    var selectedSlot: Option<SlotKey>

    var bookingState: BookingState

    var showSuccess: bool
    var lastBooking: Option<Booking>

    function State(): Snapshot
      reads this
    {
      Snapshot(courses, coursesLoading, courseError, selectedCourse, slots, slotsLoading, slotsError,
               firstName, lastName, selectedSlot, bookingState, showSuccess, lastBooking)
    }

    /** The confirmation is only ever open, and the status only ever `success`,
        with a remembered booking, and that booking is one `book` could send. */
    ghost predicate Valid()
      reads this
    {
      && (showSuccess ==> lastBooking.Some?)
      && (bookingState.status == Success ==> lastBooking.Some?)
      && (lastBooking.Some? ==> WellFormed(lastBooking.value))
    }

    /** The initial values of the component's state hooks. */
    constructor ()
      ensures Valid()
      ensures State() == Snapshot([], true, "", None, [], false, "", "", "", None,
                                  BookingState(Idle, ""), false, None)
    {
      courses, coursesLoading, courseError := [], true, "";
      selectedCourse, slots, slotsLoading, slotsError := None, [], false, "";
      firstName, lastName, selectedSlot := "", "", None;
      bookingState := BookingState(Idle, "");
      showSuccess, lastBooking := false, None;
    }

    predicate CanSubmit()
      reads this
    {
      Ready(selectedCourse, selectedSlot, firstName, lastName)
    }

    /** The submit button is enabled: `!(!canSubmit || bookingState.status === "loading")`. */
    predicate SubmitEnabled()
      reads this
    {
      CanSubmit() && bookingState.status != Loading
    }

    // ----- course catalog -----

    /** The catalog effect up to its `fetch`. */
    method BeginCourseLoad()
      requires Valid()
      modifies this
      ensures Valid()
      ensures State() == old(State()).(coursesLoading := true, courseError := "")
    {
      coursesLoading := true;
      courseError := "";
    }

    /** The catalog effect from its `fetch` on: the list or the error, and the
        loading flag cleared in `finally`. */
    method CompleteCourseLoad(resp: Response<seq<string>>)
      requires Valid()
      modifies this
      ensures Valid()
      ensures !coursesLoading
      ensures match LoadOutcome(resp, CourseInvalidPrefix, CourseFallback)
              case Loaded(items) => State() == old(State()).(courses := items, coursesLoading := false)
              case LoadFailed(msg) => State() == old(State()).(courseError := msg, coursesLoading := false)
    {
      match LoadOutcome(resp, CourseInvalidPrefix, CourseFallback) {
        case Loaded(items) => courses := items;
        case LoadFailed(msg) => courseError := msg;
      }
      coursesLoading := false;
    }

    // ----- slots of the chosen course -----

    /** A click on a course card: `setSelectedCourse(c)`, then, when the value
        changed, the slot effect up to its `fetch`.  A course that is the empty
        string is falsy, so the effect returns at once and the old slot
        selection stays.  The result says whether a slot load was started. */
    method SelectCourse(c: string) returns (loadStarted: bool)
      requires Valid()
      modifies this
      ensures Valid()
      ensures loadStarted <==> old(selectedCourse) != Some(c) && c != ""
      ensures old(selectedCourse) == Some(c) ==> State() == old(State())
      ensures old(selectedCourse) != Some(c) && c == "" ==>
                State() == old(State()).(selectedCourse := Some(c))
      ensures loadStarted ==>
                State() == old(State()).(selectedCourse := Some(c), slotsLoading := true,
                                         slotsError := "", slots := [], selectedSlot := None)
    {
      loadStarted := false;
      if selectedCourse != Some(c) {
        selectedCourse := Some(c);
        if c != "" {
          slotsLoading := true;
          slotsError := "";
          slots := [];
          selectedSlot := None;
          loadStarted := true;
        }
      }
    }

    /** The slot effect from its `fetch` on.  Nothing ties the response to the
        course it was requested for: it is applied whatever is chosen now. */
    method CompleteSlotLoad(resp: Response<seq<Slot>>)
      requires Valid()
      modifies this
      ensures Valid()
      ensures !slotsLoading
      ensures match LoadOutcome(resp, SlotInvalidPrefix, SlotFallback)
              case Loaded(items) => State() == old(State()).(slots := items, slotsLoading := false)
              case LoadFailed(msg) => State() == old(State()).(slotsError := msg, slotsLoading := false)
    {
      match LoadOutcome(resp, SlotInvalidPrefix, SlotFallback) {
        case Loaded(items) => slots := items;
        case LoadFailed(msg) => slotsError := msg;
      }
      slotsLoading := false;
    }

    /** A click on the button of slot `s`: a full slot's button is disabled;
        otherwise exactly `{date, time}` of `s` is stored. */
    method ChooseSlot(s: Slot)
      requires Valid()
      modifies this
      ensures Valid()
      ensures IsFull(s) ==> State() == old(State())
      ensures !IsFull(s) ==> State() == old(State()).(selectedSlot := Some(SlotKey(s.date, s.time)))
      ensures !IsFull(s) ==> IsSelected(selectedSlot, s)
    {
      var key := Click(s);
      if key.Some? {
        selectedSlot := key;
      }
    }

    // ----- registrant -----

    method SetFirstName(v: string)
      requires Valid()
      modifies this
      ensures Valid()
      ensures State() == old(State()).(firstName := v)
    {
      firstName := v;
    }

    method SetLastName(v: string)
      requires Valid()
      modifies this
      ensures Valid()
      ensures State() == old(State()).(lastName := v)
    {
      lastName := v;
    }

    // ----- booking -----

    /** `book()` up to its `fetch`: nothing at all when `canSubmit` fails;
        otherwise the status becomes loading and the request body is built from
        the trimmed names, the course and the slot's date and time.  The status
        is not consulted: only the disabled button keeps a second submit out. */
    method Book() returns (req: Option<Booking>)
      requires Valid()
      modifies this
      ensures Valid()
      ensures req.Some? <==> old(CanSubmit())
      ensures !old(CanSubmit()) ==> State() == old(State())
      ensures old(CanSubmit()) ==>
                State() == old(State()).(bookingState := BookingState(Loading, LoadingText))
                && req.value == RequestOf(old(selectedCourse), old(selectedSlot), old(firstName), old(lastName))
      ensures req.Some? ==> WellFormed(req.value)
    {
      req := None;
      if CanSubmit() {
        bookingState := BookingState(Loading, LoadingText);
        req := Some(RequestOf(selectedCourse, selectedSlot, firstName, lastName));
      }
    }

    /** A click on the submit button, which is disabled unless `canSubmit`
        holds and no booking is loading. */
    method PressBook() returns (req: Option<Booking>)
      requires Valid()
      modifies this
      ensures Valid()
      ensures req.Some? <==> old(SubmitEnabled())
      ensures !old(SubmitEnabled()) ==> State() == old(State())
      ensures old(SubmitEnabled()) ==>
                State() == old(State()).(bookingState := BookingState(Loading, LoadingText))
                && req.value == RequestOf(old(selectedCourse), old(selectedSlot), old(firstName), old(lastName))
    {
      req := None;
      if SubmitEnabled() {
        req := Book();
      }
    }

    /** `book()` from its `fetch` on, for the request `req` it sent.  A refusal
        changes the booking state and nothing else; a success sets the status,
        remembers `req` for the confirmation, opens it, and leaves a refresh of
        the slots outstanding.  The refresh asks for the course of `req`, the one
        the closure captured, whatever course is selected by now. */
    method CompleteBooking(req: Booking, resp: Response<()>) returns (refresh: Option<string>)
      requires Valid()
      requires WellFormed(req)
      modifies this
      ensures Valid()
      ensures refresh.Some? <==> Accepted(resp)
      ensures refresh.Some? ==> refresh.value == req.course
      ensures BookingOutcome(resp).Booked? ==>
                State() == old(State()).(bookingState := BookingState(Success, SuccessText),
                                         lastBooking := Some(req), showSuccess := true)
      ensures BookingOutcome(resp).Refused? ==>
                State() == old(State()).(bookingState := BookingState(Error, BookingOutcome(resp).message))
    {
      var outcome := BookingOutcome(resp);
      if outcome.Booked? {
        bookingState := BookingState(Success, SuccessText);
        lastBooking := Some(req);
        showSuccess := true;
      } else {
        bookingState := BookingState(Error, outcome.message);
      }
      refresh := if Accepted(resp) then Some(req.course) else None;
    }

    /** The refresh after a success.  A body with a truthy `ok` replaces the
        slots; any other body changes nothing; a throw reaches the `catch` of
        `book`, which overwrites the success status with an error while the
        confirmation stays open. */
    method CompleteRefresh(r: Refresh)
      requires Valid()
      modifies this
      ensures Valid()
      ensures r.RefreshFailure? ==>
                State() == old(State()).(bookingState := BookingState(Error, CaughtText(r.e)))
      ensures r.RefreshParsed? && r.body.Obj? && r.body.ok ==>
                State() == old(State()).(slots := r.body.payload.GetOr([]))
      ensures r.RefreshParsed? && !(r.body.Obj? && r.body.ok) ==> State() == old(State())
    {
      match r
      case RefreshFailure(e) =>
        bookingState := BookingState(Error, CaughtText(e));
      case RefreshParsed(body) =>
        if body.Obj? && body.ok {
          slots := body.payload.GetOr([]);
        }
    }

    /** Closing the confirmation. */
    method CloseSuccess()
      requires Valid()
      modifies this
      ensures Valid()
      ensures State() == old(State()).(showSuccess := false)
    {
      showSuccess := false;
    }
  }
}
