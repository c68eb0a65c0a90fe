/**
 * Scenarios of the booking session, proved from the contracts of `App`
 * alone.  Each one fixes a sequence of user intents and responses and
 * states what the session then shows.
 */
module Scenarios {
  import opened Wrappers
  import opened JsText
  import opened Responses
  import opened SlotList
  import opened BookingApp

  /** A fresh session in which `course` was chosen, its slot list `[slot]`
      arrived, `slot` was clicked and the two names were typed. */
  method ReadyToBook(course: string, slot: Slot, first: string, last: string) returns (app: App)
    requires course != "" && !IsFull(slot)
    ensures fresh(app) && app.Valid()
    ensures app.State() == Snapshot([], true, "", Some(course), [slot], false, "", first, last,
                                    Some(SlotKey(slot.date, slot.time)), BookingState(Idle, ""), false, None)
  {
    app := new App();
    var started := app.SelectCourse(course);
    app.CompleteSlotLoad(Parsed(true, Obj(true, "", "", Some([slot]))));
    app.ChooseSlot(slot);
    app.SetFirstName(first);
    app.SetLastName(last);
  }

  /** The response `{ok: true}` with a successful status. */
  lemma AcceptedBooking()
    ensures BookingOutcome(Parsed(true, Obj(true, "", "", None))) == Booked
  {
  }

  /** The response `{ok: false, error: "SLOT_FULL"}` with a failing status. */
  lemma SlotFullRefusal()
    ensures BookingOutcome(Parsed(false, Obj(false, "SLOT_FULL", "", None))) == Refused("Termin ist leider voll.")
  {
  }

  /** `" Max ".trim()`. */
  lemma TrimPaddedMax()
    ensures Trim(" Max ") == "Max"
  {
    assert TrimStart(" Max ") == "Max ";
    assert TrimEnd("Max ") == "Max";
  }

  /** A successful booking remembers the values of the moment of submission,
      although the first name and the course change while the request is in
      flight. */
  method ConfirmationKeepsSubmittedValues() returns (confirmed: Option<Booking>, open: bool)
    ensures confirmed == Some(Booking("Adults A", "12.05.2024", "09:00", "Max", "Mustermann"))
    ensures open
  {
    var app := ReadyToBook("Adults A", Slot("12.05.2024", "09:00", 8, 3), " Max ", "Mustermann");
    TrimPaddedMax();
    TrimUntouched("Mustermann");
    var req := app.PressBook();
    app.SetFirstName("Erika");
    var started := app.SelectCourse("Kids B");
    AcceptedBooking();
    var pending := app.CompleteBooking(req.value, Parsed(true, Obj(true, "", "", None)));
    confirmed, open := app.lastBooking, app.showSuccess;
  }

  /** While a booking is loading the disabled button ignores a press, but
      `book` itself starts a second submission of the same request. */
  method OnlyTheButtonBlocksASecondSubmit() returns (pressed: Option<Booking>, called: Option<Booking>)
    ensures pressed == None
    ensures called == Some(Booking("Adults A", "12.05.2024", "09:00", "Max", "Mustermann"))
  {
    var app := ReadyToBook("Adults A", Slot("12.05.2024", "09:00", 8, 3), "Max", "Mustermann");
    TrimUntouched("Max");
    TrimUntouched("Mustermann");
    var first := app.PressBook();
    pressed := app.PressBook();
    called := app.Book();
  }

  /** The refresh after a success shows the server's new count for the slot. */
  method RefreshShowsServerCount() returns (shown: seq<Slot>, confirmed: bool)
    ensures shown == [Slot("12.05.2024", "09:00", 8, 2)]
    ensures confirmed
  {
    var app := ReadyToBook("Adults A", Slot("12.05.2024", "09:00", 8, 3), "Max", "Mustermann");
    TrimUntouched("Max");
    TrimUntouched("Mustermann");
    var req := app.Book();
    AcceptedBooking();
    var pending := app.CompleteBooking(req.value, Parsed(true, Obj(true, "", "", None)));
    app.CompleteRefresh(RefreshParsed(Obj(true, "", "", Some([Slot("12.05.2024", "09:00", 8, 2)]))));
    shown, confirmed := app.slots, app.bookingState.status == Success;
  }

  /** No response is tied to the course it was requested for: a late answer
      for course A lands under course B. */
  method LateSlotResponseIsApplied() returns (course: Option<string>, shown: seq<Slot>)
    ensures course == Some("B")
    ensures shown == [Slot("01.06.2024", "10:00", 5, 5)]
  {
    var app := new App();
    var startedA := app.SelectCourse("A");
    var startedB := app.SelectCourse("B");
    app.CompleteSlotLoad(Parsed(true, Obj(true, "", "", Some([Slot("01.06.2024", "10:00", 5, 5)]))));
    course, shown := app.selectedCourse, app.slots;
  }

  /** The refresh after a success asks for the course of the booking: when the
      participant has moved on to course B meanwhile, course A's slots land
      under course B. */
  method RefreshLandsUnderLaterCourse() returns (refreshed: Option<string>, course: Option<string>, shown: seq<Slot>)
    ensures refreshed == Some("A")
    ensures course == Some("B")
    ensures shown == [Slot("12.05.2024", "09:00", 8, 2)]
  {
    var app := ReadyToBook("A", Slot("12.05.2024", "09:00", 8, 3), "Max", "Mustermann");
    TrimUntouched("Max");
    TrimUntouched("Mustermann");
    var req := app.Book();
    var started := app.SelectCourse("B");
    AcceptedBooking();
    refreshed := app.CompleteBooking(req.value, Parsed(true, Obj(true, "", "", None)));
    app.CompleteRefresh(RefreshParsed(Obj(true, "", "", Some([Slot("12.05.2024", "09:00", 8, 2)]))));
    course, shown := app.selectedCourse, app.slots;
  }

  /** A refusal with a known code shows its German text and keeps the entered
      names and the chosen slot for another attempt. */
  method FullSlotRefusalKeepsInput() returns (state: BookingState, first: string, chosen: Option<SlotKey>)
    ensures state == BookingState(Error, "Termin ist leider voll.")
    ensures first == "Max"
    ensures chosen == Some(SlotKey("12.05.2024", "09:00"))
  {
    var app := ReadyToBook("Adults A", Slot("12.05.2024", "09:00", 8, 1), "Max", "Mustermann");
    TrimUntouched("Max");
    TrimUntouched("Mustermann");
    var req := app.Book();
    SlotFullRefusal();
    var pending := app.CompleteBooking(req.value, Parsed(false, Obj(false, "SLOT_FULL", "", None)));
    state, first, chosen := app.bookingState, app.firstName, app.selectedSlot;
  }

  /** A refresh that throws after a success turns the status into an error
      while the confirmation stays open with the booking. */
  method RefreshFailureOverwritesSuccess() returns (state: BookingState, open: bool, confirmed: bool)
    ensures state == BookingState(Error, "Unexpected token")
    ensures open && confirmed
  {
    var app := ReadyToBook("Adults A", Slot("12.05.2024", "09:00", 8, 1), "Max", "Mustermann");
    TrimUntouched("Max");
    TrimUntouched("Mustermann");
    var req := app.Book();
    AcceptedBooking();
    var pending := app.CompleteBooking(req.value, Parsed(true, Obj(true, "", "", None)));
    app.CompleteRefresh(RefreshFailure(Exception("SyntaxError", "Unexpected token")));
    state, open, confirmed := app.bookingState, app.showSuccess, app.lastBooking.Some?;
  }
}
