/** The availability calendar and its booking request (`src/components/BookingCalendar.tsx`). */
module BookingCalendar {
  import opened Wrappers
  import opened JsonValues
  import opened Sequences
  import opened DataValidation
  import opened Content
  import opened AppContext

  const AvailabilityFallback: Json := JObj(map["availability" := JArr([])])
  const BookedDatesFallback: Json := JObj(map["bookedDates" := JArr([])])

  const NoSlotData: string := "Aucun créneau disponible pour le moment."
  const CalendarEmpty: EmptyState :=
    EmptyState(
      "Calendrier en cours de mise à jour",
      "Les disponibilités seront affichées ici prochainement. Contactez-nous directement pour connaître nos créneaux disponibles.")

  const PickDateAndTime: string := "Veuillez sélectionner une date et une heure."
  const DateAlreadyBooked: string := "Cette date est déjà réservée. Veuillez choisir une autre date."
  const BookingFailed: string :=
    "Une erreur est survenue lors de l'envoi de votre demande. Veuillez réessayer ou nous contacter directement."

  /** The hours offered by the time select. */
  const TimeSlots: seq<string> := ["09:00", "10:00", "11:00", "14:00", "15:00", "16:00", "17:00", "18:00", "19:00"]

  /** The confirmation text, naming the formatted date and the hour of the request. */
  function BookingSent(date: string, time: string): string {
    "Votre demande de réservation pour le " + date + " à " + time
      + " a été envoyée avec succès ! Nous vous contacterons rapidement pour confirmer."
  }

  /** The `availability` value after loading and destructuring with default `[]`. */
  function AvailabilityValue(loaded: Option<Json>): Json {
    Destructure(Load(loaded, AvailabilityFallback), "availability", JArr([]))
  }

  /** The `bookedDates` value after loading and destructuring with default `[]`. */
  function BookedDatesValue(loaded: Option<Json>): Json {
    Destructure(Load(loaded, BookedDatesFallback), "bookedDates", JArr([]))
  }

  /** `validAvailability`: the well-formed slots, in order. */
  function ValidSlots(loaded: Option<Json>): (r: seq<Json>)
    ensures IsSubseq(r, ItemsOf(AvailabilityValue(loaded)))
    ensures forall i :: 0 <= i < |r| ==> ValidateAvailabilitySlot(r[i])
    ensures forall x :: x in ItemsOf(AvailabilityValue(loaded)) && ValidateAvailabilitySlot(x) ==> x in r
    ensures forall x :: multiset(r)[x]
                        == if ValidateAvailabilitySlot(x) then multiset(ItemsOf(AvailabilityValue(loaded)))[x] else 0
  {
    FilterIsSubseq(ValidateAvailabilitySlot, ItemsOf(AvailabilityValue(loaded)));
    FilterCountsAll(ValidateAvailabilitySlot, ItemsOf(AvailabilityValue(loaded)));
    Filter(ValidateAvailabilitySlot, ItemsOf(AvailabilityValue(loaded)))
  }

  /** The string elements of a list, in order: `filter(date => typeof date === 'string')`. */
  function StringsOf(items: seq<Json>): (r: seq<string>)
    ensures |r| <= |items|
    ensures forall s :: s in r <==> JStr(s) in items
  {
    if items == [] then []
    else
      var rest := StringsOf(items[1..]);
      assert items == [items[0]] + items[1..];
      if items[0].JStr? then [items[0].s] + rest else rest
  }

  /** `validBookedDates`: the strings of the `bookedDates` array, nothing when it is no array. */
  function BookedDates(loaded: Option<Json>): (r: seq<string>)
    ensures forall d :: d in r <==> BookedDatesValue(loaded).JArr? && JStr(d) in BookedDatesValue(loaded).items
  {
    var bookedDates := BookedDatesValue(loaded);
    if ValidateArray(bookedDates) then StringsOf(bookedDates.items) else []
  }

  // ---------------------------------------------------------------------------
  // Slot status
  // ---------------------------------------------------------------------------

  /** The `date` of a well-formed slot. */
  function SlotDate(slot: Json): (d: string)
    requires ValidateAvailabilitySlot(slot)
    ensures Get(slot, "date") == JStr(d) && d != ""
  {
    Get(slot, "date").s
  }

  /** A slot is bookable when it is available and its date is not among the booked dates. */
  predicate Bookable(slot: Json, booked: seq<string>)
    requires ValidateAvailabilitySlot(slot)
  {
    Get(slot, "available") == JBool(true) && SlotDate(slot) !in booked
  }

  const RedClasses: string := "bg-red-100 text-red-800 border-red-200"
  const GoldClasses: string := "bg-gold-light text-white border-gold"
  const GreenClasses: string := "bg-green-100 text-green-800 border-green-200"

  /** `getStatusColor`: red for a slot that cannot be booked, gold for a bookable weekend, green otherwise. */
  function StatusColor(slot: Json, booked: seq<string>): (r: string)
    requires ValidateAvailabilitySlot(slot)
    ensures !Bookable(slot, booked) ==> r == RedClasses
    ensures Bookable(slot, booked) && Get(slot, "type") == JStr("weekend") ==> r == GoldClasses
    ensures Bookable(slot, booked) && Get(slot, "type") != JStr("weekend") ==> r == GreenClasses
  {
    if SlotDate(slot) in booked then RedClasses
    else if !Truthy(Get(slot, "available")) then RedClasses
    else if Get(slot, "type") == JStr("weekend") then GoldClasses
    else GreenClasses
  }

  /** `getStatusIcon`: a tick exactly for a bookable slot, a cross otherwise. */
  function StatusIcon(slot: Json, booked: seq<string>): (i: Icon)
    requires ValidateAvailabilitySlot(slot)
    ensures i == CheckCircle <==> Bookable(slot, booked)
    ensures i != CheckCircle ==> i == XCircle
  {
    if SlotDate(slot) in booked then XCircle
    else if !Truthy(Get(slot, "available")) then XCircle
    else CheckCircle
  }

  /**
   * `getStatusText`: a booked date first; then, for an unavailable slot, the label of its type
   * (`booked`, `holiday`, anything else); for an available one, whether it is a weekend.
   */
  function StatusText(slot: Json, booked: seq<string>): (r: string)
    requires ValidateAvailabilitySlot(slot)
    ensures SlotDate(slot) in booked ==> r == "Déjà réservé"
    ensures SlotDate(slot) !in booked && Get(slot, "available") == JBool(false) ==>
              && (Get(slot, "type") == JStr("booked") ==> r == "Réservé")
              && (Get(slot, "type") == JStr("holiday") ==> r == "Férié")
              && (Get(slot, "type") !in {JStr("booked"), JStr("holiday")} ==> r == "Indisponible")
    ensures Bookable(slot, booked) && Get(slot, "type") == JStr("weekend") ==> r == "Week-end disponible"
    ensures Bookable(slot, booked) && Get(slot, "type") != JStr("weekend") ==> r == "Disponible"
  {
    if SlotDate(slot) in booked then "Déjà réservé"
    else if !Truthy(Get(slot, "available")) then
      if Get(slot, "type") == JStr("booked") then "Réservé"
      else if Get(slot, "type") == JStr("holiday") then "Férié"
      else "Indisponible"
    else if Get(slot, "type") == JStr("weekend") then "Week-end disponible"
    else "Disponible"
  }

  /**
   * The colour, the icon and the label of a slot agree with each other and with what a click
   * does: red, a cross and an unavailability label exactly when the slot is not bookable.
   */
  lemma StatusAgreesWithBookable(slot: Json, booked: seq<string>)
    requires ValidateAvailabilitySlot(slot)
    ensures StatusIcon(slot, booked) == CheckCircle <==> Bookable(slot, booked)
    ensures StatusColor(slot, booked) == RedClasses <==> !Bookable(slot, booked)
    ensures StatusText(slot, booked) in {"Déjà réservé", "Réservé", "Férié", "Indisponible"} <==> !Bookable(slot, booked)
    ensures SlotDate(slot) in booked ==> StatusText(slot, booked) == "Déjà réservé"
  {
    assert RedClasses != GoldClasses && RedClasses != GreenClasses by {
      assert RedClasses[3] != GoldClasses[3];
      assert RedClasses[3] != GreenClasses[3];
    }
    var t := StatusText(slot, booked);
    if Bookable(slot, booked) {
      assert t == "Week-end disponible" || t == "Disponible";
      assert t[0] == 'W' || t[0] == 'D';
      assert t != "Déjà réservé" by { if t == "Disponible" { assert t[1] != "Déjà réservé"[1]; } }
    }
  }

  datatype BookingStatus = Idle | Booking | Success | Error

  /**
   * The calendar's state. `pendingDate` and `pendingTime` are the date and hour the running
   * request captured when it was sent; the confirmation text uses them, whatever happens meanwhile.
   */
  class Calendar {
    const app: AppStore
    const slots: seq<Json>
    const booked: seq<string>
    var selectedTime: string
    var status: BookingStatus
    var message: string
    var pendingDate: string
    var pendingTime: string

    /** Every listed slot is well-formed. */
    ghost predicate Valid()
      reads this
    {
      forall i :: 0 <= i < |slots| ==> ValidateAvailabilitySlot(slots[i])
    }

    constructor (app: AppStore, availability: Option<Json>, bookedDates: Option<Json>)
      ensures this.app == app
      ensures slots == ValidSlots(availability) && booked == BookedDates(bookedDates)
      ensures selectedTime == "" && status == Idle && message == ""
      ensures Valid()
    {
      this.app := app;
      slots := ValidSlots(availability);
      booked := BookedDates(bookedDates);
      selectedTime := "";
      status := Idle;
      message := "";
      pendingDate := "";
      pendingTime := "";
    }

    /** A choice in the time select: the empty option or one of the offered hours. */
    method SelectTime(t: string)
      requires t == "" || t in TimeSlots
      modifies this`selectedTime
      ensures selectedTime == t
    {
      selectedTime := t;
    }

    /** A click on slot `i`: only a bookable slot becomes the shared selected date, clearing the status. */
    method ClickSlot(i: nat)
      requires Valid() && i < |slots|
      modifies this`status, this`message, app`selectedDate, app`contactForm
      ensures Bookable(slots[i], booked) ==> app.selectedDate == Some(SlotDate(slots[i]))
      ensures Bookable(slots[i], booked) ==> app.contactForm == old(app.contactForm).(date := SlotDate(slots[i]))
      ensures Bookable(slots[i], booked) ==> status == Idle && message == ""
      ensures !Bookable(slots[i], booked) ==>
                app.selectedDate == old(app.selectedDate) && app.contactForm == old(app.contactForm)
                && status == old(status) && message == old(message)
    {
      var slot := slots[i];
      var isDateBooked := SlotDate(slot) in booked;
      if Truthy(Get(slot, "available")) && !isDateBooked {
        app.SetSelectedDate(Some(SlotDate(slot)));
        status := Idle;
        message := "";
      }
    }

    /** The booking button is disabled without an hour, and while a request runs or has just succeeded. */
    function BookButtonDisabled(): (disabled: bool)
      reads this
      ensures status == Booking || status == Success ==> disabled
      ensures selectedTime == "" ==> disabled
      ensures !disabled <==> selectedTime != "" && (status == Idle || status == Error)
    {
      selectedTime == "" || status == Booking || status == Success
    }

    /**
     * The synchronous part of `handleBooking`: refuses a missing date or hour and a booked date;
     * otherwise marks the request as running and captures its date and hour.
     */
    method HandleBooking() returns (sent: bool)
      modifies this`status, this`message, this`pendingDate, this`pendingTime
      ensures var d := app.selectedDate;
              (d.None? || d.value == "" || selectedTime == "") ==>
                !sent && status == Error && message == PickDateAndTime
      ensures var d := app.selectedDate;
              (d.Some? && d.value != "" && selectedTime != "" && d.value in booked) ==>
                !sent && status == Error && message == DateAlreadyBooked
      ensures sent <==> app.selectedDate.Some? && app.selectedDate.value != "" && selectedTime != ""
                        && app.selectedDate.value !in booked
      ensures sent ==> status == Booking && message == ""
                       && pendingDate == app.selectedDate.value && pendingTime == selectedTime
      ensures !sent ==> pendingDate == old(pendingDate) && pendingTime == old(pendingTime)
      ensures sent ==> BookButtonDisabled()
    {
      if app.selectedDate.None? || app.selectedDate.value == "" || selectedTime == "" {
        message := PickDateAndTime;
        status := Error;
        return false;
      }
      if app.selectedDate.value in booked {
        message := DateAlreadyBooked;
        status := Error;
        return false;
      }
      status := Booking;
      message := "";
      pendingDate := app.selectedDate.value;
      pendingTime := selectedTime;
      sent := true;
    }

    /**
     * The continuation of `handleBooking` after the simulated two-second send. `threw` is whether
     * the `try` block failed; `formatted` is the locale rendering of the captured date.
     */
    method BookingSettled(threw: bool, formatted: Option<string>)
      modifies this`status, this`message
      ensures !threw ==> status == Success && BookButtonDisabled()
      ensures !threw ==> message == BookingSent(FormatDate(JStr(pendingDate), formatted), pendingTime)
      ensures threw ==> status == Error && message == BookingFailed
    {
      if !threw {
        status := Success;
        message := BookingSent(FormatDate(JStr(pendingDate), formatted), pendingTime);
      } else {
        status := Error;
        message := BookingFailed;
      }
    }

    /** The five-second timer started by a successful request: everything returns to its initial state. */
    method ResetTimerFired()
      modifies this`status, this`message, this`selectedTime, app`selectedDate, app`contactForm
      ensures status == Idle && message == "" && selectedTime == "" && BookButtonDisabled()
      ensures app.selectedDate == None && app.contactForm == old(app.contactForm).(date := "")
    {
      status := Idle;
      message := "";
      app.SetSelectedDate(None);
      selectedTime := "";
    }
  }

  datatype CalendarView = NoSlots(message: string) | EmptyCalendar(state: EmptyState) | SlotList(count: nat)

  /** The error view when `availability` is no array, the empty state when no slot is well-formed, else the list. */
  function Render(loaded: Option<Json>): (v: CalendarView)
    ensures v.NoSlots? <==> !AvailabilityValue(loaded).JArr?
    ensures v.NoSlots? ==> v.message == NoSlotData
    ensures v.EmptyCalendar? <==> AvailabilityValue(loaded).JArr? && ValidSlots(loaded) == []
    ensures v.EmptyCalendar? ==> v.state == CalendarEmpty
    ensures v.SlotList? ==> v.count == |ValidSlots(loaded)| > 0
  {
    var availability := AvailabilityValue(loaded);
    if !availability.JArr? then NoSlots(NoSlotData)
    else if |ValidSlots(loaded)| > 0 then SlotList(|ValidSlots(loaded)|)
    else EmptyCalendar(CalendarEmpty)
  }
}
