/** The process-wide state container (`src/store/AppContext.tsx`). */
module AppContext {
  import opened Wrappers

  /** The names of the contact form's fields. */
  datatype Field = Name | Email | Phone | Date | Message | EventType

  /** The contact form's values, one string per field. */
  datatype ContactFields = ContactFields(
    name: string, email: string, phone: string, date: string, message: string, eventType: string)
  {
    /** `form[f]`. */
    function Get(f: Field): string {
      match f
      case Name => name
      case Email => email
      case Phone => phone
      case Date => date
      case Message => message
      case EventType => eventType
    }

    /** `{ ...form, [f]: v }`: only field `f` changes. */
    function With(f: Field, v: string): (r: ContactFields)
      ensures r.Get(f) == v
      ensures forall g :: g != f ==> r.Get(g) == Get(g)
    {
      match f
      case Name => this.(name := v)
      case Email => this.(email := v)
      case Phone => this.(phone := v)
      case Date => this.(date := v)
      case Message => this.(message := v)
      case EventType => this.(eventType := v)
    }
  }

  /** `initialState.contactForm`: every field empty. */
  const EmptyContact: ContactFields := ContactFields("", "", "", "", "", "")

  /** `date || ''` for a date that may be null. */
  function DateOrEmpty(d: Option<string>): (s: string)
    ensures d.None? ==> s == ""
    ensures d.Some? ==> s == d.value
  {
    match d
    case None => ""
    case Some(x) => x
  }

  /** The state held by `AppProvider`, changed only through its named setters. */
  class AppStore {
    var contactForm: ContactFields
    var isFormSubmitting: bool
    var formSubmitted: bool
    var selectedDate: Option<string>
    var showTestimonialForm: bool

    /** The provider's `initialState`. */
    constructor ()
      ensures contactForm == EmptyContact
      ensures !isFormSubmitting && !formSubmitted
      ensures selectedDate == None && !showTestimonialForm
    {
      contactForm := EmptyContact;
      isFormSubmitting := false;
      formSubmitted := false;
      selectedDate := None;
      showTestimonialForm := false;
    }

    /** `updateContactForm(field, value)`. */
    method UpdateContactForm(f: Field, v: string)
      modifies this`contactForm
      ensures contactForm.Get(f) == v
      ensures forall g :: g != f ==> contactForm.Get(g) == old(contactForm.Get(g))
    {
      contactForm := contactForm.With(f, v);
    }

    /** `setFormSubmitting(b)`. */
    method SetFormSubmitting(b: bool)
      modifies this`isFormSubmitting
      ensures isFormSubmitting == b
    {
      isFormSubmitting := b;
    }

    /** `setFormSubmitted(b)`. */
    method SetFormSubmitted(b: bool)
      modifies this`formSubmitted
      ensures formSubmitted == b
    {
      formSubmitted := b;
    }

    /** `setSelectedDate(d)`: the date is also copied into the contact form, `''` for null. */
    method SetSelectedDate(d: Option<string>)
      modifies this`selectedDate, this`contactForm
      ensures selectedDate == d
      ensures contactForm == old(contactForm).(date := DateOrEmpty(d))
    {
      selectedDate := d;
      contactForm := contactForm.With(Date, DateOrEmpty(d));
    }

    /** `toggleTestimonialForm()`. */
    method ToggleTestimonialForm()
      modifies this`showTestimonialForm
      ensures showTestimonialForm == !old(showTestimonialForm)
    {
      showTestimonialForm := !showTestimonialForm;
    }

    /** `resetForm()`: `isFormSubmitting` and `showTestimonialForm` keep their values. */
    method ResetForm()
      modifies this`contactForm, this`formSubmitted, this`selectedDate
      ensures contactForm == EmptyContact && !formSubmitted && selectedDate == None
    {
      contactForm := EmptyContact;
      formSubmitted := false;
      selectedDate := None;
    }
  }

  /** `useAppState()`: the context, or the error thrown when no `AppProvider` encloses the caller. */
  function UseAppState(provider: Option<AppStore>): (r: Result<AppStore, string>)
    ensures r.Err? <==> provider.None?
    ensures r.Err? ==> r.error == "useAppState must be used within an AppProvider"
    ensures r.Ok? ==> r.value == provider.value
  {
    match provider
    case None => Err("useAppState must be used within an AppProvider")
    case Some(s) => Ok(s)
  }

  /** Toggling the testimonial form twice restores the whole state. */
  method ToggleTwiceRestores(s: AppStore)
    modifies s
    ensures s.showTestimonialForm == old(s.showTestimonialForm)
    ensures unchanged(s)
  {
    s.ToggleTestimonialForm();
    s.ToggleTestimonialForm();
  }
}
