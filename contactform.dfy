/** The contact form (`src/components/ContactForm.tsx`): field checks and the submit flow. */
module ContactForm {
  import opened Wrappers
  import opened Text
  import opened AppContext

  // ---------------------------------------------------------------------------
  // The e-mail pattern /^[^\s@]+@[^\s@]+\.[^\s@]+$/
  // ---------------------------------------------------------------------------

  /** A character of the class `[^\s@]`. */
  predicate IsAtom(c: char) {
    !IsSpace(c) && c != '@'
  }

  ghost predicate AllAtoms(s: string) {
    forall i :: 0 <= i < |s| ==> IsAtom(s[i])
  }

  /** The form the pattern describes: `L@D.T`, each part a non-empty run of `[^\s@]`, the dot any dot after `@`. */
  ghost predicate EmailForm(s: string) {
    exists at, dot :: 0 < at && at + 1 < dot && dot + 1 < |s| && s[at] == '@' && s[dot] == '.'
                      && AllAtoms(s[..at]) && AllAtoms(s[at + 1..dot]) && AllAtoms(s[dot + 1..])
  }

  /** End of the run of `[^\s@]` characters that starts at `k`. */
  function AtomRun(s: string, k: nat): (e: nat)
    requires k <= |s|
    ensures k <= e <= |s|
    ensures forall i :: k <= i < e ==> IsAtom(s[i])
    ensures e < |s| ==> !IsAtom(s[e])
    decreases |s| - k
  {
    if k == |s| || !IsAtom(s[k]) then k else AtomRun(s, k + 1)
  }

  /** The matcher for the e-mail pattern: a run, `@`, and a run to the end holding a dot with atoms on both sides. */
  predicate MatchesEmailPattern(s: string) {
    var at := AtomRun(s, 0);
    && 0 < at < |s|
    && s[at] == '@'
    && AtomRun(s, at + 1) == |s|
    && exists dot | at + 1 < dot < |s| - 1 :: s[dot] == '.'
  }

  /** The matcher accepts exactly the strings of the form `L@D.T`. */
  lemma MatchesEmailPatternIffForm(s: string)
    ensures MatchesEmailPattern(s) <==> EmailForm(s)
  {
    if MatchesEmailPattern(s) {
      MatchIsForm(s);
    }
    if EmailForm(s) {
      var at, dot :| 0 < at && at + 1 < dot && dot + 1 < |s| && s[at] == '@' && s[dot] == '.'
                     && AllAtoms(s[..at]) && AllAtoms(s[at + 1..dot]) && AllAtoms(s[dot + 1..]);
      FormIsMatch(s, at, dot);
    }
  }

  lemma MatchIsForm(s: string)
    requires MatchesEmailPattern(s)
    ensures EmailForm(s)
  {
    var at := AtomRun(s, 0);
    var dot :| at + 1 < dot < |s| - 1 && s[dot] == '.';
    var local, domain, tld := s[..at], s[at + 1..dot], s[dot + 1..];
    forall i | 0 <= i < |local| ensures IsAtom(local[i]) { assert local[i] == s[i]; }
    forall i | 0 <= i < |domain| ensures IsAtom(domain[i]) { assert domain[i] == s[at + 1 + i]; }
    forall i | 0 <= i < |tld| ensures IsAtom(tld[i]) { assert tld[i] == s[dot + 1 + i]; }
  }

  lemma FormIsMatch(s: string, at: nat, dot: nat)
    requires 0 < at && at + 1 < dot && dot + 1 < |s| && s[at] == '@' && s[dot] == '.'
    requires AllAtoms(s[..at]) && AllAtoms(s[at + 1..dot]) && AllAtoms(s[dot + 1..])
    ensures MatchesEmailPattern(s)
  {
    forall i | 0 <= i < at ensures IsAtom(s[i]) { assert s[i] == s[..at][i]; }
    assert AtomRun(s, 0) == at;
    forall i | at + 1 <= i < |s| ensures IsAtom(s[i]) {
      if i < dot { assert s[i] == s[at + 1..dot][i - at - 1]; }
      else if i > dot { assert s[i] == s[dot + 1..][i - dot - 1]; }
    }
    assert AtomRun(s, at + 1) == |s|;
  }

  /** `validateEmail`: false for the empty string, else whether the trimmed input matches the pattern. */
  predicate ValidateEmail(email: string) {
    email != "" && MatchesEmailPattern(Trim(email))
  }

  /** An e-mail address is accepted exactly when its trimmed text has the form `L@D.T`. */
  lemma ValidateEmailIff(email: string)
    ensures ValidateEmail(email) <==> EmailForm(Trim(email))
  {
    MatchesEmailPatternIffForm(Trim(email));
  }

  // ---------------------------------------------------------------------------
  // The phone pattern /^[\+]?[0-9\s\-\(\)]{8,}$/
  // ---------------------------------------------------------------------------

  /** A character of the class `[0-9\s\-\(\)]`. */
  predicate IsPhoneChar(c: char) {
    ('0' <= c <= '9') || IsSpace(c) || c == '-' || c == '(' || c == ')'
  }

  predicate AllPhoneChars(s: string) {
    forall i :: 0 <= i < |s| ==> IsPhoneChar(s[i])
  }

  /** The form the pattern describes: an optional `+`, then at least eight characters of the class. */
  ghost predicate PhoneForm(s: string) {
    exists plus :: plus in {"", "+"} && |s| >= |plus| + 8 && s[..|plus|] == plus && AllPhoneChars(s[|plus|..])
  }

  /** The matcher: a leading `+` is consumed by `[\+]?`, since the class itself has no `+`. */
  predicate MatchesPhonePattern(s: string) {
    var body := if |s| > 0 && s[0] == '+' then s[1..] else s;
    |body| >= 8 && AllPhoneChars(body)
  }

  lemma MatchesPhonePatternIffForm(s: string)
    ensures MatchesPhonePattern(s) <==> PhoneForm(s)
  {
    if |s| > 0 && s[0] == '+' {
      if MatchesPhonePattern(s) {
        assert s[..|"+"|] == "+";
      }
      if PhoneForm(s) {
        var plus :| plus in {"", "+"} && |s| >= |plus| + 8 && s[..|plus|] == plus && AllPhoneChars(s[|plus|..]);
        if plus == "" { assert !IsPhoneChar(s[|plus|..][0]); }
      }
    } else {
      if MatchesPhonePattern(s) {
        assert s[..|""|] == "" && s[|""|..] == s;
      }
    }
  }

  /** `validatePhone`: the empty string passes (the field is optional), else the pattern on the trimmed input. */
  predicate ValidatePhone(phone: string) {
    phone == "" || MatchesPhonePattern(Trim(phone))
  }

  /** A phone number is accepted exactly when it is empty or its trimmed text has the pattern's form. */
  lemma ValidatePhoneIff(phone: string)
    ensures ValidatePhone(phone) <==> phone == "" || PhoneForm(Trim(phone))
  {
    MatchesPhonePatternIffForm(Trim(phone));
  }

  // ---------------------------------------------------------------------------
  // Field errors
  // ---------------------------------------------------------------------------

  const NameRequired: string := "Le nom est obligatoire"
  const NameTooShort: string := "Le nom doit contenir au moins 2 caractères"
  const EmailRequired: string := "L'adresse e-mail est obligatoire"
  const EmailInvalid: string := "Adresse e-mail invalide"
  const PhoneInvalid: string := "Numéro de téléphone invalide"
  const MessageRequired: string := "Le message est obligatoire"
  const MessageTooShort: string := "Le message doit contenir au moins 10 caractères"
  const FixErrorsFirst: string := "Veuillez corriger les erreurs ci-dessus avant de soumettre le formulaire."
  const SendFailed: string :=
    "Une erreur est survenue lors de l'envoi. Veuillez réessayer ou nous contacter directement."
  const SentMessage: string :=
    "Votre message a bien été envoyé ! Nous vous répondrons dans les plus brefs délais."

  /** The keys of the error object: one per checked field, and `general` for the banner. */
  datatype ErrorKey = On(field: Field) | General

  type Errors = map<ErrorKey, string>

  /** `errors[key]` is truthy. */
  predicate HasError(errors: Errors, key: ErrorKey) {
    key in errors && errors[key] != ""
  }

  /** A trimmed length below `min` is an error; a blank value gets the "required" message. */
  lemma BlankIsShort(s: string)
    ensures s == "" || AllSpace(s) <==> Trim(s) == ""
  {
    TrimEmptyIffAllSpace(s);
    if s == "" { assert AllSpace(s); }
  }

  /** The name check: required, at least 2 characters once trimmed. */
  function NameError(name: string): (e: Option<string>)
    ensures e.Some? ==> e.value != ""
    ensures e.Some? <==> Utf16Length(Trim(name)) < 2
    ensures e == Some(NameRequired) <==> AllSpace(name)
    ensures e.Some? && !AllSpace(name) ==> e == Some(NameTooShort)
  {
    BlankIsShort(name);
    if name == "" || Trim(name) == "" then Some(NameRequired)
    else if Utf16Length(Trim(name)) < 2 then Some(NameTooShort)
    else None
  }

  /** A one-emoji name is one character but two UTF-16 code units, so the name rule accepts it. */
  lemma AstralNameIsLongEnough()
    ensures |"\U{1F600}"| == 1 && NameError("\U{1F600}") == None
  {
    assert LeadingSpaces("\U{1F600}") == 0;
    assert TrailingSpaces("\U{1F600}") == 0;
    assert Trim("\U{1F600}") == "\U{1F600}";
  }

  /** The e-mail check: required, then the e-mail pattern. */
  function EmailError(email: string): (e: Option<string>)
    ensures e.Some? ==> e.value != ""
    ensures e.Some? <==> !ValidateEmail(email)
    ensures e == Some(EmailRequired) <==> AllSpace(email)
    ensures e.Some? && !AllSpace(email) ==> e == Some(EmailInvalid)
  {
    BlankIsShort(email);
    if email == "" || Trim(email) == "" then Some(EmailRequired)
    else if !ValidateEmail(email) then Some(EmailInvalid)
    else None
  }

  /** The phone check: only a non-empty phone is checked, so a phone of blanks alone is an error. */
  function PhoneError(phone: string): (e: Option<string>)
    ensures e.Some? ==> e.value != ""
    ensures e.Some? <==> phone != "" && !MatchesPhonePattern(Trim(phone))
    ensures e.Some? ==> e == Some(PhoneInvalid)
    ensures phone != "" && AllSpace(phone) ==> e.Some?
  {
    BlankIsShort(phone);
    if phone != "" && !ValidatePhone(phone) then Some(PhoneInvalid) else None
  }

  /** The message check: required, at least 10 characters once trimmed. */
  function MessageError(message: string): (e: Option<string>)
    ensures e.Some? ==> e.value != ""
    ensures e.Some? <==> Utf16Length(Trim(message)) < 10
    ensures e == Some(MessageRequired) <==> AllSpace(message)
    ensures e.Some? && !AllSpace(message) ==> e == Some(MessageTooShort)
  {
    BlankIsShort(message);
    if message == "" || Trim(message) == "" then Some(MessageRequired)
    else if Utf16Length(Trim(message)) < 10 then Some(MessageTooShort)
    else None
  }

  /** `newErrors[key] = message` when the check produced a message. */
  function Record(errors: Errors, key: ErrorKey, e: Option<string>): (r: Errors)
    ensures forall k :: k in r <==> k in errors || (k == key && e.Some?)
    ensures forall k :: k in r && k != key ==> r[k] == errors[k]
    ensures e.Some? ==> r[key] == e.value
  {
    if e.Some? then errors[key := e.value] else errors
  }

  /** The error object made of the four checks' outcomes, in the order `validateForm` records them. */
  function Collect(name: Option<string>, email: Option<string>, phone: Option<string>, message: Option<string>): (errors: Errors)
    requires name.Some? ==> name.value != ""
    requires email.Some? ==> email.value != ""
    requires phone.Some? ==> phone.value != ""
    requires message.Some? ==> message.value != ""
    ensures On(Name) in errors <==> name.Some?
    ensures On(Email) in errors <==> email.Some?
    ensures On(Phone) in errors <==> phone.Some?
    ensures On(Message) in errors <==> message.Some?
    ensures name.Some? ==> errors[On(Name)] == name.value
    ensures email.Some? ==> errors[On(Email)] == email.value
    ensures phone.Some? ==> errors[On(Phone)] == phone.value
    ensures message.Some? ==> errors[On(Message)] == message.value
    ensures errors.Keys <= {On(Name), On(Email), On(Phone), On(Message)}
    ensures forall k :: k in errors ==> HasError(errors, k)
  {
    Record(Record(Record(Record(map[], On(Name), name), On(Email), email), On(Phone), phone), On(Message), message)
  }

  /** The error object `validateForm` builds: one entry per failed check, none other. */
  function FormErrors(d: ContactFields): (errors: Errors)
    ensures On(Name) in errors <==> NameError(d.name).Some?
    ensures On(Email) in errors <==> EmailError(d.email).Some?
    ensures On(Phone) in errors <==> PhoneError(d.phone).Some?
    ensures On(Message) in errors <==> MessageError(d.message).Some?
    ensures On(Name) in errors ==> errors[On(Name)] == NameError(d.name).value
    ensures On(Email) in errors ==> errors[On(Email)] == EmailError(d.email).value
    ensures On(Phone) in errors ==> errors[On(Phone)] == PhoneError(d.phone).value
    ensures On(Message) in errors ==> errors[On(Message)] == MessageError(d.message).value
    ensures errors.Keys <= {On(Name), On(Email), On(Phone), On(Message)}
    ensures forall k :: k in errors ==> HasError(errors, k)
  {
    Collect(NameError(d.name), EmailError(d.email), PhoneError(d.phone), MessageError(d.message))
  }

  /** Which entries the error object holds, in terms of the four field rules. */
  lemma FormErrorsKeys(d: ContactFields)
    ensures On(Name) in FormErrors(d) <==> Utf16Length(Trim(d.name)) < 2
    ensures On(Email) in FormErrors(d) <==> !ValidateEmail(d.email)
    ensures On(Phone) in FormErrors(d) <==> d.phone != "" && !ValidatePhone(d.phone)
    ensures On(Message) in FormErrors(d) <==> Utf16Length(Trim(d.message)) < 10
  {
  }

  /** The form passes exactly when all four field rules hold. */
  lemma FormValidIff(d: ContactFields)
    ensures FormErrors(d) == map[] <==>
              && Utf16Length(Trim(d.name)) >= 2
              && ValidateEmail(d.email)
              && (d.phone == "" || ValidatePhone(d.phone))
              && Utf16Length(Trim(d.message)) >= 10
  {
    FormErrorsKeys(d);
    var e := FormErrors(d);
    if e != map[] {
      var k :| k in e;
    }
  }

  /** The contact form component: its own form values, error object and success text, and the shared state. */
  class Form {
    const app: AppStore
    var formData: ContactFields
    var errors: Errors
    var success: string

    /** The initial state: empty fields, except the date taken from `state.selectedDate || ''`. */
    constructor (app: AppStore)
      ensures this.app == app
      ensures formData == EmptyContact.(date := DateOrEmpty(app.selectedDate))
      ensures errors == map[] && success == ""
    {
      this.app := app;
      formData := EmptyContact.(date := DateOrEmpty(app.selectedDate));
      errors := map[];
      success := "";
    }

    /** The effect run when `state.selectedDate` changes: a non-empty date is copied into the form. */
    method SyncSelectedDate()
      modifies this`formData
      ensures app.selectedDate.Some? && app.selectedDate.value != "" ==>
                formData == old(formData).(date := app.selectedDate.value)
      ensures !(app.selectedDate.Some? && app.selectedDate.value != "") ==> formData == old(formData)
    {
      if app.selectedDate.Some? && app.selectedDate.value != "" {
        formData := formData.With(Date, app.selectedDate.value);
      }
    }

    /** `validateForm()`: stores the error object of the current values and reports whether it has no key. */
    method ValidateForm() returns (ok: bool)
      modifies this`errors
      ensures errors == FormErrors(formData)
      ensures ok <==> errors == map[]
    {
      var newErrors := FormErrors(formData);
      errors := newErrors;
      ok := |newErrors| == 0;
    }

    /** `handleInputChange`: sets one field; clears its error and the banner only if that field had an error. */
    method HandleInputChange(f: Field, value: string)
      modifies this`formData, this`errors, this`success
      ensures formData.Get(f) == value
      ensures forall g :: g != f ==> formData.Get(g) == old(formData.Get(g))
      ensures HasError(old(errors), On(f)) ==> errors == old(errors) - {On(f), General}
      ensures !HasError(old(errors), On(f)) ==> errors == old(errors)
      ensures success == ""
    {
      formData := formData.With(f, value);
      if HasError(errors, On(f)) {
        errors := errors - {On(f), General};
      }
      if success != "" {
        success := "";
      }
    }

    /**
     * The synchronous part of `handleSubmit`: on invalid input the field errors and the banner are
     * shown and nothing is sent; otherwise the shared `isFormSubmitting` flag is raised.
     */
    method HandleSubmit() returns (sending: bool)
      modifies this`errors, this`success, app`isFormSubmitting
      ensures sending <==> FormErrors(formData) == map[]
      ensures !sending ==> errors == FormErrors(formData)[General := FixErrorsFirst]
      ensures !sending ==> app.isFormSubmitting == old(app.isFormSubmitting)
      ensures sending ==> errors == map[] && app.isFormSubmitting
      ensures success == ""
    {
      errors := map[];
      success := "";
      var ok := ValidateForm();
      if !ok {
        errors := errors[General := FixErrorsFirst];
        return false;
      }
      app.SetFormSubmitting(true);
      sending := true;
    }

    /**
     * The continuation of `handleSubmit` once the simulated send settles (`networkError` is the
     * random failure): the form is cleared on success and kept on failure; the flag is lowered either way.
     */
    method SubmissionSettled(networkError: bool)
      modifies this`formData, this`errors, this`success, app`isFormSubmitting, app`formSubmitted
      ensures !app.isFormSubmitting
      ensures !networkError ==> success == SentMessage && app.formSubmitted
      ensures !networkError ==> formData == EmptyContact && errors == old(errors)
      ensures networkError ==> errors == map[General := SendFailed]
      ensures networkError ==> formData == old(formData) && success == old(success)
      ensures networkError ==> app.formSubmitted == old(app.formSubmitted)
      ensures !networkError ==> ShowsConfirmation()
    {
      if !networkError {
        success := SentMessage;
        app.SetFormSubmitted(true);
        formData := ContactFields("", "", "", "", "", "");
      } else {
        errors := map[General := SendFailed];
      }
      app.SetFormSubmitting(false);
    }

    /** The 5-second timer after a successful send, and the "Envoyer un autre message" button. */
    method DismissSuccess()
      modifies this`success, app`formSubmitted
      ensures !app.formSubmitted && success == ""
      ensures !ShowsConfirmation()
    {
      app.SetFormSubmitted(false);
      success := "";
    }

    /** The confirmation panel replaces the form while `state.formSubmitted && success`. */
    function ShowsConfirmation(): (shown: bool)
      reads this, app
      ensures shown ==> app.formSubmitted && success != ""
      ensures !app.formSubmitted || success == "" ==> !shown
    {
      app.formSubmitted && success != ""
    }
  }
}
