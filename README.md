# A verified model of the event-planning site's content and form logic

The site is a single-page React application for an event-planning business. It has no
backend: every section reads a bundled JSON document, checks its shape defensively, and
falls back to an empty state when nothing usable is left. Two small flows hold state:

- the contact form, with its field checks and its simulated send;
- the availability calendar, where a slot is picked and a booking request is sent.

Both share one application store.

This project models that logic in Dafny:

- `JsonValues` (`json.dfy`) gives untyped JavaScript values as a datatype. It covers `typeof`,
  truthiness, `||`, loose `!= null` and own-property access on objects, arrays and strings.
- `DataValidation` (`validation.dfy`) holds the shape validators of `src/utils/dataValidation.ts`
  and the two fallback loaders.
- `Sequences` (`sequences.dfy`) holds `filter` and the facts the sections rely on: the result is
  an order-preserving subsequence, multiplicities are kept, and filtering is idempotent and fuses.
- `Content` (`content.dfy`) holds loading with a fallback, destructuring with a default, the
  list a filter runs over, and the `formatDate` guard.
- `Services`, `References`, `News`, `About` and `Testimonials` hold each section's filter,
  empty-state choice and display defaults. The testimonials carousel is a class.
- `Text` (`text.dfy`) holds JavaScript white space and `trim`.
- `ContactForm` (`contactform.dfy`) holds the e-mail and phone patterns, the field errors, and
  the form component as a class whose methods are its event handlers.
- `BookingCalendar` (`booking.dfy`) holds the slot and booked-date filters, the status table,
  and the calendar component as a class.
- `AppContext` (`appcontext.dfy`) holds the shared store as a class with one method per setter.

The outcome of `require()` is a parameter: `None` when the import throws, the document
otherwise. So are the random network failure and the locale rendering of a date. A timer
firing is a method of its own. An `async` handler is two methods: the part that runs before
the `await`, and the continuation.

## Model

| member | source | states |
|---|---|---|
| JsonValues.TypeOf | src/utils/dataValidation.ts:11 | `typeof` is "object" exactly for null, arrays and objects |
| JsonValues.Get | src/utils/dataValidation.ts:63 | reading a key of an object gives its own value, and undefined when the key is absent |
| JsonValues.Or | src/components/References.tsx:117 | `a \|\| b` is the first operand when it is truthy and the second otherwise, so a truthy default always gives a truthy result |
| JsonValues.ArrayHasNoNamedProperty | src/utils/dataValidation.ts:59-67 | an array has no own property named by a non-numeric key other than `length` |
| DataValidation.ValidateData | src/utils/dataValidation.ts:10-12 | holds exactly for arrays and objects; null, undefined, strings, numbers and booleans fail |
| DataValidation.ValidateArray | src/utils/dataValidation.ts:14-16 | holds exactly for the values `validateData` accepts that are not plain objects; the empty array passes; strings, null and undefined fail |
| DataValidation.ValidateNonEmptyArray | src/utils/dataValidation.ts:18-20 | holds iff `validateArray` holds and the array has an element |
| DataValidation.EveryRequired | src/utils/dataValidation.ts:62-66 | `every` over the key list: holds iff each key is an own, non-nullish property |
| DataValidation.ValidateObjectProperties | src/utils/dataValidation.ts:59-67 | false for non-objects; otherwise holds iff every listed key is own and non-nullish; with no keys it reduces to `validateData` |
| DataValidation.NamedKeysMissOnArrays | src/utils/dataValidation.ts:59-67 | an array never has the named keys the entity validators require, so those validators reject arrays |
| DataValidation.ValidateService | src/utils/dataValidation.ts:70-78 | implies the six required keys; holds iff five fields are strings and `features` is an array |
| DataValidation.ValidateTestimonial | src/utils/dataValidation.ts:81-89 | implies the six required keys; holds iff the text fields are strings, `rating` is a number and `visible` is a boolean of either value |
| DataValidation.ValidateReference | src/utils/dataValidation.ts:92-100 | implies the six required keys; holds iff five fields are strings and `visible` is a boolean |
| DataValidation.ValidateAvailabilitySlot | src/utils/dataValidation.ts:103-109 | holds iff `date` is a non-empty string, `available` a boolean and `type` a string |
| DataValidation.SafeParseJson | src/utils/dataValidation.ts:22-32 | the result is the fallback, or the parsed value when parsing succeeded and it is an object; a parsed object is always returned |
| DataValidation.SafeImportJson | src/utils/dataValidation.ts:34-44 | the same for an import: the imported object or exactly the fallback |
| DataValidation.SafeLoadersYieldObjects | src/utils/dataValidation.ts:22-44 | with an object as fallback, both loaders always yield an object |
| Sequences.Filter | src/components/References.tsx:36-44 | the result keeps only elements that pass, is no longer than the input, and keeps every element that passes |
| Sequences.FilterIsSubseq | src/components/References.tsx:36-44 | the filter result is an order-preserving subsequence of its input |
| Sequences.FilterCounts | src/components/References.tsx:36-44 | each passing element keeps its multiplicity and each failing one disappears |
| Sequences.FilterCountsAll | src/components/References.tsx:36-44 | the multiset of the result is the passing part of the input's multiset |
| Sequences.FilterIdempotent | src/components/Testimonials.tsx:41-51 | filtering twice with the same test is filtering once |
| Sequences.FilterKeepsAll | src/components/Testimonials.tsx:51 | a filter whose test every element passes returns its input |
| Sequences.FilterFuse | src/components/References.tsx:36-46 | two filters in a row equal one filter with the conjoined test |
| Sequences.FilterCongruent | src/components/Services.tsx:29-39 | two tests that agree on the elements filter identically |
| Text.Trim | src/components/ContactForm.tsx:70 | `trim` removes exactly white space on both sides and leaves no white space at either end |
| Text.TrimEmptyIffAllSpace | src/components/ContactForm.tsx:85 | a value trims to the empty string iff it is all white space |
| Text.TrimIdempotent | src/components/ContactForm.tsx:87 | trimming an already trimmed value changes nothing |
| Text.Utf16Length | src/components/ContactForm.tsx:87 | `.length` counts UTF-16 code units: at least one and at most two per character, exactly one each when no character is beyond U+FFFF |
| Content.Load | src/components/References.tsx:8-16 | the imported document when the import succeeds, the section's fallback when it throws |
| Content.Destructure | src/components/References.tsx:33 | a falsy document gives the default; otherwise the own property unless it is undefined (null is kept) |
| Content.ItemsOf | src/components/References.tsx:36-44 | the elements of an array, nothing for any other value |
| Content.FormatDate | src/components/News.tsx:80-93 | an empty or non-string input, or an unparsable date, gives "Date invalide" |
| Services.ServiceShapeIsValidateService | src/components/Services.tsx:30-38 | the inline predicate accepts exactly what `validateService` accepts |
| Services.ValidServices | src/components/Services.tsx:26-39 | no services when the value is not an array; else an order-preserving subsequence of the valid services that keeps every valid one; each kept element occurs as often as in the input, so duplicates are kept |
| Services.NoServicesWithoutArray | src/components/Services.tsx:5-39 | a failed import or a missing `services` key leaves no service |
| Services.ServiceIcon | src/components/Services.tsx:102 | Heart, Building, Users and Diamond map to themselves, every other name to Building |
| Services.Card | src/components/Services.tsx:102-139 | the icon is `ServiceIcon` of the service's icon name; a non-empty title, description or image is shown as it is and an empty one by its placeholder; the features are the service's array and show iff it has an entry |
| Services.Render | src/components/Services.tsx:64-100 | the fallback text iff no valid service, else one card per valid service, in order |
| Services.InvalidFixtureShowsNoService | src/__tests__/simulateEmptyData.ts:59-76 | the invalid-services fixture yields the fallback view |
| References.ValidReferences | src/components/References.tsx:36-44 | order-preserving subsequence of the references that pass `validateReference`, keeping every one; each kept element occurs as often as in the input, so duplicates are kept |
| References.VisibleReferences | src/components/References.tsx:46 | a subsequence of the valid ones, equal to one filter on "valid and `visible` is true" |
| References.NoReferencesWithoutArray | src/components/References.tsx:8-44 | a failed import or a missing key shows nothing |
| References.HiddenReferenceNotDisplayed | src/components/References.tsx:46 | a valid reference with `visible: false` is never displayed |
| References.Card | src/components/References.tsx:117-130 | a non-empty name, type, event or year is shown as it is; an empty one shows its placeholder text |
| References.Render | src/components/References.tsx:101-144 | the empty state iff nothing is visible, else one card per visible reference, in order |
| News.ValidNews | src/components/News.tsx:36-51 | order-preserving subsequence of objects with string id, title, date and summary and `visible` exactly true; each kept element occurs as often as in the input, so duplicates are kept |
| News.NoNewsWithoutArray | src/components/News.tsx:8-51 | a failed import or a missing key shows nothing |
| News.Card | src/components/News.tsx:159-186 | a truthy image or category and a non-empty title or summary are shown as they are, else their placeholders; the date line is the locale rendering of the date, or "Date invalide" for an empty or unparsable date |
| News.Render | src/components/News.tsx:148-212 | the empty state iff no item is kept, else one card per item, in order, all with the same date rendering |
| About.Title | src/components/About.tsx:100 | the title shown is never empty: the loaded title when it is truthy, the default otherwise |
| About.Description | src/components/About.tsx:103 | the same for the description |
| About.LoadedTextShown | src/components/About.tsx:29-34 | a non-empty title and description in the loaded `about` object are the ones shown |
| About.ValidValues | src/components/About.tsx:37-44 | order-preserving subsequence of the objects with string icon, title and description; each kept element occurs as often as in the input, so duplicates are kept |
| About.LoadFailureDefaults | src/components/About.tsx:15-21 | a failed import shows the default title and description and no value |
| About.ValueIcon | src/components/About.tsx:109 | Crown, Heart and Sparkles map to themselves, every other name to Sparkles |
| About.Card | src/components/About.tsx:123-126 | the icon is `ValueIcon` of the value's icon name; a non-empty title or description is shown as it is, an empty one by its placeholder |
| About.RenderValues | src/components/About.tsx:106-139 | the empty state iff no value is valid, else one card per value, in order |
| Testimonials.ValidTestimonials | src/components/Testimonials.tsx:38-49 | nothing for a non-array; else an order-preserving subsequence of the valid testimonials whose `visible` is exactly true, keeping every one; each kept element occurs as often as in the input, so duplicates are kept |
| Testimonials.VisibleTestimonials | src/components/Testimonials.tsx:51 | the second `visible` filter returns its input unchanged |
| Testimonials.NoTestimonialsWithoutArray | src/components/Testimonials.tsx:10-49 | a failed import or a missing key shows nothing |
| Testimonials.HiddenTestimonialNotShown | src/components/Testimonials.tsx:43 | a testimonial whose `visible` is not true is never shown |
| Testimonials.SafeRating | src/components/Testimonials.tsx:95 | between 0 and 5; the floor of a rating in [0, 5], else 5 |
| Testimonials.RenderStars | src/components/Testimonials.tsx:94-102 | always five stars, exactly the first `safeRating` filled |
| Testimonials.RenderStarsMonotone | src/components/Testimonials.tsx:94-102 | a higher rating in [0, 5] never fills fewer stars |
| Testimonials.AsWrittenZeroRatingShowsFiveStars | src/components/Testimonials.tsx:198 | as written, a rating of 0 fills all five stars while 0.5 fills none |
| Testimonials.Stars | src/components/Testimonials.tsx:198 | corrected call: the stars follow the testimonial's own rating |
| Testimonials.StarsFollowRating | src/components/Testimonials.tsx:94-102 | with the corrected call, a lower rating never shows more stars |
| Testimonials.Toggle | src/components/Testimonials.tsx:110-118 | the id changes membership and every other id keeps it |
| Testimonials.ToggleTwice | src/components/Testimonials.tsx:110-118 | recommending twice restores the set |
| Testimonials.Next | src/components/Testimonials.tsx:78 | the next index is in range; it moves one ahead, or from the last back to the first |
| Testimonials.AdvanceFromFirst | src/components/Testimonials.tsx:75-82 | from the first slide, k ticks (k < n) reach slide k |
| Testimonials.FullTurn | src/components/Testimonials.tsx:75-82 | n ticks bring the carousel back to the first slide |
| Testimonials.Carousel.constructor | src/components/Testimonials.tsx:32-33 | starts on the first slide with nothing recommended |
| Testimonials.Carousel.Tick | src/components/Testimonials.tsx:75-82 | with two slides or more, advances the index modulo the count and keeps it in range |
| Testimonials.Carousel.SelectDot | src/components/Testimonials.tsx:245-257 | a dot makes its slide the active one |
| Testimonials.Carousel.CurrentId | src/components/Testimonials.tsx:216 | the id of the active testimonial |
| Testimonials.Carousel.Recommend | src/components/Testimonials.tsx:105-119 | toggles the active testimonial's id in the recommended set |
| Testimonials.Carousel.CurrentCard | src/components/Testimonials.tsx:196-228 | the stars follow the rating (corrected call; identical to the code as written for every rating but 0); a non-empty comment, name or event is shown as it is, an empty one by its placeholder; whether the slide is recommended |
| Testimonials.Render | src/components/Testimonials.tsx:191-273 | the empty state iff nothing is shown; the dots iff there are two slides or more |
| ContactForm.MatchesEmailPatternIffForm | src/components/ContactForm.tsx:69 | the matcher accepts exactly `L@D.T` with non-empty parts free of white space and `@`, the dot being any dot after `@` |
| ContactForm.ValidateEmailIff | src/components/ContactForm.tsx:67-71 | an address passes iff its trimmed text has that form |
| ContactForm.MatchesPhonePatternIffForm | src/components/ContactForm.tsx:76 | the matcher accepts exactly an optional `+` and at least eight digits, spaces, dashes or parentheses |
| ContactForm.ValidatePhoneIff | src/components/ContactForm.tsx:74-78 | a phone passes iff it is empty or its trimmed text has that form |
| ContactForm.NameError | src/components/ContactForm.tsx:85-89 | an error iff the trimmed name is shorter than 2 UTF-16 code units; "obligatoire" iff the name is blank, else the length message |
| ContactForm.AstralNameIsLongEnough | src/components/ContactForm.tsx:87 | a name of one emoji is one character but two code units, so it passes the length rule |
| ContactForm.EmailError | src/components/ContactForm.tsx:92-96 | an error iff `validateEmail` fails; "obligatoire" iff the address is blank, else "invalide" |
| ContactForm.PhoneError | src/components/ContactForm.tsx:99-101 | an error iff the phone is non-empty and fails the pattern; a phone of blanks alone is an error |
| ContactForm.MessageError | src/components/ContactForm.tsx:104-108 | an error iff the trimmed message is shorter than 10 UTF-16 code units; "obligatoire" iff blank, else the length message |
| ContactForm.Collect | src/components/ContactForm.tsx:82-108 | the error object has a key for each failed check and no other, and each key holds that check's non-empty message |
| ContactForm.FormErrors | src/components/ContactForm.tsx:81-108 | the error object of a form: one entry per failed field check, only field keys, each holding the message of its field rule (the "obligatoire" one for a blank field) |
| ContactForm.FormErrorsKeys | src/components/ContactForm.tsx:84-108 | which fields have an entry, in terms of the trimmed UTF-16 lengths and the two patterns |
| ContactForm.FormValidIff | src/components/ContactForm.tsx:81-111 | the form passes iff all four field rules hold |
| ContactForm.Form.constructor | src/components/ContactForm.tsx:32-42 | empty fields except the date from the shared selected date; no error, no success text |
| ContactForm.Form.SyncSelectedDate | src/components/ContactForm.tsx:60-64 | a non-empty selected date is copied into the form's date, and nothing else changes |
| ContactForm.Form.ValidateForm | src/components/ContactForm.tsx:110-111 | stores the error object of the current values and returns whether it is empty |
| ContactForm.Form.HandleInputChange | src/components/ContactForm.tsx:114-129 | sets only the named field; clears that field's error and the banner only if that field had one; clears the success text |
| ContactForm.Form.HandleSubmit | src/components/ContactForm.tsx:132-148 | sends iff the form is valid; otherwise field errors plus the banner and the submitting flag untouched |
| ContactForm.Form.SubmissionSettled | src/components/ContactForm.tsx:149-190 | success: empty form, confirmation text, submitted flag, confirmation shown; failure: form kept and only the `general` error; the submitting flag is lowered either way |
| ContactForm.Form.DismissSuccess | src/components/ContactForm.tsx:177-181 | the timer, like the button, hides the confirmation |
| ContactForm.Form.ShowsConfirmation | src/components/ContactForm.tsx:213 | the confirmation replaces the form only while the shared submitted flag is set and the success text is non-empty |
| AppContext.ContactFields.With | src/store/AppContext.tsx:60 | sets one field and keeps the other five |
| AppContext.DateOrEmpty | src/store/AppContext.tsx:76 | `date \|\| ''` for a date or null |
| AppContext.AppStore.constructor | src/store/AppContext.tsx:39-52 | empty contact fields, both flags false, no selected date, the testimonial form hidden |
| AppContext.AppStore.UpdateContactForm | src/store/AppContext.tsx:57-62 | changes only the named contact field |
| AppContext.AppStore.SetFormSubmitting | src/store/AppContext.tsx:64-66 | changes only the submitting flag |
| AppContext.AppStore.SetFormSubmitted | src/store/AppContext.tsx:68-70 | changes only the submitted flag |
| AppContext.AppStore.SetSelectedDate | src/store/AppContext.tsx:72-78 | sets the selected date and the contact date (empty for null), nothing else |
| AppContext.AppStore.ToggleTestimonialForm | src/store/AppContext.tsx:80-85 | negates the testimonial-form flag and nothing else |
| AppContext.AppStore.ResetForm | src/store/AppContext.tsx:87-94 | restores the initial contact fields, clears the submitted flag and the date, keeps the rest |
| AppContext.UseAppState | src/store/AppContext.tsx:113-119 | fails with the provider message exactly when there is no provider |
| AppContext.ToggleTwiceRestores | src/store/AppContext.tsx:80-85 | toggling the testimonial form twice leaves the store as it was |
| BookingCalendar.ValidSlots | src/components/BookingCalendar.tsx:61-67 | order-preserving subsequence of the well-formed slots, keeping every one; each kept element occurs as often as in the input, so duplicates are kept |
| BookingCalendar.StringsOf | src/components/BookingCalendar.tsx:70 | keeps the string elements, and only them |
| BookingCalendar.BookedDates | src/components/BookingCalendar.tsx:46-70 | a date is booked iff the booked-dates value is an array holding that string |
| BookingCalendar.SlotDate | src/components/BookingCalendar.tsx:244-246 | a well-formed slot's date is a non-empty string |
| BookingCalendar.StatusColor | src/components/BookingCalendar.tsx:169-177 | red for a booked date or an unavailable slot; gold for a bookable weekend slot; green for any other bookable slot |
| BookingCalendar.StatusIcon | src/components/BookingCalendar.tsx:179-186 | a tick exactly for a bookable slot, a cross otherwise |
| BookingCalendar.StatusText | src/components/BookingCalendar.tsx:188-200 | "Déjà réservé" for a booked date; for an unavailable slot "Réservé", "Férié" or "Indisponible" by type; for a bookable one "Week-end disponible" or "Disponible" |
| BookingCalendar.StatusAgreesWithBookable | src/components/BookingCalendar.tsx:169-200 | red, a cross and an unavailability label exactly when the slot is booked or unavailable; a booked date reads "Déjà réservé" |
| BookingCalendar.Calendar.constructor | src/components/BookingCalendar.tsx:39-70 | the well-formed slots and the booked dates; no hour, status idle, no message |
| BookingCalendar.Calendar.SelectTime | src/components/BookingCalendar.tsx:300-309 | sets the chosen hour, one of the offered ones or none |
| BookingCalendar.Calendar.ClickSlot | src/components/BookingCalendar.tsx:243-250 | a bookable slot becomes the selected date (and the contact date) and clears the status; any other click changes nothing |
| BookingCalendar.Calendar.BookButtonDisabled | src/components/BookingCalendar.tsx:328 | disabled while a request runs or has just succeeded, and without an hour; enabled exactly with an hour when idle or after an error |
| BookingCalendar.Calendar.HandleBooking | src/components/BookingCalendar.tsx:100-116 | no date or hour: error "date et une heure"; booked date: error "déjà réservée"; else booking, with the date and hour captured and the button disabled |
| BookingCalendar.Calendar.BookingSettled | src/components/BookingCalendar.tsx:117-145 | success with the text naming the captured date and hour, or the error text when the send failed |
| BookingCalendar.Calendar.ResetTimerFired | src/components/BookingCalendar.tsx:134-139 | status idle, no message, no hour and no selected date |
| BookingCalendar.Render | src/components/BookingCalendar.tsx:49-230 | the error view iff availability is not an array; the empty state iff no slot is well-formed; else the slot list |

## Left out

- Rendering and animation: IntersectionObserver visibility, layout, CSS classes and transition delays. The slot colour classes are kept, since the status table uses them.
- Timers and randomness: the two-second delays, the 5% random failure and the five-second resets are not modelled as time. The outcome is a parameter, and each timer is a method that the caller runs when it fires.
- Locale date formatting: `new Date` parsing and `toLocaleDateString` are a `formatted` parameter. Only the guard for an empty or non-string date is modelled.
- Share links and downloads: the WhatsApp links (`encodeURIComponent`, `window.open`) in the testimonials and news sections, and the PDF share component, are browser calls.
- Loading: `require()` and `JSON.parse` are inputs. So are the retry handlers that reload the page, and the `hasError` flags, which are never set.
- Development logging: `console.warn`, `console.assert` and `devAssert` have no effect on any result.
- The data scripts, the presentation-only components (hero, footer, error and empty-state views, the app shell) and the site configuration.
- The testimonial form modal: its inputs are uncontrolled and never submitted. Only the flag that shows it is modelled.
- Testimonials.Carousel.CurrentCard: draws the stars with the corrected `rating ?? 5` (see Findings). For a rating of 0 the code as written fills five stars and this card fills none; for every other rating the two agree, as its contract states.
- ContactForm.NameError, ContactForm.MessageError: count UTF-16 code units as JavaScript does. `trim` is taken on characters, which is the same thing because every white-space character is in the Basic Multilingual Plane; unpaired surrogates cannot occur in a Dafny string and are not modelled.
- JsonValues.Get: reads only own properties. A name inherited from the prototype (such as `toString`) reads as undefined, where JavaScript would find the inherited member.
- Services.ServiceIcon: a prototype name such as `constructor` used as an icon name is mapped to the default icon. The source's `iconMap[name]` would return the inherited member instead.
- About.ValueIcon: the same for the values' icon map.
- Numbers are exact reals. JavaScript rounds a JSON number literal to the nearest double, and a literal too large for a double (`1e999`) becomes Infinity; neither rounding nor overflow is modelled, and NaN is not represented.
- Testimonials.SafeRating: takes the rating's exact value, so a literal such as 4.9999999999999999, which JavaScript rounds to 5, fills 4 stars here and 5 in the browser.
- ContactForm.Form.HandleInputChange: removes the cleared keys from the error object. The source sets them to undefined, which every reader treats the same way.
- BookingCalendar.Calendar.BookingSettled: nothing in the `try` block is expected to throw. The failure path is kept as a parameter, as the source keeps the `catch`.
- React batching: state updates in one handler take effect in order, which is how the handlers use them. The booking continuation reads the date and hour captured when the request was sent.

## Findings

| source | as written | input that shows it | evidently intended | confidence | as-written member | corrected member |
|---|---|---|---|---|---|---|
| src/components/Testimonials.tsx:198 | `renderStars(rating \|\| 5)`: a rating of 0 is falsy, so it becomes 5 | a visible testimonial with `rating: 0` shows five filled stars, while `rating: 0.5` shows none | only a missing rating defaults to 5 (`rating ?? 5`), so that `renderStars` can show 0 stars, as its own `rating >= 0` guard allows | medium, not executed | Testimonials.AsWrittenZeroRatingShowsFiveStars | Testimonials.StarsFollowRating |
