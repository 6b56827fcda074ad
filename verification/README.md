# Event booking dialog — a Dafny model

This project models the ticket-booking page of the `eeem_booking` site,
`src/pages/event.tsx`. The page sells three kinds of ticket: VIP at
5000 LKR, GENERAL at 3000 LKR and EARLYBIRD at 2500 LKR, each 0 to 10.
A buyer moves through a small dialog:

1. "Book Now" opens the dialog. The page stamps it with a reference
   number `REF-` plus the last six digits of the clock, and records the
   time.
2. The buyer types a name, NIC, contact number and e-mail and picks
   quantities.
3. "Confirm Booking" validates the form. It is disabled while the total
   is 0. It either records one error message per failing field or moves
   to a final confirmation.
4. "Yes, Confirm Booking" checks again and would send the confirmation
   e-mail through a mail relay. "No, Go Back" returns to the form.
   Closing the dialog resets the form.

A once-a-second countdown to the event runs on the same page.

The model has eight modules:

- `Pricing`: the tiers, their prices, the quantity record and the total.
- `Validation`: the whitespace trim, the upper-casing, the four field
  rules, and the `errors` object as a record of four slots.
  - A slot is absent, a key holding `undefined`, or the field's message.
  - "Absent" and "`undefined`" are kept apart because
    `Object.keys(...).length` counts the second.
- `Reference`: `Date.now().toString().slice(-6)` on a non-negative
  timestamp, with decimal round-trip lemmas.
- `Countdown`: the split of a millisecond distance into days, hours,
  minutes and seconds.
- `Booking`: the class `BookingDialog`.
  - Its fields are the component's state cells.
  - It has one method per event handler. Each method is the handler's
    whole update, applied at once.
  - The module also holds three scenario methods that chain handlers as
    a visitor would.
- `Digits`, `Arithmetic` and `Wrappers`: small helpers (the ASCII digit
  predicates, division uniqueness, and `Option`).

Points where the code behaves differently from what its own text or a
reader might expect; the model follows the code:

- The dialog has only the two flags `showPopup` and `showFinalConfirmation`
  (event.tsx:17-18). There is no payment-instructions stage: the form goes
  straight to the final confirmation.
- `resetForm` (event.tsx:140-146) does not clear the NIC. `ResetForm`,
  `Dismiss` and `SendConfirmation` keep it.
- The failure toast says "Your booking is still confirmed" (event.tsx:88),
  but the failure path (event.tsx:82-90) only shows that toast: the dialog
  stays on the final confirmation and nothing is reset.
- An edit clears the field's message by setting its key to `undefined`
  (event.tsx:331) rather than deleting the key (`EditHidesMessage`). No
  handler counts the keys of `errors`: both key counts (event.tsx:46 and
  187) are taken of a fresh `newErrors`. So the leftover key has no visible
  effect. The only `undefined` key that is counted is the one planted at
  event.tsx:39; see "## Findings".
- The send is unreachable as written; see "## Findings".
- For timestamps of six or more digits, which every `Date.now()` reading
  is, two reference numbers are equal exactly when the timestamps agree
  modulo 10^6 (`RefNumberEqualIff`). So a reopened dialog gets a different
  reference only up to that wrap-around.

## Model

| member | source | states |
|---|---|---|
| Pricing.Price | src/pages/event.tsx:101-105 | the tier table itself (VIP 5000, GENERAL 3000, EARLYBIRD 2500), given by its body; its ensures adds only that every price is one of those three |
| Pricing.Tickets.With | src/pages/event.tsx:399 | `{...tickets, [key]: v}` sets that tier to v and leaves the other two tiers as they were |
| Pricing.StoredQuantity | src/pages/event.tsx:399 | `e.value \|\| 0`: a present value is stored as is, an empty field as 0 |
| Booking.BookingDialog.TotalPrice | src/pages/event.tsx:107-110 | the footer total (line 165) is `Total` of the dialog's current quantities |
| Pricing.Total | src/pages/event.tsx:107-110 | the total is at most ten of every ticket, 105000 LKR |
| Pricing.TotalZeroIff | src/pages/event.tsx:107-110 | the total is 0 exactly when no ticket is chosen, which is when "Confirm Booking" is disabled (line 193) |
| Pricing.TotalIsSumOverTiers | src/pages/event.tsx:107-110 | the total equals the sum over the three tiers of quantity times price |
| Pricing.TotalWith | src/pages/event.tsx:107-110 | changing one tier's quantity changes the total by the difference times that tier's price, and by nothing else |
| Pricing.TotalSingleTier | src/pages/event.tsx:107-110 | q tickets of a single tier cost q times its price |
| Pricing.TotalIncrement | src/pages/event.tsx:107-110 | one more ticket of a tier adds exactly that tier's price |
| Pricing.TotalMonotone | src/pages/event.tsx:107-110 | raising quantities never lowers the total |
| Validation.Trim | src/pages/event.tsx:174 | `String.prototype.trim` as the leading strip followed by the trailing strip; `TrimBounds` characterises the result |
| Validation.TrimStartSpec | src/pages/event.tsx:174 | the leading-whitespace strip removes exactly a whitespace prefix, and what remains is empty or starts with a non-space |
| Validation.TrimEndSpec | src/pages/event.tsx:174 | the trailing-whitespace strip removes exactly a whitespace suffix, and what remains is empty or ends with a non-space |
| Validation.TrimBounds | src/pages/event.tsx:174 | `trim()` returns the slice `s[i..j]` between an all-space prefix and suffix, and it neither starts nor ends with whitespace |
| Validation.TrimOfPadded | src/pages/event.tsx:174 | trimming whitespace-padding around an already trimmed string gives that string back |
| Validation.TrimPadded | src/pages/event.tsx:174 | extra whitespace around any input does not change its trim |
| Validation.UpperChar | src/pages/event.tsx:180 | upper-casing keeps digits digits, and yields 'V' exactly for 'v' and 'V' |
| Validation.IsValidName | src/pages/event.tsx:174 | `!name.trim()` fails: the name passes when its trim is non-empty |
| Validation.NameValidIff | src/pages/event.tsx:174 | the name passes exactly when it holds a non-whitespace character |
| Validation.IsValidContact | src/pages/event.tsx:176 | `/^\d{10}$/`: exactly ten characters, every one an ASCII digit, with nothing trimmed |
| Validation.ContactNotTrimmed | src/pages/event.tsx:176 | the test is anchored and the contact is not trimmed, so any text around a valid number, spaces included, makes it fail |
| Validation.ContactExamples | src/pages/event.tsx:176 | `/^\d{10}$/`: "0712345678" passes, while "071234567" and "07123456789a" fail |
| Validation.NormalizeNic | src/pages/event.tsx:180 | `nic.trim().toUpperCase()` |
| Validation.IsValidNic | src/pages/event.tsx:180-185 | the normalised NIC matches `/^[0-9]{9}V$/` or `/^[0-9]{12}$/` |
| Validation.NicValidIff | src/pages/event.tsx:180-185 | the NIC passes exactly when its trimmed form is nine digits then 'V' or 'v', or twelve digits |
| Validation.NicPadded | src/pages/event.tsx:180 | whitespace around a NIC never changes its verdict |
| Validation.NicVerdictUntrimmed | src/pages/event.tsx:180-185 | for an input with no surrounding space, the verdict reads the two patterns off the input itself |
| Validation.OldNicAccepted | src/pages/event.tsx:181 | every nine digits followed by 'V' or 'v' pass (for example "991234567V") |
| Validation.PaddedLowerCaseNicAccepted | src/pages/event.tsx:180-181 | a space-padded, lower-case old-format NIC passes |
| Validation.NewNicAccepted | src/pages/event.tsx:182 | every twelve digits pass (for example "199912345678") |
| Validation.NicWrongLength | src/pages/event.tsx:181-183 | a trimmed NIC whose length is neither 10 nor 12 fails (for example "12345") |
| Validation.IsValidEmail | src/pages/event.tsx:178 | `/\S+@\S+\.\S+/.test(email)` decided by positions: an `@` and a later `.` with at least one character between them, one before the `@` and one after the `.`, and no whitespace in that stretch |
| Validation.EmailRuleIsRegexTest | src/pages/event.tsx:178 | the position-based e-mail rule holds exactly when some substring has the shape `\S+@\S+\.\S+` |
| Validation.EmailSurroundingText | src/pages/event.tsx:178 | the unanchored test stays true whatever text surrounds a passing address |
| Validation.EmailExamples | src/pages/event.tsx:178 | "a@b.co" passes, while "a@b" and "ab.com" fail |
| Validation.Errors.With | src/pages/event.tsx:331 | `{...prev, f: v}` sets one key and leaves the others alone |
| Validation.Errors.KeyCount | src/pages/event.tsx:187 | `Object.keys(newErrors).length` is 0 exactly when no key is present (an `undefined` key counts), and at most 4 |
| Validation.Errors.Shown | src/pages/event.tsx:336 | `{errors.f && <small>{errors.f}</small>}`: a text appears exactly when the key holds a message; which message is stated by `ProceedErrorsShow` |
| Validation.EditHidesMessage | src/pages/event.tsx:329-336 | after an edit the field shows nothing, and the other fields' texts are unchanged |
| Validation.SlotFor | src/pages/event.tsx:174-185 | a field's slot is absent exactly when its rule passes, and otherwise holds that field's message |
| Validation.ProceedErrors | src/pages/event.tsx:172-187 | every field's slot follows its own verdict, all failures are reported at once, and the key count is 0 exactly when all four rules pass |
| Validation.ProceedErrorsShow | src/pages/event.tsx:172-188 | after a refused "Confirm Booking" each failing field shows its own message ("Name is required", ...) and each passing field shows nothing |
| Validation.FinalErrors | src/pages/event.tsx:38-46 | the final check plants `nic: undefined`, so its key count is never 0. The other three slots follow their verdicts. When those three pass, no message is shown at all |
| Validation.IntendedFinalErrors | src/pages/event.tsx:38-49 | without the planted key, the count is 0 exactly when name, contact and e-mail pass |
| Booking.BookingDialog.constructor | src/pages/event.tsx:17-32 | a fresh page has the dialog closed, empty fields, no tickets, no errors and an empty reference |
| Booking.BookingDialog.BookNow | src/pages/event.tsx:112-117 | opening a closed dialog moves it to the form and stamps `RefNumber(now)` and the time. Clicking again while it is open changes nothing. The form is kept |
| Booking.BookingDialog.EditName | src/pages/event.tsx:329-332 | sets the name, turns the name error into an `undefined` key, and changes nothing else |
| Booking.BookingDialog.EditNic | src/pages/event.tsx:343-346 | sets the NIC, turns the NIC error into an `undefined` key, and changes nothing else |
| Booking.BookingDialog.EditContact | src/pages/event.tsx:357-360 | sets the contact, turns the contact error into an `undefined` key, and changes nothing else |
| Booking.BookingDialog.EditEmail | src/pages/event.tsx:371-374 | sets the e-mail, turns the e-mail error into an `undefined` key, and changes nothing else |
| Booking.BookingDialog.SetQuantity | src/pages/event.tsx:397-402 | stores the widget's value, or 0, for one tier. The other tiers and every other cell are unchanged |
| Booking.BookingDialog.Proceed | src/pages/event.tsx:171-193 | with total 0 nothing happens. With all four rules passing the dialog moves to the final confirmation with the errors untouched. Otherwise it stays on the form with the errors replaced by `ProceedErrors` of the verdicts |
| Booking.BookingDialog.FormErrors | src/pages/event.tsx:172-185 | the step-by-step error object built by the button equals `ProceedErrors` of the four verdicts |
| Booking.BookingDialog.GoBack | src/pages/event.tsx:154 | from the final confirmation back to the form, with nothing else changed |
| Booking.BookingDialog.FinalBooking | src/pages/event.tsx:37-49 | "Yes, Confirm Booking" as written: it always replaces the errors with `FinalErrors` and stays where it is, and it never sends |
| Booking.BookingDialog.FinalFormErrors | src/pages/event.tsx:38-44 | the object built by the final check equals `FinalErrors` of the verdicts |
| Booking.BookingDialog.SendConfirmation | src/pages/event.tsx:51-91 | the payload holds the reference, the buyer's fields, the date, the three quantities and the total. On delivery the dialog closes and the form is reset, keeping the NIC. On failure only the error notice changes |
| Booking.BookingDialog.FinalBookingAsIntended | src/pages/event.tsx:37-91 | with name, contact and e-mail passing, it sends that payload. On delivery the dialog closes, the form and errors are reset (NIC kept) and the success notice is shown; on failure only the error notice changes. Otherwise it sends nothing, records `IntendedFinalErrors` and keeps the stage and the form |
| Booking.BookingDialog.ResetForm | src/pages/event.tsx:140-146 | name, contact, e-mail, quantities and errors are cleared, and the NIC and the stage are kept |
| Booking.BookingDialog.Dismiss | src/pages/event.tsx:297-301 | closing the dialog from any stage closes it and resets the form |
| Booking.FillIn | src/pages/event.tsx:329-402 | four edits and a quantity change leave exactly those entries, with four `undefined` error keys; stage, reference, time and notice are unchanged |
| Booking.Visit | src/pages/event.tsx:37-193 | a valid form with q > 0 tickets of one tier reaches the final confirmation at a total of q times the price, under `RefNumber(now)`. "Yes, Confirm Booking" then leaves it there with only the planted `nic` key |
| Booking.Reopen | src/pages/event.tsx:112-146 | dismissing a filled form and opening again gives an empty form (NIC kept), no errors and the new `RefNumber(later)` |
| Reference.RefNumber | src/pages/event.tsx:114 | `` `REF-${Date.now().toString().slice(-6)}` `` for the timestamp `now` |
| Reference.Decimal | src/pages/event.tsx:114 | `n.toString()` for a non-negative integer: at least one character, all decimal digits |
| Reference.SliceLast | src/pages/event.tsx:114 | `s.slice(-k)` for a positive k |
| Reference.SliceLastSpec | src/pages/event.tsx:114 | `slice(-k)` keeps a suffix: its last k characters, or all of a shorter string |
| Reference.DecimalRoundTrip | src/pages/event.tsx:114 | reading back `n.toString()` gives n |
| Reference.SliceLastValue | src/pages/event.tsx:114 | the last k digits of a numeral denote its value modulo 10^k |
| Reference.ValueOfInjective | src/pages/event.tsx:114 | equal-length digit strings with the same value are equal |
| Reference.RefNumberShape | src/pages/event.tsx:114 | a reference is `REF-` followed by 1 to 6 digits |
| Reference.RefNumberValue | src/pages/event.tsx:114 | its digits denote the timestamp modulo 10^6 |
| Reference.RefNumberWidth | src/pages/event.tsx:114 | for any timestamp of six or more digits the reference is exactly 10 characters |
| Reference.RefNumberEqualIff | src/pages/event.tsx:114 | two such references are equal exactly when the timestamps agree modulo 10^6 |
| Reference.RefNumberRepeats | src/pages/event.tsx:114 | timestamps 10^6 ms apart give the same reference |
| Countdown.CountdownOf | src/pages/event.tsx:124-133 | at or after the start everything is 0. Before it, hours < 24 and minutes and seconds < 60 |
| Countdown.CountdownRecomposes | src/pages/event.tsx:128-133 | days, hours, minutes and seconds add back up to the distance, short of its sub-second part |
| Countdown.CountdownUnique | src/pages/event.tsx:128-133 | any in-range split that adds up to the distance is the one computed |

## Left out

- The mail relay call (`emailjs.send`, event.tsx:64-69) is not modelled as
  a network operation. Its outcome is the `delivered` argument. The
  fixed service, template and key identifiers are not modelled.
- The toasts and `console` output are not modelled. The kind of the last
  toast is kept as a ghost `notice`.
- The clock reads are parameters. "Book Now" reads the clock twice,
  `Date.now()` (event.tsx:114) and `new Date()` (event.tsx:115); the model
  takes both reads to be the same instant `now`.
- `datetime` is an integer timestamp. `toLocaleString` formatting of the
  date and of the total (event.tsx:57, 61, 165) is not modelled. The
  payload carries the raw numbers.
- The countdown's `setInterval`/`clearInterval` lifecycle (event.tsx:119-138)
  is not modelled. Only the callback's arithmetic on a given distance is
  (`CountdownOf`).
- The model works on integer milliseconds.
  `Math.floor((d / u) % n)` on floats equals `(d / u) % n` on integers
  for a non-negative d. Floating point is not modelled.
- The `InputNumber` widget's clamping to 0..10 (event.tsx:401-402) is the
  `Quantity` subset type. The widget's own behaviour is not modelled.
- React's render cycle and batching are not modelled. Each handler's
  updates are applied together, and the reference effect on `showPopup`
  runs as part of "Book Now".
- The JSX layout and `App.tsx` routing are not modelled.
- `toUpperCase` is modelled on ASCII letters only. Other characters
  cannot make a NIC pass either way, so the verdict is unchanged.
- The whitespace set of `trim` and `\S` is the ECMAScript WhiteSpace and
  LineTerminator characters, listed explicitly.
- A confirm click issued twice while a send is in flight is not modelled:
  the handler is treated as atomic, so that interleaving does not arise.
- Pricing.Total: its ensures is only a bound. That the total is 0 exactly
  for no tickets is the lemma `TotalZeroIff`, and its exact value is
  `TotalIsSumOverTiers`.
- Booking.BookingDialog.SetQuantity: its ensures does not restate the new
  total. `TotalWith` gives it.

## Findings

| source | as written | input that shows it | evidently intended | confidence | as-written member | corrected member |
|---|---|---|---|---|---|---|
| src/pages/event.tsx:38-46 | `handleFinalBooking` starts its error object with the key `nic: undefined`, so `Object.keys(newErrors).length > 0` always holds. It always returns before the send, and the confirmation e-mail is never sent. | any form that passes all four rules, such as name "A", contact "0712345678", e-mail "a@b.co" and NIC "199912345678", with one VIP ticket. The dialog stays on "Yes, Confirm Booking", shows no error message and sends nothing. | send the confirmation when name, contact and e-mail pass | high; not executed | Validation.FinalErrors, Booking.BookingDialog.FinalBooking, Booking.Visit | Validation.IntendedFinalErrors, Booking.BookingDialog.FinalBookingAsIntended |
