/**
 * The booking dialog of the event page: its state cells and one method per
 * handler, each an atomic update of those cells.
 *
 * Stages: the dialog is Closed (`showPopup` false), shows ticket selection
 * and the buyer form (Selecting), or asks for the final confirmation
 * (FinalConfirmation, `showFinalConfirmation` true). There is no other stage.
 */
module Booking {
  import opened Wrappers
  import opened Pricing
  import opened Validation
  import opened Reference

  datatype Stage = Closed | Selecting | FinalConfirmation

  /** The kind of the last toast shown, for the reader of the model only. */
  datatype Notice = NoNotice | BookingConfirmed | EmailError

  /** The buyer's entries and ticket quantities, as one value. */
  datatype Entries = Entries(name: string, contact: string, nic: string, email: string, tickets: Tickets)

  /** The template parameters handed to the mail relay (dates and totals unformatted). */
  datatype Payload = Payload(refNumber: string, name: string, contact: string, email: string,
                             date: int, vip: int, general: int, earlyBird: int, totalPrice: int)

  class BookingDialog {
    var showPopup: bool
    var showFinalConfirmation: bool
    var errors: Errors
    var refNumber: string
    /** The booking time shown in the dialog, in milliseconds since the epoch. */
    var datetime: int
    var name: string
    var contact: string
    var nic: string
    var email: string
    var tickets: Tickets
    ghost var notice: Notice

    /** The final-confirmation view only exists inside the open dialog. */
    ghost predicate Valid()
      reads this
    {
      showFinalConfirmation ==> showPopup
    }

    function CurrentStage(): Stage
      reads this
    {
      if !showPopup then Closed
      else if showFinalConfirmation then FinalConfirmation
      else Selecting
    }

    function CurrentEntries(): Entries
      reads this
    {
      Entries(name, contact, nic, email, tickets)
    }

    /** The four rules' verdicts on the form as it stands. */
    function FormVerdict(): Verdict
      reads this
    {
      Check(name, contact, email, nic)
    }

    /** The footer's "Total: ... LKR". */
    function TotalPrice(): nat
      reads this
    {
      Total(tickets)
    }

    /** The page mounts with the dialog closed, an empty form and `datetime` set to the mount time. */
    constructor (mountTime: int)
      ensures Valid() && CurrentStage() == Closed
      ensures CurrentEntries() == Entries("", "", "", "", NoTickets)
      ensures errors == NoErrors && refNumber == "" && datetime == mountTime && notice == NoNotice
    {
      showPopup, showFinalConfirmation := false, false;
      errors := NoErrors;
      refNumber, datetime := "", mountTime;
      name, contact, nic, email := "", "", "", "";
      tickets := NoTickets;
      notice := NoNotice;
    }

    /**
     * "Book Now" opens the dialog. The effect on `showPopup` runs only when it
     * turns true, and then stamps a fresh reference and booking time from the
     * clock reading `now`.
     */
    method BookNow(now: nat)
      requires Valid()
      modifies this
      ensures Valid()
      ensures old(CurrentStage()) == Closed ==> CurrentStage() == Selecting && refNumber == RefNumber(now) && datetime == now
      ensures old(CurrentStage()) != Closed ==>
                CurrentStage() == old(CurrentStage()) && refNumber == old(refNumber) && datetime == old(datetime)
      ensures CurrentEntries() == old(CurrentEntries()) && errors == old(errors) && notice == old(notice)
    {
      if !showPopup {
        showPopup := true;
        refNumber := RefNumber(now);
        datetime := now;
      }
    }

    /** Typing in the name field stores the text and clears that field's error (the key stays, `undefined`). */
    method EditName(value: string)
      requires Valid()
      modifies this
      ensures Valid() && CurrentStage() == old(CurrentStage())
      ensures CurrentEntries() == old(CurrentEntries()).(name := value)
      ensures errors == old(errors).With(Name, Undefined)
      ensures refNumber == old(refNumber) && datetime == old(datetime) && notice == old(notice)
    {
      name := value;
      errors := errors.With(Name, Undefined);
    }

    method EditNic(value: string)
      requires Valid()
      modifies this
      ensures Valid() && CurrentStage() == old(CurrentStage())
      ensures CurrentEntries() == old(CurrentEntries()).(nic := value)
      ensures errors == old(errors).With(Nic, Undefined)
      ensures refNumber == old(refNumber) && datetime == old(datetime) && notice == old(notice)
    {
      nic := value;
      errors := errors.With(Nic, Undefined);
    }

    method EditContact(value: string)
      requires Valid()
      modifies this
      ensures Valid() && CurrentStage() == old(CurrentStage())
      ensures CurrentEntries() == old(CurrentEntries()).(contact := value)
      ensures errors == old(errors).With(Contact, Undefined)
      ensures refNumber == old(refNumber) && datetime == old(datetime) && notice == old(notice)
    {
      contact := value;
      errors := errors.With(Contact, Undefined);
    }

    method EditEmail(value: string)
      requires Valid()
      modifies this
      ensures Valid() && CurrentStage() == old(CurrentStage())
      ensures CurrentEntries() == old(CurrentEntries()).(email := value)
      ensures errors == old(errors).With(Email, Undefined)
      ensures refNumber == old(refNumber) && datetime == old(datetime) && notice == old(notice)
    {
      email := value;
      errors := errors.With(Email, Undefined);
    }

    /**
     * A quantity widget's value change: `{ ...tickets, [tier]: e.value || 0 }`.
     * The other tiers keep their quantities and the total moves by the
     * tier's price times the change.
     */
    method SetQuantity(tier: Tier, value: Option<Quantity>)
      requires Valid()
      modifies this
      ensures Valid() && CurrentStage() == old(CurrentStage())
      ensures tickets == old(tickets).With(tier, StoredQuantity(value))
      ensures forall other :: other != tier ==> tickets.Get(other) == old(tickets).Get(other)
      ensures name == old(name) && contact == old(contact) && nic == old(nic) && email == old(email)
      ensures errors == old(errors) && refNumber == old(refNumber) && datetime == old(datetime) && notice == old(notice)
    {
      tickets := tickets.With(tier, value.GetOr(0));
    }

    /**
     * "Confirm Booking" under the form. The button is disabled while the total
     * is 0, so a click then changes nothing. Otherwise all four fields are
     * checked; with any failure `errors` is replaced and the stage stays,
     * and with none the final confirmation opens and `errors` is kept.
     */
    method Proceed()
      requires Valid() && CurrentStage() == Selecting
      modifies this
      ensures Valid()
      ensures old(TotalPrice()) == 0 ==> CurrentStage() == Selecting && errors == old(errors)
      ensures old(TotalPrice()) > 0 && old(FormVerdict()).All() ==>
                CurrentStage() == FinalConfirmation && errors == old(errors)
      ensures old(TotalPrice()) > 0 && !old(FormVerdict()).All() ==>
                CurrentStage() == Selecting && errors == ProceedErrors(old(FormVerdict()))
      ensures CurrentEntries() == old(CurrentEntries())
      ensures refNumber == old(refNumber) && datetime == old(datetime) && notice == old(notice)
    {
      if TotalPrice() == 0 {
        return;
      }
      var newErrors := FormErrors();
      if newErrors.KeyCount() > 0 {
        errors := newErrors;
      } else {
        showFinalConfirmation := true;
      }
    }

    /**
     * The checks behind "Confirm Booking", in the handler's order: each
     * failing rule adds its field's key with its message.
     */
    method FormErrors() returns (newErrors: Errors)
      ensures newErrors == ProceedErrors(FormVerdict())
    {
      newErrors := NoErrors;
      if !IsValidName(name) {
        newErrors := newErrors.(name := Text(Name));
      }
      if !IsValidContact(contact) {
        newErrors := newErrors.(contact := Text(Contact));
      }
      if !IsValidEmail(email) {
        newErrors := newErrors.(email := Text(Email));
      }
      var trimmedNic := NormalizeNic(nic);
      var isOldNic := IsOldNic(trimmedNic);
      var isNewNic := IsNewNic(trimmedNic);
      if !isOldNic && !isNewNic {
        newErrors := newErrors.(nic := Text(Nic));
      }
    }

    /** "No, Go Back" leaves the final confirmation for the form; nothing else changes. */
    method GoBack()
      requires Valid()
      modifies this
      ensures Valid()
      ensures CurrentStage() == if old(CurrentStage()) == Closed then Closed else Selecting
      ensures CurrentEntries() == old(CurrentEntries()) && errors == old(errors)
      ensures refNumber == old(refNumber) && datetime == old(datetime) && notice == old(notice)
    {
      showFinalConfirmation := false;
    }

    /**
     * "Yes, Confirm Booking" (`handleFinalBooking`). Its error map starts with
     * a `nic` key holding `undefined`, so the key count is never 0: the map
     * always replaces `errors`, the handler always returns early, and the
     * send that follows is never reached.
     */
    method FinalBooking()
      requires Valid()
      modifies this
      ensures Valid() && CurrentStage() == old(CurrentStage())
      ensures errors == FinalErrors(old(FormVerdict()))
      ensures CurrentEntries() == old(CurrentEntries())
      ensures refNumber == old(refNumber) && datetime == old(datetime) && notice == old(notice)
    {
      var newErrors := FinalFormErrors();
      if newErrors.KeyCount() > 0 {
        errors := newErrors;
        return;
      }
      // The send (SendConfirmation below) would follow here; it cannot be reached.
      assert false;
    }

    /**
     * The checks behind "Yes, Confirm Booking": they start from a `nic` key
     * holding `undefined` and leave the NIC itself unchecked.
     */
    method FinalFormErrors() returns (newErrors: Errors)
      ensures newErrors == FinalErrors(FormVerdict())
    {
      newErrors := NoErrors.(nic := Undefined);
      if !IsValidName(name) {
        newErrors := newErrors.(name := Text(Name));
      }
      if !IsValidContact(contact) {
        newErrors := newErrors.(contact := Text(Contact));
      }
      if !IsValidEmail(email) {
        newErrors := newErrors.(email := Text(Email));
      }
    }

    /**
     * The send branch of `handleFinalBooking`, with the relay's answer as
     * `delivered`. On delivery the dialog closes and the form is reset; on
     * failure only the error toast appears and the dialog stays as it was.
     * FinalBooking never gets here (see above).
     */
    method SendConfirmation(delivered: bool) returns (sent: Payload)
      requires Valid()
      modifies this
      ensures Valid()
      ensures sent == Payload(old(refNumber), old(name), old(contact), old(email), old(datetime),
                              old(tickets).vip, old(tickets).general, old(tickets).earlyBird, old(TotalPrice()))
      ensures delivered ==> CurrentStage() == Closed && notice == BookingConfirmed
      ensures delivered ==> CurrentEntries() == Entries("", "", old(nic), "", NoTickets) && errors == NoErrors
      ensures !delivered ==> CurrentStage() == old(CurrentStage()) && notice == EmailError
      ensures !delivered ==> CurrentEntries() == old(CurrentEntries()) && errors == old(errors)
      ensures refNumber == old(refNumber) && datetime == old(datetime)
    {
      sent := Payload(refNumber, name, contact, email, datetime,
                      tickets.vip, tickets.general, tickets.earlyBird, TotalPrice());
      if delivered {
        showPopup := false;
        showFinalConfirmation := false;
        ResetForm();
        notice := BookingConfirmed;
      } else {
        notice := EmailError;
      }
    }

    /**
     * "Yes, Confirm Booking" as its code evidently intends: with no `nic`
     * key planted, a form whose name, contact and e-mail pass goes on to the
     * send; otherwise `errors` is replaced as before and nothing is sent.
     */
    method FinalBookingAsIntended(delivered: bool) returns (sent: Option<Payload>)
      requires Valid()
      modifies this
      ensures Valid()
      ensures var v := old(FormVerdict());
              !(v.name && v.contact && v.email) ==>
                sent == None && errors == IntendedFinalErrors(v) && CurrentStage() == old(CurrentStage())
                && CurrentEntries() == old(CurrentEntries()) && notice == old(notice)
      ensures var v := old(FormVerdict());
              v.name && v.contact && v.email ==>
                sent == Some(Payload(old(refNumber), old(name), old(contact), old(email), old(datetime),
                                     old(tickets).vip, old(tickets).general, old(tickets).earlyBird, old(TotalPrice())))
                && (delivered ==> CurrentStage() == Closed && CurrentEntries() == Entries("", "", old(nic), "", NoTickets)
                                  && errors == NoErrors && notice == BookingConfirmed)
                && (!delivered ==> CurrentStage() == old(CurrentStage()) && CurrentEntries() == old(CurrentEntries())
                                   && errors == old(errors) && notice == EmailError)
      ensures refNumber == old(refNumber) && datetime == old(datetime)
    {
      var newErrors := IntendedFinalErrors(FormVerdict());
      if newErrors.KeyCount() > 0 {
        errors := newErrors;
        return None;
      }
      var payload := SendConfirmation(delivered);
      sent := Some(payload);
    }

    /** `resetForm`: clears name, contact, email, the quantities and the errors. The NIC is not cleared. */
    method ResetForm()
      modifies this
      ensures CurrentEntries() == Entries("", "", old(nic), "", NoTickets) && errors == NoErrors
      ensures showPopup == old(showPopup) && showFinalConfirmation == old(showFinalConfirmation)
      ensures refNumber == old(refNumber) && datetime == old(datetime) && notice == old(notice)
    {
      name := "";
      contact := "";
      email := "";
      tickets := NoTickets;
      errors := NoErrors;
    }

    /**
     * Dismissing the dialog (`onHide`) from any stage closes it and resets
     * the form; the NIC, the reference and the booking time survive.
     */
    method Dismiss()
      requires Valid()
      modifies this
      ensures Valid() && CurrentStage() == Closed
      ensures CurrentEntries() == Entries("", "", old(nic), "", NoTickets) && errors == NoErrors
      ensures refNumber == old(refNumber) && datetime == old(datetime) && notice == old(notice)
    {
      showPopup := false;
      showFinalConfirmation := false;
      ResetForm();
    }
  }

  /** The buyer types the four fields and sets one tier's quantity, in that order. */
  method FillIn(dialog: BookingDialog, name: string, contact: string, email: string, nic: string,
                tier: Tier, q: Quantity)
    requires dialog.Valid()
    modifies dialog
    ensures dialog.Valid() && dialog.CurrentStage() == old(dialog.CurrentStage())
    ensures dialog.CurrentEntries() == Entries(name, contact, nic, email, old(dialog.tickets).With(tier, q))
    ensures dialog.errors == Errors(Undefined, Undefined, Undefined, Undefined)
    ensures dialog.refNumber == old(dialog.refNumber) && dialog.datetime == old(dialog.datetime)
    ensures dialog.notice == old(dialog.notice)
  {
    dialog.EditName(name);
    dialog.EditContact(contact);
    dialog.EditEmail(email);
    dialog.EditNic(nic);
    dialog.SetQuantity(tier, Some(q));
  }

  /**
   * A visit as the code runs it. The buyer opens the dialog at `now`, fills
   * in a form that passes all four rules, picks `q` tickets of one tier and
   * confirms: the final confirmation opens, with the reference stamped at
   * opening. "Yes, Confirm Booking" then leaves the dialog where it is, its
   * `errors` holding only the planted `nic` key.
   */
  method Visit(mountTime: int, now: nat, name: string, contact: string, email: string, nic: string,
               tier: Tier, q: Quantity)
    returns (afterProceed: Stage, afterConfirm: Stage, total: nat, ref: string, confirmErrors: Errors)
    requires Check(name, contact, email, nic).All() && q > 0
    ensures afterProceed == FinalConfirmation && afterConfirm == FinalConfirmation
    ensures total == q * Price(tier) && ref == RefNumber(now)
    ensures confirmErrors == NoErrors.(nic := Undefined)
  {
    var dialog := new BookingDialog(mountTime);
    dialog.BookNow(now);
    FillIn(dialog, name, contact, email, nic, tier, q);
    assert dialog.name == name && dialog.contact == contact && dialog.email == email && dialog.nic == nic;
    assert dialog.tickets == NoTickets.With(tier, q);
    TotalSingleTier(tier, q);
    assert dialog.TotalPrice() == q * Price(tier);
    assert dialog.FormVerdict() == Check(name, contact, email, nic);
    total := dialog.TotalPrice();
    dialog.Proceed();
    afterProceed := dialog.CurrentStage();
    ref := dialog.refNumber;
    dialog.FinalBooking();
    afterConfirm := dialog.CurrentStage();
    confirmErrors := dialog.errors;
  }

  /**
   * Dismissing a filled-in dialog and reopening it at `later` gives an empty
   * form that still holds the NIC, no errors and a fresh reference.
   */
  method Reopen(mountTime: int, now: nat, later: nat, name: string, contact: string, email: string, nic: string,
                tier: Tier, q: Quantity)
    returns (stage: Stage, reopened: Entries, reopenedErrors: Errors, laterRef: string)
    ensures stage == Selecting && reopened == Entries("", "", nic, "", NoTickets)
    ensures reopenedErrors == NoErrors && laterRef == RefNumber(later)
  {
    var dialog := new BookingDialog(mountTime);
    dialog.BookNow(now);
    FillIn(dialog, name, contact, email, nic, tier, q);
    dialog.Dismiss();
    dialog.BookNow(later);
    stage := dialog.CurrentStage();
    reopened := dialog.CurrentEntries();
    reopenedErrors := dialog.errors;
    laterRef := dialog.refNumber;
  }
}
