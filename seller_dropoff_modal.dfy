/**
 * The seller's dropoff dialog: the courier and city pickers, a free note,
 * and the validation run when the form is submitted.
 */
module SellerDropoffModal {
  import opened Wrappers
  import opened Types
  import opened Feedback

  const DropoffCompanies: seq<string> := [
    "ProList Express", "City Logistics", "FastTrack Delivery", "SafeHand Courier", "Other"
  ]

  const CameroonCities: seq<string> := [
    "Yaound\U{00E9}", "Douala", "Bamenda", "Bafoussam", "Garoua", "Maroua",
    "Ngaound\U{00E9}r\U{00E9}", "Bertoua", "Ebolowa", "Buea", "Limbe", "Kumba", "Kribi"
  ]

  /** The form as the dialog holds it: plain strings, empty until picked. */
  datatype Entry = Entry(company: string, city: string, note: string)

  /** The details handed on by a successful submission. */
  function Submitted(e: Entry): LogisticsDetails {
    LogisticsDetails(Some(e.company), Some(e.city), Some(e.note))
  }

  /** The first thing wrong with the form, company before city; the note is never looked at. */
  function DropoffError(e: Entry): (err: Option<string>)
    ensures err.None? <==> e.company != "" && e.city != ""
    ensures e.company == "" ==> err == Some("Please select a dropoff company")
    ensures e.company != "" && e.city == "" ==> err == Some("Please select the dropoff city")
  {
    if e.company == "" then Some("Please select a dropoff company")
    else if e.city == "" then Some("Please select the dropoff city")
    else None
  }

  /** The note has no bearing on validation. */
  lemma NoteIsNeverValidated(e: Entry, note: string)
    ensures DropoffError(e.(note := note)) == DropoffError(e)
  {
  }

  /** Any company and city from the pickers pass validation, whatever the note. */
  lemma PickedEntryPasses(company: string, city: string, note: string)
    requires company in DropoffCompanies && city in CameroonCities
    ensures DropoffError(Entry(company, city, note)).None?
  {
  }

  class SellerDropoffModal {
    var entry: Entry

    constructor()
      ensures entry == Entry("", "", "")
    {
      entry := Entry("", "", "");
    }

    method PickCompany(company: string)
      requires company in DropoffCompanies
      modifies this
      ensures entry == old(entry).(company := company)
    {
      entry := entry.(company := company);
    }

    method PickCity(city: string)
      requires city in CameroonCities
      modifies this
      ensures entry == old(entry).(city := city)
    {
      entry := entry.(city := city);
    }

    method TypeNote(note: string)
      modifies this
      ensures entry == old(entry).(note := note)
    {
      entry := entry.(note := note);
    }

    /**
     * Submit the form: on a validation error only that error is shown;
     * otherwise the entered details are handed on unchanged, the dialog
     * asks to be closed and the success message is shown.
     */
    method HandleSubmit() returns (toast: Toast, submitted: Option<LogisticsDetails>, close: bool)
      ensures DropoffError(entry).Some? ==>
        toast == Failure(DropoffError(entry).value) && submitted.None? && !close
      ensures DropoffError(entry).None? ==>
        toast == Success("Marked as In Transit to Hub") && submitted == Some(Submitted(entry)) && close
      ensures submitted.Some? ==>
        submitted.value.dropoffCompany.value != "" && submitted.value.dropoffCity.value != ""
    {
      var err := DropoffError(entry);
      if err.Some? {
        return Failure(err.value), None, false;
      }
      toast, submitted, close := Success("Marked as In Transit to Hub"), Some(Submitted(entry)), true;
    }
  }
}
