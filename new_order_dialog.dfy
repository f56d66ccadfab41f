/**
 * The new-order form (src/components/NewOrderDialog.tsx): its field values, whether
 * the dialog is open, and the required-field guard of submission.
 */
module NewOrderDialog {
  import opened Wrappers
  import opened OrderCard

  /** The text of every input of the form; total is still unparsed text here. */
  datatype FormData = FormData(
    customerName: string,
    phone: string,
    deliveryAddress: string,
    deliveryDate: string,
    arrangement: string,
    total: string)

  /** The form as first shown and as reset after a successful submission. */
  const Blank := FormData("", "", "", "", "", "")

  /** The toast shown after a submission attempt. */
  datatype Notice = MissingFields | OrderAdded

  /** Every field but deliveryAddress must be non-empty. */
  predicate RequiredFilled(f: FormData): (ok: bool)
    ensures ok <==> "" !in [f.customerName, f.phone, f.deliveryDate, f.arrangement, f.total]
  {
    f.customerName != "" && f.phone != "" && f.deliveryDate != "" &&
    f.arrangement != "" && f.total != ""
  }

  /**
   * What submission hands to onAddOrder: nothing when a required field is empty,
   * otherwise the text fields as entered and the parsed total.
   */
  function SubmittedDraft(f: FormData, parseTotal: string -> Amount): (r: Option<OrderDraft>)
    ensures r.None? <==>
      f.customerName == "" || f.phone == "" || f.deliveryDate == "" ||
      f.arrangement == "" || f.total == ""
    ensures r.Some? ==>
      r.value.customerName == f.customerName && r.value.phone == f.phone &&
      r.value.deliveryAddress == f.deliveryAddress && r.value.deliveryDate == f.deliveryDate &&
      r.value.arrangement == f.arrangement && r.value.total == parseTotal(f.total)
  {
    if !RequiredFilled(f) then None
    else Some(OrderDraft(f.customerName, f.phone, f.deliveryAddress, f.deliveryDate,
                         f.arrangement, parseTotal(f.total)))
  }

  /** An empty delivery address never decides whether submission goes through. */
  lemma AddressOptional(f: FormData, address: string, parseTotal: string -> Amount)
    ensures SubmittedDraft(f.(deliveryAddress := address), parseTotal).Some? ==
            SubmittedDraft(f, parseTotal).Some?
    ensures RequiredFilled(f) ==> SubmittedDraft(f.(deliveryAddress := ""), parseTotal).Some?
  {
  }

  /** The dialog's two state cells. */
  class Dialog {
    var open: bool
    var form: FormData

    constructor ()
      ensures !open && form == Blank
    {
      open := false;
      form := Blank;
    }

    /**
     * handleSubmit. If a required field is empty it reports MissingFields and
     * changes nothing; otherwise it returns the draft passed to onAddOrder, resets
     * every field to the empty string and closes the dialog.
     */
    method Submit(parseTotal: string -> Amount) returns (added: Option<OrderDraft>, notice: Notice)
      modifies this
      ensures added == SubmittedDraft(old(form), parseTotal)
      ensures added.None? ==> notice == MissingFields && form == old(form) && open == old(open)
      ensures added.Some? ==> notice == OrderAdded && form == Blank && !open
    {
      added := SubmittedDraft(form, parseTotal);
      if added.None? {
        return added, MissingFields;
      }
      form := Blank;
      open := false;
      notice := OrderAdded;
    }
  }
}
