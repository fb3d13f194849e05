/** The bill-splitter screen as a state machine: the saved bills, the bill
    form, and the results panel, changed by one method per event handler. */
module Editor {
  import opened Text
  import opened Model
  import opened BillList
  import opened ItemForm

  /** How a request for the split ends: an alert, or the results panel. */
  datatype SplitOutcome = NoBills | RequestFailed | Shown

  class BillSplitter {
    // the saved bills and the two panels
    var bills: seq<Bill>
    var showModal: bool
    var paymentPlans: seq<Plan>
    var showResults: bool
    // the bill form; the rates are the percentages typed into the form
    var editingId: Option<string>
    var paidBy: string
    var taxPercent: real
    var servicePercent: real
    var items: seq<Item>

    /** Every saved bill passed the checks of a save. */
    ghost predicate Valid()
      reads this`bills
    {
      AllValid(bills)
    }

    /** The form as `resetForm` leaves it: no payer, five percent tax, no
        service charge, one blank row, and no bill being edited. */
    predicate FormIsReset()
      reads this`paidBy, this`taxPercent, this`servicePercent, this`items, this`editingId
    {
      && paidBy == "" && taxPercent == 5.0 && servicePercent == 0.0
      && items == [BlankItem] && editingId == None
    }

    constructor ()
      ensures Valid() && FormIsReset()
      ensures bills == [] && paymentPlans == [] && !showModal && !showResults
    {
      bills, showModal, paymentPlans, showResults := [], false, [], false;
      editingId, paidBy, taxPercent, servicePercent := None, "", 5.0, 0.0;
      items := [BlankItem];
    }

    method ResetForm()
      modifies this`paidBy, this`taxPercent, this`servicePercent, this`items, this`editingId
      ensures FormIsReset()
    {
      paidBy, taxPercent, servicePercent := "", 5.0, 0.0;
      items := [BlankItem];
      editingId := None;
    }

    /** Opening the form for a new bill also clears the results. */
    method AddBill()
      modifies this`showModal, this`showResults, this`paymentPlans
      modifies this`paidBy, this`taxPercent, this`servicePercent, this`items, this`editingId
      ensures showModal && !showResults && paymentPlans == []
      ensures FormIsReset()
    {
      showModal, showResults, paymentPlans := true, false, [];
      ResetForm();
    }

    /** Opening the form on a saved bill: its fields are loaded, its rates
        shown as percentages, and its id remembered for the save. */
    method EditBill(bill: Bill)
      modifies this`showModal, this`showResults, this`paymentPlans
      modifies this`paidBy, this`taxPercent, this`servicePercent, this`items, this`editingId
      ensures editingId == Some(bill.id) && paidBy == bill.paidBy && items == bill.items
      ensures taxPercent == bill.taxRate * 100.0 && servicePercent == bill.serviceCharge * 100.0
      ensures showModal && !showResults && paymentPlans == []
    {
      editingId, paidBy := Some(bill.id), bill.paidBy;
      taxPercent, servicePercent := bill.taxRate * 100.0, bill.serviceCharge * 100.0;
      items := bill.items;
      showModal, showResults, paymentPlans := true, false, [];
    }

    /** The form's cancel button, and its close button, which does the same:
        close the form and discard what was typed. */
    method Cancel()
      modifies this`showModal
      modifies this`paidBy, this`taxPercent, this`servicePercent, this`items, this`editingId
      ensures !showModal && FormIsReset()
    {
      showModal := false;
      ResetForm();
    }

    /** The payer field's onChange: the raw text is kept; it is trimmed
        only when the bill is saved. */
    method SetPaidBy(text: string)
      modifies this`paidBy
      ensures paidBy == text
    {
      paidBy := text;
    }

    /** The tax field's onChange, with the typed text as the number it parses to. */
    method SetTaxPercent(p: real)
      modifies this`taxPercent
      ensures taxPercent == p
    {
      taxPercent := p;
    }

    /** The service-charge field's onChange, as a number like the tax field. */
    method SetServicePercent(p: real)
      modifies this`servicePercent
      ensures servicePercent == p
    {
      servicePercent := p;
    }

    method DeleteBill(id: string)
      requires Valid()
      modifies this`bills
      ensures Valid()
      ensures bills == RemoveBill(old(bills), id)
    {
      bills := RemoveBill(bills, id);
    }

    /** The save button. A refused save changes nothing. An accepted one
        replaces every bill with the edited id, or appends one new bill with
        the fresh id, then closes and resets the form. */
    method SaveBill(freshId: string) returns (r: Result<Bill>)
      requires Valid()
      modifies this`bills, this`showModal
      modifies this`paidBy, this`taxPercent, this`servicePercent, this`items, this`editingId
      ensures Valid()
      ensures r == BuildBill(SavedId(old(editingId), freshId), old(paidBy), old(taxPercent),
                             old(servicePercent), old(items))
      ensures r.Err? ==> unchanged(this)
      ensures r.Ok? && IsEditing(old(editingId)) ==>
                bills == ReplaceBill(old(bills), old(editingId).value, r.value)
      ensures r.Ok? && !IsEditing(old(editingId)) ==> bills == old(bills) + [r.value]
      ensures r.Ok? && IsEditing(old(editingId)) ==>
                && r.value.id == old(editingId).value && |bills| == |old(bills)|
                && forall i :: 0 <= i < |bills| ==> bills[i].id == old(bills)[i].id
      ensures r.Ok? && !IsEditing(old(editingId)) ==> r.value.id == freshId
      ensures r.Ok? ==> !showModal && FormIsReset()
    {
      var id := SavedId(editingId, freshId);
      r := BuildBill(id, paidBy, taxPercent, servicePercent, items);
      if r.Ok? {
        StoreBill(r.value);
      }
    }

    /** The accepted half of a save: the bill replaces the edited one or is
        appended, and the form is closed and reset. */
    method StoreBill(bill: Bill)
      requires Valid() && IsValidBill(bill)
      requires IsEditing(editingId) ==> bill.id == editingId.value
      modifies this`bills, this`showModal
      modifies this`paidBy, this`taxPercent, this`servicePercent, this`items, this`editingId
      ensures Valid()
      ensures IsEditing(old(editingId)) ==> bills == ReplaceBill(old(bills), old(editingId).value, bill)
      ensures !IsEditing(old(editingId)) ==> bills == old(bills) + [bill]
      ensures |bills| >= |old(bills)|
      ensures IsEditing(old(editingId)) ==>
                && |bills| == |old(bills)|
                && forall i :: 0 <= i < |bills| ==> bills[i].id == old(bills)[i].id
      ensures !showModal && FormIsReset()
    {
      if IsEditing(editingId) {
        ReplaceKeepsValid(bills, editingId.value, bill);
        ReplaceKeepsIds(bills, bill);
        bills := ReplaceBill(bills, editingId.value, bill);
      } else {
        AppendKeepsValid(bills, bill);
        bills := bills + [bill];
      }
      showModal := false;
      ResetForm();
    }

    method AddItem()
      modifies this`items
      ensures items == old(items) + [BlankItem]
    {
      items := items + [BlankItem];
    }

    /** Deleting a row is refused while it is the only one, so a non-empty
        form never becomes empty. */
    method DeleteItem(index: nat)
      modifies this`items
      ensures items == if |old(items)| > 1 then RemoveItemAt(old(items), index) else old(items)
      ensures old(items) != [] ==> items != []
    {
      if |items| > 1 {
        items := RemoveItemAt(items, index);
      }
    }

    method ChangeItem(index: nat, e: Edit)
      requires index < |items|
      modifies this`items
      ensures items == old(items)[index := ApplyEdit(old(items)[index], e)]
    {
      items := items[index := ApplyEdit(items[index], e)];
    }

    /** A key pressed in row `index`'s consumer field holding `text`; returns
        the field's new text. Enter on a non-blank text adds the trimmed name
        and clears the field; any other key changes nothing. */
    method ConsumerKeyDown(index: nat, key: string, text: string) returns (newText: string)
      requires index < |items|
      modifies this`items
      ensures key == "Enter" && !IsBlank(text) ==>
                && newText == ""
                && items == old(items)[index := old(items)[index].(consumedBy :=
                                       AddConsumer(old(items)[index].consumedBy, text))]
      ensures !(key == "Enter" && !IsBlank(text)) ==> newText == text && items == old(items)
    {
      newText := text;
      TrimEmptyIff(text);
      if key == "Enter" && Trim(text) != [] {
        items := items[index := items[index].(consumedBy := AddConsumer(items[index].consumedBy, text))];
        newText := "";
      }
    }

    method RemoveConsumerOf(index: nat, name: string)
      requires index < |items|
      modifies this`items
      ensures items == old(items)[index := old(items)[index].(consumedBy :=
                                   RemoveConsumer(old(items)[index].consumedBy, name))]
    {
      items := items[index := items[index].(consumedBy := RemoveConsumer(items[index].consumedBy, name))];
    }

    /** A scanned receipt fills in the rates and replaces the rows; a failed
        scan (None) changes nothing. */
    method ApplyScan(scan: Option<Scan>)
      modifies this`taxPercent, this`servicePercent, this`items
      ensures scan.None? ==> unchanged(this)
      ensures scan.Some? ==> && taxPercent == scan.value.taxRate * 100.0
                             && servicePercent == scan.value.serviceCharge * 100.0
                             && items == FromScan(scan.value.items)
    {
      if scan.Some? {
        taxPercent := scan.value.taxRate * 100.0;
        servicePercent := scan.value.serviceCharge * 100.0;
        items := FromScan(scan.value.items);
      }
    }

    /** Asking for the split; `response` is the endpoint's answer, None when
        the request failed. Without bills no request is made. */
    method CalculateSplit(response: Option<seq<Plan>>) returns (outcome: SplitOutcome)
      modifies this`paymentPlans, this`showResults
      ensures bills == [] ==> outcome == NoBills && unchanged(this)
      ensures bills != [] && response.None? ==> outcome == RequestFailed && unchanged(this)
      ensures bills != [] && response.Some? ==>
                outcome == Shown && paymentPlans == response.value && showResults
    {
      if bills == [] {
        outcome := NoBills;
      } else if response.None? {
        outcome := RequestFailed;
      } else {
        paymentPlans, showResults := response.value, true;
        outcome := Shown;
      }
    }

    method BackToBills()
      modifies this`showResults
      ensures !showResults
    {
      showResults := false;
    }
  }

  /** Opening a saved bill, changing one of its rows and cancelling leaves
      the saved bills exactly as they were. */
  method EditChangeCancel(ed: BillSplitter, bill: Bill, index: nat, e: Edit)
    requires index < |bill.items|
    modifies ed
    ensures ed.bills == old(ed.bills) && ed.FormIsReset() && !ed.showModal
  {
    ed.EditBill(bill);
    ed.ChangeItem(index, e);
    ed.Cancel();
  }
}
