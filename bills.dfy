/** The bill list: deleting, replacing and building bills, as the editor's
    delete and save handlers compute fresh arrays. */
module BillList {
  import opened Text
  import opened Lists
  import opened Model

  /** Deleting a bill: every bill with that id goes, the others stay in order. */
  function RemoveBill(bills: seq<Bill>, id: string): (r: seq<Bill>)
    ensures forall b :: b in r ==> b in bills && b.id != id
    ensures forall b: Bill :: b.id != id ==> multiset(r)[b] == multiset(bills)[b]
    ensures IsSubsequence(r, bills)
  {
    Filter(bills, (b: Bill) => b.id != id)
  }

  /** Deleting an id no bill has leaves the list as it is. */
  lemma RemoveAbsentBill(bills: seq<Bill>, id: string)
    requires forall b :: b in bills ==> b.id != id
    ensures RemoveBill(bills, id) == bills
  {
    FilterKeepsAll(bills, (b: Bill) => b.id != id);
  }

  /** Saving an edited bill: every position whose bill has the edited id now
      holds the new bill, every other position is unchanged. */
  function ReplaceBill(bills: seq<Bill>, id: string, bill: Bill): (r: seq<Bill>)
    ensures |r| == |bills|
    ensures forall i :: 0 <= i < |bills| ==> r[i] == if bills[i].id == id then bill else bills[i]
  {
    if bills == [] then []
    else [if bills[0].id == id then bill else bills[0]] + ReplaceBill(bills[1..], id, bill)
  }

  /** Replacing an id no bill has changes nothing. */
  lemma ReplaceAbsentBill(bills: seq<Bill>, id: string, bill: Bill)
    requires forall b :: b in bills ==> b.id != id
    ensures ReplaceBill(bills, id, bill) == bills
  {
  }

  /** A replacement that keeps the id leaves the list of ids as it was. */
  lemma ReplaceKeepsIds(bills: seq<Bill>, bill: Bill)
    ensures var r := ReplaceBill(bills, bill.id, bill);
      forall i :: 0 <= i < |r| ==> r[i].id == bills[i].id
  {
  }

  /** Editing a bill and then deleting it is the same as deleting it. */
  lemma {:induction false} ReplaceThenRemove(bills: seq<Bill>, bill: Bill)
    ensures RemoveBill(ReplaceBill(bills, bill.id, bill), bill.id) == RemoveBill(bills, bill.id)
  {
    var p := (b: Bill) => b.id != bill.id;
    if bills != [] {
      var head := if bills[0].id == bill.id then bill else bills[0];
      var tail := ReplaceBill(bills[1..], bill.id, bill);
      assert ReplaceBill(bills, bill.id, bill) == [head] + tail;
      FilterAppend([head], tail, p);
      assert bills == [bills[0]] + bills[1..];
      FilterAppend([bills[0]], bills[1..], p);
      ReplaceThenRemove(bills[1..], bill);
    }
  }

  /** Storing valid bills keeps the list valid. */
  lemma ReplaceKeepsValid(bills: seq<Bill>, id: string, bill: Bill)
    requires AllValid(bills) && IsValidBill(bill)
    ensures AllValid(ReplaceBill(bills, id, bill))
  {
  }

  /** Appending a valid bill keeps the list valid. */
  lemma AppendKeepsValid(bills: seq<Bill>, bill: Bill)
    requires AllValid(bills) && IsValidBill(bill)
    ensures AllValid(bills + [bill])
  {
  }

  /** The form items the save keeps: exactly the valid ones, in their order. */
  function ValidItems(items: seq<Item>): (r: seq<Item>)
    ensures forall it :: it in r ==> it in items && IsValidItem(it)
    ensures forall it :: IsValidItem(it) ==> multiset(r)[it] == multiset(items)[it]
    ensures IsSubsequence(r, items)
  {
    Filter(items, IsValidItem)
  }

  /** `editingBillId` is a JavaScript value tested for truthiness: no bill is
      being edited when it is null or the empty string. */
  predicate IsEditing(editingId: Option<string>) {
    editingId.Some? && editingId.value != ""
  }

  /** `editingBillId || Date.now().toString()`: the id the saved bill gets. */
  function SavedId(editingId: Option<string>, freshId: string): string {
    if IsEditing(editingId) then editingId.value else freshId
  }

  /** The bill a save builds from the form, or the reason it is refused: a
      blank payer is checked first, then that some item is valid. What it
      builds is a valid bill. */
  function BuildBill(id: string, paidBy: string, taxPercent: real, servicePercent: real,
                     items: seq<Item>): (r: Result<Bill>)
    ensures r == Err(MissingPayer) <==> IsBlank(paidBy)
    ensures r == Err(NoValidItems) <==> !IsBlank(paidBy) && ValidItems(items) == []
    ensures r.Ok? ==> && IsValidBill(r.value)
                      && r.value.id == id && r.value.paidBy == Trim(paidBy)
                      && r.value.items == ValidItems(items)
                      && r.value.taxRate == taxPercent / 100.0
                      && r.value.serviceCharge == servicePercent / 100.0
  {
    TrimEmptyIff(paidBy);
    if Trim(paidBy) == [] then Err(MissingPayer)
    else
      var valid := ValidItems(items);
      if valid == [] then Err(NoValidItems)
      else Ok(Bill(id, Trim(paidBy), taxPercent / 100.0, servicePercent / 100.0, valid))
  }

  /** A non-blank payer and a single valid row are all a save needs: the
      bill holds that row, the trimmed payer and the rates as fractions. */
  lemma OneValidRowSaves(id: string, payer: string, taxPercent: real, servicePercent: real, row: Item)
    requires !IsBlank(payer) && IsValidItem(row)
    ensures BuildBill(id, payer, taxPercent, servicePercent, [row])
            == Ok(Bill(id, Trim(payer), taxPercent / 100.0, servicePercent / 100.0, [row]))
  {
    FilterKeepsAll([row], IsValidItem);
  }
}
