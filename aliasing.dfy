/** The editor's item rows as the component really holds them: JavaScript
    objects shared by reference. `handleEditBill` loads the saved bill's own
    item array into the form, and the change and consumer handlers copy the
    array but assign into the objects it holds, so the saved bill sees every
    edit made in the form, cancelled or not. */
module AliasedEditor {
  import opened Model
  import opened ItemForm

  /** An item object whose fields the handlers assign in place. */
  class ItemObject {
    var name: string
    var price: real
    var quantity: int
    var consumedBy: seq<string>

    constructor (name: string, price: real, quantity: int, consumedBy: seq<string>)
      ensures Value() == Item(name, price, quantity, consumedBy)
    {
      this.name, this.price, this.quantity, this.consumedBy := name, price, quantity, consumedBy;
    }

    /** The item this object currently holds. */
    function Value(): Item
      reads this
    {
      Item(name, price, quantity, consumedBy)
    }
  }

  /** A saved bill refers to its item objects. */
  datatype StoredBill = StoredBill(id: string, paidBy: string, items: seq<ItemObject>)

  class AliasingBillSplitter {
    var bills: seq<StoredBill>
    var editingId: Option<string>
    var items: seq<ItemObject>

    constructor (bills: seq<StoredBill>)
      ensures this.bills == bills && editingId == None && |items| == 1
      ensures fresh(items[0]) && items[0].Value() == BlankItem
    {
      this.bills := bills;
      editingId := None;
      var blank := new ItemObject("", 0.0, 1, []);
      items := [blank];
    }

    /** `setItems(bill.items)`: the form holds the bill's own objects. */
    method EditBill(bill: StoredBill)
      modifies this`editingId, this`items
      ensures editingId == Some(bill.id) && items == bill.items
    {
      editingId := Some(bill.id);
      items := bill.items;
    }

    /** `newItems[index][field] = value`: the object itself changes. */
    method ChangeItem(index: nat, e: Edit)
      requires index < |items|
      modifies items[index]
      ensures items[index].Value() == ApplyEdit(old(items[index].Value()), e)
    {
      var it := items[index];
      match e
      case SetName(n) => it.name := n;
      case SetPrice(p) => it.price := p;
      case SetQuantity(q) => it.quantity := q;
      case SetConsumers(cs) => it.consumedBy := cs;
    }

    /** Cancel resets the form to one new blank object; nothing is undone. */
    method Cancel()
      modifies this`editingId, this`items
      ensures editingId == None && |items| == 1
      ensures fresh(items[0]) && items[0].Value() == BlankItem
    {
      var blank := new ItemObject("", 0.0, 1, []);
      items := [blank];
      editingId := None;
    }
  }

  /** A saved bill with one valid item; the user opens it, clears the item's
      name and cancels. The saved bill now holds an item with a blank name,
      one that its own save would have filtered out. */
  method CancelledEditChangesSavedBill() returns (ed: AliasingBillSplitter, before: Item, after: Item)
    ensures IsValidItem(before) && !IsValidItem(after)
    ensures |ed.bills| == 1 && |ed.bills[0].items| == 1 && after == ed.bills[0].items[0].Value()
    ensures after == before.(name := "")
  {
    var pizza := new ItemObject("Pizza", 20.0, 1, ["A", "B"]);
    before := pizza.Value();
    ed := new AliasingBillSplitter([StoredBill("1", "A", [pizza])]);
    ed.EditBill(ed.bills[0]);
    ed.ChangeItem(0, SetName(""));
    ed.Cancel();
    after := ed.bills[0].items[0].Value();
    assert before.name[0] == 'P';
  }
}
