/** The item rows of the bill form and the consumer list of each row. */
module ItemForm {
  import opened Text
  import opened Lists
  import opened Model

  /** `items.filter((_, i) => i !== index)`: the row at `index` goes, the rows
      before it keep their positions and the rows after it move up by one; an
      index past the end removes nothing. */
  function RemoveItemAt(items: seq<Item>, index: nat): (r: seq<Item>)
    ensures index < |items| ==> |r| == |items| - 1
    ensures index < |items| ==> multiset(r) + multiset{items[index]} == multiset(items)
    ensures index >= |items| ==> r == items
    ensures forall j :: 0 <= j < |r| ==> r[j] == items[if j < index then j else j + 1]
  {
    if index < |items| then
      assert items == items[..index] + [items[index]] + items[index + 1..];
      items[..index] + items[index + 1..]
    else items
  }

  /** Deleting the row just added gives back the rows there were before. */
  lemma AddThenRemoveItem(items: seq<Item>)
    ensures RemoveItemAt(items + [BlankItem], |items|) == items
  {
  }

  /** One change of a form field, as `handleItemChange(index, field, value)` is
      called with it. */
  datatype Edit = SetName(name: string) | SetPrice(price: real) | SetQuantity(quantity: int)
                | SetConsumers(consumers: seq<string>)

  /** The edited field takes the new value; the other three keep theirs. */
  function ApplyEdit(it: Item, e: Edit): (r: Item)
    ensures r.name == if e.SetName? then e.name else it.name
    ensures r.price == if e.SetPrice? then e.price else it.price
    ensures r.quantity == if e.SetQuantity? then e.quantity else it.quantity
    ensures r.consumedBy == if e.SetConsumers? then e.consumers else it.consumedBy
  {
    match e
    case SetName(n) => it.(name := n)
    case SetPrice(p) => it.(price := p)
    case SetQuantity(q) => it.(quantity := q)
    case SetConsumers(cs) => it.(consumedBy := cs)
  }

  /** Of two edits to the same field, the later one wins. */
  lemma LaterEditWins(it: Item, e1: Edit, e2: Edit)
    requires e1.SetName? == e2.SetName? && e1.SetPrice? == e2.SetPrice?
    requires e1.SetQuantity? == e2.SetQuantity?
    ensures ApplyEdit(ApplyEdit(it, e1), e2) == ApplyEdit(it, e2)
  {
  }

  /** Pressing Enter in a row's consumer field: the trimmed text is appended
      when it is not blank and not already listed, otherwise nothing changes.
      The old list is kept as a prefix and a duplicate-free list stays so. */
  function AddConsumer(consumers: seq<string>, text: string): (r: seq<string>)
    ensures consumers <= r && |r| <= |consumers| + 1
    ensures forall c :: c in r <==> c in consumers || (c == Trim(text) && !IsBlank(text))
    ensures IsBlank(text) || Trim(text) in consumers ==> r == consumers
    ensures NoDuplicates(consumers) ==> NoDuplicates(r)
  {
    TrimEmptyIff(text);
    var name := Trim(text);
    if name != [] && name !in consumers then consumers + [name] else consumers
  }

  /** Entering the same name twice adds it once. */
  lemma AddConsumerIdempotent(consumers: seq<string>, text: string)
    ensures AddConsumer(AddConsumer(consumers, text), text) == AddConsumer(consumers, text)
  {
  }

  /** Clicking a consumer's remove button: every occurrence of the name goes,
      the other consumers stay in order with their multiplicities. */
  function RemoveConsumer(consumers: seq<string>, name: string): (r: seq<string>)
    ensures name !in r
    ensures forall c :: c in r ==> c in consumers
    ensures forall c: string :: c != name ==> multiset(r)[c] == multiset(consumers)[c]
    ensures IsSubsequence(r, consumers)
  {
    Filter(consumers, (c: string) => c != name)
  }

  /** Removing a consumer keeps a duplicate-free list duplicate-free. */
  lemma RemoveConsumerNoDuplicates(consumers: seq<string>, name: string)
    requires NoDuplicates(consumers)
    ensures NoDuplicates(RemoveConsumer(consumers, name))
  {
    FilterNoDuplicates(consumers, (c: string) => c != name);
  }

  /** Adding a name and removing it again is removing it; when the name was
      not listed before, the list is back to what it was. */
  lemma AddThenRemoveConsumer(consumers: seq<string>, text: string)
    ensures RemoveConsumer(AddConsumer(consumers, text), Trim(text)) == RemoveConsumer(consumers, Trim(text))
    ensures Trim(text) !in consumers ==> RemoveConsumer(AddConsumer(consumers, text), Trim(text)) == consumers
  {
    var name := Trim(text);
    var p := (c: string) => c != name;
    if name != [] && name !in consumers {
      FilterAppend(consumers, [name], p);
      assert Filter([name], p) == [];
    }
    if name !in consumers {
      FilterKeepsAll(consumers, p);
    }
  }

  /** The rows a scanned receipt fills the form with: one per scanned line,
      with its name, price and quantity, and no consumers yet. */
  function FromScan(scanned: seq<ScannedItem>): (r: seq<Item>)
    ensures |r| == |scanned|
    ensures forall i :: 0 <= i < |r| ==>
      r[i].name == scanned[i].name && r[i].price == scanned[i].price
      && r[i].quantity == scanned[i].quantity && r[i].consumedBy == []
  {
    seq(|scanned|, i requires 0 <= i < |scanned| =>
      Item(scanned[i].name, scanned[i].price, scanned[i].quantity, []))
  }

  /** No row filled in from a scan can be saved until someone is named as
      its consumer. */
  lemma ScannedRowsNeedConsumers(scanned: seq<ScannedItem>)
    ensures forall it :: it in FromScan(scanned) ==> !IsValidItem(it)
  {
  }
}
