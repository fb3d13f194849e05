/** The values the bill editor works with: form items, saved bills, and the
    payment plans the split endpoint answers with. */
module Model {
  import opened Text

  datatype Option<T> = None | Some(value: T)

  /** One line of a bill. The price is only ever compared with zero here. */
  datatype Item = Item(name: string, price: real, quantity: int, consumedBy: seq<string>)

  /** A saved bill; the rates are fractions (0.05 for five percent). */
  datatype Bill = Bill(id: string, paidBy: string, taxRate: real, serviceCharge: real, items: seq<Item>)

  datatype Payment = Payment(to: string, amount: real)

  /** What one person has to pay, and to whom. */
  datatype Plan = Plan(name: string, payments: seq<Payment>)

  /** One line as the receipt scanner returns it: it names no consumers. */
  datatype ScannedItem = ScannedItem(name: string, price: real, quantity: int)

  datatype Scan = Scan(taxRate: real, serviceCharge: real, items: seq<ScannedItem>)

  /** Why a save is refused; each is an alert in the editor. */
  datatype SaveError = MissingPayer | NoValidItems

  datatype Result<T> = Ok(value: T) | Err(error: SaveError)

  /** The item a fresh form row starts with. */
  const BlankItem := Item("", 0.0, 1, [])

  /** The filter the editor applies to form items before saving them. */
  predicate IsValidItem(it: Item) {
    !IsBlank(it.name) && it.price > 0.0 && it.quantity > 0 && |it.consumedBy| > 0
  }

  /** What every bill the editor stores satisfies. */
  predicate IsValidBill(b: Bill) {
    && b.paidBy != [] && IsTrimmed(b.paidBy)
    && b.items != []
    && forall it :: it in b.items ==> IsValidItem(it)
  }

  predicate AllValid(bills: seq<Bill>) {
    forall b :: b in bills ==> IsValidBill(b)
  }
}
