/** The receipt screen (ReceiptView.swift): line amounts, dividers between
    lines, the total shown, and its own copies of the payment and status
    mappings, which agree with those of the order history. */
module Receipt {
  import opened Text
  import opened Models
  import opened MyOrders

  /** `item.price * Double(item.quantity)` */
  function LineAmount(item: OrderItem): real {
    item.price * item.quantity as real
  }

  /** The amount printed under "Total Amount": the stored total. */
  function DisplayedTotal(order: Order): (r: real)
    ensures r == order.AmountPaid()
  {
    order.totalAmount
  }

  function SumOfLines(items: seq<OrderItem>): real {
    if |items| == 0 then 0.0 else LineAmount(items[0]) + SumOfLines(items[1..])
  }

  /** The shown total is not recomputed: an order whose stored total differs
      from its lines shows the stored one. */
  lemma TotalNotRecomputed()
    ensures var order := Order(None, [OrderItem("a", "m", "Burger", 2, 150.0)], 250.0, "cash", "pending",
                               "c", None, None, "r", 0, "1");
      DisplayedTotal(order) == 250.0 && SumOfLines(order.items) == 300.0
  {
    var item := OrderItem("a", "m", "Burger", 2, 150.0);
    assert SumOfLines([item]) == LineAmount(item) + SumOfLines([item][1..]);
    assert [item][1..] == [];
  }

  /** `if item.id != order.items.last?.id`: a divider after the line at `k`. */
  function ShowsDivider(items: seq<OrderItem>, k: nat): bool
    requires k < |items|
  {
    items[k].id != items[|items| - 1].id
  }

  predicate DistinctItemIds(items: seq<OrderItem>) {
    forall i, j :: 0 <= i < j < |items| ==> items[i].id != items[j].id
  }

  /** With distinct ids a divider follows every line but the last. */
  lemma DividerRule(items: seq<OrderItem>, k: nat)
    requires k < |items| && DistinctItemIds(items)
    ensures ShowsDivider(items, k) <==> k < |items| - 1
  {
  }

  /** Lines are compared by id, not by position: a line sharing the last
      line's id shows no divider either. */
  lemma SharedIdHidesDivider(first: OrderItem, last: OrderItem)
    requires first.id == last.id
    ensures !ShowsDivider([first, last], 0)
  {
  }

  /** `ReceiptView.paymentIcon(for:)` */
  function ReceiptPaymentIcon(paymentMethod: string): string {
    var m := Lower(paymentMethod);
    if m == "m-pesa" || m == "mpesa" then "phone.fill"
    else if m == "card" || m == "credit card" then "creditcard.fill"
    else if m == "cash" then "banknote.fill"
    else "dollarsign.circle.fill"
  }

  /** `ReceiptStatusBadge.badgeColors` */
  function ReceiptStatusColors(status: string): BadgeColors {
    var s := Lower(status);
    if s == "pending" then BadgeColors(Tint(Orange, 0.15), Tint(Orange, 1.0))
    else if s == "preparing" then BadgeColors(Tint(Gold, 0.15), Tint(Gold, 0.8))
    else if s == "ready" then BadgeColors(Tint(Green, 0.15), Tint(Green, 1.0))
    else if s == "delivered" then BadgeColors(Tint(Burgundy, 0.15), Tint(Burgundy, 1.0))
    else if s == "completed" then BadgeColors(Tint(Gold, 0.2), Tint(DeepBurgundy, 1.0))
    else BadgeColors(Tint(Gray, 0.15), Tint(Gray, 1.0))
  }

  /** `ReceiptStatusBadge.statusIcon` */
  function ReceiptStatusIcon(status: string): string {
    var s := Lower(status);
    if s == "pending" then "clock.fill"
    else if s == "preparing" then "flame.fill"
    else if s == "ready" then "checkmark.circle.fill"
    else if s == "delivered" then "checkmark.seal.fill"
    else if s == "completed" then "star.fill"
    else "questionmark.circle.fill"
  }

  /** The receipt and the order card show the same icons and colours for
      every method and status. */
  lemma CopiesAgree(paymentMethod: string, status: string)
    ensures ReceiptPaymentIcon(paymentMethod) == PaymentIcon(paymentMethod)
    ensures ReceiptStatusColors(status) == StatusColors(status)
    ensures ReceiptStatusIcon(status) == StatusIcon(status)
  {
  }
}
