/** The customer's order history (MyOrdersView.swift): the payment-method
    and status mappings of the order cards, the count in the header, the
    choice of screen, and the loading of the orders.

    `lowercased()` is modelled on ASCII letters only. */
module MyOrders {
  import opened Text
  import opened Models

  // ---------------------------------------------------------------------------
  // Mappings of OrderCard and StatusBadge

  /** The icon of an already lower-cased payment method. */
  function PaymentIconOf(m: string): (icon: string)
    ensures icon in {"phone.fill", "creditcard.fill", "banknote.fill", "dollarsign.circle.fill"}
  {
    if m == "m-pesa" || m == "mpesa" then "phone.fill"
    else if m == "card" || m == "credit card" then "creditcard.fill"
    else if m == "cash" then "banknote.fill"
    else "dollarsign.circle.fill"
  }

  /** `OrderCard.paymentIcon(for:)` */
  function PaymentIcon(paymentMethod: string): string {
    PaymentIconOf(Lower(paymentMethod))
  }

  /** The colours of the palette the badges use. */
  datatype Hue = Orange | Gold | Green | Burgundy | DeepBurgundy | Gray

  /** A colour at an opacity (1.0 for the plain colour). */
  datatype Tint = Tint(hue: Hue, opacity: real)

  datatype BadgeColors = BadgeColors(background: Tint, text: Tint)

  /** The colours of an already lower-cased status. */
  function StatusColorsOf(s: string): BadgeColors {
    if s == "pending" then BadgeColors(Tint(Orange, 0.15), Tint(Orange, 1.0))
    else if s == "preparing" then BadgeColors(Tint(Gold, 0.15), Tint(Gold, 0.8))
    else if s == "ready" then BadgeColors(Tint(Green, 0.15), Tint(Green, 1.0))
    else if s == "delivered" then BadgeColors(Tint(Burgundy, 0.15), Tint(Burgundy, 1.0))
    else if s == "completed" then BadgeColors(Tint(Gold, 0.2), Tint(DeepBurgundy, 1.0))
    else BadgeColors(Tint(Gray, 0.15), Tint(Gray, 1.0))
  }

  /** `StatusBadge.badgeColors` */
  function StatusColors(status: string): BadgeColors {
    StatusColorsOf(Lower(status))
  }

  /** The icon of an already lower-cased status. */
  function StatusIconOf(s: string): string {
    if s == "pending" then "clock.fill"
    else if s == "preparing" then "flame.fill"
    else if s == "ready" then "checkmark.circle.fill"
    else if s == "delivered" then "checkmark.seal.fill"
    else if s == "completed" then "star.fill"
    else "questionmark.circle.fill"
  }

  /** `StatusBadge.statusIcon` */
  function StatusIcon(status: string): string {
    StatusIconOf(Lower(status))
  }

  /** The statuses the badge knows. */
  predicate KnownStatus(s: string) {
    s == "pending" || s == "preparing" || s == "ready" || s == "delivered" || s == "completed"
  }

  /** The icon and the colours agree on which statuses are unknown: the
      question mark shows exactly on the grey badge. */
  lemma UnknownStatusIsGrey(status: string)
    ensures StatusIcon(status) == "questionmark.circle.fill" <==> !KnownStatus(Lower(status))
    ensures StatusColors(status).text.hue == Gray <==> !KnownStatus(Lower(status))
  {
  }

  /** The five known statuses get five different icons. */
  lemma KnownStatusIconsDistinct(a: string, b: string)
    requires KnownStatus(a) && KnownStatus(b) && a != b
    ensures StatusIconOf(a) != StatusIconOf(b)
  {
  }

  /** The mappings of the payment methods. */
  lemma PaymentIconTable(paymentMethod: string)
    ensures Lower(paymentMethod) in {"m-pesa", "mpesa"} ==> PaymentIcon(paymentMethod) == "phone.fill"
    ensures Lower(paymentMethod) in {"card", "credit card"} ==> PaymentIcon(paymentMethod) == "creditcard.fill"
    ensures Lower(paymentMethod) == "cash" ==> PaymentIcon(paymentMethod) == "banknote.fill"
    ensures !(Lower(paymentMethod) in {"m-pesa", "mpesa", "card", "credit card", "cash"}) ==>
              PaymentIcon(paymentMethod) == "dollarsign.circle.fill"
  {
  }

  /** The mappings depend on the lower-cased text alone. */
  lemma CaseInsensitive(s: string)
    ensures PaymentIcon(s) == PaymentIcon(Lower(s))
    ensures StatusColors(s) == StatusColors(Lower(s))
    ensures StatusIcon(s) == StatusIcon(Lower(s))
  {
    LowerIdempotent(s);
  }

  /** Capitalising a method or status does not change its icon or colours. */
  lemma CapitalsIgnored(s: string)
    ensures PaymentIcon(Upper(s)) == PaymentIcon(s)
    ensures StatusColors(Upper(s)) == StatusColors(s)
    ensures StatusIcon(Upper(s)) == StatusIcon(s)
  {
    LowerOfUpper(s);
  }

  // ---------------------------------------------------------------------------
  // Header and screen

  /** The header's count: hidden without orders, "1 order", "n orders". */
  function OrderCountLabel(count: nat): (r: Option<string>)
    ensures r.None? <==> count == 0
  {
    if count == 0 then None
    else Some(NatToString(count) + " order" + (if count == 1 then "" else "s"))
  }

  lemma OrderCountLabelForms(count: nat)
    ensures count == 1 ==> OrderCountLabel(count) == Some("1 order")
    ensures count > 1 ==> exists k: string ::
      OrderCountLabel(count) == Some(k + " orders") && AllDigits(k) && ParseDigits(k) == count
  {
    var k := NatToString(count);
    NatToStringRoundTrip(count);
    if count == 1 {
      assert k == "1";
      assert k + " order" + "" == "1 order";
    } else if count > 1 {
      assert " order" + "s" == " orders";
      assert k + " order" + "s" == k + (" order" + "s");
    }
  }

  datatype Screen = LoadingScreen | ErrorScreen(message: string) | EmptyScreen | ListScreen

  /** Loading wins over an error, an error over an empty list. */
  function ScreenFor(isLoading: bool, errorMessage: Option<string>, orders: seq<Order>): (s: Screen)
    ensures s == LoadingScreen <==> isLoading
    ensures s.ErrorScreen? <==> !isLoading && errorMessage.Some?
    ensures s.ErrorScreen? ==> s.message == errorMessage.value
    ensures s == EmptyScreen <==> !isLoading && errorMessage.None? && |orders| == 0
  {
    if isLoading then LoadingScreen
    else if errorMessage.Some? then ErrorScreen(errorMessage.value)
    else if |orders| == 0 then EmptyScreen
    else ListScreen
  }


  const NotSignedInMessage: string := "You must be logged in to view your orders."

  class MyOrdersState {
    var orders: seq<Order>
    var isLoading: bool
    var errorMessage: Option<string>
    /** The user ids whose orders a listener was attached for. */
    var listeners: seq<string>

    constructor()
      ensures orders == [] && isLoading && errorMessage == None && listeners == []
    {
      orders := [];
      isLoading := true;
      errorMessage := None;
      listeners := [];
    }

    /** `fetchOrders`: without a signed-in user it reports the error and stops
        loading without querying; otherwise it attaches a listener. */
    method FetchOrders(currentUser: Option<string>)
      modifies this
      ensures currentUser.None? ==>
                errorMessage == Some(NotSignedInMessage) && !isLoading && listeners == old(listeners)
      ensures currentUser.None? ==> Screen() == ErrorScreen(NotSignedInMessage)
      ensures currentUser.Some? ==>
                listeners == old(listeners) + [currentUser.value]
                && errorMessage == old(errorMessage) && isLoading == old(isLoading)
      ensures orders == old(orders)
    {
      if currentUser.None? {
        errorMessage := Some(NotSignedInMessage);
        isLoading := false;
        return;
      }
      listeners := listeners + [currentUser.value];
    }

    /** The listener firing: an absent snapshot empties the list, a present
        one keeps the orders that decode; either way loading stops. */
    method ReceiveSnapshot(snapshot: Option<seq<Option<Order>>>)
      modifies this
      ensures snapshot.None? ==> orders == []
      ensures snapshot.Some? ==> orders == Decoded(snapshot.value)
      ensures !isLoading && errorMessage == old(errorMessage) && listeners == old(listeners)
    {
      if snapshot.None? {
        orders := [];
        isLoading := false;
        return;
      }
      orders := Decoded(snapshot.value);
      isLoading := false;
    }

    /** The screen shown now. */
    function Screen(): Screen
      reads this
    {
      ScreenFor(isLoading, errorMessage, orders)
    }
  }
}
