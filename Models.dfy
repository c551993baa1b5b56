/** The app's records (Models.swift). Dates are abstract instants; prices
    are reals. */
module Models {
  import opened Text

  /** A Swift `Date` / Firestore timestamp, as a point on an abstract time line. */
  type Instant = int

  /** One line of an order. Its `id` is always present: Swift fills it with a
      fresh UUID string when none is given. */
  datatype OrderItem = OrderItem(
    id: string, mealId: string, mealName: string, quantity: int, price: real)

  /** An order document; the id is absent until Firestore assigns one. */
  datatype Order = Order(
    id: Option<string>,
    items: seq<OrderItem>,
    totalAmount: real,
    paymentMethod: string,
    status: string,
    customerId: string,
    customerEmail: Option<string>,
    customerName: Option<string>,
    restaurantId: string,
    createdAt: Instant,
    orderNumber: string)
  {
    /** `items.first?.mealName` */
    function MealName(): (r: Option<string>)
      ensures r.None? <==> |items| == 0
      ensures r.Some? ==> r.value == items[0].mealName
    {
      if |items| == 0 then None else Some(items[0].mealName)
    }

    /** The amount paid is the stored total, whatever the lines add up to. */
    function AmountPaid(): (r: real)
      ensures r == totalAmount
    {
      totalAmount
    }
  }

  datatype Meal = Meal(
    id: Option<string>,
    name: string,
    description: string,
    imageUrl: string,
    price: real,
    discountPrice: real,
    restaurantId: string,
    isAvailable: bool,
    createdAt: Instant)

  datatype Restaurant = Restaurant(
    id: Option<string>, name: string, location: string, imageUrl: string, ownerId: string)

  datatype User = User(uid: string, email: string, role: string, restaurantId: Option<string>)

  /** The memberwise initialiser with `restaurantID` left at its default. */
  function NewUser(uid: string, email: string, role: string): (u: User)
    ensures u.restaurantId == None
    ensures u.uid == uid && u.email == email && u.role == role
  {
    User(uid, email, role, None)
  }

  /** `compactMap` over the results of decoding order documents: the orders
      that decoded, in their order. */
  function Decoded(results: seq<Option<Order>>): (r: seq<Order>)
    ensures |r| <= |results|
    ensures forall o :: o in r <==> Some(o) in results
  {
    if |results| == 0 then []
    else (if results[0].Some? then [results[0].value] else []) + Decoded(results[1..])
  }

  /** Decoding a concatenation of results decodes each part, in order, so
      the orders keep the order and the multiplicity of their documents. */
  lemma {:induction false} DecodedAppend(a: seq<Option<Order>>, b: seq<Option<Order>>)
    ensures Decoded(a + b) == Decoded(a) + Decoded(b)
  {
    if |a| > 0 {
      assert (a + b)[0] == a[0];
      assert (a + b)[1..] == a[1..] + b;
      DecodedAppend(a[1..], b);
    } else {
      assert a + b == b;
    }
  }

  /** A document that decodes contributes its order; one that does not
      contributes nothing. */
  lemma DecodedSingle(o: Order)
    ensures Decoded([Some(o)]) == [o]
    ensures Decoded([None]) == []
  {
  }
}
