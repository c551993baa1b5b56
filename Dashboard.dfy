/** The rules of the restaurant dashboard (RestaurantDashboardView.swift)
    that compute rather than change state: the order workflow buttons, the
    status badge, the order-card title, the revenue figure, the per-day
    sales and the decoding of meal documents. */
module Dashboard {
  import opened Text
  import opened Models

  // ---------------------------------------------------------------------------
  // Order workflow

  /** The buttons an order card can show. */
  datatype OrderAction = MarkReady | MarkDelivered

  /** The status an action writes. */
  function ActionTarget(a: OrderAction): string {
    match a
    case MarkReady => "ready"
    case MarkDelivered => "delivered"
  }

  /** The buttons of an order with this status (exact, case-sensitive match). */
  function StatusActions(status: string): (r: seq<OrderAction>)
    ensures |r| <= 1
  {
    if status != "delivered" && status != "completed" then
      (if status == "pending" then [MarkReady] else [])
      + (if status == "ready" then [MarkDelivered] else [])
    else []
  }

  /** The position of a status in the workflow pending, ready, delivered. */
  function StatusRank(status: string): Option<nat> {
    if status == "pending" then Some(0)
    else if status == "ready" then Some(1)
    else if status == "delivered" then Some(2)
    else None
  }

  /** Pending offers only "ready", ready offers only "delivered", and every
      other status offers nothing. */
  lemma WorkflowActions(status: string)
    ensures status == "pending" ==> StatusActions(status) == [MarkReady]
    ensures status == "ready" ==> StatusActions(status) == [MarkDelivered]
    ensures status != "pending" && status != "ready" ==> StatusActions(status) == []
  {
  }

  /** Every offered action moves the order exactly one step forward. */
  lemma WorkflowMovesForward(status: string, k: nat)
    requires k < |StatusActions(status)|
    ensures StatusRank(status).Some?
    ensures StatusRank(ActionTarget(StatusActions(status)[k])) == Some(StatusRank(status).value + 1)
  {
  }

  /** The badge colours of the palette. */
  datatype BadgeColor = Gold | Burgundy | DeepBurgundy

  /** `statusBadge`: the status in capitals on a coloured background. */
  datatype Badge = Badge(text: string, color: BadgeColor)

  function StatusBadge(status: string): (b: Badge)
    ensures |b.text| == |status|
    ensures forall i :: 0 <= i < |status| ==> b.text[i] == UpperChar(status[i])
  {
    Badge(Upper(status),
          if status == "pending" then Gold
          else if status == "ready" then Burgundy
          else DeepBurgundy)
  }

  /** The dark badge marks exactly the orders that offer no action, so the
      badge colour tells whether the card has buttons. */
  lemma DarkBadgeIffNoActions(status: string)
    ensures StatusBadge(status).color == DeepBurgundy <==> StatusActions(status) == []
  {
  }

  // ---------------------------------------------------------------------------
  // Order card title

  /** The first meal's name, with " + k more" for k further lines; without
      lines, "Order #" and the order number. */
  function CardTitle(order: Order): string {
    if |order.items| > 0 then
      order.items[0].mealName
      + (if |order.items| > 1 then " + " + NatToString(|order.items| - 1) + " more" else "")
    else "Order #" + order.orderNumber
  }

  lemma CardTitleWithoutItems(order: Order)
    requires |order.items| == 0
    ensures CardTitle(order) == "Order #" + order.orderNumber
    ensures order.MealName().None?
  {
  }

  /** With one line the title is the meal's name and nothing more. */
  lemma CardTitleOneItem(order: Order)
    requires |order.items| == 1
    ensures CardTitle(order) == order.MealName().value
  {
  }

  /** With several lines the title is the first meal's name and a count that
      reads back as the number of further lines. */
  lemma CardTitleMore(order: Order)
    requires |order.items| > 1
    ensures exists k: string ::
      && CardTitle(order) == order.MealName().value + " + " + k + " more"
      && AllDigits(k) && ParseDigits(k) == |order.items| - 1
  {
    var k := NatToString(|order.items| - 1);
    NatToStringRoundTrip(|order.items| - 1);
    assert CardTitle(order) == order.MealName().value + " + " + k + " more";
  }

  // ---------------------------------------------------------------------------
  // Revenue and daily sales

  /** `orders.reduce(0) { $0 + $1.totalAmount }` */
  function Revenue(orders: seq<Order>): real {
    if |orders| == 0 then 0.0
    else Revenue(orders[..|orders| - 1]) + orders[|orders| - 1].totalAmount
  }

  /** The sum of the totals of the orders placed on `day`. */
  function DayTotal(orders: seq<Order>, dayOf: Instant -> int, day: int): real {
    if |orders| == 0 then 0.0
    else
      DayTotal(orders[..|orders| - 1], dayOf, day)
      + (if dayOf(orders[|orders| - 1].createdAt) == day then orders[|orders| - 1].totalAmount else 0.0)
  }

  /** The days on which some order was placed. */
  function Days(orders: seq<Order>, dayOf: Instant -> int): set<int> {
    if |orders| == 0 then {}
    else Days(orders[..|orders| - 1], dayOf) + {dayOf(orders[|orders| - 1].createdAt)}
  }

  /** Adds `amount` to the entry for `day` in a list sorted by day, creating
      the entry in its place if there is none. */
  function InsertSale(groups: seq<(int, real)>, day: int, amount: real): seq<(int, real)> {
    if |groups| == 0 then [(day, amount)]
    else if day == groups[0].0 then [(day, groups[0].1 + amount)] + groups[1..]
    else if day < groups[0].0 then [(day, amount)] + groups
    else [groups[0]] + InsertSale(groups[1..], day, amount)
  }

  /** `groupOrdersByDate`: the orders grouped by `dayOf` (the calendar's start
      of day), each day with the sum of its totals, sorted by day. */
  function GroupOrdersByDate(orders: seq<Order>, dayOf: Instant -> int): seq<(int, real)> {
    if |orders| == 0 then []
    else
      var last := orders[|orders| - 1];
      InsertSale(GroupOrdersByDate(orders[..|orders| - 1], dayOf), dayOf(last.createdAt), last.totalAmount)
  }

  predicate Ascending(groups: seq<(int, real)>) {
    forall i, j :: 0 <= i < j < |groups| ==> groups[i].0 < groups[j].0
  }

  function Keys(groups: seq<(int, real)>): set<int> {
    if |groups| == 0 then {} else {groups[0].0} + Keys(groups[1..])
  }

  /** The total recorded for `day` (0 if the day has no entry). */
  function TotalFor(groups: seq<(int, real)>, day: int): real {
    if |groups| == 0 then 0.0
    else (if groups[0].0 == day then groups[0].1 else 0.0) + TotalFor(groups[1..], day)
  }

  function SumTotals(groups: seq<(int, real)>): real {
    if |groups| == 0 then 0.0 else groups[0].1 + SumTotals(groups[1..])
  }

  lemma {:induction false} KeysIndex(groups: seq<(int, real)>, day: int)
    ensures day in Keys(groups) <==> exists i :: 0 <= i < |groups| && groups[i].0 == day
  {
    if |groups| > 0 {
      KeysIndex(groups[1..], day);
      if day in Keys(groups[1..]) {
        var i :| 0 <= i < |groups[1..]| && groups[1..][i].0 == day;
        assert groups[i + 1].0 == day;
      }
      if exists i :: 0 <= i < |groups| && groups[i].0 == day {
        var i :| 0 <= i < |groups| && groups[i].0 == day;
        if i > 0 {
          assert groups[1..][i - 1].0 == day;
        }
      }
    }
  }

  lemma {:induction false} InsertKeys(groups: seq<(int, real)>, day: int, amount: real)
    ensures Keys(InsertSale(groups, day, amount)) == Keys(groups) + {day}
  {
    if |groups| > 0 {
      if day == groups[0].0 {
        assert InsertSale(groups, day, amount)[1..] == groups[1..];
      } else if day < groups[0].0 {
        assert InsertSale(groups, day, amount)[1..] == groups;
      } else {
        InsertKeys(groups[1..], day, amount);
        assert InsertSale(groups, day, amount)[1..] == InsertSale(groups[1..], day, amount);
      }
    }
  }

  lemma AscendingTail(groups: seq<(int, real)>)
    requires |groups| > 0 && Ascending(groups)
    ensures Ascending(groups[1..])
    ensures forall d :: d in Keys(groups[1..]) ==> groups[0].0 < d
  {
    forall d | d in Keys(groups[1..])
      ensures groups[0].0 < d
    {
      KeysIndex(groups[1..], d);
      var i :| 0 <= i < |groups[1..]| && groups[1..][i].0 == d;
      assert groups[i + 1].0 == d;
    }
  }

  lemma AscendingCons(x: (int, real), rest: seq<(int, real)>)
    requires Ascending(rest)
    requires forall d :: d in Keys(rest) ==> x.0 < d
    ensures Ascending([x] + rest)
  {
    var s := [x] + rest;
    forall i, j | 0 <= i < j < |s|
      ensures s[i].0 < s[j].0
    {
      if i == 0 {
        assert s[j] == rest[j - 1];
        KeysIndex(rest, rest[j - 1].0);
      } else {
        assert s[i] == rest[i - 1] && s[j] == rest[j - 1];
      }
    }
  }

  lemma {:induction false} InsertAscending(groups: seq<(int, real)>, day: int, amount: real)
    requires Ascending(groups)
    ensures Ascending(InsertSale(groups, day, amount))
  {
    if |groups| > 0 {
      AscendingTail(groups);
      if day == groups[0].0 {
        AscendingCons((day, groups[0].1 + amount), groups[1..]);
      } else if day < groups[0].0 {
        forall d | d in Keys(groups)
          ensures day < d
        {
          assert Keys(groups) == {groups[0].0} + Keys(groups[1..]);
        }
        AscendingCons((day, amount), groups);
      } else {
        InsertAscending(groups[1..], day, amount);
        InsertKeys(groups[1..], day, amount);
        AscendingCons(groups[0], InsertSale(groups[1..], day, amount));
      }
    }
  }

  lemma {:induction false} InsertTotalFor(groups: seq<(int, real)>, day: int, amount: real, d: int)
    ensures TotalFor(InsertSale(groups, day, amount), d)
         == TotalFor(groups, d) + (if d == day then amount else 0.0)
  {
    if |groups| > 0 {
      if day == groups[0].0 {
        assert InsertSale(groups, day, amount)[1..] == groups[1..];
      } else if day < groups[0].0 {
        assert InsertSale(groups, day, amount)[1..] == groups;
      } else {
        InsertTotalFor(groups[1..], day, amount, d);
        assert InsertSale(groups, day, amount)[1..] == InsertSale(groups[1..], day, amount);
      }
    }
  }

  lemma {:induction false} InsertSumTotals(groups: seq<(int, real)>, day: int, amount: real)
    ensures SumTotals(InsertSale(groups, day, amount)) == SumTotals(groups) + amount
  {
    if |groups| > 0 {
      if day == groups[0].0 {
        assert InsertSale(groups, day, amount)[1..] == groups[1..];
      } else if day < groups[0].0 {
        assert InsertSale(groups, day, amount)[1..] == groups;
      } else {
        InsertSumTotals(groups[1..], day, amount);
        assert InsertSale(groups, day, amount)[1..] == InsertSale(groups[1..], day, amount);
      }
    }
  }

  lemma {:induction false} TotalForAbsent(groups: seq<(int, real)>, day: int)
    requires day !in Keys(groups)
    ensures TotalFor(groups, day) == 0.0
  {
    if |groups| > 0 {
      TotalForAbsent(groups[1..], day);
    }
  }

  /** In a list sorted strictly by day, the total for a listed day is its entry's. */
  lemma {:induction false} TotalForListed(groups: seq<(int, real)>, i: nat)
    requires Ascending(groups) && i < |groups|
    ensures TotalFor(groups, groups[i].0) == groups[i].1
  {
    AscendingTail(groups);
    if i == 0 {
      TotalForAbsent(groups[1..], groups[0].0);
    } else {
      TotalForListed(groups[1..], i - 1);
      assert groups[1..][i - 1] == groups[i];
    }
  }

  lemma {:induction false} GroupFacts(orders: seq<Order>, dayOf: Instant -> int)
    ensures var g := GroupOrdersByDate(orders, dayOf);
      && Ascending(g)
      && Keys(g) == Days(orders, dayOf)
      && SumTotals(g) == Revenue(orders)
      && forall d :: TotalFor(g, d) == DayTotal(orders, dayOf, d)
  {
    if |orders| > 0 {
      var prefix, last := orders[..|orders| - 1], orders[|orders| - 1];
      var g0 := GroupOrdersByDate(prefix, dayOf);
      GroupFacts(prefix, dayOf);
      InsertAscending(g0, dayOf(last.createdAt), last.totalAmount);
      InsertKeys(g0, dayOf(last.createdAt), last.totalAmount);
      InsertSumTotals(g0, dayOf(last.createdAt), last.totalAmount);
      forall d {
        InsertTotalFor(g0, dayOf(last.createdAt), last.totalAmount, d);
      }
    }
  }

  /** One pair per distinct day, strictly ascending by day, each pair holding
      the sum of that day's order totals. */
  lemma GroupOrdersByDateCorrect(orders: seq<Order>, dayOf: Instant -> int)
    ensures var g := GroupOrdersByDate(orders, dayOf);
      && (forall i, j :: 0 <= i < j < |g| ==> g[i].0 < g[j].0)
      && (forall d :: d in Days(orders, dayOf) <==> exists i :: 0 <= i < |g| && g[i].0 == d)
      && (forall i :: 0 <= i < |g| ==> g[i].1 == DayTotal(orders, dayOf, g[i].0))
  {
    var g := GroupOrdersByDate(orders, dayOf);
    GroupFacts(orders, dayOf);
    forall d {
      KeysIndex(g, d);
    }
    forall i | 0 <= i < |g| {
      TotalForListed(g, i);
    }
  }

  /** The daily totals add up to the Revenue figure. */
  lemma DailySalesSumToRevenue(orders: seq<Order>, dayOf: Instant -> int)
    ensures SumTotals(GroupOrdersByDate(orders, dayOf)) == Revenue(orders)
  {
    GroupFacts(orders, dayOf);
  }

  // ---------------------------------------------------------------------------
  // Meal documents

  /** A Firestore field value, by the Swift type it casts to. */
  datatype FieldValue =
    | FString(s: string)
    | FNumber(x: real)
    | FBool(b: bool)
    | FTimestamp(t: Instant)

  /** A fetched document: its id and its data. */
  datatype Document = Document(documentId: string, data: map<string, FieldValue>)

  /** `data[key] as? String ?? ""` */
  function StringField(data: map<string, FieldValue>, key: string): string {
    if key in data && data[key].FString? then data[key].s else ""
  }

  /** `data[key] as? Double ?? 0` */
  function NumberField(data: map<string, FieldValue>, key: string): real {
    if key in data && data[key].FNumber? then data[key].x else 0.0
  }

  /** `data[key] as? Bool ?? fallback` */
  function BoolField(data: map<string, FieldValue>, key: string, fallback: bool): bool {
    if key in data && data[key].FBool? then data[key].b else fallback
  }

  /** `(data[key] as? Timestamp)?.dateValue() ?? fallback` */
  function TimeField(data: map<string, FieldValue>, key: string, fallback: Instant): Instant {
    if key in data && data[key].FTimestamp? then data[key].t else fallback
  }

  /** The meal `loadMeals` builds from a document; `now` stands for `Date()`. */
  function DecodeMeal(doc: Document, now: Instant): (m: Meal)
    ensures m.id == Some(doc.documentId)
  {
    var d := doc.data;
    Meal(
      id := Some(doc.documentId),
      name := StringField(d, "name"),
      description := StringField(d, "description"),
      imageUrl := StringField(d, "imageUrl"),
      price := NumberField(d, "price"),
      discountPrice := NumberField(d, "discountPrice"),
      restaurantId := StringField(d, "restaurantID"),
      isAvailable := BoolField(d, "isAvailable", true),
      createdAt := TimeField(d, "createdAt", now))
  }

  /** The data `addMeal` writes for a new meal. */
  function MealDocument(name: string, description: string, price: real, discount: real,
                        imageUrl: string, available: bool, restaurantId: string,
                        createdAt: Instant): map<string, FieldValue> {
    map[
      "name" := FString(name),
      "description" := FString(description),
      "price" := FNumber(price),
      "discountPrice" := FNumber(discount),
      "imageUrl" := FString(imageUrl),
      "isAvailable" := FBool(available),
      "restaurantID" := FString(restaurantId),
      "createdAt" := FTimestamp(createdAt)]
  }

  /** Field by field, for every document: a field present with the type the
      view casts to gives its value, and a missing or wrongly typed field gives
      the default (empty text, zero price, an available meal, created now). */
  lemma DecodeMealDefaults(doc: Document, now: Instant)
    ensures var d, m := doc.data, DecodeMeal(doc, now);
      && ("name" in d && d["name"].FString? ==> m.name == d["name"].s)
      && (!("name" in d && d["name"].FString?) ==> m.name == "")
      && ("description" in d && d["description"].FString? ==> m.description == d["description"].s)
      && (!("description" in d && d["description"].FString?) ==> m.description == "")
      && ("imageUrl" in d && d["imageUrl"].FString? ==> m.imageUrl == d["imageUrl"].s)
      && (!("imageUrl" in d && d["imageUrl"].FString?) ==> m.imageUrl == "")
      && ("restaurantID" in d && d["restaurantID"].FString? ==> m.restaurantId == d["restaurantID"].s)
      && (!("restaurantID" in d && d["restaurantID"].FString?) ==> m.restaurantId == "")
      && ("price" in d && d["price"].FNumber? ==> m.price == d["price"].x)
      && (!("price" in d && d["price"].FNumber?) ==> m.price == 0.0)
      && ("discountPrice" in d && d["discountPrice"].FNumber? ==> m.discountPrice == d["discountPrice"].x)
      && (!("discountPrice" in d && d["discountPrice"].FNumber?) ==> m.discountPrice == 0.0)
      && ("isAvailable" in d && d["isAvailable"].FBool? ==> m.isAvailable == d["isAvailable"].b)
      && (!("isAvailable" in d && d["isAvailable"].FBool?) ==> m.isAvailable)
      && ("createdAt" in d && d["createdAt"].FTimestamp? ==> m.createdAt == d["createdAt"].t)
      && (!("createdAt" in d && d["createdAt"].FTimestamp?) ==> m.createdAt == now)
  {
  }

  /** What `addMeal` writes, `loadMeals` reads back, under the document's id. */
  lemma DecodeWrittenMeal(id: string, now: Instant, name: string, description: string,
                          price: real, discount: real, imageUrl: string, available: bool,
                          restaurantId: string, createdAt: Instant)
    ensures DecodeMeal(Document(id, MealDocument(name, description, price, discount, imageUrl,
                                                 available, restaurantId, createdAt)), now)
         == Meal(Some(id), name, description, imageUrl, price, discount, restaurantId, available, createdAt)
  {
  }
}
