/** The shopping cart (CartManager.swift): entries of a meal and a quantity,
    merged by meal id, removed by meal id, and totalled at discount price. */
module Cart {
  import opened Text
  import opened Models

  /** One cart entry (its generated `UUID` is left out). */
  datatype CartItem = CartItem(meal: Meal, quantity: int)

  /** `price * Double(quantity)` */
  function Amount(price: real, quantity: int): real {
    price * quantity as real
  }

  /** The amount one entry adds to the total. */
  function LineTotal(item: CartItem): real {
    Amount(item.meal.discountPrice, item.quantity)
  }

  // ---------------------------------------------------------------------------
  // The cart operations on values

  /** `firstIndex(where: { $0.meal.id == id })`. Ids are `String?`, so two
      entries whose meals have no id both match `None`. */
  function FirstIndexOf(items: seq<CartItem>, id: Option<string>): (r: Option<nat>)
    ensures r.None? <==> forall k :: 0 <= k < |items| ==> items[k].meal.id != id
    ensures r.Some? ==> r.value < |items| && items[r.value].meal.id == id
    ensures r.Some? ==> forall k :: 0 <= k < r.value ==> items[k].meal.id != id
  {
    if |items| == 0 then None
    else if items[0].meal.id == id then Some(0)
    else match FirstIndexOf(items[1..], id)
      case None => None
      case Some(k) => Some(k + 1)
  }

  /** The entries after `addToCart(meal, quantity)`. */
  function CartAdded(items: seq<CartItem>, meal: Meal, quantity: int): (r: seq<CartItem>)
    ensures |items| <= |r| <= |items| + 1
  {
    match FirstIndexOf(items, meal.id)
    case Some(i) => items[i := items[i].(quantity := items[i].quantity + quantity)]
    case None => items + [CartItem(meal, quantity)]
  }

  /** The entries after `removeAll { $0.meal.id == id }`. */
  function WithoutMeal(items: seq<CartItem>, id: Option<string>): (r: seq<CartItem>)
    ensures |r| <= |items|
    ensures forall k :: 0 <= k < |r| ==> r[k].meal.id != id
  {
    if |items| == 0 then []
    else if items[0].meal.id == id then WithoutMeal(items[1..], id)
    else [items[0]] + WithoutMeal(items[1..], id)
  }

  /** `reduce(0) { $0 + $1.meal.discountPrice * Double($1.quantity) }`, a left fold. */
  function CartTotal(items: seq<CartItem>): real {
    if |items| == 0 then 0.0
    else CartTotal(items[..|items| - 1]) + LineTotal(items[|items| - 1])
  }

  /** No two entries hold meals with the same id. */
  predicate DistinctIds(items: seq<CartItem>) {
    forall i, j :: 0 <= i < j < |items| ==> items[i].meal.id != items[j].meal.id
  }

  // ---------------------------------------------------------------------------
  // The cart object

  class CartManager {
    var cartItems: seq<CartItem>

    constructor()
      ensures cartItems == []
    {
      cartItems := [];
    }

    /** The index of the first entry whose meal has id `id`. */
    method FirstIndex(id: Option<string>) returns (r: Option<nat>)
      ensures r == FirstIndexOf(cartItems, id)
    {
      var i := 0;
      while i < |cartItems|
        invariant 0 <= i <= |cartItems|
        invariant forall k :: 0 <= k < i ==> cartItems[k].meal.id != id
      {
        if cartItems[i].meal.id == id {
          FirstMatch(cartItems, id, i);
          return Some(i);
        }
        i := i + 1;
      }
      return None;
    }

    /** Adds `quantity` to the first entry with this meal's id, or appends
        a new entry. */
    method AddToCart(meal: Meal, quantity: int)
      modifies this
      ensures cartItems == CartAdded(old(cartItems), meal, quantity)
      ensures old(DistinctIds(cartItems)) ==> DistinctIds(cartItems)
    {
      AddKeepsDistinct(cartItems, meal, quantity);
      var index := FirstIndex(meal.id);
      match index
      case Some(i) =>
        cartItems := cartItems[i := cartItems[i].(quantity := cartItems[i].quantity + quantity)];
      case None =>
        cartItems := cartItems + [CartItem(meal, quantity)];
    }

    /** Deletes every entry with this meal's id, keeping the others in order. */
    method RemoveFromCart(meal: Meal)
      modifies this
      ensures cartItems == WithoutMeal(old(cartItems), meal.id)
      ensures old(DistinctIds(cartItems)) ==> DistinctIds(cartItems)
    {
      RemoveKeepsDistinct(cartItems, meal.id);
      var items := cartItems;
      var kept: seq<CartItem> := [];
      var i := 0;
      while i < |items|
        invariant 0 <= i <= |items|
        invariant kept == WithoutMeal(items[..i], meal.id)
      {
        assert items[..i + 1] == items[..i] + [items[i]];
        WithoutAppend(items[..i], [items[i]], meal.id);
        if items[i].meal.id != meal.id {
          kept := kept + [items[i]];
        }
        i := i + 1;
      }
      assert items[..i] == items;
      cartItems := kept;
    }

    /** The sum of discount price times quantity over the entries. */
    function TotalAmount(): (r: real)
      reads this
      ensures cartItems == [] ==> r == 0.0
    {
      CartTotal(cartItems)
    }
  }

  // ---------------------------------------------------------------------------
  // Properties

  lemma FirstMatch(items: seq<CartItem>, id: Option<string>, i: nat)
    requires i < |items| && items[i].meal.id == id
    requires forall k :: 0 <= k < i ==> items[k].meal.id != id
    ensures FirstIndexOf(items, id) == Some(i)
  {
  }

  /** A meal whose id is present: the length stays, the first matching entry
      gains `quantity`, every other entry is unchanged. */
  lemma AddMergesFirstMatch(items: seq<CartItem>, meal: Meal, quantity: int, i: nat)
    requires i < |items| && items[i].meal.id == meal.id
    requires forall k :: 0 <= k < i ==> items[k].meal.id != meal.id
    ensures var r := CartAdded(items, meal, quantity);
      && |r| == |items|
      && r[i] == CartItem(items[i].meal, items[i].quantity + quantity)
      && forall k :: 0 <= k < |items| && k != i ==> r[k] == items[k]
  {
    FirstMatch(items, meal.id, i);
  }

  /** A meal whose id is absent: exactly one entry is appended at the end. */
  lemma AddAppendsNew(items: seq<CartItem>, meal: Meal, quantity: int)
    requires forall k :: 0 <= k < |items| ==> items[k].meal.id != meal.id
    ensures CartAdded(items, meal, quantity) == items + [CartItem(meal, quantity)]
  {
  }

  /** Two meals without ids count as the same meal: adding the second one
      only raises the quantity of the first. */
  lemma MealsWithoutIdMerge(first: Meal, second: Meal, quantity: int)
    requires first.id.None? && second.id.None?
    ensures CartAdded([CartItem(first, 1)], second, quantity) == [CartItem(first, 1 + quantity)]
  {
  }

  lemma AddKeepsDistinct(items: seq<CartItem>, meal: Meal, quantity: int)
    ensures DistinctIds(items) ==> DistinctIds(CartAdded(items, meal, quantity))
  {
    var r := CartAdded(items, meal, quantity);
    if DistinctIds(items) && FirstIndexOf(items, meal.id).Some? {
      forall i, j | 0 <= i < j < |r|
        ensures r[i].meal.id != r[j].meal.id
      {
        assert r[i].meal == items[i].meal && r[j].meal == items[j].meal;
      }
    }
  }

  lemma {:induction false} WithoutAppend(a: seq<CartItem>, b: seq<CartItem>, id: Option<string>)
    ensures WithoutMeal(a + b, id) == WithoutMeal(a, id) + WithoutMeal(b, id)
  {
    if |a| == 0 {
      assert a + b == b;
    } else {
      assert (a + b)[0] == a[0] && (a + b)[1..] == a[1..] + b;
      WithoutAppend(a[1..], b, id);
    }
  }

  /** An entry survives removal exactly when it was in the cart with another id. */
  lemma {:induction false} WithoutKeeps(items: seq<CartItem>, id: Option<string>, x: CartItem)
    ensures x in WithoutMeal(items, id) <==> x in items && x.meal.id != id
  {
    if |items| > 0 {
      WithoutKeeps(items[1..], id, x);
      assert items == [items[0]] + items[1..];
    }
  }

  lemma {:induction false} RemoveKeepsDistinct(items: seq<CartItem>, id: Option<string>)
    ensures DistinctIds(items) ==> DistinctIds(WithoutMeal(items, id))
  {
    if |items| > 0 && DistinctIds(items) {
      var tail := WithoutMeal(items[1..], id);
      RemoveKeepsDistinct(items[1..], id);
      assert DistinctIds(items[1..]) by {
        forall i, j | 0 <= i < j < |items[1..]|
          ensures items[1..][i].meal.id != items[1..][j].meal.id
        {
          assert items[1..][i] == items[i + 1] && items[1..][j] == items[j + 1];
        }
      }
      if items[0].meal.id != id {
        forall k | 0 <= k < |tail|
          ensures tail[k].meal.id != items[0].meal.id
        {
          WithoutKeeps(items[1..], id, tail[k]);
          var j :| 0 <= j < |items[1..]| && items[1..][j] == tail[k];
          assert items[j + 1] == tail[k];
        }
      }
    }
  }

  /** Removing a meal that is not in the cart changes nothing. */
  lemma {:induction false} RemoveAbsent(items: seq<CartItem>, id: Option<string>)
    requires forall k :: 0 <= k < |items| ==> items[k].meal.id != id
    ensures WithoutMeal(items, id) == items
  {
    if |items| > 0 {
      RemoveAbsent(items[1..], id);
    }
  }

  /** Removing twice is removing once. */
  lemma RemoveIdempotent(items: seq<CartItem>, id: Option<string>)
    ensures WithoutMeal(WithoutMeal(items, id), id) == WithoutMeal(items, id)
  {
    RemoveAbsent(WithoutMeal(items, id), id);
  }

  /** Removal undoes the addition of a new meal. */
  lemma RemoveUndoesAdd(items: seq<CartItem>, meal: Meal, quantity: int)
    requires forall k :: 0 <= k < |items| ==> items[k].meal.id != meal.id
    ensures WithoutMeal(CartAdded(items, meal, quantity), meal.id) == items
  {
    WithoutAppend(items, [CartItem(meal, quantity)], meal.id);
    RemoveAbsent(items, meal.id);
  }

  lemma {:induction false} TotalAppend(a: seq<CartItem>, b: seq<CartItem>)
    ensures CartTotal(a + b) == CartTotal(a) + CartTotal(b)
  {
    if |b| == 0 {
      assert a + b == a;
    } else {
      var c := b[..|b| - 1];
      assert (a + b)[..|a + b| - 1] == a + c;
      assert (a + b)[|a + b| - 1] == b[|b| - 1];
      TotalAppend(a, c);
    }
  }

  lemma TotalOfOne(x: CartItem)
    ensures CartTotal([x]) == LineTotal(x)
  {
    assert [x][..0] == [];
  }

  /** Replacing entry `i` changes the total by the difference of the two lines. */
  lemma TotalUpdate(items: seq<CartItem>, i: nat, x: CartItem)
    requires i < |items|
    ensures CartTotal(items[i := x]) == CartTotal(items) - LineTotal(items[i]) + LineTotal(x)
  {
    var pre, post := items[..i], items[i + 1..];
    assert items == pre + [items[i]] + post;
    assert items[i := x] == pre + [x] + post;
    TotalAppend(pre + [items[i]], post);
    TotalAppend(pre, [items[i]]);
    TotalAppend(pre + [x], post);
    TotalAppend(pre, [x]);
    TotalOfOne(items[i]);
    TotalOfOne(x);
  }

  /** Appending a new meal raises the total by its discount price times
      `quantity`. */
  lemma AddNewRaisesTotal(items: seq<CartItem>, meal: Meal, quantity: int)
    requires FirstIndexOf(items, meal.id).None?
    ensures CartTotal(CartAdded(items, meal, quantity)) == CartTotal(items) + Amount(meal.discountPrice, quantity)
  {
    TotalAppend(items, [CartItem(meal, quantity)]);
    TotalOfOne(CartItem(meal, quantity));
  }

  /** Merging raises the total by the discount price of the meal already in
      the cart (not of the meal passed in) times `quantity`. */
  lemma AddMergedRaisesTotal(items: seq<CartItem>, meal: Meal, quantity: int, i: nat)
    requires FirstIndexOf(items, meal.id) == Some(i)
    ensures CartTotal(CartAdded(items, meal, quantity)) == CartTotal(items) + Amount(items[i].meal.discountPrice, quantity)
  {
    MergeShape(items, meal, quantity, i);
    TotalAfterMerge(items, i, quantity);
  }

  lemma MergeShape(items: seq<CartItem>, meal: Meal, quantity: int, i: nat)
    requires FirstIndexOf(items, meal.id) == Some(i)
    ensures CartAdded(items, meal, quantity) == items[i := items[i].(quantity := items[i].quantity + quantity)]
  {
  }

  lemma TotalAfterMerge(items: seq<CartItem>, i: nat, quantity: int)
    requires i < |items|
    ensures CartTotal(items[i := items[i].(quantity := items[i].quantity + quantity)])
         == CartTotal(items) + Amount(items[i].meal.discountPrice, quantity)
  {
    TotalUpdate(items, i, items[i].(quantity := items[i].quantity + quantity));
    MergedLine(items[i], quantity);
  }

  lemma MergedLine(x: CartItem, quantity: int)
    ensures LineTotal(x.(quantity := x.quantity + quantity)) == LineTotal(x) + Amount(x.meal.discountPrice, quantity)
  {
    Distribute(x.meal.discountPrice, x.quantity, quantity);
  }

  lemma Distribute(p: real, a: int, b: int)
    ensures Amount(p, a + b) == Amount(p, a) + Amount(p, b)
  {
  }

  /** When the cart holds this meal at its current price (or not at all), the
      total rises by exactly `meal.discountPrice * quantity`. */
  lemma AddRaisesTotalByMealPrice(items: seq<CartItem>, meal: Meal, quantity: int)
    requires forall k :: 0 <= k < |items| && items[k].meal.id == meal.id ==> items[k].meal.discountPrice == meal.discountPrice
    ensures CartTotal(CartAdded(items, meal, quantity)) == CartTotal(items) + Amount(meal.discountPrice, quantity)
  {
    var found := FirstIndexOf(items, meal.id);
    if found.None? {
      AddNewRaisesTotal(items, meal, quantity);
    } else {
      var i := found.value;
      MergeShape(items, meal, quantity, i);
      TotalAfterMergeAt(items, i, quantity, meal.discountPrice);
    }
  }

  lemma TotalAfterMergeAt(items: seq<CartItem>, i: nat, quantity: int, price: real)
    requires i < |items| && items[i].meal.discountPrice == price
    ensures CartTotal(items[i := items[i].(quantity := items[i].quantity + quantity)])
         == CartTotal(items) + Amount(price, quantity)
  {
    TotalAfterMerge(items, i, quantity);
  }

  /** Removal takes away exactly the lines of the removed meal. */
  lemma {:induction false} RemoveLowersTotal(items: seq<CartItem>, id: Option<string>)
    ensures CartTotal(items) == CartTotal(WithoutMeal(items, id)) + CartTotal(Matching(items, id))
  {
    if |items| > 0 {
      RemoveLowersTotal(items[1..], id);
      assert items == [items[0]] + items[1..];
      TotalAppend([items[0]], items[1..]);
      TotalOfOne(items[0]);
      if items[0].meal.id == id {
        TotalAppend([items[0]], Matching(items[1..], id));
      } else {
        TotalAppend([items[0]], WithoutMeal(items[1..], id));
      }
    }
  }

  /** The entries removed by `WithoutMeal`. */
  function Matching(items: seq<CartItem>, id: Option<string>): seq<CartItem> {
    if |items| == 0 then []
    else if items[0].meal.id == id then [items[0]] + Matching(items[1..], id)
    else Matching(items[1..], id)
  }
}
