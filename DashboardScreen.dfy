/** The state changes of the restaurant dashboard (RestaurantDashboardView.swift):
    adding a meal, toggling availability, moving an order along, loading
    meals and orders, and logging out.

    Firestore is not modelled. Every request the screen sends is appended to
    a log, and the outcome of each request (an error description, or a
    snapshot) is a parameter of the method that handles it. */
module DashboardScreen {
  import opened Text
  import opened Models
  import opened Dashboard

  /** A request to Firestore: a write, or a query whose answer comes later. */
  datatype Request =
    | AddMealDocument(data: map<string, FieldValue>)
    | SetMealAvailability(mealId: string, isAvailable: bool)
    | SetOrderStatus(orderId: string, status: string)
    | QueryMeals(restaurantId: string)
    | QueryOrders(restaurantId: string)

  /** The answer to a query: an error, or a snapshot that may be absent. */
  datatype QueryResult<T> = QueryFailed(description: string) | Snapshot(documents: Option<seq<T>>)

  const InvalidPriceMessage: string := "Enter valid price numbers"
  const LogoutFailedPrefix: string := "Failed to log out: "

  /** The signed-in session the dashboard shares with the rest of the app. */
  class AuthSession {
    var userSession: Option<string>
    var isAuthenticated: bool
    var role: Option<string>

    constructor(userSession: Option<string>, role: Option<string>)
      ensures this.userSession == userSession && this.role == role
      ensures isAuthenticated == userSession.Some?
    {
      this.userSession := userSession;
      this.isAuthenticated := userSession.Some?;
      this.role := role;
    }
  }

  class DashboardState {
    var restaurant: Option<Restaurant>
    var meals: seq<Meal>
    var orders: seq<Order>
    var newMealName: string
    var newMealDescription: string
    var newMealPrice: string
    var newMealDiscountPrice: string
    var newMealImageUrl: string
    var newMealAvailable: bool
    var isLoading: bool
    var showAlert: bool
    var alertMessage: string
    /** Every request sent so far, oldest first. */
    var requests: seq<Request>

    constructor()
      ensures restaurant == None && meals == [] && orders == []
      ensures newMealName == "" && newMealDescription == "" && newMealPrice == ""
      ensures newMealDiscountPrice == "" && newMealImageUrl == "" && newMealAvailable
      ensures isLoading && !showAlert && alertMessage == "" && requests == []
    {
      restaurant := None;
      meals := [];
      orders := [];
      newMealName := "";
      newMealDescription := "";
      newMealPrice := "";
      newMealDiscountPrice := "";
      newMealImageUrl := "";
      newMealAvailable := true;
      isLoading := true;
      showAlert := false;
      alertMessage := "";
      requests := [];
    }

    /** The id of the restaurant being managed, if it has one. */
    function RestaurantId(): Option<string>
      reads this
    {
      if restaurant.Some? then restaurant.value.id else None
    }

    method Alert(message: string)
      modifies this
      ensures alertMessage == message && showAlert
      ensures restaurant == old(restaurant) && meals == old(meals) && orders == old(orders)
      ensures newMealName == old(newMealName) && newMealDescription == old(newMealDescription)
      ensures newMealPrice == old(newMealPrice) && newMealDiscountPrice == old(newMealDiscountPrice)
      ensures newMealImageUrl == old(newMealImageUrl) && newMealAvailable == old(newMealAvailable)
      ensures isLoading == old(isLoading) && requests == old(requests)
    {
      alertMessage := message;
      showAlert := true;
    }

    /** `loadMeals` sending its query: nothing without a restaurant id. */
    method RequestMeals()
      modifies this
      ensures RestaurantId().Some? ==> requests == old(requests) + [QueryMeals(RestaurantId().value)]
      ensures RestaurantId().None? ==> requests == old(requests)
      ensures restaurant == old(restaurant) && meals == old(meals) && orders == old(orders)
      ensures newMealName == old(newMealName) && newMealDescription == old(newMealDescription)
      ensures newMealPrice == old(newMealPrice) && newMealDiscountPrice == old(newMealDiscountPrice)
      ensures newMealImageUrl == old(newMealImageUrl) && newMealAvailable == old(newMealAvailable)
      ensures isLoading == old(isLoading) && showAlert == old(showAlert) && alertMessage == old(alertMessage)
    {
      if RestaurantId().Some? {
        requests := requests + [QueryMeals(RestaurantId().value)];
      }
    }

    /** `loadOrders` sending its query: nothing without a restaurant id. */
    method RequestOrders()
      modifies this
      ensures RestaurantId().Some? ==> requests == old(requests) + [QueryOrders(RestaurantId().value)]
      ensures RestaurantId().None? ==> requests == old(requests)
      ensures restaurant == old(restaurant) && meals == old(meals) && orders == old(orders)
      ensures newMealName == old(newMealName) && newMealDescription == old(newMealDescription)
      ensures newMealPrice == old(newMealPrice) && newMealDiscountPrice == old(newMealDiscountPrice)
      ensures newMealImageUrl == old(newMealImageUrl) && newMealAvailable == old(newMealAvailable)
      ensures isLoading == old(isLoading) && showAlert == old(showAlert) && alertMessage == old(alertMessage)
    {
      if RestaurantId().Some? {
        requests := requests + [QueryOrders(RestaurantId().value)];
      }
    }

    /** `loadMeals` receiving its answer: an error raises the alert, a
        snapshot replaces the meals (an absent snapshot empties them). The
        listener exists only once `RequestMeals` ran with an id, and its
        closure does not look at the id again. */
    method ReceiveMeals(result: QueryResult<Document>, now: Instant)
      modifies this
      ensures result.QueryFailed? ==>
                meals == old(meals) && showAlert && alertMessage == result.description
      ensures result.Snapshot? && result.documents.None? ==>
                meals == [] && showAlert == old(showAlert) && alertMessage == old(alertMessage)
      ensures result.Snapshot? && result.documents.Some? ==>
                && |meals| == |result.documents.value|
                && (forall i :: 0 <= i < |meals| ==> meals[i] == DecodeMeal(result.documents.value[i], now))
                && showAlert == old(showAlert) && alertMessage == old(alertMessage)
      ensures restaurant == old(restaurant) && orders == old(orders) && requests == old(requests)
      ensures newMealName == old(newMealName) && newMealDescription == old(newMealDescription)
      ensures newMealPrice == old(newMealPrice) && newMealDiscountPrice == old(newMealDiscountPrice)
      ensures newMealImageUrl == old(newMealImageUrl) && newMealAvailable == old(newMealAvailable)
      ensures isLoading == old(isLoading)
    {
      match result
      case QueryFailed(description) =>
        Alert(description);
      case Snapshot(documents) =>
        if documents.None? {
          meals := [];
        } else {
          var docs := documents.value;
          meals := seq(|docs|, i requires 0 <= i < |docs| => DecodeMeal(docs[i], now));
        }
    }

    /** `loadOrders` receiving its answer: an error raises the alert and
        leaves the spinner; a snapshot keeps the orders that decoded (none if
        the snapshot is absent) and stops the spinner. Like `ReceiveMeals`, it
        does not look at the id again. */
    method ReceiveOrders(result: QueryResult<Option<Order>>)
      modifies this
      ensures result.QueryFailed? ==>
                orders == old(orders) && isLoading == old(isLoading) && showAlert && alertMessage == result.description
      ensures result.Snapshot? ==>
                && orders == (if result.documents.Some? then Decoded(result.documents.value) else [])
                && !isLoading && showAlert == old(showAlert) && alertMessage == old(alertMessage)
      ensures restaurant == old(restaurant) && meals == old(meals) && requests == old(requests)
      ensures newMealName == old(newMealName) && newMealDescription == old(newMealDescription)
      ensures newMealPrice == old(newMealPrice) && newMealDiscountPrice == old(newMealDiscountPrice)
      ensures newMealImageUrl == old(newMealImageUrl) && newMealAvailable == old(newMealAvailable)
    {
      match result
      case QueryFailed(description) =>
        Alert(description);
      case Snapshot(documents) =>
        orders := if documents.Some? then Decoded(documents.value) else [];
        isLoading := false;
    }

    /** The document `addMeal` writes for the form as it stands, when the two
        prices parse. */
    function PendingMeal(parseDouble: string -> Option<real>, now: Instant): Option<map<string, FieldValue>>
      reads this
    {
      var price, discount := parseDouble(newMealPrice), parseDouble(newMealDiscountPrice);
      if RestaurantId().None? || price.None? || discount.None? then None
      else Some(MealDocument(newMealName, newMealDescription, price.value, discount.value,
                             newMealImageUrl, newMealAvailable, RestaurantId().value, now))
    }

    /** `addMeal` up to the write: nothing without a restaurant id, the alert
        when a price does not parse, otherwise the document is sent. `sent`
        says whether the write's completion will follow. */
    method AddMeal(parseDouble: string -> Option<real>, now: Instant) returns (sent: bool)
      modifies this
      ensures sent <==> old(PendingMeal(parseDouble, now)).Some?
      ensures sent ==> requests == old(requests) + [AddMealDocument(old(PendingMeal(parseDouble, now)).value)]
      ensures !sent ==> requests == old(requests)
      ensures RestaurantId().Some? && !sent ==> showAlert && alertMessage == InvalidPriceMessage
      ensures RestaurantId().None? || sent ==> showAlert == old(showAlert) && alertMessage == old(alertMessage)
      ensures restaurant == old(restaurant) && meals == old(meals) && orders == old(orders)
      ensures newMealName == old(newMealName) && newMealDescription == old(newMealDescription)
      ensures newMealPrice == old(newMealPrice) && newMealDiscountPrice == old(newMealDiscountPrice)
      ensures newMealImageUrl == old(newMealImageUrl) && newMealAvailable == old(newMealAvailable)
      ensures isLoading == old(isLoading)
    {
      if RestaurantId().None? {
        return false;
      }
      var price, discount := parseDouble(newMealPrice), parseDouble(newMealDiscountPrice);
      if price.None? || discount.None? {
        alertMessage := InvalidPriceMessage;
        showAlert := true;
        return false;
      }
      var doc := MealDocument(newMealName, newMealDescription, price.value, discount.value,
                              newMealImageUrl, newMealAvailable, RestaurantId().value, now);
      requests := requests + [AddMealDocument(doc)];
      return true;
    }

    /** The completion of the meal write: an error raises the alert and keeps
        the form; success clears the form and reloads the meals. */
    method MealAdded(writeError: Option<string>)
      modifies this
      ensures writeError.Some? ==>
                && showAlert && alertMessage == writeError.value && requests == old(requests)
                && newMealName == old(newMealName) && newMealDescription == old(newMealDescription)
                && newMealPrice == old(newMealPrice) && newMealDiscountPrice == old(newMealDiscountPrice)
                && newMealImageUrl == old(newMealImageUrl) && newMealAvailable == old(newMealAvailable)
      ensures writeError.None? ==>
                && newMealName == "" && newMealDescription == "" && newMealPrice == ""
                && newMealDiscountPrice == "" && newMealImageUrl == "" && newMealAvailable
                && showAlert == old(showAlert) && alertMessage == old(alertMessage)
                && requests == old(requests) + (if RestaurantId().Some? then [QueryMeals(RestaurantId().value)] else [])
      ensures restaurant == old(restaurant) && meals == old(meals) && orders == old(orders)
      ensures isLoading == old(isLoading)
    {
      if writeError.Some? {
        Alert(writeError.value);
      } else {
        newMealName := "";
        newMealDescription := "";
        newMealPrice := "";
        newMealDiscountPrice := "";
        newMealImageUrl := "";
        newMealAvailable := true;
        RequestMeals();
      }
    }

    /** `toggleMealAvailability`: writes the negated flag; a meal without an id
        causes no request at all. */
    method ToggleMealAvailability(meal: Meal, writeError: Option<string>)
      modifies this
      ensures meal.id.None? ==> requests == old(requests) && showAlert == old(showAlert) && alertMessage == old(alertMessage)
      ensures meal.id.Some? && writeError.Some? ==>
                requests == old(requests) + [SetMealAvailability(meal.id.value, !meal.isAvailable)]
                && showAlert && alertMessage == writeError.value
      ensures meal.id.Some? && writeError.None? ==>
                requests == old(requests) + [SetMealAvailability(meal.id.value, !meal.isAvailable)]
                              + (if RestaurantId().Some? then [QueryMeals(RestaurantId().value)] else [])
                && showAlert == old(showAlert) && alertMessage == old(alertMessage)
      ensures restaurant == old(restaurant) && meals == old(meals) && orders == old(orders)
      ensures newMealName == old(newMealName) && newMealDescription == old(newMealDescription)
      ensures newMealPrice == old(newMealPrice) && newMealDiscountPrice == old(newMealDiscountPrice)
      ensures newMealImageUrl == old(newMealImageUrl) && newMealAvailable == old(newMealAvailable)
      ensures isLoading == old(isLoading)
    {
      if meal.id.None? {
        return;
      }
      requests := requests + [SetMealAvailability(meal.id.value, !meal.isAvailable)];
      if writeError.Some? {
        Alert(writeError.value);
      } else {
        RequestMeals();
      }
    }

    /** `updateOrderStatus`: writes the new status; an order without an id
        causes no request at all. */
    method UpdateOrderStatus(order: Order, newStatus: string, writeError: Option<string>)
      modifies this
      ensures order.id.None? ==> requests == old(requests) && showAlert == old(showAlert) && alertMessage == old(alertMessage)
      ensures order.id.Some? && writeError.Some? ==>
                requests == old(requests) + [SetOrderStatus(order.id.value, newStatus)]
                && showAlert && alertMessage == writeError.value
      ensures order.id.Some? && writeError.None? ==>
                requests == old(requests) + [SetOrderStatus(order.id.value, newStatus)]
                              + (if RestaurantId().Some? then [QueryOrders(RestaurantId().value)] else [])
                && showAlert == old(showAlert) && alertMessage == old(alertMessage)
      ensures restaurant == old(restaurant) && meals == old(meals) && orders == old(orders)
      ensures newMealName == old(newMealName) && newMealDescription == old(newMealDescription)
      ensures newMealPrice == old(newMealPrice) && newMealDiscountPrice == old(newMealDiscountPrice)
      ensures newMealImageUrl == old(newMealImageUrl) && newMealAvailable == old(newMealAvailable)
      ensures isLoading == old(isLoading)
    {
      if order.id.None? {
        return;
      }
      requests := requests + [SetOrderStatus(order.id.value, newStatus)];
      if writeError.Some? {
        Alert(writeError.value);
      } else {
        RequestOrders();
      }
    }

    /** The workflow button `action` pressed on `order`'s card: the status
        written is the action's target. */
    method PressAction(order: Order, action: OrderAction, writeError: Option<string>)
      requires action in StatusActions(order.status)
      modifies this
      ensures order.id.Some? ==> |requests| > |old(requests)| && requests[|old(requests)|] == SetOrderStatus(order.id.value, ActionTarget(action))
      ensures order.id.Some? ==> StatusRank(ActionTarget(action)) == Some(StatusRank(order.status).value + 1)
      ensures restaurant == old(restaurant) && meals == old(meals) && orders == old(orders)
    {
      var k :| 0 <= k < |StatusActions(order.status)| && StatusActions(order.status)[k] == action;
      WorkflowMovesForward(order.status, k);
      UpdateOrderStatus(order, ActionTarget(action), writeError);
    }

    /** `logout`: on success the session is cleared; a failed sign-out keeps
        the session and raises the alert with the error's description. */
    method Logout(auth: AuthSession, signOutError: Option<string>)
      modifies this, auth
      ensures signOutError.None? ==>
                auth.userSession == None && !auth.isAuthenticated && auth.role == None
                && showAlert == old(showAlert) && alertMessage == old(alertMessage)
      ensures signOutError.Some? ==>
                auth.userSession == old(auth.userSession) && auth.isAuthenticated == old(auth.isAuthenticated)
                && auth.role == old(auth.role)
                && showAlert && alertMessage == LogoutFailedPrefix + signOutError.value
      ensures restaurant == old(restaurant) && meals == old(meals) && orders == old(orders)
      ensures newMealName == old(newMealName) && newMealDescription == old(newMealDescription)
      ensures newMealPrice == old(newMealPrice) && newMealDiscountPrice == old(newMealDiscountPrice)
      ensures newMealImageUrl == old(newMealImageUrl) && newMealAvailable == old(newMealAvailable)
      ensures isLoading == old(isLoading) && requests == old(requests)
    {
      if signOutError.None? {
        auth.userSession := None;
        auth.isAuthenticated := false;
        auth.role := None;
      } else {
        Alert(LogoutFailedPrefix + signOutError.value);
      }
    }
  }

}
