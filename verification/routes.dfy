/** The chains the orders controller exports: each runs its validators in
    declared order, stops at the first failure, and otherwise reaches its
    handler. */
module Routes {
  import opened Http
  import opened Sequences
  import opened JsValues
  import opened OrderModel
  import opened Validators
  import opened Handlers

  /** The five body checks shared by `create` and `update`, in declared
      order: deliverTo, mobileNumber and dishes present, dishes a non-empty
      array, every quantity a positive integer. */
  function ValidateOrderBody(body: Body): (r: Outcome)
    ensures r.Pass? <==> ValidBody(body)
    ensures !Truthy(body.deliverTo) ==> r == Fail(MissingField(DeliverTo))
    ensures Truthy(body.deliverTo) && !Truthy(body.mobileNumber) ==> r == Fail(MissingField(MobileNumber))
    ensures Truthy(body.deliverTo) && Truthy(body.mobileNumber) && !DishesTruthy(body.dishes)
            ==> r == Fail(MissingField(DishesField))
    ensures Truthy(body.deliverTo) && Truthy(body.mobileNumber) && DishesTruthy(body.dishes)
            && !(body.dishes.Arr? && |body.dishes.items| > 0)
            ==> r == Fail(NoDishes)
    ensures body.dishes.Arr? && !AllQuantitiesValid(body.dishes.items)
            && Truthy(body.deliverTo) && Truthy(body.mobileNumber) && |body.dishes.items| > 0
            ==> exists k :: FirstBadAt(body.dishes.items, k) && r == Fail(BadQuantity(k))
    ensures r.Fail? ==> r.error.status == 400
  {
    var deliverTo := BodyDataHas(body, DeliverTo);
    if deliverTo.Fail? then deliverTo else
    var mobileNumber := BodyDataHas(body, MobileNumber);
    if mobileNumber.Fail? then mobileNumber else
    var dishes := BodyDataHas(body, DishesField);
    if dishes.Fail? then dishes else
    var shape := DishesPropertyIsValid(body);
    if shape.Fail? then shape else
    QuantityPropertyIsValid(body)
  }

  /** `GET /orders`. */
  function ListRoute(store: seq<Order>): (r: Reply)
    ensures r.store == store && r.response == Response(200, DataList(store))
  {
    List(store)
  }

  /** `POST /orders`; `newId` is what `nextId()` returns. */
  function CreateRoute(store: seq<Order>, body: Body, newId: string): (r: Reply)
    ensures !ValidBody(body) ==> r == ErrorReply(store, ValidateOrderBody(body).error)
    ensures ValidBody(body) ==> r.response.status == 201 && r.store == store + [NewOrder(body, newId)]
    ensures ValidBody(body) ==> r.response == Response(201, Data(NewOrder(body, newId)))
    ensures r.response.status == 201 <==> ValidBody(body)
    ensures WellFormed(store) && !HasId(store, newId) ==> WellFormed(r.store)
  {
    match ValidateOrderBody(body)
    case Fail(e) => ErrorReply(store, e)
    case Pass => Create(store, body, newId)
  }

  /** `GET /orders/:orderId`. */
  function ReadRoute(store: seq<Order>, orderId: string): (r: Reply)
    ensures r.store == store
    ensures HasId(store, orderId) ==> exists i :: IsFirstMatch(store, orderId, i) && r.response == Response(200, Data(store[i]))
    ensures !HasId(store, orderId) ==> r.response == Response(404, Message("Order does not exist: " + orderId))
  {
    match OrderExists(store, orderId)
    case Err(e) => ErrorReply(store, e)
    case Ok(found) => Read(store, found)
  }

  /** `PUT /orders/:orderId`. The body checks come before `orderExists`,
      and the stored order's status is never consulted. */
  function UpdateRoute(store: seq<Order>, orderId: string, body: Body): (r: Reply)
    ensures !ValidBody(body) ==> r == ErrorReply(store, ValidateOrderBody(body).error) && r.response.status == 400
    ensures ValidBody(body) && !HasId(store, orderId) ==> r == ErrorReply(store, NotFound(orderId))
    ensures ValidBody(body) && HasId(store, orderId) && !ValidateStatus(body, orderId).Pass?
            ==> r == ErrorReply(store, ValidateStatus(body, orderId).error)
    ensures r.response.status == 200
            <==> ValidBody(body) && HasId(store, orderId) && !IdMismatches(body, orderId) && UpdatableStatus(body.status)
    ensures r.response.status == 200 ==>
              exists i :: IsFirstMatch(store, orderId, i)
                && r.store == store[i := Order(orderId, body.deliverTo, body.mobileNumber, body.status, body.dishes)]
                && r.response == Response(200, Data(r.store[i]))
    ensures r.response.status != 200 ==> r.store == store
    ensures WellFormed(store) ==> WellFormed(r.store)
  {
    match ValidateOrderBody(body)
    case Fail(e) => ErrorReply(store, e)
    case Pass =>
      match OrderExists(store, orderId)
      case Err(e) => ErrorReply(store, e)
      case Ok(found) =>
        match ValidateStatus(body, orderId)
        case Fail(e) => ErrorReply(store, e)
        case Pass => Update(store, found, body)
  }

  /** `DELETE /orders/:orderId`. */
  function DeleteRoute(store: seq<Order>, orderId: string): (r: Reply)
    ensures !HasId(store, orderId) ==> r == ErrorReply(store, NotFound(orderId))
    ensures forall i :: IsFirstMatch(store, orderId, i) && store[i].status != Str("pending")
              ==> r == ErrorReply(store, NotPending)
    ensures r.response.status == 204
            <==> exists i :: IsFirstMatch(store, orderId, i) && store[i].status == Str("pending")
    ensures r.response.status == 204 ==>
              exists i :: IsFirstMatch(store, orderId, i) && store[i].status == Str("pending")
                && r.store == RemoveAt(store, i)
                && r.response == Response(204, NoContent)
    ensures r.response.status != 204 ==> r.store == store
    ensures WellFormed(store) ==> WellFormed(r.store)
  {
    match OrderExists(store, orderId)
    case Err(e) => ErrorReply(store, e)
    case Ok(found) =>
      match ValidateDelete(found.order)
      case Fail(e) => ErrorReply(store, e)
      case Pass => Destroy(store, found)
  }
}
