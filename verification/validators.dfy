/** The request validators of the orders controller. Each one looks at the
    request body, the route id or the resolved order, and either passes or
    fails with the status and message the controller sends. */
module Validators {
  import opened Http
  import opened Sequences
  import opened JsValues
  import opened OrderModel

  function MissingField(f: Field): HttpError {
    HttpError(400, "Order must include a " + FieldName(f))
  }

  const NoDishes := HttpError(400, "Order must include at least one dish")

  /** The message keeps the controller's spelling "musthave". */
  function BadQuantity(index: nat): HttpError {
    HttpError(400, "Dish " + Decimal(index) + " musthave a quantity that is an integer greater than 0")
  }

  function NotFound(orderId: string): HttpError {
    HttpError(404, "Order does not exist: " + orderId)
  }

  function IdMismatch(id: Value, orderId: string): HttpError {
    HttpError(400, "Order id does not match route id. Order: " + Interpolate(id) + ", Route: " + orderId)
  }

  const BadStatus := HttpError(400, "Order must have a status of pending, preparing, out-for-delivery, delivered")

  const DeliveredLocked := HttpError(400, "A delivered order cannot be changed")

  const NotPending := HttpError(400, "An order cannot be deleted unless it is pending")

  /** `bodyDataHas(field)`: `data[field] && data[field] !== ""`. The second
      test never decides anything, since `""` is already falsy. */
  function BodyDataHas(body: Body, f: Field): (r: Outcome)
    ensures r.Pass? <==> FieldTruthy(body, f)
    ensures r.Fail? ==> r.error.status == 400 && r.error.message == "Order must include a " + FieldName(f)
  {
    if FieldTruthy(body, f) && !FieldIsEmptyString(body, f) then Pass else Fail(MissingField(f))
  }

  /** `dishesPropertyIsValid`: `dishes` must be a non-empty array. */
  function DishesPropertyIsValid(body: Body): (r: Outcome)
    ensures r.Pass? <==> body.dishes.Arr? && |body.dishes.items| > 0
    ensures r.Fail? ==> r.error == NoDishes
  {
    if body.dishes.Arr? && |body.dishes.items| > 0 then Pass else Fail(NoDishes)
  }

  /** `quantityPropertyIsValid`. The source calls `next(err)` for every bad
      dish and then `next()`; only the first call takes effect, so the
      validator reports the first bad dish. `dishes` must be an array: the
      source's `forEach` throws otherwise, and its chains only call it after
      `dishesPropertyIsValid`. */
  function QuantityPropertyIsValid(body: Body): (r: Outcome)
    requires body.dishes.Arr?
    ensures r.Pass? <==> AllQuantitiesValid(body.dishes.items)
    ensures r.Fail? ==> exists k :: FirstBadAt(body.dishes.items, k) && r.error == BadQuantity(k)
  {
    match FirstIndex(body.dishes.items, (d: Dish) => QuantityIsBad(d.quantity))
    case None => Pass
    case Some(k) => Fail(BadQuantity(k))
  }

  /** The order found by `orderExists`, with its position in the store. */
  datatype Found = Found(index: nat, order: Order)

  /** `orderExists`: the first stored order whose id equals the route id. */
  function OrderExists(store: seq<Order>, orderId: string): (r: Result<Found>)
    ensures r.Ok? <==> HasId(store, orderId)
    ensures r.Ok? ==> IsFirstMatch(store, orderId, r.value.index) && r.value.order == store[r.value.index]
    ensures r.Err? ==> r.error == NotFound(orderId)
  {
    match FirstIndex(store, (o: Order) => o.id == orderId)
    case None => Err(NotFound(orderId))
    case Some(i) => Ok(Found(i, store[i]))
  }

  /** `id && id !== orderId`: a truthy body id that is not the route id
      (a non-string id never strictly equals the string route id). */
  predicate IdMismatches(body: Body, orderId: string) {
    Truthy(body.id) && body.id != Str(orderId)
  }

  /** The statuses an update body may carry. */
  predicate UpdatableStatus(v: Value) {
    v == Str("pending") || v == Str("preparing") || v == Str("out-for-delivery")
  }

  /** `validateStatus`, with its three branches in source order. The third
      (`status === "delivered"`) can never fire: the second already rejects
      every status outside pending, preparing and out-for-delivery. */
  function ValidateStatus(body: Body, orderId: string): (r: Outcome)
    ensures IdMismatches(body, orderId) ==> r == Fail(IdMismatch(body.id, orderId))
    ensures !IdMismatches(body, orderId) && !UpdatableStatus(body.status) ==> r == Fail(BadStatus)
    ensures r.Pass? <==> !IdMismatches(body, orderId) && UpdatableStatus(body.status)
    ensures r != Fail(DeliveredLocked)
  {
    var status := body.status;
    if IdMismatches(body, orderId) then
      Fail(IdMismatch(body.id, orderId))
    else if !Truthy(status) || status == Str("")
            || (status != Str("pending") && status != Str("preparing") && status != Str("out-for-delivery")) then
      Fail(BadStatus)
    else if status == Str("delivered") then
      Fail(DeliveredLocked)
    else
      Pass
  }

  /** `validateDelete`: only a pending order may be deleted. */
  function ValidateDelete(order: Order): (r: Outcome)
    ensures r.Pass? <==> order.status == Str("pending")
    ensures r.Fail? ==> r.error == NotPending
  {
    if order.status != Str("pending") then Fail(NotPending) else Pass
  }
}
