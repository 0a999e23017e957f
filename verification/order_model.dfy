/** The entities of the orders controller: the request body, the stored
    order and its dishes, and the predicates that describe a healthy store. */
module OrderModel {
  import opened JsValues

  /** A dish's `quantity`: missing, an integer, or anything else
      (a fraction, a string, `null`, ...), all of which fail `Number.isInteger`. */
  datatype Quantity = QAbsent | QInt(n: int) | QNonInt

  /** A dish; fields other than `quantity` pass through uninterpreted. */
  datatype Dish = Dish(quantity: Quantity, fields: map<string, Value>)

  /** The body's `dishes`: missing, some non-array value (with its
      truthiness), or an array. */
  datatype Dishes = DAbsent | NotArray(truthy: bool) | Arr(items: seq<Dish>)

  /** The `data` object of a request body; a missing `data` has every field absent. */
  datatype Body = Body(id: Value, deliverTo: Value, mobileNumber: Value, status: Value, dishes: Dishes)

  /** A stored order. Its fields hold whatever the body carried when it was
      created or last updated; only the id is minted by the store. */
  datatype Order = Order(id: string, deliverTo: Value, mobileNumber: Value, status: Value, dishes: Dishes)

  /** The three body fields whose presence the create and update chains demand. */
  datatype Field = DeliverTo | MobileNumber | DishesField

  function FieldName(f: Field): string {
    match f
    case DeliverTo => "deliverTo"
    case MobileNumber => "mobileNumber"
    case DishesField => "dishes"
  }

  /** Truthiness of `dishes`: an array is truthy even when empty. */
  predicate DishesTruthy(d: Dishes) {
    match d
    case DAbsent => false
    case NotArray(t) => t
    case Arr(_) => true
  }

  predicate FieldTruthy(body: Body, f: Field) {
    match f
    case DeliverTo => Truthy(body.deliverTo)
    case MobileNumber => Truthy(body.mobileNumber)
    case DishesField => DishesTruthy(body.dishes)
  }

  /** The field is the empty string. `dishes` has no string variant: any
      non-array value of it, `""` included, is a `NotArray`. */
  predicate FieldIsEmptyString(body: Body, f: Field) {
    match f
    case DeliverTo => body.deliverTo == Str("")
    case MobileNumber => body.mobileNumber == Str("")
    case DishesField => false
  }

  /** `!q || !Number.isInteger(q) || q <= 0`: a missing quantity is falsy,
      a non-integer fails the second test, and an integer fails when it is
      `0` (falsy) or negative. */
  predicate QuantityIsBad(q: Quantity) {
    match q
    case QAbsent => true
    case QNonInt => true
    case QInt(n) => n <= 0
  }

  predicate AllQuantitiesValid(ds: seq<Dish>) {
    forall i :: 0 <= i < |ds| ==> !QuantityIsBad(ds[i].quantity)
  }

  /** `k` is the index of the first dish with a bad quantity. */
  predicate FirstBadAt(ds: seq<Dish>, k: int) {
    && 0 <= k < |ds|
    && QuantityIsBad(ds[k].quantity)
    && forall j :: 0 <= j < k ==> !QuantityIsBad(ds[j].quantity)
  }

  /** A non-empty array of dishes, each with a positive integer quantity. */
  predicate DishesValid(d: Dishes) {
    d.Arr? && |d.items| > 0 && AllQuantitiesValid(d.items)
  }

  /** Reference definition of a body that every body check accepts. */
  predicate ValidBody(body: Body) {
    Truthy(body.deliverTo) && Truthy(body.mobileNumber) && DishesValid(body.dishes)
  }

  predicate HasId(store: seq<Order>, id: string) {
    exists i :: 0 <= i < |store| && store[i].id == id
  }

  /** `i` is where `orders.find(order => order.id === id)` stops. */
  predicate IsFirstMatch(store: seq<Order>, id: string, i: int) {
    && 0 <= i < |store|
    && store[i].id == id
    && forall j :: 0 <= j < i ==> store[j].id != id
  }

  predicate IdsUnique(store: seq<Order>) {
    forall i, j :: 0 <= i < j < |store| ==> store[i].id != store[j].id
  }

  /** The store invariant: ids are unique and every stored order's dishes
      passed the dish checks. */
  predicate WellFormed(store: seq<Order>) {
    && IdsUnique(store)
    && forall i :: 0 <= i < |store| ==> DishesValid(store[i].dishes)
  }
}
