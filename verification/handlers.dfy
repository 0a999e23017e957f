/** The terminal handlers of the orders controller. Each takes the store as
    a value and returns the response together with the store it leaves. */
module Handlers {
  import opened Http
  import opened Sequences
  import opened JsValues
  import opened OrderModel
  import opened Validators

  /** The JSON body sent back: `{ data: order }`, `{ data: [...] }`, nothing
      (204), or `{ message }` for an error. */
  datatype Payload = Data(order: Order) | DataList(orders: seq<Order>) | NoContent | Message(text: string)

  datatype Response = Response(status: int, payload: Payload)

  /** A handled request: what the client receives and the store afterwards. */
  datatype Reply = Reply(response: Response, store: seq<Order>)

  /** The error responder a failing validator reaches: the store is untouched. */
  function ErrorReply(store: seq<Order>, e: HttpError): Reply {
    Reply(Response(e.status, Message(e.message)), store)
  }

  /** `list`: the whole collection, in stored order. */
  function List(store: seq<Order>): (r: Reply)
    ensures r.store == store
    ensures r.response.status == 200 && r.response.payload.DataList?
    ensures r.response.payload.orders == store
  {
    Reply(Response(200, DataList(store)), store)
  }

  /** The order `create` builds; `nextId()` is the supplied `newId`. */
  function NewOrder(body: Body, newId: string): (o: Order)
    ensures o.id == newId
    ensures o.deliverTo == body.deliverTo && o.mobileNumber == body.mobileNumber && o.dishes == body.dishes
    ensures !Truthy(body.status) ==> o.status == Str("pending")
    ensures Truthy(body.status) ==> o.status == body.status
  {
    Order(newId, body.deliverTo, body.mobileNumber, if Truthy(body.status) then body.status else Str("pending"), body.dishes)
  }

  /** `create`: appends the new order and answers 201 with it. */
  function Create(store: seq<Order>, body: Body, newId: string): (r: Reply)
    ensures |r.store| == |store| + 1
    ensures r.store[..|store|] == store
    ensures r.store[|store|] == NewOrder(body, newId)
    ensures r.response == Response(201, Data(NewOrder(body, newId)))
    ensures IdsUnique(store) && !HasId(store, newId) ==> IdsUnique(r.store)
  {
    var order := NewOrder(body, newId);
    Reply(Response(201, Data(order)), store + [order])
  }

  /** `read`: answers 200 with the order `orderExists` resolved. */
  function Read(store: seq<Order>, found: Found): (r: Reply)
    ensures r.store == store
    ensures r.response.status == 200 && r.response.payload == Data(found.order)
  {
    Reply(Response(200, Data(found.order)), store)
  }

  /** `update`: overwrites the four mutable fields of the resolved order in
      place; its id stays. */
  function Update(store: seq<Order>, found: Found, body: Body): (r: Reply)
    requires found.index < |store|
    ensures |r.store| == |store|
    ensures forall j :: 0 <= j < |store| && j != found.index ==> r.store[j] == store[j]
    ensures r.store[found.index].id == store[found.index].id
    ensures r.store[found.index].deliverTo == body.deliverTo
    ensures r.store[found.index].mobileNumber == body.mobileNumber
    ensures r.store[found.index].dishes == body.dishes
    ensures r.store[found.index].status == body.status
    ensures r.response == Response(200, Data(r.store[found.index]))
    ensures IdsUnique(store) ==> IdsUnique(r.store)
  {
    var order := store[found.index];
    var updated := order.(deliverTo := body.deliverTo, mobileNumber := body.mobileNumber,
                          dishes := body.dishes, status := body.status);
    Reply(Response(200, Data(updated)), store[found.index := updated])
  }

  /** `destroy`: removes the resolved order (`splice(indexOf(order), 1)`) and
      answers 204 with no body. */
  function Destroy(store: seq<Order>, found: Found): (r: Reply)
    requires found.index < |store|
    ensures r.store == RemoveAt(store, found.index)
    ensures r.response == Response(204, NoContent)
    ensures IdsUnique(store) ==> IdsUnique(r.store) && !HasId(r.store, store[found.index].id)
  {
    Reply(Response(204, NoContent), RemoveAt(store, found.index))
  }
}
