# GrubDash orders controller, modelled in Dafny

This project models the orders controller of the GrubDash service
(`src/orders/orders.controller.js`). The controller keeps orders in an
in-memory array. It exposes list, create, read, update and delete operations,
and each of them sits behind a chain of request validators. The Express
plumbing is removed. Each validator becomes a pure function that returns
`Pass`/`Fail(HttpError)` (or `Ok`/`Err` when it resolves an order). Each
handler becomes a function from the store (`seq<Order>`) to a `Reply`: the
response status and payload, together with the store it leaves behind.

Modules, one per concern:

- `Http`: `HttpError`, `Outcome`, `Result`.
- `Sequences`: `Option`, `FirstIndex` (what `Array.prototype.find`/`indexOf` compute) and `RemoveAt` (`splice(i, 1)`).
- `JsValues`: the abstraction of JavaScript body values. A field is `Absent`, `Str(s)`, or `Other(truthy, text)` for any other JSON value. Truthiness is explicit, and `Decimal` renders `${index}`.
- `OrderModel`: `Quantity` (`QAbsent | QInt | QNonInt`), `Dish`, `Dishes` (`DAbsent | NotArray | Arr`), `Body`, `Order`. It also holds the reference predicates `ValidBody`, `IdsUnique` and `WellFormed`.
- `Validators`: `bodyDataHas`, `dishesPropertyIsValid`, `quantityPropertyIsValid`, `orderExists`, `validateStatus`, `validateDelete`, and the exact messages.
- `Handlers`: `list`, `create`, `read`, `update`, `destroy`.
- `Routes`: the exported chains, each running its validators in declared order. The first failure wins.
- `OrderProperties`: lemmas that relate several requests.

Behaviour modelled as the code has it:

- `quantityPropertyIsValid` calls `next(err)` once per bad dish and then `next()`. Express acts on the first call only, so the model reports the first bad dish and passes otherwise. The message keeps the source's spelling "musthave".
- `validateStatus` rejects `"delivered"` in its second branch. Its third branch ("A delivered order cannot be changed") can never fire. `Validators.ValidateStatus` keeps that branch and proves it dead, so a `delivered` update body is answered with the status-list message.
- Update never looks at the stored status, so an order that is already `delivered` can still be changed. The unreachable message at `orders.controller.js:105` suggests delivered orders were meant to be locked, but no code enforces it, and the model does not either.
- Create does not validate `status`: any truthy status is stored as given, and a falsy one becomes `"pending"`.
- The presence checks accept any truthy value, not only non-empty strings. `dishes` must be an array, but `deliverTo` and `mobileNumber` may be any truthy value.

## Model

| member | source | states |
|---|---|---|
| JsValues.Decimal | src/orders/orders.controller.js:41 | `${index}` renders an index as a non-empty string of decimal digits, one digit exactly when the index is below 10 |
| JsValues.DecimalRoundTrip | src/orders/orders.controller.js:41 | parsing the rendered index gives the index back, so the rendering loses nothing |
| JsValues.DecimalInjective | src/orders/orders.controller.js:41 | distinct indices render as distinct strings |
| Sequences.FirstIndex | src/orders/orders.controller.js:50 | `find` yields nothing iff no element satisfies the test; otherwise it yields an element that satisfies it, with none before it |
| Sequences.RemoveAt | src/orders/orders.controller.js:128-129 | `splice(i, 1)` drops exactly the element at `i`: length falls by one, elements before `i` keep their place, later ones shift down by one, and the multiset loses just that element |
| Validators.BodyDataHas | src/orders/orders.controller.js:11-22 | runs both tests of the source, `truthy && !== ""`, and passes iff the field is truthy, so the second test never decides; otherwise fails 400 "Order must include a {field}" |
| Validators.DishesPropertyIsValid | src/orders/orders.controller.js:24-33 | passes iff `dishes` is a non-empty array; otherwise fails 400 "Order must include at least one dish" |
| Validators.QuantityPropertyIsValid | src/orders/orders.controller.js:35-46 | passes iff no dish has a missing, falsy, non-integer or non-positive quantity; otherwise fails 400 naming the index of the first bad dish |
| Validators.OrderExists | src/orders/orders.controller.js:48-59 | succeeds iff some stored order has the route id, and then yields the first such order and its index; otherwise fails 404 "Order does not exist: {orderId}" |
| Validators.ValidateStatus | src/orders/orders.controller.js:95-115 | an id mismatch (truthy body id differing from the route id) wins first; otherwise a status outside pending/preparing/out-for-delivery fails with the status-list message; passes iff neither; never yields "A delivered order cannot be changed" |
| Validators.ValidateDelete | src/orders/orders.controller.js:117-125 | passes iff the resolved order's status is "pending"; otherwise fails 400 "An order cannot be deleted unless it is pending" |
| Handlers.List | src/orders/orders.controller.js:61-63 | answers 200 with the whole collection in stored order, and leaves the store as it was |
| Handlers.NewOrder | src/orders/orders.controller.js:66-73 | the new order carries the minted id and the body's deliverTo, mobileNumber and dishes; its status is the body's when truthy and "pending" otherwise |
| Handlers.Create | src/orders/orders.controller.js:65-77 | appends exactly one order at the end and leaves every earlier order unchanged; answers 201 with it; a fresh id keeps the ids unique |
| Handlers.Read | src/orders/orders.controller.js:79-81 | answers 200 with the resolved order and leaves the store as it was |
| Handlers.Update | src/orders/orders.controller.js:83-93 | overwrites deliverTo, mobileNumber, dishes and status of the resolved order and nothing else: its id, the length and every other order stay; ids stay unique |
| Handlers.Destroy | src/orders/orders.controller.js:127-131 | removes exactly the resolved order and answers 204; with unique ids, its id is then absent from the store |
| Routes.ValidateOrderBody | src/orders/orders.controller.js:136-140 | the shared body checks pass iff the body meets the reference `ValidBody`; otherwise the error belongs to the first check that fails: a missing deliverTo, then mobileNumber, then dishes, then dishes not a non-empty array, then the first bad quantity |
| Routes.ListRoute | src/orders/orders.controller.js:134 | `GET /orders` answers 200 with the whole store and changes nothing |
| Routes.CreateRoute | src/orders/orders.controller.js:135-142 | answers 201 iff the body is valid, and then stores exactly one new order at the end and replies with `{ data: newOrder }`; an invalid body gets the first check's error and changes nothing; a well-formed store under a fresh id stays well-formed |
| Routes.ReadRoute | src/orders/orders.controller.js:143-146 | answers 200 with the first order having the route id, and 404 "Order does not exist: {orderId}" when there is none; never changes the store |
| Routes.UpdateRoute | src/orders/orders.controller.js:147-156 | an invalid body fails 400 even when the id is unknown; a valid body with an unknown id fails 404; success holds iff the body is valid, the id exists, the body id matches and the status is updatable, whatever the stored status; success rewrites exactly the matched order's four fields and replies with `{ data: order }`, the rewritten order; the store stays well-formed |
| Routes.DeleteRoute | src/orders/orders.controller.js:157-161 | answers 204 iff the first order with the route id is pending, and then removes exactly that order and sends no body; an unknown id fails 404 and a non-pending order fails 400; a failure leaves the store unchanged; the store stays well-formed |
| OrderProperties.BadQuantityNamesIndex | src/orders/orders.controller.js:41 | the quantity error for one dish index differs from the error for any other index |
| OrderProperties.CreateThenDeleteRestores | src/orders/orders.controller.js:65-77 | creating a pending order under a fresh id and then deleting that id succeeds and restores the original store |
| OrderProperties.DeletedOrderIsGone | src/orders/orders.controller.js:127-131 | with unique ids, reading a just-deleted id answers 404 |
| OrderProperties.UpdateIsIdempotent | src/orders/orders.controller.js:83-93 | repeating an update with the same body gives the same reply and store as doing it once |
| OrderProperties.UpdateThenRead | src/orders/orders.controller.js:79-93 | after a successful update, reading the id returns the body's fields under the unchanged id |
| OrderProperties.DeliveredOrderStillUpdatable | src/orders/orders.controller.js:95-115 | an order already stored as "delivered" is overwritten by any valid update, so its status leaves "delivered" |
| OrderProperties.DeliveredBodyGetsStatusMessage | src/orders/orders.controller.js:102-105 | a valid update body with status "delivered" for an existing id gets the status-list message and changes nothing |
| OrderProperties.CreateUpdateDeleteScenario | src/orders/orders.controller.js:133-161 | create, update to "preparing", then delete: the order is created pending, the update is stored, and the delete is refused with 400 |

## Left out

- Express plumbing (`req`, `res`, `next`, `res.locals`, `res.json`, `res.status`, `res.sendStatus`): responses are returned values, and the resolved order is passed on inside `Found`.
- Loading the initial orders from `src/data/orders-data`: the store is an explicit parameter of every route.
- `nextId` is not part of this model: the new id is a parameter. Its freshness is a hypothesis of the uniqueness clauses, not a precondition of `CreateRoute`.
- JavaScript numbers and coercions: floats, `NaN` and `Number.isInteger` on non-numbers collapse into `QNonInt`, and non-string values into `Other(truthy, text)`.
- Validators.ValidateDelete: compares the stored status with `Str("pending")` exactly. The loose `!=` of the source would also treat a non-string value that coerces to "pending" (such as `["pending"]`) as pending.
- A `null` dish inside `dishes` makes `dish.quantity` throw at line 38, and that error path is not modelled. A primitive or array dish reads `quantity` as undefined, so the model represents it as a dish with an absent quantity (`QAbsent`), and it gets the ordinary 400 naming its index.
- A body of `{"data": null}` is not modelled. The `= {}` default does not apply to `null`, so `data[propertyName]` at line 14 throws a TypeError in both the create and the update chain. That request reaches the error handler rather than getting a 400, and no `Body` value represents it. A null or undefined `req.body` throws the same way and is not modelled either. A missing `data`, or a primitive body, reads every field as undefined; the model represents it as a body with every field absent, and it gets the ordinary 400s.
- The second and later `next` calls of `quantityPropertyIsValid`: Express ignores them for the response, and the model reports the first bad dish only.
- Object aliasing: `update` mutates the order object in place. The model rewrites the stored entry at the resolved index, which is the same thing unless one object sits in the array twice.
- Concurrency, persistence and routing: none of these has logic in the controller.
