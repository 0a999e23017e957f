/** Properties that relate several requests to the orders controller. */
module OrderProperties {
  import opened JsValues
  import opened OrderModel
  import opened Validators
  import opened Handlers
  import opened Routes

  /** The quantity message names the dish: different indices give
      different messages. */
  lemma BadQuantityNamesIndex(i: nat, j: nat)
    requires i != j
    ensures BadQuantity(i) != BadQuantity(j)
  {
    var prefix := "Dish ";
    var suffix := " musthave a quantity that is an integer greater than 0";
    if BadQuantity(i) == BadQuantity(j) {
      var mi := BadQuantity(i).message;
      var mj := BadQuantity(j).message;
      assert mi[|prefix|..|mi| - |suffix|] == Decimal(i);
      assert mj[|prefix|..|mj| - |suffix|] == Decimal(j);
      DecimalInjective(i, j);
      assert false;
    }
  }

  /** Creating a pending order under a fresh id and then deleting it by
      that id leaves the store as it was. */
  lemma CreateThenDeleteRestores(store: seq<Order>, body: Body, newId: string)
    requires ValidBody(body)
    requires !HasId(store, newId)
    requires !Truthy(body.status) || body.status == Str("pending")
    ensures DeleteRoute(CreateRoute(store, body, newId).store, newId).response.status == 204
    ensures DeleteRoute(CreateRoute(store, body, newId).store, newId).store == store
  {
  }

  /** With unique ids, once an order is deleted it can no longer be read. */
  lemma DeletedOrderIsGone(store: seq<Order>, orderId: string)
    requires IdsUnique(store)
    requires DeleteRoute(store, orderId).response.status == 204
    ensures ReadRoute(DeleteRoute(store, orderId).store, orderId).response.status == 404
  {
  }

  /** Repeating an update with the same body changes nothing further. */
  lemma UpdateIsIdempotent(store: seq<Order>, orderId: string, body: Body)
    ensures var once := UpdateRoute(store, orderId, body);
            UpdateRoute(once.store, orderId, body) == once
  {
  }

  /** After a successful update, reading the order returns the new fields
      under the old id. */
  lemma UpdateThenRead(store: seq<Order>, orderId: string, body: Body)
    requires UpdateRoute(store, orderId, body).response.status == 200
    ensures ReadRoute(UpdateRoute(store, orderId, body).store, orderId).response
            == Response(200, Data(Order(orderId, body.deliverTo, body.mobileNumber, body.status, body.dishes)))
  {
  }

  /** The stored status is never checked on update: an order already
      delivered is overwritten like any other. */
  lemma DeliveredOrderStillUpdatable(store: seq<Order>, orderId: string, body: Body, i: int)
    requires IsFirstMatch(store, orderId, i) && store[i].status == Str("delivered")
    requires ValidBody(body) && !IdMismatches(body, orderId) && UpdatableStatus(body.status)
    ensures UpdateRoute(store, orderId, body).response.status == 200
    ensures UpdateRoute(store, orderId, body).store[i].status == body.status
    ensures UpdateRoute(store, orderId, body).store[i].status != Str("delivered")
  {
  }

  /** An update body asking for "delivered" is turned away with the
      status-list message, never with "A delivered order cannot be changed". */
  lemma DeliveredBodyGetsStatusMessage(store: seq<Order>, orderId: string, body: Body)
    requires ValidBody(body) && HasId(store, orderId) && !IdMismatches(body, orderId)
    requires body.status == Str("delivered")
    ensures UpdateRoute(store, orderId, body) == ErrorReply(store, BadStatus)
  {
  }

  /** Create, update to "preparing", then delete: the order is created
      pending, the update is stored, and the delete is refused. */
  lemma CreateUpdateDeleteScenario()
    ensures var body := Body(Absent, Str("A"), Str("555"), Absent, Arr([Dish(QInt(2), map[])]));
            var s1 := CreateRoute([], body, "42");
            var upd := Body(Str("42"), Str("B"), Str("555"), Str("preparing"), Arr([Dish(QInt(1), map[])]));
            var s2 := UpdateRoute(s1.store, "42", upd);
            var s3 := DeleteRoute(s2.store, "42");
            && s1.response == Response(201, Data(Order("42", Str("A"), Str("555"), Str("pending"), body.dishes)))
            && s2.response.status == 200
            && s2.store == [Order("42", Str("B"), Str("555"), Str("preparing"), upd.dishes)]
            && s3 == ErrorReply(s2.store, NotPending)
  {
    var body := Body(Absent, Str("A"), Str("555"), Absent, Arr([Dish(QInt(2), map[])]));
    assert ValidBody(body);
    var s1 := CreateRoute([], body, "42");
    var upd := Body(Str("42"), Str("B"), Str("555"), Str("preparing"), Arr([Dish(QInt(1), map[])]));
    assert ValidBody(upd);
    assert IsFirstMatch(s1.store, "42", 0);
    var s2 := UpdateRoute(s1.store, "42", upd);
    assert s2.store == [Order("42", Str("B"), Str("555"), Str("preparing"), upd.dishes)];
    assert IsFirstMatch(s2.store, "42", 0);
  }
}
