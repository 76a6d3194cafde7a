/** Order placement and payment-callback reconciliation (handler_order.go):
    the request validation rules, the order-id alphabet, the listing query,
    and the order table with its two state-changing handlers. */
module Orders {
  import opened Common
  import opened Strings
  import opened Types
  import Xorpay

  // ---------------------------------------------------------------------
  // Validation tags

  /** The validator rules the request structs use on integer fields. */
  datatype IntRule = IntRequired | Min(bound: int) | Max(bound: int)

  /** The validator rules the request structs use on string fields. */
  datatype StringRule = StringRequired | OneOf(options: seq<String>)

  predicate IntRuleHolds(r: IntRule, v: int)
  {
    match r
    case IntRequired => v != 0
    case Min(b) => v >= b
    case Max(b) => v <= b
  }

  predicate StringRuleHolds(r: StringRule, v: String)
  {
    match r
    case StringRequired => v != ""
    case OneOf(options) => v in options
  }

  predicate IntRulesHold(rules: seq<IntRule>, v: int)
  {
    forall i :: 0 <= i < |rules| ==> IntRuleHolds(rules[i], v)
  }

  predicate StringRulesHold(rules: seq<StringRule>, v: String)
  {
    forall i :: 0 <= i < |rules| ==> StringRuleHolds(rules[i], v)
  }

  datatype PlaceOrderRequest = PlaceOrderRequest(price: nat, payment: String)

  /** `validate:"required,min=1,max=10000"` and `validate:"required,oneof=alipay native"`. */
  const PriceRules: seq<IntRule> := [IntRequired, Min(1), Max(10000)]
  const PaymentRules: seq<StringRule> := [StringRequired, OneOf(["alipay", "native"])]

  predicate ValidPlaceOrder(form: PlaceOrderRequest)
  {
    IntRulesHold(PriceRules, form.price) && StringRulesHold(PaymentRules, form.payment)
  }

  /** The place-order tags accept exactly prices 1..10000 paid by alipay or native. */
  lemma PlaceOrderRules(form: PlaceOrderRequest)
    ensures ValidPlaceOrder(form) <==>
              1 <= form.price <= 10000 && (form.payment == "alipay" || form.payment == "native")
  {
    if 1 <= form.price <= 10000 && (form.payment == "alipay" || form.payment == "native") {
      assert forall i :: 0 <= i < |PriceRules| ==> IntRuleHolds(PriceRules[i], form.price);
      assert forall i :: 0 <= i < |PaymentRules| ==> StringRuleHolds(PaymentRules[i], form.payment);
    }
    if ValidPlaceOrder(form) {
      assert IntRuleHolds(PriceRules[1], form.price) && IntRuleHolds(PriceRules[2], form.price);
      assert StringRuleHolds(PaymentRules[1], form.payment);
    }
  }

  datatype ListOrderRequest = ListOrderRequest(page: int, limit: int, sortKey: String, sortOrder: String)

  const PageRules: seq<IntRule> := [IntRequired, Min(1)]
  const LimitRules: seq<IntRule> := [IntRequired, Min(1), Max(25)]
  const SortKeyRules: seq<StringRule> := [OneOf(["created_at", "paid_price"])]
  const SortOrderRules: seq<StringRule> := [OneOf(["desc", "asc"])]

  predicate ValidListOrder(q: ListOrderRequest)
  {
    && IntRulesHold(PageRules, q.page)
    && IntRulesHold(LimitRules, q.limit)
    && StringRulesHold(SortKeyRules, q.sortKey)
    && StringRulesHold(SortOrderRules, q.sortOrder)
  }

  /** What `listOrder` hands to the paginator: the owner filter, the page,
      the limit and the ORDER BY text. */
  datatype PageQuery = PageQuery(owner: String, page: int, limit: int, orderBy: String)

  /** `listOrder` as written: an unbindable query gets 400, a failure of the
      owner filter (`whereOk` false) gets 400 with the database-error message,
      and otherwise the bound query goes to the paginator without ever being
      validated. */
  function ListOrderQueryAsWritten(owner: String, bound: Option<ListOrderRequest>, whereOk: bool): (r: Result<PageQuery, Response>)
    ensures bound.None? ==> r == Err(DefaultBadRequestResponse)
    ensures bound.Some? && !whereOk ==> r == Err(Response(StatusBadRequest, ErrorMessage(ErrorMessageDatabaseError)))
    ensures r.Ok? <==> bound.Some? && whereOk
    ensures r.Ok? ==> r.value.owner == owner && r.value.limit == bound.value.limit && r.value.page == bound.value.page
    ensures r.Ok? ==> r.value.orderBy == bound.value.sortKey + " " + bound.value.sortOrder
  {
    match bound
    case None => Err(DefaultBadRequestResponse)
    case Some(q) =>
      if !whereOk then Err(Response(StatusBadRequest, ErrorMessage(ErrorMessageDatabaseError)))
      else Ok(PageQuery(owner, q.page, q.limit, q.sortKey + " " + q.sortOrder))
  }

  /** A limit of 26 and a sort key outside the allow-list both reach the
      paginator as written, although the tags forbid them. */
  lemma ListOrderSkipsValidation(owner: String)
    ensures var q := ListOrderRequest(1, 26, "created_at", "desc");
            !ValidListOrder(q) && ListOrderQueryAsWritten(owner, Some(q), true).Ok?
    ensures var q := ListOrderRequest(1, 10, "1; DROP TABLE orders", "desc");
            !ValidListOrder(q) && ListOrderQueryAsWritten(owner, Some(q), true).value.orderBy == "1; DROP TABLE orders desc"
  {
    var q := ListOrderRequest(1, 26, "created_at", "desc");
    assert !IntRuleHolds(LimitRules[2], q.limit);
    var q2 := ListOrderRequest(1, 10, "1; DROP TABLE orders", "desc");
    assert !StringRuleHolds(SortKeyRules[0], q2.sortKey);
  }

  /** `listOrder` with the tags enforced: an invalid query is refused with 400
      before the store is touched, and an accepted one is handed on exactly as
      the code as written hands it on: its own page (at least 1), its own
      limit (1..25) and one of the four allowed orderings built from its own
      sort key and order. */
  function ListOrderQuery(owner: String, bound: Option<ListOrderRequest>, whereOk: bool): (r: Result<PageQuery, Response>)
    ensures r.Err? <==> bound.None? || !ValidListOrder(bound.value) || !whereOk
    ensures bound.None? || !ValidListOrder(bound.value) ==> r == Err(DefaultBadRequestResponse)
    ensures bound.Some? && ValidListOrder(bound.value) && !whereOk ==>
              r == Err(Response(StatusBadRequest, ErrorMessage(ErrorMessageDatabaseError)))
    ensures r.Ok? ==> && r.value.owner == owner && r.value.page >= 1 && 1 <= r.value.limit <= 25
                      && r.value.orderBy in {"created_at desc", "created_at asc", "paid_price desc", "paid_price asc"}
    ensures r.Ok? ==> && r.value.page == bound.value.page && r.value.limit == bound.value.limit
                      && r.value.orderBy == bound.value.sortKey + " " + bound.value.sortOrder
    ensures r.Ok? ==> r == ListOrderQueryAsWritten(owner, bound, whereOk)
  {
    match bound
    case None => Err(DefaultBadRequestResponse)
    case Some(q) =>
      if !ValidListOrder(q) then Err(DefaultBadRequestResponse)
      else if !whereOk then Err(Response(StatusBadRequest, ErrorMessage(ErrorMessageDatabaseError)))
      else
        assert IntRuleHolds(PageRules[1], q.page);
        assert IntRuleHolds(LimitRules[1], q.limit) && IntRuleHolds(LimitRules[2], q.limit);
        assert StringRuleHolds(SortKeyRules[0], q.sortKey) && StringRuleHolds(SortOrderRules[0], q.sortOrder);
        assert q.sortKey == "created_at" || q.sortKey == "paid_price";
        assert q.sortOrder == "desc" || q.sortOrder == "asc";
        assert "created_at" + " " + "desc" == "created_at desc" && "created_at" + " " + "asc" == "created_at asc";
        assert "paid_price" + " " + "desc" == "paid_price desc" && "paid_price" + " " + "asc" == "paid_price asc";
        Ok(PageQuery(owner, q.page, q.limit, q.sortKey + " " + q.sortOrder))
  }

  // ---------------------------------------------------------------------
  // Order identifiers

  const OrderIDCharCandidates: String := "abcdefghijklmnopqrstuvwxyz0123456789"
  const OrderIDLength: nat := 32

  predicate IsOrderIDChar(c: char)
  {
    'a' <= c <= 'z' || '0' <= c <= '9'
  }

  predicate IsOrderID(id: String)
  {
    |id| == OrderIDLength && forall i :: 0 <= i < |id| ==> IsOrderIDChar(id[i])
  }

  /** Position of an id character in the alphabet. */
  function CharIndex(c: char): (k: nat)
    requires IsOrderIDChar(c)
    ensures k < |OrderIDCharCandidates| && OrderIDCharCandidates[k] == c
  {
    AlphabetLayout();
    if 'a' <= c <= 'z' then (c as int - 'a' as int) as nat else (c as int - '0' as int + 26) as nat
  }

  /** The alphabet is a–z followed by 0–9: 36 distinct characters. */
  lemma AlphabetLayout()
    ensures |OrderIDCharCandidates| == 36
    ensures forall k :: 0 <= k < 26 ==> OrderIDCharCandidates[k] == ('a' as int + k) as char
    ensures forall k :: 26 <= k < 36 ==> OrderIDCharCandidates[k] == ('0' as int + k - 26) as char
  {
  }

  /** Every alphabet character is a lower-case letter or a digit, and no
      character occurs twice. */
  lemma AlphabetIsLowerAlnum()
    ensures forall k :: 0 <= k < |OrderIDCharCandidates| ==> IsOrderIDChar(OrderIDCharCandidates[k])
    ensures forall j, k :: 0 <= j < k < |OrderIDCharCandidates| ==> OrderIDCharCandidates[j] != OrderIDCharCandidates[k]
  {
    AlphabetLayout();
  }

  /** `uniuri.NewLenChars(32, OrderIDCharCandidates)`: 32 characters drawn
      from the alphabet; `draw(i)` is the random choice for position `i`. */
  function NewOrderID(draw: nat -> nat): (id: String)
    ensures IsOrderID(id)
  {
    AlphabetIsLowerAlnum();
    seq(OrderIDLength, i requires 0 <= i < OrderIDLength => OrderIDCharCandidates[draw(i) % 36])
  }

  /** Every well-formed id can be drawn: the generator covers the whole id space. */
  lemma EveryOrderIDCanBeDrawn(id: String)
    requires IsOrderID(id)
    ensures exists draw: nat -> nat :: NewOrderID(draw) == id
  {
    var draw := (i: nat) => if i < |id| then CharIndex(id[i]) else 0;
    var drawn := NewOrderID(draw);
    forall i | 0 <= i < |id| ensures drawn[i] == id[i] {
      var k := CharIndex(id[i]);
      assert draw(i) == k && k < 36;
      assert k % 36 == k;
      assert drawn[i] == OrderIDCharCandidates[k];
    }
    assert drawn == id;
  }

  // ---------------------------------------------------------------------
  // The order table

  const ProductName: String := "Life 币充值"

  const ErrorMessageSignInvalid: String := "Sign 校验失败"
  const ErrorMessagePayFailed: String := "支付发起失败，稍后请重试"
  const ErrorMessageNoOrderRecord: String := "无对应用户订单记录"
  const ErrorMessageDuplicateOrder: String := "重复的订单记录"
  const ErrorMessageInternal: String := "服务器内部错误"
  const ErrorMessageOrderNotFound: String := "未找到订单"
  /** Defined outside the modelled files; its text is not part of this model. */
  const ErrorMessageDatabaseError: String := "database error"

  /** A message the callback handler hands to the order broker: the topic
      (an order id) and the order it carries. */
  datatype Broadcast = Broadcast(topic: String, payload: Order)

  /** No order that was paid before has changed or gone: the paid timestamp
      goes from unset to set at most once. */
  ghost predicate PaidFrozen(before: map<String, Order>, after: map<String, Order>)
  {
    forall id :: id in before && before[id].paidAt.Some? ==> id in after && after[id] == before[id]
  }

  lemma PaidFrozenTransitive(a: map<String, Order>, b: map<String, Order>, c: map<String, Order>)
    requires PaidFrozen(a, b) && PaidFrozen(b, c)
    ensures PaidFrozen(a, c)
  {
  }

  /** The order table: rows keyed by order id, and the unique index on the
      gateway's platform order id. */
  class OrderStore {
    var rows: map<String, Order>
    var byPlatform: map<String, String>

    ghost predicate Valid()
      reads this
    {
      && (forall id :: id in rows ==> rows[id].orderID == id)
      && (forall id :: id in rows ==> rows[id].platformOrderID in byPlatform && byPlatform[rows[id].platformOrderID] == id)
      && (forall p :: p in byPlatform ==> byPlatform[p] in rows && rows[byPlatform[p]].platformOrderID == p)
    }

    constructor ()
      ensures Valid() && rows == map[] && byPlatform == map[]
    {
      rows := map[];
      byPlatform := map[];
    }

    /** The row whose platform order id and owner both match, if any. */
    function FindByPlatform(platformOrderID: String, owner: String): (found: Option<Order>)
      reads this
      requires Valid()
      ensures found.Some? ==> && found.value.orderID in rows && rows[found.value.orderID] == found.value
                              && found.value.platformOrderID == platformOrderID
                              && found.value.parentUsername == owner
      ensures found.None? ==> forall id :: id in rows ==>
                                rows[id].platformOrderID != platformOrderID || rows[id].parentUsername != owner
    {
      if platformOrderID in byPlatform && rows[byPlatform[platformOrderID]].parentUsername == owner
      then Some(rows[byPlatform[platformOrderID]])
      else None
    }

    /** `queryOrderStatus`: the order whose id and owner both match, or 400
        when there is none or the lookup fails (`lookupOk` false), so no one
        reads another account's order. */
    function QueryOrderStatus(orderID: String, owner: String, lookupOk: bool): (r: Result<Order, Response>)
      reads this
      requires Valid()
      ensures r.Ok? <==> lookupOk && orderID in rows && rows[orderID].parentUsername == owner
      ensures r.Ok? ==> r.value == rows[orderID]
      ensures r.Err? ==> r.error == Response(StatusBadRequest, ErrorMessage(ErrorMessageOrderNotFound))
    {
      if lookupOk && orderID in rows && rows[orderID].parentUsername == owner then Ok(rows[orderID])
      else Err(Response(StatusBadRequest, ErrorMessage(ErrorMessageOrderNotFound)))
    }

    /** `placeOrder`. An unbindable or invalid form is refused with 400 before
        the gateway is contacted. Otherwise a fresh id is drawn and the signed
        transaction is sent; when `Pay` fails nothing is inserted and 500 is
        returned. When the insert is refused (an id or platform id already in
        the table, or a store fault) nothing is inserted and 500 is returned.
        Otherwise the unpaid order is inserted and 201 carries the id, the QR
        payload and the expiry hint. */
    method PlaceOrder(owner: String, form: Option<PlaceOrderRequest>, draw: nat -> nat,
                      md5Hex: Digest, gateway: Xorpay.Gateway, session: Xorpay.Session,
                      now: Time, storeFault: bool)
      returns (resp: Response, sent: Option<Xorpay.Transaction>)
      requires Valid()
      modifies this
      ensures Valid()
      ensures PaidFrozen(old(rows), rows) && old(rows).Keys <= rows.Keys
      ensures form.None? || !ValidPlaceOrder(form.value) ==>
                resp == DefaultBadRequestResponse && sent.None? && rows == old(rows) && byPlatform == old(byPlatform)
      ensures form.Some? && ValidPlaceOrder(form.value) ==>
                var id := NewOrderID(draw);
                var tx := Xorpay.Transaction(ProductName, form.value.payment, form.value.price, id);
                var paid := Xorpay.Pay(md5Hex, gateway, session, tx);
                && sent == Some(tx)
                && (paid.Err? ==>
                      resp == Response(StatusInternalServerError, HTTPErrorMessage(ErrorMessagePayFailed))
                      && rows == old(rows) && byPlatform == old(byPlatform))
                && (paid.Ok? && (id in old(rows) || paid.value.platformOrderID in old(byPlatform) || storeFault) ==>
                      resp == Response(StatusInternalServerError, ErrorMessage(ErrorMessageDatabaseError))
                      && rows == old(rows) && byPlatform == old(byPlatform))
                && (paid.Ok? && !(id in old(rows) || paid.value.platformOrderID in old(byPlatform) || storeFault) ==>
                      && rows == old(rows)[id := Order(id, paid.value.platformOrderID, owner, form.value.payment,
                                                       now, form.value.price, None, "", "")]
                      && byPlatform == old(byPlatform)[paid.value.platformOrderID := id]
                      && resp == Response(StatusCreated, PlaceOrderBody(id, paid.value.qr, paid.value.expiresIn)))
    {
      if form.None? || !ValidPlaceOrder(form.value) {
        return DefaultBadRequestResponse, None;
      }
      var request := form.value;
      var orderId := NewOrderID(draw);
      var tx := Xorpay.Transaction(ProductName, request.payment, request.price, orderId);
      sent := Some(tx);
      var paid := Xorpay.Pay(md5Hex, gateway, session, tx);
      if paid.Err? {
        return Response(StatusInternalServerError, HTTPErrorMessage(ErrorMessagePayFailed)), sent;
      }
      var response := paid.value;
      if orderId in rows || response.platformOrderID in byPlatform || storeFault {
        return Response(StatusInternalServerError, ErrorMessage(ErrorMessageDatabaseError)), sent;
      }
      var order := Order(orderId, response.platformOrderID, owner, request.payment, now, request.price, None, "", "");
      rows := rows[orderId := order];
      byPlatform := byPlatform[response.platformOrderID := orderId];
      resp := Response(StatusCreated, PlaceOrderBody(orderId, response.qr, response.expiresIn));
    }

    /** `storeOrder`, the gateway's payment callback. The checks run in the
        code's order: binding (400), signature (406, before anything else is
        read), time zone (500), pay time (400), detail JSON (400), query (424),
        lookup by platform id and owner (500 when it fails, `findOk` false,
        or when no row matches), and the paid guard:
        an order already paid answers 409 with no update and no broadcast.
        Otherwise, when the write succeeds, the paid time and the transaction
        fields are set on that row alone and the order, as loaded before the
        update, is broadcast under its order id; the answer is 202. */
    method StoreOrder(owner: String, form: Option<Xorpay.PlatformNotifyResponse>,
                      md5Hex: Digest, session: Xorpay.Session, timezoneOk: bool,
                      parseTime: String -> Option<Time>,
                      parseDetail: String -> Option<Xorpay.PlatformNotifyResponseDetail>,
                      queryFault: bool, findOk: bool, updateOk: bool)
      returns (resp: Response, broadcast: Option<Broadcast>)
      requires Valid()
      modifies this
      ensures Valid()
      ensures byPlatform == old(byPlatform) && rows.Keys == old(rows).Keys
      ensures PaidFrozen(old(rows), rows)
      ensures resp.status != StatusAccepted ==> rows == old(rows) && broadcast.None?
      ensures form.None? ==> resp == DefaultBadRequestResponse
      ensures form.Some? && !Xorpay.CheckSign(md5Hex, session, form.value) ==>
                resp == Response(StatusNotAcceptable, ErrorMessage(ErrorMessageSignInvalid))
      ensures form.Some? && Xorpay.CheckSign(md5Hex, session, form.value) ==>
                var f := form.value;
                && (!timezoneOk ==> resp == Response(StatusInternalServerError, PlainText(ErrorMessageInternal)))
                && (timezoneOk && parseTime(f.payTime).None? ==> resp == DefaultBadRequestResponse)
                && (timezoneOk && parseTime(f.payTime).Some? && parseDetail(f.detail).None? ==>
                      resp == DefaultBadRequestResponse)
                && (timezoneOk && parseTime(f.payTime).Some? && parseDetail(f.detail).Some? ==>
                      var paidAt := parseTime(f.payTime).value;
                      var detail := parseDetail(f.detail).value;
                      var found := old(FindByPlatform(f.platformOrderID, owner));
                      && (queryFault ==>
                            resp == Response(StatusFailedDependency, ErrorMessage(ErrorMessageNoOrderRecord)))
                      && (!queryFault && (!findOk || found.None?) ==>
                            resp == Response(StatusInternalServerError, ErrorMessage(ErrorMessageDatabaseError)))
                      && (!queryFault && findOk && found.Some? && found.value.paidAt.Some? ==>
                            resp == Response(StatusConflict, ErrorMessage(ErrorMessageDuplicateOrder)))
                      && (!queryFault && findOk && found.Some? && found.value.paidAt.None? && !updateOk ==>
                            resp == Response(StatusInternalServerError, ErrorMessage(ErrorMessageDatabaseError)))
                      && (!queryFault && findOk && found.Some? && found.value.paidAt.None? && updateOk ==>
                            var o := found.value;
                            && rows == old(rows)[o.orderID := o.(paidAt := Some(paidAt),
                                                                 transactionID := detail.transactionID,
                                                                 transactionType := detail.transactionType)]
                            && broadcast == Some(Broadcast(o.orderID, o))
                            && resp == Response(StatusAccepted, NoContent)))
    {
      broadcast := None;
      if form.None? {
        return DefaultBadRequestResponse, None;
      }
      var f := form.value;
      if !Xorpay.CheckSign(md5Hex, session, f) {
        return Response(StatusNotAcceptable, ErrorMessage(ErrorMessageSignInvalid)), None;
      }
      if !timezoneOk {
        return Response(StatusInternalServerError, PlainText(ErrorMessageInternal)), None;
      }
      var paidAt := parseTime(f.payTime);
      if paidAt.None? {
        return DefaultBadRequestResponse, None;
      }
      var detail := parseDetail(f.detail);
      if detail.None? {
        return DefaultBadRequestResponse, None;
      }
      if queryFault {
        return Response(StatusFailedDependency, ErrorMessage(ErrorMessageNoOrderRecord)), None;
      }
      var found := FindByPlatform(f.platformOrderID, owner);
      if !findOk || found.None? {
        return Response(StatusInternalServerError, ErrorMessage(ErrorMessageDatabaseError)), None;
      }
      var order := found.value;
      if order.paidAt.Some? {
        return Response(StatusConflict, ErrorMessage(ErrorMessageDuplicateOrder)), None;
      }
      if !updateOk {
        return Response(StatusInternalServerError, ErrorMessage(ErrorMessageDatabaseError)), None;
      }
      rows := rows[order.orderID := order.(paidAt := Some(paidAt.value),
                                           transactionID := detail.value.transactionID,
                                           transactionType := detail.value.transactionType)];
      broadcast := Some(Broadcast(order.orderID, order));
      resp := Response(StatusAccepted, NoContent);
    }
  }

  /** A redelivered callback changes nothing: the second delivery of the same
      signed callback is answered 409, leaves the table as the first left it
      and broadcasts nothing. */
  method RedeliveredCallback(store: OrderStore, owner: String, form: Xorpay.PlatformNotifyResponse,
                             md5Hex: Digest, session: Xorpay.Session,
                             parseTime: String -> Option<Time>,
                             parseDetail: String -> Option<Xorpay.PlatformNotifyResponseDetail>)
    returns (first: Response, second: Response, secondBroadcast: Option<Broadcast>, ghost afterFirst: map<String, Order>)
    requires store.Valid()
    modifies store
    ensures first.status == StatusAccepted ==>
              && second == Response(StatusConflict, ErrorMessage(ErrorMessageDuplicateOrder))
              && secondBroadcast.None? && store.rows == afterFirst
  {
    var b1;
    first, b1 := store.StoreOrder(owner, Some(form), md5Hex, session, true, parseTime, parseDetail, false, true, true);
    afterFirst := store.rows;
    second, secondBroadcast := store.StoreOrder(owner, Some(form), md5Hex, session, true, parseTime, parseDetail, false, true, true);
    if first.status == StatusAccepted {
      var o := b1.value.payload;
      assert afterFirst[o.orderID].paidAt.Some?;
    }
  }

  /** Placing an order and then receiving the gateway's correctly signed
      callback for its platform id leaves that order paid at the callback's
      time and broadcasts it under its order id. */
  method PlaceThenPay(store: OrderStore, owner: String, request: PlaceOrderRequest, draw: nat -> nat,
                      md5Hex: Digest, gateway: Xorpay.Gateway, session: Xorpay.Session, now: Time,
                      payPrice: String, payTime: String, detailText: String,
                      parseTime: String -> Option<Time>,
                      parseDetail: String -> Option<Xorpay.PlatformNotifyResponseDetail>)
    returns (placed: Response, paid: Response, broadcast: Option<Broadcast>)
    requires store.Valid()
    requires ValidPlaceOrder(request)
    requires parseTime(payTime).Some? && parseDetail(detailText).Some?
    modifies store
    ensures store.Valid()
    ensures placed.status == StatusCreated ==>
              placed.body.PlaceOrderBody? &&
              var id := placed.body.orderID;
              && store.QueryOrderStatus(id, owner, true).Ok?
              && store.QueryOrderStatus(id, owner, true).value.paidAt == parseTime(payTime)
              && paid.status == StatusAccepted
              && broadcast.Some? && broadcast.value.topic == id
  {
    var sent;
    placed, sent := store.PlaceOrder(owner, Some(request), draw, md5Hex, gateway, session, now, false);
    if placed.status != StatusCreated {
      paid, broadcast := DefaultBadRequestResponse, None;
      return;
    }
    var id := placed.body.orderID;
    var aoid := store.rows[id].platformOrderID;
    var sign := md5Hex(aoid + id + payPrice + payTime + session.appSecret);
    var callback := Xorpay.PlatformNotifyResponse(aoid, id, payPrice, payTime, sign, detailText);
    paid, broadcast := store.StoreOrder(owner, Some(callback), md5Hex, session, true, parseTime, parseDetail, false, true, true);
    assert store.rows[id].parentUsername == owner;
  }
}
