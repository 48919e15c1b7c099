/** The API's order endpoints (core/internal/adapters/inbound/http/
    order-handler.go): the path-code check of the three GET endpoints, the
    create-order request with its validation rules, its conversion to the
    domain order, and the create-order reply. JSON decoding of the request
    body is represented by a function that may fail (`decode`). */
module OrderHandlers {
  import opened Wrappers
  import opened GoInt
  import opened Strconv
  import opened FieldErrors
  import opened HttpResponse
  import CoreDomain
  import OrderStore
  import OrderService

  /** A path code is accepted when `strconv.Atoi` reads it and it is at
      least 1. */
  function PathCode(s: string): Option<int> {
    match Atoi(s)
    case Some(c) => if c >= 1 then Some(c) else None
    case None => None
  }

  /** Accepted exactly when it is a decimal int64 of at least 1; every such
      number's own decimal rendering is accepted as that number. */
  lemma PathCodeAccepts(s: string, n: nat)
    ensures PathCode(s).Some? <==> Atoi(s).Some? && Atoi(s).value >= 1
    ensures PathCode(s).Some? ==> PathCode(s).value == Atoi(s).value && 1 <= PathCode(s).value <= MaxInt64
    ensures 1 <= n <= MaxInt64 ==> PathCode(Itoa(n)) == Some(n)
  {
    if 1 <= n <= MaxInt64 {
      AtoiItoa(n);
    }
  }

  /** Zero, negative numbers, an empty code and trailing junk are refused. */
  lemma PathCodeRejects()
    ensures PathCode("0") == None && PathCode("-7") == None && PathCode("") == None && PathCode("12a") == None
    ensures PathCode("+42") == Some(42)
  {
    assert DigitsValue("4") == 4;
    assert "+42"[1..] == "42";
    assert "-7"[1..] == "7";
    assert "42"[..1] == "4";
  }

  /** The 400 reply for a refused path code. */
  function InvalidCodeReply(message: string, detail: string): Response {
    RespondError(StatusBadRequest, message, Some(map["code" := detail]))
  }

  /** `GetOrderTotal`, with its placeholder total. */
  function GetOrderTotal(codeStr: string): Response {
    match PathCode(codeStr)
    case None => InvalidCodeReply("Invalid order code", "Order code must be a positive integer")
    case Some(code) => RespondJSON(StatusOK, JObject([Member("order_code", JInt(code)), Member("total_value", JReal(120.50))]))
  }

  /** `CountCustomerOrders`, with its placeholder count. */
  function CountCustomerOrders(codeStr: string): Response {
    match PathCode(codeStr)
    case None => InvalidCodeReply("Invalid customer code", "Customer code must be a positive integer")
    case Some(code) => RespondJSON(StatusOK, JObject([Member("customer_code", JInt(code)), Member("order_count", JInt(5))]))
  }

  /** `ListCustomerOrders`, with its placeholder list. */
  function ListCustomerOrders(codeStr: string): Response {
    match PathCode(codeStr)
    case None => InvalidCodeReply("Invalid customer code", "Customer code must be a positive integer")
    case Some(code) =>
      RespondJSON(StatusOK, JObject([
        Member("customer_code", JInt(code)),
        Member("orders", JArray([
          JObject([Member("code", JInt(1001)), Member("total_value", JReal(120.50)), Member("created_at", JString("2024-12-08T15:30:00Z"))]),
          JObject([Member("code", JInt(1002)), Member("total_value", JReal(50.00)), Member("created_at", JString("2024-12-07T10:15:00Z"))])]))]))
  }

  /** The three GET endpoints answer 200 exactly when the path code is
      accepted, echoing it under `order_code` or `customer_code`; otherwise
      400 with the endpoint's message and a `code` detail. */
  lemma GetRepliesEchoOrRefuse(s: string)
    ensures var r := GetOrderTotal(s);
            && (r.Status == 200 <==> PathCode(s).Some?)
            && (PathCode(s).Some? ==> Lookup(Lookup(r.Body, "data").value, "order_code") == Some(JInt(PathCode(s).value)))
            && (PathCode(s).None? ==> r.Status == 400 && Lookup(r.Body, "error") == Some(JString("Invalid order code"))
                                      && Lookup(r.Body, "details") == Some(JStringMap(map["code" := "Order code must be a positive integer"])))
    ensures var r := CountCustomerOrders(s);
            && (r.Status == 200 <==> PathCode(s).Some?)
            && (PathCode(s).Some? ==> Lookup(Lookup(r.Body, "data").value, "customer_code") == Some(JInt(PathCode(s).value)))
            && (PathCode(s).None? ==> r.Status == 400 && Lookup(r.Body, "error") == Some(JString("Invalid customer code"))
                                      && Lookup(r.Body, "details") == Some(JStringMap(map["code" := "Customer code must be a positive integer"])))
    ensures var r := ListCustomerOrders(s);
            && (r.Status == 200 <==> PathCode(s).Some?)
            && (PathCode(s).Some? ==> Lookup(Lookup(r.Body, "data").value, "customer_code") == Some(JInt(PathCode(s).value)))
            && (PathCode(s).None? ==> r.Status == 400 && Lookup(r.Body, "error") == Some(JString("Invalid customer code"))
                                      && Lookup(r.Body, "details") == Some(JStringMap(map["code" := "Customer code must be a positive integer"])))
  {
    var dOrder := Some(map["code" := "Order code must be a positive integer"]);
    var dCustomer := Some(map["code" := "Customer code must be a positive integer"]);
    assert |dOrder.value| > 0 by { assert "code" in dOrder.value; }
    assert |dCustomer.value| > 0 by { assert "code" in dCustomer.value; }
    RespondErrorReadsBack(StatusBadRequest, "Invalid order code", dOrder);
    RespondErrorReadsBack(StatusBadRequest, "Invalid customer code", dCustomer);
  }

  datatype CreateOrderItemRequest = CreateOrderItemRequest(Product: string, Quantity: int, Price: real)

  /** The request body; a missing `itens` array decodes to nil. */
  datatype CreateOrderRequest = CreateOrderRequest(Code: int, CustomerCode: int, Items: Option<seq<CreateOrderItemRequest>>)

  /** What the validation rules ask for, stated directly: positive codes, at
      least one item, and every item with a product, a positive quantity and a
      positive price. */
  predicate ValidRequest(r: CreateOrderRequest) {
    && r.Code > 0 && r.CustomerCode > 0
    && r.Items.Some? && |r.Items.value| >= 1
    && forall i :: 0 <= i < |r.Items.value| ==>
         var item := r.Items.value[i];
         |item.Product| >= 1 && item.Quantity > 0 && item.Price > 0.0
  }

  /** The first failing rule of `required,gt=0` on a number field: `required`
      fails on zero, `gt=0` on a negative value. */
  function PositiveRule(ns: string, field: string, isZero: bool, positive: bool): seq<FieldError> {
    if isZero then [FieldError(ns, field, "required", "")]
    else if !positive then [FieldError(ns, field, "gt", "0")]
    else []
  }

  /** The errors of one item, its fields in declaration order. `min=1` on the
      product never fails where `required` passes. */
  function ItemViolations(item: CreateOrderItemRequest, i: nat): seq<FieldError> {
    (if item.Product == "" then [FieldError(ItemPath(i, "Product"), "Product", "required", "")] else [])
    + PositiveRule(ItemPath(i, "Quantity"), "Quantity", item.Quantity == 0, item.Quantity > 0)
    + PositiveRule(ItemPath(i, "Price"), "Price", item.Price == 0.0, item.Price > 0.0)
  }

  /** The namespace of field `field` of item `i`. */
  function ItemPath(i: nat, field: string): string {
    "CreateOrderRequest.Items[" + Itoa(i) + "]." + field
  }

  /** `dive`: every item's errors, items in order. */
  function DiveViolations(items: seq<CreateOrderItemRequest>): seq<FieldError> {
    if |items| == 0 then []
    else DiveViolations(items[..|items| - 1]) + ItemViolations(items[|items| - 1], |items| - 1)
  }

  /** The validation errors of a request, in the validator's order: `Code`,
      `CustomerCode`, then `Items` (`required`: not nil; `min=1`: not empty;
      then each item). */
  function Violations(r: CreateOrderRequest): seq<FieldError> {
    PositiveRule("CreateOrderRequest.Code", "Code", r.Code == 0, r.Code > 0)
    + PositiveRule("CreateOrderRequest.CustomerCode", "CustomerCode", r.CustomerCode == 0, r.CustomerCode > 0)
    + match r.Items
      case None => [FieldError("CreateOrderRequest.Items", "Items", "required", "")]
      case Some(items) =>
        if |items| < 1 then [FieldError("CreateOrderRequest.Items", "Items", "min", "1")]
        else DiveViolations(items)
  }

  lemma {:induction false} DiveViolationsEmpty(items: seq<CreateOrderItemRequest>)
    ensures DiveViolations(items) == [] <==>
            forall i :: 0 <= i < |items| ==> |items[i].Product| >= 1 && items[i].Quantity > 0 && items[i].Price > 0.0
  {
    if |items| > 0 {
      var n := |items| - 1;
      DiveViolationsEmpty(items[..n]);
      assert forall i :: 0 <= i < n ==> items[..n][i] == items[i];
    }
  }

  /** Validation passes exactly for the requests the rules describe. */
  lemma ViolationsIffInvalid(r: CreateOrderRequest)
    ensures Violations(r) == [] <==> ValidRequest(r)
  {
    if r.Items.Some? && |r.Items.value| >= 1 {
      DiveViolationsEmpty(r.Items.value);
    }
  }

  /** The validation details key errors by field name, not by path: two items
      without a product give one `Product` entry, that of the second item. */
  lemma ItemErrorsShareOneDetail()
    ensures var r := CreateOrderRequest(1, 1, Some([CreateOrderItemRequest("", 1, 1.0), CreateOrderItemRequest("", 1, 1.0)]));
            Details(Violations(r), ErrorText)
            == map["Product" := ErrorText(FieldError(ItemPath(1, "Product"), "Product", "required", ""))]
  {
    var e0 := FieldError(ItemPath(0, "Product"), "Product", "required", "");
    var e1 := FieldError(ItemPath(1, "Product"), "Product", "required", "");
    ProductlessItemsViolations();
    SameFieldDetails(e0, e1, ErrorText);
  }

  /** Two items without a product, and nothing else wrong, fail `required`
      on each item's `Product`, in order. */
  lemma ProductlessItemsViolations()
    ensures var item := CreateOrderItemRequest("", 1, 1.0);
            Violations(CreateOrderRequest(1, 1, Some([item, item])))
            == [FieldError(ItemPath(0, "Product"), "Product", "required", ""),
                FieldError(ItemPath(1, "Product"), "Product", "required", "")]
  {
    var item := CreateOrderItemRequest("", 1, 1.0);
    var items := [item, item];
    assert items[..1] == [item];
    assert [item][..0] == [];
    assert DiveViolations([item]) == DiveViolations([]) + ItemViolations(item, 0);
    assert DiveViolations(items) == DiveViolations([item]) + ItemViolations(item, 1);
  }

  /** Of two errors on the same field, the details keep the second. */
  lemma SameFieldDetails(e0: FieldError, e1: FieldError, message: FieldError -> string)
    requires e0.Field == e1.Field
    ensures Details([e0, e1], message) == map[e1.Field := message(e1)]
  {
    assert [e0, e1][..1] == [e0];
    assert [e0][..0] == [];
    assert Details([e0], message) == map[e0.Field := message(e0)];
    assert Details([e0, e1], message) == Details([e0], message)[e1.Field := message(e1)];
  }

  /** The `make(len n)` part of `ToDomain`: n zero-valued items. */
  function Padding(n: nat): (r: seq<CoreDomain.OrderItem>)
    ensures |r| == n && forall i :: 0 <= i < n ==> r[i] == CoreDomain.ZeroItem
  {
    seq(n, _ => CoreDomain.ZeroItem)
  }

  /** The request items as domain items, in order. */
  function Converted(items: seq<CreateOrderItemRequest>): (r: seq<CoreDomain.OrderItem>)
    ensures |r| == |items|
    ensures forall i :: 0 <= i < |items| ==> r[i] == CoreDomain.OrderItem(0, 0, items[i].Product, items[i].Quantity, items[i].Price)
  {
    seq(|items|, i requires 0 <= i < |items| => CoreDomain.OrderItem(0, 0, items[i].Product, items[i].Quantity, items[i].Price))
  }

  function RequestItems(r: CreateOrderRequest): seq<CreateOrderItemRequest> {
    if r.Items.Some? then r.Items.value else []
  }

  /** `ToDomain`, as written: the slice is made with length n and the items
      are then appended, giving 2n items, n zero-valued ones first. Both codes
      are copied unchanged; the creation time is `now`. */
  method ToDomain(r: CreateOrderRequest, now: int) returns (o: CoreDomain.Order)
    ensures var items := RequestItems(r);
            && o.Code == r.Code && o.CustomerCode == r.CustomerCode && o.CreatedAt == now
            && o.Items == Padding(|items|) + Converted(items)
            && |o.Items| == 2 * |items|
            && (forall i :: 0 <= i < |items| ==> o.Items[i] == CoreDomain.ZeroItem)
            && (forall i :: 0 <= i < |items| ==>
                  && o.Items[|items| + i].Product == items[i].Product
                  && o.Items[|items| + i].Quantity == items[i].Quantity
                  && o.Items[|items| + i].Price == items[i].Price)
  {
    var items := RequestItems(r);
    var orderItems := Padding(|items|);
    for i := 0 to |items|
      invariant orderItems == Padding(|items|) + Converted(items[..i])
    {
      assert Converted(items[..i + 1]) == Converted(items[..i]) + [CoreDomain.OrderItem(0, 0, items[i].Product, items[i].Quantity, items[i].Price)];
      orderItems := orderItems + [CoreDomain.OrderItem(0, 0, items[i].Product, items[i].Quantity, items[i].Price)];
    }
    assert items[..|items|] == items;
    o := CoreDomain.Order(0, r.Code, r.CustomerCode, orderItems, 0.0, now, 0);
  }

  /** The padding changes no total: zero-valued items add nothing. */
  lemma PaddingKeepsTotal(items: seq<CreateOrderItemRequest>)
    ensures CoreDomain.Total(Padding(|items|) + Converted(items)) == CoreDomain.Total(Converted(items))
  {
    CoreDomain.TotalAppend(Padding(|items|), Converted(items));
    CoreDomain.TotalOfZeroItems(Padding(|items|));
  }

  /** The padding is visible all the same: a one-item request becomes a
      two-item order whose first item is the zero item. */
  lemma ToDomainDoublesItems(p: string, q: int, price: real)
    ensures var items := [CreateOrderItemRequest(p, q, price)];
            Padding(|items|) + Converted(items) == [CoreDomain.ZeroItem, CoreDomain.OrderItem(0, 0, p, q, price)]
  {
  }

  /** The evidently intended conversion (a slice made with capacity n, not
      length n) gives exactly the request's items, one for one, with the same
      total. */
  lemma IntendedItemsOneToOne(items: seq<CreateOrderItemRequest>)
    ensures |Converted(items)| == |items|
    ensures forall i :: 0 <= i < |items| ==>
              Converted(items)[i].Product == items[i].Product && Converted(items)[i].Quantity == items[i].Quantity
              && Converted(items)[i].Price == items[i].Price
    ensures CoreDomain.Total(Padding(|items|) + Converted(items)) == CoreDomain.Total(Converted(items))
  {
    PaddingKeepsTotal(items);
  }

  /** The create-order reply, decided before and regardless of the service's
      result: 400 "Invalid request body" without details when the body does
      not decode; the validation-error reply when a rule fails; otherwise 201
      echoing both codes. */
  function CreateOrderReply(decoded: Option<CreateOrderRequest>): Response {
    match decoded
    case None => RespondError(StatusBadRequest, "Invalid request body", None)
    case Some(r) =>
      var errs := Violations(r);
      if errs != [] then RespondError(StatusBadRequest, "Validation failed", Some(Details(errs, ErrorText)))
      else RespondJSON(StatusCreated, JObject([
        Member("order_code", JInt(r.Code)),
        Member("customer_code", JInt(r.CustomerCode)),
        Member("message", JString("Order created successfully"))]))
  }

  /** 201 exactly for a decodable, valid request, echoing its codes; 400
      otherwise, with "Invalid request body" exactly when decoding failed. */
  lemma CreateOrderReplyMeaning(decoded: Option<CreateOrderRequest>)
    ensures var r := CreateOrderReply(decoded);
            && (r.Status == 201 <==> decoded.Some? && ValidRequest(decoded.value))
            && (r.Status != 201 ==> r.Status == 400)
            && (Lookup(r.Body, "error") == Some(JString("Invalid request body")) <==> decoded.None?)
            && (r.Status == 201 ==>
                  && Lookup(Lookup(r.Body, "data").value, "order_code") == Some(JInt(decoded.value.Code))
                  && Lookup(Lookup(r.Body, "data").value, "customer_code") == Some(JInt(decoded.value.CustomerCode)))
  {
    if decoded.Some? {
      ViolationsIffInvalid(decoded.value);
      var errs := Violations(decoded.value);
      if errs != [] {
        RespondErrorReadsBack(StatusBadRequest, "Validation failed", Some(Details(errs, ErrorText)));
        assert "Validation failed"[0] != "Invalid request body"[0];
      } else {
        var fields := [Member("order_code", JInt(decoded.value.Code)),
                       Member("customer_code", JInt(decoded.value.CustomerCode)),
                       Member("message", JString("Order created successfully"))];
        assert "customer_code"[0] != "order_code"[0];
        assert LookupIn(fields, "customer_code") == LookupIn(fields[1..], "customer_code");
        assert "data"[0] != "error"[0];
        assert LookupIn([Member("data", JObject(fields))], "error") == LookupIn([], "error");
      }
    } else {
      RespondErrorReadsBack(StatusBadRequest, "Invalid request body", None);
    }
  }

  class OrderHandler {
    const orderService: OrderService.OrderService

    constructor (orderService: OrderService.OrderService)
      ensures this.orderService == orderService
    {
      this.orderService := orderService;
    }

    /** `CreateOrder`: decode, validate, convert, call the service, reply.
        The service runs only for a valid request, on the converted (padded)
        order, and its result is not looked at. */
    method CreateOrder(body: string, decode: string -> Option<CreateOrderRequest>, now: int, f: OrderStore.Faults)
      returns (resp: Response)
      modifies orderService.queries
      ensures resp == CreateOrderReply(decode(body))
      ensures var d := decode(body);
              if d.Some? && Violations(d.value) == [] then
                var items := RequestItems(d.value);
                orderService.queries.tables
                == OrderStore.Persist(old(orderService.queries.tables), d.value.Code, d.value.CustomerCode,
                                      OrderService.Lines(Padding(|items|) + Converted(items)), f).0
              else orderService.queries.tables == old(orderService.queries.tables)
    {
      var decoded := decode(body);
      if decoded.None? {
        return RespondError(StatusBadRequest, "Invalid request body", None);
      }
      var req := decoded.value;
      var errs := Violations(req);
      if errs != [] {
        resp := RespondValidationError(ValidationErrorList(errs));
        return;
      }
      var order := ToDomain(req, now);
      var _ := orderService.CreateOrder(order, f);
      resp := RespondJSON(StatusCreated, JObject([
        Member("order_code", JInt(req.Code)),
        Member("customer_code", JInt(req.CustomerCode)),
        Member("message", JString("Order created successfully"))]));
    }
  }
}
