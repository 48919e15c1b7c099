/** The API's order service (core/internal/application/services/
    order-service.go): `CreateOrder`, the same transaction the consumer runs,
    and the remaining operations, which are placeholders. */
module OrderService {
  import opened Wrappers
  import opened GoInt
  import opened OrderStore
  import CoreDomain
  import Publisher

  /** The fields of the API's items that the transaction writes. */
  function Lines(items: seq<CoreDomain.OrderItem>): (r: seq<Line>)
    ensures |r| == |items|
    ensures forall i :: 0 <= i < |items| ==> r[i] == Line(items[i].Product, items[i].Quantity, items[i].Price)
  {
    seq(|items|, i requires 0 <= i < |items| => Line(items[i].Product, items[i].Quantity, items[i].Price))
  }

  class OrderService {
    const queries: Store
    const messagePublisher: Publisher.RabbitMQPublisher

    constructor (queries: Store, messagePublisher: Publisher.RabbitMQPublisher)
      ensures this.queries == queries && this.messagePublisher == messagePublisher
    {
      this.queries := queries;
      this.messagePublisher := messagePublisher;
    }

    /** `GetOrderTotal`: opens a transaction and returns the empty string, or
        BeginTx's error. The transaction is neither committed nor rolled back,
        and the store is not written. */
    method GetOrderTotal(orderCode: int, beginFails: bool) returns (total: string, err: bool)
      ensures total == "" && err == beginFails
    {
      var tx := queries.BeginTx(beginFails);
      total := "";
      err := tx.None?;
    }

    /** `GetOrderByCode`: no order and no error, for every code. */
    method GetOrderByCode(orderCode: int) returns (order: Option<CoreDomain.Order>, err: bool)
      ensures order.None? && !err
    {
      order := None;
      err := false;
    }

    /** `GetOrdersByCustomer`: a nil list and no error. */
    method GetOrdersByCustomer(customerCode: int) returns (orders: Option<seq<CoreDomain.Order>>, err: bool)
      ensures orders.None? && !err
    {
      orders := None;
      err := false;
    }

    /** `CountOrdersByCustomer`: zero and no error, whatever is stored. */
    method CountOrdersByCustomer(customerCode: int) returns (count: int, err: bool)
      ensures count == 0 && !err
    {
      count := 0;
      err := false;
    }

    /** `GetOrderItems`: a nil list and no error. */
    method GetOrderItems(orderId: int) returns (items: Option<seq<CoreDomain.OrderItem>>, err: bool)
      ensures items.None? && !err
    {
      items := None;
      err := false;
    }

    /** `CreateOrder`: one transaction per order, with the same committed
        tables and error as `Persist`, so all that is proved of `Persist`
        holds here. Only the store is written: nothing is published. */
    method CreateOrder(order: CoreDomain.Order, f: Faults) returns (r: Result<(), Failure>)
      modifies queries
      ensures (queries.tables, r) == Persist(old(queries.tables), order.Code, order.CustomerCode, Lines(order.Items), f)
      ensures messagePublisher.broker.state == old(messagePublisher.broker.state)
    {
      var began := queries.BeginTx(f.beginFails);
      if began.None? {
        return Err(BeginFailed);
      }
      var tx := began.value;
      r := InTransaction(tx, order, f);
      // The deferred `tx.Commit`, whose error is discarded.
      var _ := tx.Commit(f.commitFails);
      PersistAfterBegin(old(queries.tables), order.Code, order.CustomerCode, Lines(order.Items), f);
    }

    /** The code between BEGIN and the deferred COMMIT: INSERT the order row,
        then one item row per item in order, rolling back and returning at
        the first failure. It leaves pending what `Pending` says. */
    method InTransaction(tx: Tx, order: CoreDomain.Order, f: Faults) returns (r: Result<(), Failure>)
      requires tx.open && tx.pending == Tables([], [])
      modifies tx
      ensures match Pending(order.Code, order.CustomerCode, Lines(order.Items), f)
              case Err(e) => r == Err(e) && !tx.open && tx.pending == Tables([], [])
              case Ok(p) => r == Ok(()) && tx.open && tx.pending == p
    {
      var lines := Lines(order.Items);
      var created := tx.CreateOrder(OrderRow(Int32(order.Code), Int32(order.CustomerCode)), f.orderInsertFails);
      if created.None? {
        tx.Rollback();
        return Err(OrderInsertFailed);
      }
      var orderId := created.value.Code;
      var i := 0;
      while i < |order.Items|
        invariant 0 <= i <= |order.Items|
        invariant tx.open
        invariant tx.pending.orders == [OrderRowOf(order.Code, order.CustomerCode)]
        invariant ItemRows(orderId, lines[..i], f) == Ok(tx.pending.items)
      {
        var item := order.Items[i];
        ItemRowsStep(orderId, lines, i, tx.pending.items, f);
        var price := f.scan(item.Price);
        if price.None? {
          tx.Rollback();
          PendingStopped(order.Code, order.CustomerCode, lines, i + 1, f);
          return Err(ScanFailed(i));
        }
        var ok := tx.CreateOrderItem(ItemRow(orderId, item.Product, price.value, Int32(item.Quantity)), f.itemInsertFails(i));
        if !ok {
          tx.Rollback();
          PendingStopped(order.Code, order.CustomerCode, lines, i + 1, f);
          return Err(ItemInsertFailed(i));
        }
        i := i + 1;
      }
      assert lines[..|order.Items|] == lines;
      r := Ok(());
    }
  }
}
