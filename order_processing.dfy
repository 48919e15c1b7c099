/** The consumer's order processing service
    (ms/internal/application/services/order_processing_service.go). */
module OrderProcessing {
  import opened Wrappers
  import opened GoInt
  import opened OrderStore
  import MsDomain

  /** The fields of the consumer's items that the transaction writes. */
  function Lines(items: seq<MsDomain.OrderItem>): (r: seq<Line>)
    ensures |r| == |items|
    ensures forall i :: 0 <= i < |items| ==> r[i] == Line(items[i].Product, items[i].Quantity, items[i].Price)
  {
    seq(|items|, i requires 0 <= i < |items| => Line(items[i].Product, items[i].Quantity, items[i].Price))
  }

  class OrderProcessingService {
    const queries: Store

    constructor (queries: Store)
      ensures this.queries == queries
    {
      this.queries := queries;
    }

    /** `ProcessOrder`: one transaction per order. The committed tables and the
        returned error are those `Persist` gives, so everything proved of
        `Persist` (all or nothing, the rows written, the truncated codes, a
        swallowed COMMIT error) holds of this method. */
    method ProcessOrder(order: MsDomain.Order, f: Faults) returns (r: Result<(), Failure>)
      modifies queries
      ensures (queries.tables, r) == Persist(old(queries.tables), order.OrderCode, order.CustomerCode, Lines(order.Items), f)
    {
      var began := queries.BeginTx(f.beginFails);
      if began.None? {
        return Err(BeginFailed);
      }
      var tx := began.value;
      r := InTransaction(tx, order, f);
      // The deferred `tx.Commit`, whose error is discarded.
      var _ := tx.Commit(f.commitFails);
      PersistAfterBegin(old(queries.tables), order.OrderCode, order.CustomerCode, Lines(order.Items), f);
    }

    /** The code between BEGIN and the deferred COMMIT: INSERT the order row,
        then one item row per item in order, rolling back and returning at
        the first failure. It leaves pending what `Pending` says. */
    method InTransaction(tx: Tx, order: MsDomain.Order, f: Faults) returns (r: Result<(), Failure>)
      requires tx.open && tx.pending == Tables([], [])
      modifies tx
      ensures match Pending(order.OrderCode, order.CustomerCode, Lines(order.Items), f)
              case Err(e) => r == Err(e) && !tx.open && tx.pending == Tables([], [])
              case Ok(p) => r == Ok(()) && tx.open && tx.pending == p
    {
      var lines := Lines(order.Items);
      var created := tx.CreateOrder(OrderRow(Int32(order.OrderCode), Int32(order.CustomerCode)), f.orderInsertFails);
      if created.None? {
        tx.Rollback();
        return Err(OrderInsertFailed);
      }
      var orderId := created.value.Code;
      var i := 0;
      while i < |order.Items|
        invariant 0 <= i <= |order.Items|
        invariant tx.open
        invariant tx.pending.orders == [OrderRowOf(order.OrderCode, order.CustomerCode)]
        invariant ItemRows(orderId, lines[..i], f) == Ok(tx.pending.items)
      {
        var item := order.Items[i];
        ItemRowsStep(orderId, lines, i, tx.pending.items, f);
        var price := f.scan(item.Price);
        if price.None? {
          tx.Rollback();
          PendingStopped(order.OrderCode, order.CustomerCode, lines, i + 1, f);
          return Err(ScanFailed(i));
        }
        var ok := tx.CreateOrderItem(ItemRow(orderId, item.Product, price.value, Int32(item.Quantity)), f.itemInsertFails(i));
        if !ok {
          tx.Rollback();
          PendingStopped(order.OrderCode, order.CustomerCode, lines, i + 1, f);
          return Err(ItemInsertFailed(i));
        }
        i := i + 1;
      }
      assert lines[..|order.Items|] == lines;
      r := Ok(());
    }
  }
}
