/** The relational store both order services write to, and the transaction
    they run: begin, insert one `orders` row, insert one `order_items` row per
    item, then commit, or roll back at the first failure.

    Foreign calls (BeginTx, the two INSERTs, the numeric conversion of a price
    and COMMIT) are not modelled inside; each one's outcome is an input, given
    by a `Faults` value. */
module OrderStore {
  import opened Wrappers
  import opened GoInt

  /** A row of `orders`: the 32-bit order code and customer code. */
  datatype OrderRow = OrderRow(Code: int, CustomerCode: int)

  /** A row of `order_items`, referencing its order by `OrderID`. */
  datatype ItemRow = ItemRow(OrderID: int, Product: string, Price: real, Quantity: int)

  /** The item fields a transaction reads from an order, whichever domain type
      the order comes from. */
  datatype Line = Line(Product: string, Quantity: int, Price: real)

  /** The committed contents of the two tables. */
  datatype Tables = Tables(orders: seq<OrderRow>, items: seq<ItemRow>)

  /** How each foreign call of one run turns out. `scan` is the conversion of a
      float price into the store's exact decimal (`pgtype.Numeric.Scan`), None
      when it fails; `itemInsertFails(i)` says whether the INSERT of item `i`
      fails. */
  datatype Faults = Faults(
    beginFails: bool,
    orderInsertFails: bool,
    scan: real -> Option<real>,
    itemInsertFails: nat -> bool,
    commitFails: bool)

  /** The error a run returns, naming the step that failed. */
  datatype Failure = BeginFailed | OrderInsertFailed | ScanFailed(index: nat) | ItemInsertFailed(index: nat) | CommitFailed

  /** The order row inserted for an order: both codes truncated to int32. */
  function OrderRowOf(orderCode: int, customerCode: int): OrderRow {
    OrderRow(Int32(orderCode), Int32(customerCode))
  }

  /** The item row inserted for a line, with the converted price. */
  function ItemRowOf(orderId: int, line: Line, price: real): ItemRow {
    ItemRow(orderId, line.Product, price, Int32(line.Quantity))
  }

  /** The line at index `i` goes through: its price converts and its INSERT
      succeeds. */
  predicate GoesThrough(line: Line, i: nat, f: Faults) {
    f.scan(line.Price).Some? && !f.itemInsertFails(i)
  }

  /** The item loop, visiting `lines` in order: the rows it inserts, or the
      failure that stops it. */
  function ItemRows(orderId: int, lines: seq<Line>, f: Faults): Result<seq<ItemRow>, Failure> {
    if |lines| == 0 then Ok([])
    else
      var n := |lines| - 1;
      match ItemRows(orderId, lines[..n], f)
      case Err(e) => Err(e)
      case Ok(rows) =>
        match f.scan(lines[n].Price)
        case None => Err(ScanFailed(n))
        case Some(p) =>
          if f.itemInsertFails(n) then Err(ItemInsertFailed(n))
          else Ok(rows + [ItemRowOf(orderId, lines[n], p)])
  }

  /** The loop goes through exactly when every line does, and then yields one
      row per line, in order, with the converted price. Otherwise it stops at
      the first line that does not go through, reporting which step failed. */
  lemma {:induction false} ItemRowsMeaning(orderId: int, lines: seq<Line>, f: Faults)
    ensures var r := ItemRows(orderId, lines, f);
            && (r.Ok? <==> forall i :: 0 <= i < |lines| ==> GoesThrough(lines[i], i, f))
            && (r.Ok? ==> |r.value| == |lines|)
            && (r.Ok? ==> forall i :: 0 <= i < |lines| ==>
                            f.scan(lines[i].Price).Some? &&
                            r.value[i] == ItemRowOf(orderId, lines[i], f.scan(lines[i].Price).value))
            && (r.Err? ==> (r.error.ScanFailed? || r.error.ItemInsertFailed?))
            && (r.Err? ==> var k := r.error.index;
                           && k < |lines|
                           && (forall i :: 0 <= i < k ==> GoesThrough(lines[i], i, f))
                           && (r.error.ScanFailed? <==> f.scan(lines[k].Price).None?)
                           && (r.error.ItemInsertFailed? ==> f.itemInsertFails(k)))
  {
    if |lines| > 0 {
      var n := |lines| - 1;
      ItemRowsMeaning(orderId, lines[..n], f);
      assert forall i :: 0 <= i < n ==> lines[..n][i] == lines[i];
    }
  }

  /** One more turn of the item loop: the next line's conversion fails, its
      INSERT fails, or its row is added. */
  lemma ItemRowsStep(orderId: int, lines: seq<Line>, i: nat, rows: seq<ItemRow>, f: Faults)
    requires i < |lines| && ItemRows(orderId, lines[..i], f) == Ok(rows)
    ensures f.scan(lines[i].Price).None? ==> ItemRows(orderId, lines[..i + 1], f) == Err(ScanFailed(i))
    ensures f.scan(lines[i].Price).Some? && f.itemInsertFails(i) ==> ItemRows(orderId, lines[..i + 1], f) == Err(ItemInsertFailed(i))
    ensures f.scan(lines[i].Price).Some? && !f.itemInsertFails(i) ==>
              ItemRows(orderId, lines[..i + 1], f) == Ok(rows + [ItemRowOf(orderId, lines[i], f.scan(lines[i].Price).value)])
  {
    assert lines[..i + 1][..i] == lines[..i];
  }

  /** Once the loop has stopped on a prefix, running it over more lines stops
      the same way. */
  lemma {:induction false} ItemRowsErrPersists(orderId: int, lines: seq<Line>, k: nat, f: Faults)
    requires k <= |lines|
    requires ItemRows(orderId, lines[..k], f).Err?
    ensures ItemRows(orderId, lines, f) == ItemRows(orderId, lines[..k], f)
    decreases |lines|
  {
    if k < |lines| {
      var n := |lines| - 1;
      assert lines[..n][..k] == lines[..k];
      ItemRowsErrPersists(orderId, lines[..n], k, f);
    } else {
      assert lines[..k] == lines;
    }
  }

  /** What one run of the transaction leaves committed and what it returns,
      for the code as written: a deferred COMMIT whose error is discarded, so a
      run whose COMMIT fails still returns success. */
  function Persist(t: Tables, orderCode: int, customerCode: int, lines: seq<Line>, f: Faults): (Tables, Result<(), Failure>) {
    if f.beginFails then (t, Err(BeginFailed))
    else if f.orderInsertFails then (t, Err(OrderInsertFailed))
    else
      var row := OrderRowOf(orderCode, customerCode);
      match ItemRows(row.Code, lines, f)
      case Err(e) => (t, Err(e))
      case Ok(rows) =>
        (if f.commitFails then t else Tables(t.orders + [row], t.items + rows), Ok(()))
  }

  /** What the transaction holds when the code between BEGIN and the
      deferred COMMIT returns: the order row and the item rows, pending, or
      the failure after which it was rolled back. */
  function Pending(orderCode: int, customerCode: int, lines: seq<Line>, f: Faults): Result<Tables, Failure> {
    if f.orderInsertFails then Err(OrderInsertFailed)
    else
      var row := OrderRowOf(orderCode, customerCode);
      match ItemRows(row.Code, lines, f)
      case Err(e) => Err(e)
      case Ok(rows) => Ok(Tables([row], rows))
  }

  /** Once BEGIN has succeeded, a run is its body followed by the deferred
      COMMIT: after a rollback COMMIT fails on the closed transaction and
      writes nothing; otherwise it writes the pending rows unless it fails,
      and either way the body's result is returned. */
  lemma PersistAfterBegin(t: Tables, orderCode: int, customerCode: int, lines: seq<Line>, f: Faults)
    requires !f.beginFails
    ensures Persist(t, orderCode, customerCode, lines, f)
            == match Pending(orderCode, customerCode, lines, f)
               case Err(e) => (t, Err(e))
               case Ok(p) => (if f.commitFails then t else Tables(t.orders + p.orders, t.items + p.items), Ok(()))
  {
  }

  /** A body whose item loop stopped on a prefix returns that error. */
  lemma PendingStopped(orderCode: int, customerCode: int, lines: seq<Line>, k: nat, f: Faults)
    requires !f.orderInsertFails
    requires k <= |lines| && ItemRows(Int32(orderCode), lines[..k], f).Err?
    ensures Pending(orderCode, customerCode, lines, f) == Err(ItemRows(Int32(orderCode), lines[..k], f).error)
  {
    ItemRowsErrPersists(Int32(orderCode), lines, k, f);
  }

  /** Atomicity: a run either leaves the tables exactly as they were, or adds
      exactly one order row and exactly one item row per line, after the rows
      already there. Never a part of an order. */
  lemma AllOrNothing(t: Tables, orderCode: int, customerCode: int, lines: seq<Line>, f: Faults)
    ensures var t' := Persist(t, orderCode, customerCode, lines, f).0;
            || t' == t
            || (&& t'.orders == t.orders + [OrderRowOf(orderCode, customerCode)]
                && |t'.items| == |t.items| + |lines|
                && t'.items[..|t.items|] == t.items)
  {
    var t' := Persist(t, orderCode, customerCode, lines, f).0;
    ItemRowsMeaning(Int32(orderCode), lines, f);
    if t' != t {
      var rows := ItemRows(Int32(orderCode), lines, f).value;
      assert t'.items == t.items + rows;
      assert t'.items[..|t.items|] == t.items;
    }
  }

  /** Every error leaves the tables unchanged: the rollback discards the
      order row and any item rows written before the failure. */
  lemma FailureWritesNothing(t: Tables, orderCode: int, customerCode: int, lines: seq<Line>, f: Faults)
    ensures Persist(t, orderCode, customerCode, lines, f).1.Err?
            ==> Persist(t, orderCode, customerCode, lines, f).0 == t
  {
  }

  /** A run returns an error exactly when BEGIN, the order INSERT, some price
      conversion or some item INSERT fails; BEGIN failing is reported as such. */
  lemma ErrorIffSomeStepFails(t: Tables, orderCode: int, customerCode: int, lines: seq<Line>, f: Faults)
    ensures var r := Persist(t, orderCode, customerCode, lines, f).1;
            && (r.Err? <==> (|| f.beginFails
                             || f.orderInsertFails
                             || exists i :: 0 <= i < |lines| && !GoesThrough(lines[i], i, f)))
            && (f.beginFails ==> r == Err(BeginFailed))
  {
    ItemRowsMeaning(Int32(orderCode), lines, f);
  }

  /** When every step including COMMIT succeeds: one order row with both codes
      truncated to 32 bits, then one item row per line in line order, each
      referencing the order's code and copying product and int32 quantity. */
  lemma CommittedRows(t: Tables, orderCode: int, customerCode: int, lines: seq<Line>, f: Faults)
    requires Persist(t, orderCode, customerCode, lines, f).1.Ok?
    requires !f.commitFails
    ensures var t' := Persist(t, orderCode, customerCode, lines, f).0;
            && t'.orders == t.orders + [OrderRow(Int32(orderCode), Int32(customerCode))]
            && |t'.items| == |t.items| + |lines|
            && t'.items[..|t.items|] == t.items
            && forall i :: 0 <= i < |lines| ==>
                 var row := t'.items[|t.items| + i];
                 && row.OrderID == Int32(orderCode)
                 && row.Product == lines[i].Product
                 && row.Quantity == Int32(lines[i].Quantity)
                 && Some(row.Price) == f.scan(lines[i].Price)
  {
    ItemRowsMeaning(Int32(orderCode), lines, f);
    var rows := ItemRows(Int32(orderCode), lines, f).value;
    var t' := Persist(t, orderCode, customerCode, lines, f).0;
    assert t'.items == t.items + rows;
    assert t'.items[..|t.items|] == t.items;
    forall i | 0 <= i < |lines|
      ensures t'.items[|t.items| + i] == ItemRowOf(Int32(orderCode), lines[i], f.scan(lines[i].Price).value)
    {
      assert t'.items[|t.items| + i] == rows[i];
    }
  }

  /** No non-empty check: an order without items commits its order row alone. */
  lemma EmptyOrderCommitsOrderRowOnly(t: Tables, orderCode: int, customerCode: int, f: Faults)
    requires !f.beginFails && !f.orderInsertFails && !f.commitFails
    ensures Persist(t, orderCode, customerCode, [], f)
            == (Tables(t.orders + [OrderRowOf(orderCode, customerCode)], t.items), Ok(()))
  {
    assert t.items + [] == t.items;
  }

  /** As written, a failed COMMIT is reported as success although nothing was
      written: for any order whose every other step goes through. */
  lemma CommitFailureReportedAsSuccess(t: Tables, orderCode: int, customerCode: int, lines: seq<Line>, f: Faults)
    requires !f.beginFails && !f.orderInsertFails && f.commitFails
    requires forall i :: 0 <= i < |lines| ==> GoesThrough(lines[i], i, f)
    ensures Persist(t, orderCode, customerCode, lines, f) == (t, Ok(()))
  {
    ItemRowsMeaning(Int32(orderCode), lines, f);
  }

  /** The evidently intended run: COMMIT's error is returned like every other
      step's. */
  function PersistChecked(t: Tables, orderCode: int, customerCode: int, lines: seq<Line>, f: Faults): (Tables, Result<(), Failure>) {
    var (t', r) := Persist(t, orderCode, customerCode, lines, f);
    if r.Ok? && f.commitFails then (t', Err(CommitFailed)) else (t', r)
  }

  /** With COMMIT's error returned, success means the order and all its items
      are committed, and an error means nothing is. */
  lemma CheckedSuccessMeansCommitted(t: Tables, orderCode: int, customerCode: int, lines: seq<Line>, f: Faults)
    ensures var (t', r) := PersistChecked(t, orderCode, customerCode, lines, f);
            && (r.Ok? ==> t'.orders == t.orders + [OrderRowOf(orderCode, customerCode)]
                          && |t'.items| == |t.items| + |lines|)
            && (r.Err? ==> t' == t)
  {
    ItemRowsMeaning(Int32(orderCode), lines, f);
  }

  /** The store: committed tables only. A transaction's rows live in its `Tx`
      until COMMIT. */
  class Store {
    var tables: Tables

    constructor (t: Tables)
      ensures tables == t
    {
      tables := t;
    }

    /** `Pool.BeginTx`: a fresh open transaction with nothing written, or an
        error. The committed tables are not touched. */
    method BeginTx(fails: bool) returns (tx: Option<Tx>)
      ensures tx.None? <==> fails
      ensures tx.Some? ==> fresh(tx.value) && tx.value.store == this && tx.value.open
                           && tx.value.pending == Tables([], [])
    {
      if fails {
        tx := None;
      } else {
        var t := new Tx(this);
        tx := Some(t);
      }
    }
  }

  /** An open transaction buffers its INSERTs in `pending`; nothing of it is
      visible in the store's tables until COMMIT. */
  class Tx {
    const store: Store
    var open: bool
    var pending: Tables

    constructor (s: Store)
      ensures store == s && open && pending == Tables([], [])
    {
      store := s;
      open := true;
      pending := Tables([], []);
    }

    /** INSERT into `orders` ... RETURNING: the created row, or an error. */
    method CreateOrder(row: OrderRow, fails: bool) returns (created: Option<OrderRow>)
      requires open
      modifies this
      ensures open
      ensures created == if fails then None else Some(row)
      ensures pending == if fails then old(pending) else old(pending).(orders := old(pending).orders + [row])
    {
      if fails {
        created := None;
      } else {
        pending := pending.(orders := pending.orders + [row]);
        created := Some(row);
      }
    }

    /** INSERT into `order_items`. */
    method CreateOrderItem(row: ItemRow, fails: bool) returns (ok: bool)
      requires open
      modifies this
      ensures open
      ensures ok == !fails
      ensures pending == if fails then old(pending) else old(pending).(items := old(pending).items + [row])
    {
      ok := !fails;
      if ok {
        pending := pending.(items := pending.items + [row]);
      }
    }

    /** ROLLBACK: the pending rows are discarded and the transaction closes. */
    method Rollback()
      modifies this
      ensures !open && pending == Tables([], [])
    {
      open := false;
      pending := Tables([], []);
    }

    /** COMMIT: on success the pending rows are appended to the tables. On a
        closed transaction it is an error that changes nothing; a failed COMMIT
        rolls the transaction back. */
    method Commit(fails: bool) returns (err: bool)
      modifies this, store
      ensures !open && pending == Tables([], [])
      ensures err == (fails || !old(open))
      ensures store.tables == if err then old(store.tables)
                              else Tables(old(store.tables).orders + old(pending).orders,
                                          old(store.tables).items + old(pending).items)
    {
      err := fails || !open;
      if !err {
        store.tables := Tables(store.tables.orders + pending.orders, store.tables.items + pending.items);
      }
      open := false;
      pending := Tables([], []);
    }
  }
}
