/** The API's order record (core/internal/domain/order.go). Prices are exact
    reals rather than float64; timestamps are opaque integers (0 stands for
    Go's zero time). */
module CoreDomain {

  datatype OrderItem = OrderItem(ID: int, OrderID: int, Product: string, Quantity: int, Price: real)

  datatype Order = Order(
    ID: int,
    Code: int,
    CustomerCode: int,
    Items: seq<OrderItem>,
    TotalValue: real,
    CreatedAt: int,
    UpdatedAt: int)

  /** Go's zero value of `OrderItem`, as `make` fills a slice with it. */
  const ZeroItem: OrderItem := OrderItem(0, 0, "", 0, 0.0)

  /** One item's contribution, `float64(item.Quantity) * item.Price`. */
  function LineValue(item: OrderItem): real {
    item.Quantity as real * item.Price
  }

  /** The running total after visiting every item of `items` in order. */
  function Total(items: seq<OrderItem>): real {
    if |items| == 0 then 0.0 else Total(items[..|items| - 1]) + LineValue(items[|items| - 1])
  }

  /** `Order.CalculateTotal`: the accumulator loop over `Items`. The stored
      `TotalValue` is not consulted: the result is a function of the items. */
  method CalculateTotal(o: Order) returns (total: real)
    ensures total == Total(o.Items)
  {
    total := 0.0;
    for i := 0 to |o.Items|
      invariant total == Total(o.Items[..i])
    {
      assert o.Items[..i + 1][..i] == o.Items[..i];
      total := total + LineValue(o.Items[i]);
    }
    assert o.Items[..|o.Items|] == o.Items;
  }

  /** Appending an item adds its line value. */
  lemma TotalSnoc(items: seq<OrderItem>, x: OrderItem)
    ensures Total(items + [x]) == Total(items) + LineValue(x)
  {
    assert (items + [x])[..|items|] == items;
  }

  /** The total of a concatenation is the sum of the totals. */
  lemma {:induction false} TotalAppend(a: seq<OrderItem>, b: seq<OrderItem>)
    ensures Total(a + b) == Total(a) + Total(b)
  {
    if |b| > 0 {
      var init := b[..|b| - 1];
      var last := b[|b| - 1];
      assert a + b == (a + init) + [last];
      assert b == init + [last];
      TotalSnoc(a + init, last);
      TotalSnoc(init, last);
      TotalAppend(a, init);
    } else {
      assert a + b == a;
    }
  }

  /** Item identity does not count: `ID`, `OrderID` and `Product` may differ
      freely between two item lists that agree on quantities and prices. */
  lemma {:induction false} TotalIgnoresItemIdentity(a: seq<OrderItem>, b: seq<OrderItem>)
    requires |a| == |b|
    requires forall i :: 0 <= i < |a| ==> a[i].Quantity == b[i].Quantity && a[i].Price == b[i].Price
    ensures Total(a) == Total(b)
  {
    if |a| > 0 {
      TotalIgnoresItemIdentity(a[..|a| - 1], b[..|b| - 1]);
    }
  }

  /** Zero-valued items add nothing to the total. */
  lemma {:induction false} TotalOfZeroItems(items: seq<OrderItem>)
    requires forall i :: 0 <= i < |items| ==> items[i] == ZeroItem
    ensures Total(items) == 0.0
  {
    if |items| > 0 {
      TotalOfZeroItems(items[..|items| - 1]);
    }
  }
}
