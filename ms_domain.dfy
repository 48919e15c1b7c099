/** The consumer's order record (ms/internal/domain/order.go). Prices are exact
    reals rather than float64, so the totals below are the mathematical sums the
    float loop approximates. Timestamps are opaque integers. */
module MsDomain {

  datatype OrderItem = OrderItem(Product: string, Quantity: int, Price: real)

  datatype Order = Order(CustomerCode: int, OrderCode: int, Items: seq<OrderItem>, CreatedAt: int)

  /** One item's contribution, `float64(item.Quantity) * item.Price`. */
  function LineValue(item: OrderItem): real {
    item.Quantity as real * item.Price
  }

  /** The running total after the loop has visited every item of `items`, in
      order: a left fold that adds the last item's line value to the total of
      the items before it. */
  function Total(items: seq<OrderItem>): real {
    if |items| == 0 then 0.0 else Total(items[..|items| - 1]) + LineValue(items[|items| - 1])
  }

  /** `Order.CalculateTotal`: the accumulator loop over `Items`. It takes the
      order by value and returns the fold; nothing is modified. */
  method CalculateTotal(o: Order) returns (total: real)
    ensures total == Total(o.Items)
  {
    total := 0.0;
    for i := 0 to |o.Items|
      invariant total == Total(o.Items[..i])
    {
      assert o.Items[..i + 1][..i] == o.Items[..i];
      total := total + LineValue(o.Items[i]);
    }
    assert o.Items[..|o.Items|] == o.Items;
  }

  /** Appending an item adds its line value: the fold runs in item order. */
  lemma TotalSnoc(items: seq<OrderItem>, x: OrderItem)
    ensures Total(items + [x]) == Total(items) + LineValue(x)
  {
    assert (items + [x])[..|items|] == items;
  }

  /** The total of a concatenation is the sum of the totals. */
  lemma {:induction false} TotalAppend(a: seq<OrderItem>, b: seq<OrderItem>)
    ensures Total(a + b) == Total(a) + Total(b)
  {
    if |b| == 0 {
      assert a + b == a;
    } else {
      var init := b[..|b| - 1];
      var last := b[|b| - 1];
      assert a + b == (a + init) + [last];
      assert b == init + [last];
      TotalSnoc(a + init, last);
      TotalSnoc(init, last);
      TotalAppend(a, init);
    }
  }

  /** Taking out the item at `j` takes out its line value. */
  lemma {:induction false} TotalRemoveAt(b: seq<OrderItem>, j: nat)
    requires j < |b|
    ensures Total(b) == Total(b[..j] + b[j + 1..]) + LineValue(b[j])
  {
    var front, x, back := b[..j], b[j], b[j + 1..];
    assert b == (front + [x]) + back;
    TotalAppend(front + [x], back);
    TotalSnoc(front, x);
    TotalAppend(front, back);
    var v := LineValue(x);
    assert Total(b) == Total(front) + v + Total(back);
    assert Total(front + back) == Total(front) + Total(back);
  }

  lemma MultisetRemoveAt(b: seq<OrderItem>, j: nat)
    requires j < |b|
    ensures multiset(b) == multiset(b[..j] + b[j + 1..]) + multiset{b[j]}
  {
    assert b == b[..j] + ([b[j]] + b[j + 1..]);
  }

  /** The total does not depend on the order of the items: any permutation of
      the items has the same total. */
  lemma {:induction false} TotalPermutation(a: seq<OrderItem>, b: seq<OrderItem>)
    requires multiset(a) == multiset(b)
    ensures Total(a) == Total(b)
    decreases |a|
  {
    if |a| == 0 {
      assert |b| == |multiset(b)| == 0;
    } else {
      var last := a[|a| - 1];
      assert last in multiset(b) by {
        assert last in multiset(a);
      }
      var j :| 0 <= j < |b| && b[j] == last;
      var rest := b[..j] + b[j + 1..];
      MultisetRemoveAt(a, |a| - 1);
      MultisetRemoveAt(b, j);
      assert a[..|a| - 1] + a[|a|..] == a[..|a| - 1];
      var ma, mr := multiset(a[..|a| - 1]), multiset(rest);
      assert ma + multiset{last} == mr + multiset{last};
      forall y ensures ma[y] == mr[y] {
        assert (ma + multiset{last})[y] == (mr + multiset{last})[y];
      }
      assert ma == mr;
      TotalPermutation(a[..|a| - 1], rest);
      TotalRemoveAt(b, j);
    }
  }

  /** Only quantities and prices count: two item lists that agree on them
      position by position have the same total, whatever their products. */
  lemma {:induction false} TotalOnlyQuantityAndPrice(a: seq<OrderItem>, b: seq<OrderItem>)
    requires |a| == |b|
    requires forall i :: 0 <= i < |a| ==> a[i].Quantity == b[i].Quantity && a[i].Price == b[i].Price
    ensures Total(a) == Total(b)
  {
    if |a| > 0 {
      TotalOnlyQuantityAndPrice(a[..|a| - 1], b[..|b| - 1]);
    }
  }

  /** An order without items totals zero; one whose items all have positive
      quantity and price totals more than zero. */
  lemma {:induction false} TotalSign(items: seq<OrderItem>)
    ensures |items| == 0 ==> Total(items) == 0.0
    ensures (forall i :: 0 <= i < |items| ==> items[i].Quantity > 0 && items[i].Price > 0.0)
            ==> Total(items) >= 0.0 && (|items| > 0 ==> Total(items) > 0.0)
  {
    if |items| > 0 {
      var last := items[|items| - 1];
      TotalSign(items[..|items| - 1]);
      if forall i :: 0 <= i < |items| ==> items[i].Quantity > 0 && items[i].Price > 0.0 {
        assert last.Quantity as real > 0.0 && last.Price > 0.0;
        assert LineValue(last) > 0.0;
      }
    }
  }
}
