/**
 * Key derivation: the list of search keys built from the pending orders,
 * one key per label to print.
 */
module KeyDerivation {
  import opened Wrappers
  import opened Text
  import opened Orders
  import opened Seqs

  /** n copies of key. */
  function Repeat(key: string, n: nat): (r: seq<string>)
    ensures |r| == n
  {
    if n == 0 then [] else Repeat(key, n - 1) + [key]
  }

  lemma {:induction false} RepeatAt(key: string, n: nat, i: nat)
    requires i < n
    ensures Repeat(key, n)[i] == key
    decreases n
  {
    if i < n - 1 {
      RepeatAt(key, n - 1, i);
    }
  }

  /** The keys one line item of an order of store storeId contributes. */
  function ItemBlock(storeId: int): Item -> seq<string>
  {
    (it: Item) => Repeat(SearchKey(storeId, it.sku), Copies(it.quantity))
  }

  /** The keys contributed by the line items of an order of store storeId. */
  function ItemKeys(storeId: int, items: seq<Item>): seq<string>
  {
    ConcatMap(ItemBlock(storeId), items)
  }

  /** The keys contributed by one order: none once it has shipped. */
  function OrderKeys(o: Order): seq<string>
  {
    if Shipped(o) then [] else ItemKeys(o.storeId, o.items)
  }

  /** The key list for a whole order list, in order-list order. */
  function SearchKeys(orders: seq<Order>): seq<string>
  {
    ConcatMap(OrderKeys, orders)
  }

  /**
   * The key derivation loop: unshipped orders in turn, their items in turn,
   * and quantity copies of each item's key (a single one when the quantity
   * is at most one). The loop over one order's items is AppendItemKeys.
   */
  method DeriveSearchKeys(orders: seq<Order>) returns (orderSku: seq<string>)
    ensures orderSku == SearchKeys(orders)
  {
    orderSku := [];
    for i := 0 to |orders|
      invariant orderSku == SearchKeys(orders[..i])
    {
      ConcatMapPrefix(OrderKeys, orders, i);
      if orders[i].shipDate.Some? {
        continue;
      }
      orderSku := AppendItemKeys(orderSku, orders[i].storeId, orders[i].items);
    }
    assert orders[..|orders|] == orders;
  }

  /** The body of the key derivation loop for one unshipped order of store storeId. */
  method AppendItemKeys(orderSku: seq<string>, storeId: int, items: seq<Item>) returns (keys: seq<string>)
    ensures keys == orderSku + ItemKeys(storeId, items)
  {
    keys := orderSku;
    for j := 0 to |items|
      invariant keys == orderSku + ItemKeys(storeId, items[..j])
    {
      ConcatMapPrefix(ItemBlock(storeId), items, j);
      var searchCoffee := SearchKey(storeId, items[j].sku);
      var quantity := items[j].quantity;
      ghost var done := keys;
      if quantity > 1 {
        for k := 0 to quantity
          invariant keys == done + Repeat(searchCoffee, k)
        {
          ConcatAssoc(done, Repeat(searchCoffee, k), [searchCoffee]);
          keys := keys + [searchCoffee];
        }
      } else {
        keys := keys + [searchCoffee];
      }
      ConcatAssoc(orderSku, ItemKeys(storeId, items[..j]), Repeat(searchCoffee, Copies(quantity)));
    }
    assert items[..|items|] == items;
  }

  /** The key list of a concatenation is the concatenation of the key lists. */
  lemma SearchKeysAppend(a: seq<Order>, b: seq<Order>)
    ensures SearchKeys(a + b) == SearchKeys(a) + SearchKeys(b)
  {
    ConcatMapAppend(OrderKeys, a, b);
  }

  /** A shipped order contributes no key, wherever it stands in the list. */
  lemma ShippedOrderSkipped(pre: seq<Order>, o: Order, post: seq<Order>)
    requires Shipped(o)
    ensures SearchKeys(pre + [o] + post) == SearchKeys(pre + post)
  {
    ConcatMapSplit(OrderKeys, pre, o, post);
    ConcatMapAppend(OrderKeys, pre, post);
  }

  /**
   * Where one line item's keys sit: after the keys of every earlier order
   * and every earlier item of its own order, as one contiguous block of
   * exactly Copies(quantity) copies of its key, followed by the keys of the
   * later items and the later orders.
   */
  lemma ItemKeysPlacement(pre: seq<Order>, o: Order, post: seq<Order>, ipre: seq<Item>, it: Item, ipost: seq<Item>)
    requires !Shipped(o) && o.items == ipre + [it] + ipost
    ensures SearchKeys(pre + [o] + post)
         == SearchKeys(pre)
          + (ItemKeys(o.storeId, ipre)
             + Repeat(SearchKey(o.storeId, it.sku), Copies(it.quantity))
             + ItemKeys(o.storeId, ipost))
          + SearchKeys(post)
  {
    ConcatMapSplit(OrderKeys, pre, o, post);
    ConcatMapSplit(ItemBlock(o.storeId), ipre, it, ipost);
  }

  /** Labels asked for by line items: max(quantity, 1) summed over the items. */
  function ItemLabels(items: seq<Item>): nat
  {
    if items == [] then 0 else Copies(items[0].quantity) + ItemLabels(items[1..])
  }

  /** Labels asked for by a whole order list: ItemLabels summed over the unshipped orders. */
  function LabelCount(orders: seq<Order>): nat
  {
    if orders == [] then 0
    else (if Shipped(orders[0]) then 0 else ItemLabels(orders[0].items)) + LabelCount(orders[1..])
  }

  lemma {:induction false} ItemKeysCount(storeId: int, items: seq<Item>)
    ensures |ItemKeys(storeId, items)| == ItemLabels(items)
    decreases |items|
  {
    if items != [] {
      var f := ItemBlock(storeId);
      assert [items[0]] + items[1..] == items;
      ConcatMapAppend(f, [items[0]], items[1..]);
      ConcatMapSingle(f, items[0]);
      ItemKeysCount(storeId, items[1..]);
    }
  }

  /** One key per label: the key list is exactly LabelCount long. */
  lemma {:induction false} SearchKeysCount(orders: seq<Order>)
    ensures |SearchKeys(orders)| == LabelCount(orders)
    decreases |orders|
  {
    if orders != [] {
      assert [orders[0]] + orders[1..] == orders;
      ConcatMapAppend(OrderKeys, [orders[0]], orders[1..]);
      ConcatMapSingle(OrderKeys, orders[0]);
      ItemKeysCount(orders[0].storeId, orders[0].items);
      SearchKeysCount(orders[1..]);
    }
  }

  lemma {:induction false} ItemKeyOrigin(storeId: int, items: seq<Item>, n: nat) returns (j: nat)
    requires n < |ItemKeys(storeId, items)|
    ensures j < |items| && ItemKeys(storeId, items)[n] == SearchKey(storeId, items[j].sku)
    decreases |items|
  {
    var init := items[..|items| - 1];
    ConcatMapPrefix(ItemBlock(storeId), items, |items| - 1);
    assert items[..|items|] == items;
    if n < |ItemKeys(storeId, init)| {
      j := ItemKeyOrigin(storeId, init, n);
    } else {
      j := |items| - 1;
      RepeatAt(SearchKey(storeId, items[j].sku), Copies(items[j].quantity), n - |ItemKeys(storeId, init)|);
    }
  }

  /** Every key is the key of a line item of an unshipped order of the list. */
  lemma {:induction false} KeyOrigin(orders: seq<Order>, n: nat) returns (i: nat, j: nat)
    requires n < |SearchKeys(orders)|
    ensures i < |orders| && !Shipped(orders[i]) && j < |orders[i].items|
    ensures SearchKeys(orders)[n] == SearchKey(orders[i].storeId, orders[i].items[j].sku)
    decreases |orders|
  {
    var init := orders[..|orders| - 1];
    if n < |SearchKeys(init)| {
      i, j := KeyOrigin(init, n);
    } else {
      i := |orders| - 1;
      j := ItemKeyOrigin(orders[i].storeId, orders[i].items, n - |SearchKeys(init)|);
    }
  }

  /**
   * A shipped order followed by two pending orders of stores 100 and 200
   * whose items ask for 1, 2 and 1 labels.
   */
  const ExampleOrders: seq<Order> := [
    Order(Some("2024-05-01"), 100, [Item("SKU9", 4)]),
    Order(None, 100, [Item("SKU1", 1), Item("SKU2", 2)]),
    Order(None, 200, [Item("SKU3", 1)])]

  lemma ExampleStore100Keys()
    ensures ItemKeys(100, [Item("SKU1", 1), Item("SKU2", 2)]) == ["100#SKU1", "100#SKU2", "100#SKU2"]
  {
    assert Decimal(100) == "100";
    assert SearchKey(100, "SKU1") == "100#SKU1" && SearchKey(100, "SKU2") == "100#SKU2";
    assert ItemBlock(100)(Item("SKU1", 1)) == Repeat("100#SKU1", 1) == ["100#SKU1"];
    assert ItemBlock(100)(Item("SKU2", 2)) == Repeat("100#SKU2", 2) == ["100#SKU2", "100#SKU2"];
    ConcatMapAppend(ItemBlock(100), [Item("SKU1", 1)], [Item("SKU2", 2)]);
    assert [Item("SKU1", 1)] + [Item("SKU2", 2)] == [Item("SKU1", 1), Item("SKU2", 2)];
    ConcatMapSingle(ItemBlock(100), Item("SKU1", 1));
    ConcatMapSingle(ItemBlock(100), Item("SKU2", 2));
  }

  lemma ExampleStore200Keys()
    ensures ItemKeys(200, [Item("SKU3", 1)]) == ["200#SKU3"]
  {
    assert Decimal(200) == "200";
    assert SearchKey(200, "SKU3") == "200#SKU3";
    assert ItemBlock(200)(Item("SKU3", 1)) == Repeat("200#SKU3", 1) == ["200#SKU3"];
    ConcatMapSingle(ItemBlock(200), Item("SKU3", 1));
  }

  /** The shipped order adds nothing; each item adds its key as many times as it asks for labels. */
  lemma ExampleKeys()
    ensures SearchKeys(ExampleOrders) == ["100#SKU1", "100#SKU2", "100#SKU2", "200#SKU3"]
  {
    var shipped, o1, o2 := ExampleOrders[0], ExampleOrders[1], ExampleOrders[2];
    ExampleStore100Keys();
    ExampleStore200Keys();
    ConcatMapSplit(OrderKeys, [shipped], o1, [o2]);
    ConcatMapSingle(OrderKeys, shipped);
    ConcatMapSingle(OrderKeys, o2);
    assert [shipped] + [o1] + [o2] == ExampleOrders;
  }

  /** A zero and a negative quantity still ask for one label each. */
  lemma DegenerateQuantities()
    ensures SearchKeys([Order(None, 7, [Item("A", 0), Item("B", -3)])]) == ["7#A", "7#B"]
  {
    var o := Order(None, 7, [Item("A", 0), Item("B", -3)]);
    assert Decimal(7) == "7";
    assert SearchKey(7, "A") == "7#A" && SearchKey(7, "B") == "7#B";
    assert ItemBlock(7)(Item("A", 0)) == Repeat("7#A", 1) == ["7#A"];
    assert ItemBlock(7)(Item("B", -3)) == Repeat("7#B", 1) == ["7#B"];
    ConcatMapAppend(ItemBlock(7), [Item("A", 0)], [Item("B", -3)]);
    assert [Item("A", 0)] + [Item("B", -3)] == o.items;
    ConcatMapSingle(ItemBlock(7), Item("A", 0));
    ConcatMapSingle(ItemBlock(7), Item("B", -3));
    ConcatMapSingle(OrderKeys, o);
  }
}
