/**
 * The part of a decoded order list that the label printer reads: whether
 * the order has shipped, the store it belongs to, and the SKU and quantity
 * of each line item. Every other field of the order payload is unread.
 */
module Orders {
  import opened Wrappers
  import opened Text

  datatype Item = Item(sku: string, quantity: int)

  /** shipDate is None when the payload carries null for it. */
  datatype Order = Order(shipDate: Option<string>, storeId: int, items: seq<Item>)

  predicate Shipped(o: Order) {
    o.shipDate.Some?
  }

  /** The search key of one line item: the decimal store id, '#', the SKU. */
  function SearchKey(storeId: int, sku: string): string
  {
    Decimal(storeId) + "#" + sku
  }

  /** A key splits back, at its first '#', into the store id and the SKU. */
  lemma SearchKeySplit(storeId: int, sku: string)
    ensures FieldBefore(SearchKey(storeId, sku), '#') == Decimal(storeId)
    ensures SearchKey(storeId, sku)[|Decimal(storeId)| + 1..] == sku
  {
    DecimalHasNoSeparators(storeId);
    FieldBeforeJoin(Decimal(storeId), '#', sku);
  }

  /** Two keys are equal exactly when store ids and SKUs are. */
  lemma SearchKeyInjective(s1: int, sku1: string, s2: int, sku2: string)
    ensures SearchKey(s1, sku1) == SearchKey(s2, sku2) <==> s1 == s2 && sku1 == sku2
  {
    if SearchKey(s1, sku1) == SearchKey(s2, sku2) {
      SearchKeySplit(s1, sku1);
      SearchKeySplit(s2, sku2);
      DecimalInjective(s1, s2);
    }
  }

  /** How many labels one line item asks for: its quantity, but at least one. */
  function Copies(quantity: int): nat
  {
    if quantity > 1 then quantity else 1
  }
}
