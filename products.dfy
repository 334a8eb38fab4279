/**
 * The product hook's sale (src/hooks/useProducts.ts, `createSale`): one sale row per cart item
 * priced from the hook's product snapshot, inserted together, then each item's stock written as
 * the snapshot's stock minus the quantity, then the snapshot reloaded from the table. The
 * `sales` table and the `stock` column of the `products` table are fields of the hook object.
 */
module Products {
  import opened Wrappers
  import opened Seqs
  import opened Types

  datatype SaleRow = SaleRow(
    productId: string,
    deviceId: Option<string>,
    quantity: int,
    unitPrice: int,
    totalPrice: int,
    soldBy: Option<string>)

  /** `deviceId || null`: an absent or empty device id is stored as null. */
  function DeviceColumn(deviceId: Option<string>): (r: Option<string>)
    ensures r.Some? <==> deviceId.Some? && deviceId.value != ""
    ensures r.Some? ==> r == deviceId
  {
    if deviceId == Some("") then None else deviceId
  }

  /**
   * `items.map(...)`: the sale rows, or None when some item's product is not in the snapshot
   * (the thrown error aborts before anything is inserted).
   */
  function BuildSaleRows(products: seq<Product>, items: seq<CartItem>, deviceId: Option<string>, userId: Option<string>): (r: Option<seq<SaleRow>>)
    ensures r.None? <==> exists i :: 0 <= i < |items| && FindProduct(products, items[i].productId).None?
    ensures r.Some? ==> |r.value| == |items|
    ensures r.Some? ==> forall i :: 0 <= i < |items| ==>
              var price := FindProduct(products, items[i].productId).value.price;
              r.value[i] == SaleRow(items[i].productId, DeviceColumn(deviceId), items[i].quantity, price, price * items[i].quantity, userId)
  {
    if items == [] then Some([])
    else
      var init := items[..|items| - 1];
      var item := items[|items| - 1];
      assert forall i :: 0 <= i < |init| ==> init[i] == items[i];
      match BuildSaleRows(products, init, deviceId, userId)
      case None => None
      case Some(rows) =>
        match FindProduct(products, item.productId)
        case None => None
        case Some(p) =>
          Some(rows + [SaleRow(item.productId, DeviceColumn(deviceId), item.quantity, p.price, p.price * item.quantity, userId)])
  }

  /** `.update({ stock }).eq('id', id)`: a missing id matches no row. */
  function SetStock(stock: map<string, int>, id: string, value: int): map<string, int>
  {
    if id in stock then stock[id := value] else stock
  }

  /** The stock column after the update loop has handled `items` in order. */
  function StockAfter(stock: map<string, int>, products: seq<Product>, items: seq<CartItem>): (r: map<string, int>)
    ensures r.Keys == stock.Keys
  {
    if items == [] then stock
    else
      var before := StockAfter(stock, products, items[..|items| - 1]);
      var item := items[|items| - 1];
      match FindProduct(products, item.productId)
      case None => before
      case Some(p) => SetStock(before, item.productId, p.stock - item.quantity)
  }

  /** The index of the last item for product id, if any. */
  function LastItemFor(items: seq<CartItem>, id: string): (r: Option<nat>)
    ensures r.Some? ==> r.value < |items| && items[r.value].productId == id
                        && forall j :: r.value < j < |items| ==> items[j].productId != id
    ensures r.None? ==> forall j :: 0 <= j < |items| ==> items[j].productId != id
  {
    if items == [] then None
    else if items[|items| - 1].productId == id then Some(|items| - 1)
    else LastItemFor(items[..|items| - 1], id)
  }

  /**
   * The stock a product ends with: every write starts from the snapshot, so a product listed in
   * the table ends at its snapshot stock minus the quantity of the last item for it (earlier
   * items for the same product are overwritten), whether or not that is negative. Products with
   * no item, and ids not in the table, are untouched.
   */
  lemma {:induction false} StockAfterValue(stock: map<string, int>, products: seq<Product>, items: seq<CartItem>, id: string)
    requires forall i :: 0 <= i < |items| ==> FindProduct(products, items[i].productId).Some?
    ensures id in stock ==>
              StockAfter(stock, products, items)[id] ==
                match LastItemFor(items, id)
                case None => stock[id]
                case Some(k) => FindProduct(products, id).value.stock - items[k].quantity
  {
    if id in stock && items != [] {
      var init := items[..|items| - 1];
      var item := items[|items| - 1];
      assert items == init + [item];
      forall i | 0 <= i < |init| ensures FindProduct(products, init[i].productId).Some? {
        assert init[i] == items[i];
      }
      StockAfterValue(stock, products, init, id);
      StockAfterSnoc(stock, products, init, item);
      LastItemSnoc(init, item, id);
      var f := FindProduct(products, item.productId);
      assert f.Some? by { assert items[|items| - 1] == item; }
      SetStockAt(StockAfter(stock, products, init), item.productId, f.value.stock - item.quantity, id);
    }
  }

  lemma {:induction false} SetStockAt(stock: map<string, int>, key: string, value: int, id: string)
    requires id in stock
    ensures id in SetStock(stock, key, value)
    ensures SetStock(stock, key, value)[id] == if key == id then value else stock[id]
  {
  }

  /** The update loop's step for one more item. */
  lemma {:induction false} StockAfterSnoc(stock: map<string, int>, products: seq<Product>, items: seq<CartItem>, item: CartItem)
    ensures StockAfter(stock, products, items + [item]) ==
              match FindProduct(products, item.productId)
              case None => StockAfter(stock, products, items)
              case Some(p) => SetStock(StockAfter(stock, products, items), item.productId, p.stock - item.quantity)
  {
    assert (items + [item])[..|items + [item]| - 1] == items;
  }

  lemma {:induction false} LastItemSnoc(items: seq<CartItem>, item: CartItem, id: string)
    ensures LastItemFor(items + [item], id) == if item.productId == id then Some(|items|) else LastItemFor(items, id)
  {
    assert (items + [item])[..|items + [item]| - 1] == items;
  }

  /** Two items for one product with snapshot stock 5, quantities 1 then 2: the stock becomes 3, not 2. */
  lemma LastWriteWins(stock: map<string, int>, p: Product)
    requires p.id in stock && p.stock == 5
    ensures StockAfter(stock, [p], [CartItem(p.id, 1), CartItem(p.id, 2)])[p.id] == 3
  {
    StockAfterValue(stock, [p], [CartItem(p.id, 1), CartItem(p.id, 2)], p.id);
  }

  /** Nothing checks the quantity against the stock: selling 3 of a product with stock 1 leaves -2. */
  lemma StockCanGoNegative(stock: map<string, int>, p: Product)
    requires p.id in stock && p.stock == 1
    ensures StockAfter(stock, [p], [CartItem(p.id, 3)])[p.id] == -2
  {
    StockAfterValue(stock, [p], [CartItem(p.id, 3)], p.id);
  }

  /** A snapshot product as a reload reads it back: with the table's current stock. */
  function Restock(p: Product, stock: map<string, int>): (r: Product)
    ensures r.id == p.id && r.name == p.name && r.price == p.price && r.category == p.category
    ensures r.stock == if p.id in stock then stock[p.id] else p.stock
  {
    if p.id in stock then p.(stock := stock[p.id]) else p
  }

  /** `fetchProducts()` after a sale: the same products, each with the table's current stock. */
  function Restocked(products: seq<Product>, stock: map<string, int>): (r: seq<Product>)
    ensures |r| == |products|
    ensures forall i :: 0 <= i < |products| ==> r[i] == Restock(products[i], stock)
  {
    seq(|products|, i requires 0 <= i < |products| => Restock(products[i], stock))
  }

  /** The snapshot agrees with the table: every snapshot product is a row with the same stock. */
  predicate Synced(products: seq<Product>, stock: map<string, int>)
  {
    forall i :: 0 <= i < |products| ==> products[i].id in stock && products[i].stock == stock[products[i].id]
  }

  /** Searching the reloaded snapshot finds the reloaded version of the product found before. */
  lemma {:induction false} FindRestocked(products: seq<Product>, stock: map<string, int>, id: string)
    ensures FindProduct(Restocked(products, stock), id) ==
              match FindProduct(products, id)
              case None => None
              case Some(p) => Some(Restock(p, stock))
  {
    if products != [] {
      var r := Restocked(products, stock);
      assert r[1..] == Restocked(products[1..], stock);
      FindRestocked(products[1..], stock, id);
    }
  }

  /**
   * A sale keeps every item's product a row of the table, so the reload brings the snapshot back
   * in step with the table.
   */
  lemma {:induction false} ReloadSyncs(products: seq<Product>, stock: map<string, int>, items: seq<CartItem>)
    requires forall i :: 0 <= i < |products| ==> products[i].id in stock
    ensures var after := StockAfter(stock, products, items);
      Synced(Restocked(products, after), after)
  {
  }

  /**
   * Two successive one-item sales of a product, each from a snapshot reloaded after the one
   * before, deduct both quantities from its stock.
   */
  lemma {:induction false} TwoSalesDeductCumulatively(products: seq<Product>, stock: map<string, int>, id: string, q1: int, q2: int)
    requires Synced(products, stock)
    requires FindProduct(products, id).Some?
    ensures var stock1 := StockAfter(stock, products, [CartItem(id, q1)]);
      var stock2 := StockAfter(stock1, Restocked(products, stock1), [CartItem(id, q2)]);
      id in stock && stock2[id] == stock[id] - q1 - q2
  {
    var p := FindProduct(products, id).value;
    var stock1 := StockAfter(stock, products, [CartItem(id, q1)]);
    StockAfterValue(stock, products, [CartItem(id, q1)], id);
    FindRestocked(products, stock1, id);
    StockAfterValue(stock1, Restocked(products, stock1), [CartItem(id, q2)], id);
  }

  class ProductsHook {
    /** The hook's `products` state: the snapshot a sale is priced from. */
    var products: seq<Product>
    /** The `stock` column of the `products` table, by product id. */
    var stock: map<string, int>
    /** The `sales` table. */
    var sales: seq<SaleRow>

    constructor (products: seq<Product>, stock: map<string, int>, sales: seq<SaleRow>)
      ensures this.products == products && this.stock == stock && this.sales == sales
    {
      this.products := products;
      this.stock := stock;
      this.sales := sales;
    }

    /** The update loop of `createSale`: each item's stock written as the snapshot's stock minus its quantity. */
    method WriteStock(items: seq<CartItem>)
      modifies this
      ensures stock == StockAfter(old(stock), products, items)
      ensures products == old(products) && sales == old(sales)
    {
      var i := 0;
      while i < |items|
        invariant 0 <= i <= |items|
        invariant products == old(products) && sales == old(sales)
        invariant stock == StockAfter(old(stock), products, items[..i])
      {
        var item := items[i];
        var p := FindProduct(products, item.productId);
        assert items[..i + 1][..i] == items[..i];
        if p.Some? {
          stock := SetStock(stock, item.productId, p.value.stock - item.quantity);
        }
        i := i + 1;
      }
      assert items[..|items|] == items;
    }

    /**
     * `createSale(items, deviceId)`: succeeds exactly when every item's product is in the
     * snapshot and the insert of the sale rows succeeds (`insertOk`); then the rows are appended
     * to the sales table, the stock written item by item, and the snapshot reloaded from the
     * table when that read succeeds (`reloadOk`). On failure nothing is written.
     */
    method CreateSale(items: seq<CartItem>, deviceId: Option<string>, userId: Option<string>, insertOk: bool, reloadOk: bool)
      returns (success: bool)
      modifies this
      ensures success <==> BuildSaleRows(old(products), items, deviceId, userId).Some? && insertOk
      ensures success ==> sales == old(sales) + BuildSaleRows(old(products), items, deviceId, userId).value
      ensures success ==> stock == StockAfter(old(stock), old(products), items)
      ensures products == if success && reloadOk then Restocked(old(products), stock) else old(products)
      ensures !success ==> sales == old(sales) && stock == old(stock)
    {
      var rows := BuildSaleRows(products, items, deviceId, userId);
      if rows.None? || !insertOk {
        return false;
      }
      sales := sales + rows.value;
      WriteStock(items);
      if reloadOk {
        products := Restocked(products, stock);
      }
      return true;
    }
  }
}
