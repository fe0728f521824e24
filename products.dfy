/** The shared product and order module of retail businesses: the products
    and orders tables, the stock check, order creation with its stock
    decrement, and the grouping of the catalog by category. Prices are in
    cents. */
module Products {
  import opened Wrappers
  import opened Text
  import opened Ordering

  /** A row of the `products` table. */
  datatype Product = Product(id: int, businessId: int, name: string, description: string,
                             category: Option<string>, price: int, stock: int)

  /** An `{ product_id, quantity }` line of a request. */
  datatype Item = Item(productId: int, quantity: int)

  /** `getProductById`: the product with that id. */
  function Lookup(ps: seq<Product>, id: int): (r: Option<Product>)
    ensures r.Some? ==> r.value in ps && r.value.id == id
    ensures r.None? ==> forall i | 0 <= i < |ps| :: ps[i].id != id
  {
    if ps == [] then None
    else if ps[0].id == id then Some(ps[0])
    else Lookup(ps[1..], id)
  }

  /** The filters of `getProducts`: an empty category is absent (falsy);
      `inStock` is absent, true (stock above zero) or false (stock zero). */
  datatype ProductFilters = ProductFilters(category: string, inStock: Option<bool>)

  predicate Listed(p: Product, businessId: int, f: ProductFilters) {
    p.businessId == businessId
    && (f.category == "" || p.category == Some(f.category))
    && (f.inStock == Some(true) ==> p.stock > 0)
    && (f.inStock == Some(false) ==> p.stock == 0)
  }

  /** `ORDER BY category, name`, a `NULL` category first. */
  function CategoryNameKey(p: Product): Key {
    Key(p.category, p.name)
  }

  /** `getProducts`: the business's products passing the filters that are set,
      each as often as in the table, by category and then name. */
  function GetProducts(ps: seq<Product>, businessId: int, f: ProductFilters): (r: seq<Product>)
    ensures forall p :: multiset(r)[p] == if Listed(p, businessId, f) then multiset(ps)[p] else 0
    ensures SortedBy(r, CategoryNameKey)
  {
    SortBy(Select(ps, p => Listed(p, businessId, f)), CategoryNameKey)
  }

  /** `UPDATE products SET stock = stock + ? WHERE id = ?` */
  function AddStock(ps: seq<Product>, id: int, quantity: int): seq<Product> {
    seq(|ps|, i requires 0 <= i < |ps| => if ps[i].id == id then ps[i].(stock := ps[i].stock + quantity) else ps[i])
  }

  /** `updateStock` changes the stock of the products with that id by
      `quantity`, and nothing else. */
  lemma AddStockEffect(ps: seq<Product>, id: int, quantity: int)
    ensures |AddStock(ps, id, quantity)| == |ps|
    ensures forall i | 0 <= i < |ps| ::
              AddStock(ps, id, quantity)[i] ==
              if ps[i].id == id then ps[i].(stock := ps[i].stock + quantity) else ps[i]
    ensures forall i | 0 <= i < |ps| :: AddStock(ps, id, quantity)[i].(stock := ps[i].stock) == ps[i]
  {
  }

  /** The number of products with that id: the `changes` of the update. */
  function CountWithId(ps: seq<Product>, id: int): (n: nat)
    ensures n > 0 <==> exists i | 0 <= i < |ps| :: ps[i].id == id
  {
    if ps == [] then 0
    else
      var front := ps[..|ps| - 1];
      assert forall i | 0 <= i < |front| :: front[i] == ps[i];
      CountWithId(front, id) + (if ps[|ps| - 1].id == id then 1 else 0)
  }

  /** One entry of `checkStock`'s result. */
  datatype StockResult = StockResult(productId: int, available: bool, reason: Option<string>,
                                     requested: Option<int>)

  const NotFound := "Product not found"

  function ShortReason(stock: int): string {
    "Only " + IntToString(stock) + " available"
  }

  /** The check of one line: a missing product, too little stock, or enough. */
  function CheckItem(ps: seq<Product>, item: Item): (r: StockResult)
    ensures r.productId == item.productId
    ensures r.available <==> Lookup(ps, item.productId).Some?
                             && Lookup(ps, item.productId).value.stock >= item.quantity
    ensures Lookup(ps, item.productId).None? ==> r.reason == Some(NotFound) && r.requested.None?
    ensures Lookup(ps, item.productId).Some? && !r.available ==>
              r.reason == Some(ShortReason(Lookup(ps, item.productId).value.stock))
              && r.requested == Some(item.quantity)
  {
    match Lookup(ps, item.productId)
    case None => StockResult(item.productId, false, Some(NotFound), None)
    case Some(p) =>
      if p.stock < item.quantity then
        StockResult(item.productId, false, Some(ShortReason(p.stock)), Some(item.quantity))
      else StockResult(item.productId, true, None, None)
  }

  /** What `checkStock` resolves with: one result per line, in order. */
  function StockReport(ps: seq<Product>, items: seq<Item>): (r: seq<StockResult>)
    ensures |r| == |items|
    ensures forall i | 0 <= i < |items| :: r[i] == CheckItem(ps, items[i])
  {
    if items == [] then []
    else StockReport(ps, items[..|items| - 1]) + [CheckItem(ps, items[|items| - 1])]
  }

  /** Every line passes: its product exists and has at least its quantity. */
  predicate AllInStock(ps: seq<Product>, items: seq<Item>) {
    forall i | 0 <= i < |items| :: CheckItem(ps, items[i]).available
  }

  /** One `itemDetails` entry of an order. */
  datatype LineDetail = LineDetail(productId: int, name: string, quantity: int, price: int, total: int)

  /** A row of the `orders` table. */
  datatype Order = Order(id: nat, businessId: int, customerId: int, items: seq<LineDetail>, total: int,
                         deliveryType: string, deliveryAddress: Option<string>, status: string)

  /** The first line whose product is missing. */
  function FirstMissing(ps: seq<Product>, items: seq<Item>): (r: Option<nat>)
    ensures r.Some? ==> r.value < |items| && Lookup(ps, items[r.value].productId).None?
                        && forall j | 0 <= j < r.value :: Lookup(ps, items[j].productId).Some?
    ensures r.None? ==> forall j | 0 <= j < |items| :: Lookup(ps, items[j].productId).Some?
  {
    if items == [] then None
    else
      match FirstMissing(ps, items[..|items| - 1])
      case Some(k) => Some(k)
      case None => if Lookup(ps, items[|items| - 1].productId).None? then Some(|items| - 1) else None
  }

  function Detail(p: Product, item: Item): LineDetail {
    LineDetail(p.id, p.name, item.quantity, p.price, p.price * item.quantity)
  }

  /** The `itemDetails` of lines whose products all exist. */
  function Details(ps: seq<Product>, items: seq<Item>): seq<LineDetail>
    requires FirstMissing(ps, items).None?
  {
    if items == [] then []
    else
      var last := items[|items| - 1];
      Details(ps, items[..|items| - 1]) + [Detail(Lookup(ps, last.productId).value, last)]
  }

  /** The sum of price times quantity over the lines. */
  function Total(ps: seq<Product>, items: seq<Item>): int
    requires FirstMissing(ps, items).None?
  {
    if items == [] then 0
    else
      var last := items[|items| - 1];
      Total(ps, items[..|items| - 1]) + Lookup(ps, last.productId).value.price * last.quantity
  }

  function SumTotals(ds: seq<LineDetail>): int {
    if ds == [] then 0 else SumTotals(ds[..|ds| - 1]) + ds[|ds| - 1].total
  }

  /** The order holds one detail per line, in request order, each with its
      product's name and price, and the order total is the sum of the line totals. */
  lemma {:induction false} DetailsMatchLines(ps: seq<Product>, items: seq<Item>)
    requires FirstMissing(ps, items).None?
    ensures |Details(ps, items)| == |items|
    ensures forall i | 0 <= i < |items| ::
              var p := Lookup(ps, items[i].productId).value;
              Details(ps, items)[i] == LineDetail(p.id, p.name, items[i].quantity, p.price, p.price * items[i].quantity)
    ensures Total(ps, items) == SumTotals(Details(ps, items))
  {
    if items != [] {
      var front := items[..|items| - 1];
      DetailsMatchLines(ps, front);
      var d := Details(ps, items);
      assert d[..|d| - 1] == Details(ps, front);
    }
  }

  /** The stock decrements of a successful order, line by line. */
  function ApplyOrder(ps: seq<Product>, items: seq<Item>): seq<Product> {
    if items == [] then ps
    else
      var last := items[|items| - 1];
      AddStock(ApplyOrder(ps, items[..|items| - 1]), last.productId, -last.quantity)
  }

  /** The total quantity the lines ask of product `id`. */
  function QuantityOf(items: seq<Item>, id: int): int {
    if items == [] then 0
    else QuantityOf(items[..|items| - 1], id)
         + (if items[|items| - 1].productId == id then items[|items| - 1].quantity else 0)
  }

  /** After an order each product's stock has dropped by the total quantity
      the lines ask of it; nothing else about any product changes. */
  lemma {:induction false} ApplyOrderStock(ps: seq<Product>, items: seq<Item>)
    ensures |ApplyOrder(ps, items)| == |ps|
    ensures forall i | 0 <= i < |ps| ::
              ApplyOrder(ps, items)[i] == ps[i].(stock := ps[i].stock - QuantityOf(items, ps[i].id))
  {
    if items != [] {
      ApplyOrderStock(ps, items[..|items| - 1]);
    }
  }

  const OutOfStock := "Some items are out of stock"

  function MissingMessage(id: int): string {
    "Product " + IntToString(id) + " not found"
  }

  /** The tables after a call of `createOrder`, and what it resolves or rejects with. */
  datatype OrderOutcome = OrderOutcome(result: Result<Order>, products: seq<Product>, orders: seq<Order>)

  /** `createOrder`: a missing product rejects first, then a failed stock
      check; only then is the pending order inserted and the stock of each
      line decremented. */
  function PlaceOrder(ps: seq<Product>, os: seq<Order>, nextId: nat, businessId: int, customerId: int,
                      items: seq<Item>, deliveryType: string, address: Option<string>): OrderOutcome
  {
    match FirstMissing(ps, items)
    case Some(k) => OrderOutcome(Err(MissingMessage(items[k].productId)), ps, os)
    case None =>
      if !AllInStock(ps, items) then OrderOutcome(Err(OutOfStock), ps, os)
      else
        var o := Order(nextId, businessId, customerId, Details(ps, items), Total(ps, items),
                       deliveryType, address, "pending");
        OrderOutcome(Ok(o), ApplyOrder(ps, items), os + [o])
  }

  /** A rejected order changes neither table; the missing product is reported
      before any stock shortage. */
  lemma PlaceOrderFailure(ps: seq<Product>, os: seq<Order>, nextId: nat, businessId: int, customerId: int,
                          items: seq<Item>, deliveryType: string, address: Option<string>)
    ensures var o := PlaceOrder(ps, os, nextId, businessId, customerId, items, deliveryType, address);
            (o.result.Err? <==> FirstMissing(ps, items).Some? || !AllInStock(ps, items))
            && (o.result.Err? ==> o.products == ps && o.orders == os)
            && (FirstMissing(ps, items).Some? ==>
                  o.result == Err(MissingMessage(items[FirstMissing(ps, items).value].productId)))
            && (FirstMissing(ps, items).None? && !AllInStock(ps, items) ==> o.result == Err(OutOfStock))
  {
  }

  /** A successful order is pending, totals its lines, and each product's
      stock drops by what the lines ask of it. */
  lemma PlaceOrderSuccess(ps: seq<Product>, os: seq<Order>, nextId: nat, businessId: int, customerId: int,
                          items: seq<Item>, deliveryType: string, address: Option<string>)
    requires FirstMissing(ps, items).None? && AllInStock(ps, items)
    ensures var o := PlaceOrder(ps, os, nextId, businessId, customerId, items, deliveryType, address);
            o.result.Ok? && o.result.value.status == "pending" && o.result.value.id == nextId
            && o.orders == os + [o.result.value]
            && |o.result.value.items| == |items|
            && o.result.value.total == SumTotals(o.result.value.items)
            && |o.products| == |ps|
            && forall i | 0 <= i < |ps| :: o.products[i] == ps[i].(stock := ps[i].stock - QuantityOf(items, ps[i].id))
  {
    DetailsMatchLines(ps, items);
    ApplyOrderStock(ps, items);
  }

  /** The number of orders with that id: the `changes` of the update. */
  function CountOrderId(os: seq<Order>, id: nat): (n: nat)
    ensures n > 0 <==> exists i | 0 <= i < |os| :: os[i].id == id
  {
    if os == [] then 0
    else
      var front := os[..|os| - 1];
      assert forall i | 0 <= i < |front| :: front[i] == os[i];
      CountOrderId(front, id) + (if os[|os| - 1].id == id then 1 else 0)
  }

  /** The stock check passes each line on its own, so two lines of the same
      product can together take more than its stock: one loaf in stock, two
      lines of one loaf each, and the order succeeds with stock -1. */
  lemma OversellAsWritten()
    ensures var ps := [Product(1, 1, "Bread", "", None, 1500, 1)];
            var o := PlaceOrder(ps, [], 1, 1, 1, [Item(1, 1), Item(1, 1)], "pickup", None);
            o.result.Ok? && |o.products| == 1 && o.products[0].stock == -1
  {
    var ps := [Product(1, 1, "Bread", "", None, 1500, 1)];
    var items := [Item(1, 1), Item(1, 1)];
    assert items[..1] == [Item(1, 1)] && items[..1][..0] == [];
    assert FirstMissing(ps, items).None?;
    assert AllInStock(ps, items);
    ApplyOrderStock(ps, items);
    assert QuantityOf(items, 1) == 2;
  }

  /** With product ids unique, `Lookup` finds each product by its own id. */
  lemma {:induction false} LookupUnique(ps: seq<Product>, i: nat)
    requires i < |ps| && forall j, k | 0 <= j < k < |ps| :: ps[j].id != ps[k].id
    ensures Lookup(ps, ps[i].id) == Some(ps[i])
  {
    if i > 0 {
      assert ps[0].id != ps[i].id;
      LookupUnique(ps[1..], i - 1);
    }
  }

  /** `UPDATE orders SET status = ? WHERE id = ?` */
  function OrderWithStatus(os: seq<Order>, id: nat, status: string): seq<Order> {
    seq(|os|, i requires 0 <= i < |os| => if os[i].id == id then os[i].(status := status) else os[i])
  }

  /** `updateOrderStatus` changes only the status of the order with that id. */
  lemma OrderStatusFrame(os: seq<Order>, id: nat, status: string)
    ensures |OrderWithStatus(os, id, status)| == |os|
    ensures forall i | 0 <= i < |os| ::
              OrderWithStatus(os, id, status)[i].(status := os[i].status) == os[i]
              && (os[i].id != id ==> OrderWithStatus(os, id, status)[i] == os[i])
              && (os[i].id == id ==> OrderWithStatus(os, id, status)[i].status == status)
  {
  }

  /** `product.category || 'Other'` */
  function Label(p: Product): (c: string)
    ensures c != ""
  {
    if p.category.Some? && p.category.value != "" then p.category.value else "Other"
  }

  /** `byCategory` after the `forEach` over the first products. */
  function Groups(ps: seq<Product>): map<string, seq<Product>> {
    if ps == [] then map[]
    else
      var g := Groups(ps[..|ps| - 1]);
      var p := ps[|ps| - 1];
      g[Label(p) := (if Label(p) in g then g[Label(p)] else []) + [p]]
  }

  /** The order in which `Object.entries` lists the categories, for category
      names that are not array indices: first appearance. (JavaScript lists
      integer-like keys such as "2" first, in ascending numeric order; that
      is not modelled.) */
  function CategoryOrder(ps: seq<Product>): seq<string> {
    if ps == [] then []
    else
      var o := CategoryOrder(ps[..|ps| - 1]);
      var c := Label(ps[|ps| - 1]);
      if c in o then o else o + [c]
  }

  /** The groups are the categories that occur. */
  lemma {:induction false} GroupsKeys(ps: seq<Product>)
    ensures forall c :: c in Groups(ps) <==> exists i | 0 <= i < |ps| :: Label(ps[i]) == c
  {
    if ps != [] {
      var front := ps[..|ps| - 1];
      GroupsKeys(front);
      assert forall i | 0 <= i < |front| :: front[i] == ps[i];
    }
  }

  /** Each category's group holds exactly its products, in catalog order. */
  lemma {:induction false} GroupsContents(ps: seq<Product>)
    ensures forall c | c in Groups(ps) :: Groups(ps)[c] == Select(ps, p => Label(p) == c)
  {
    if ps != [] {
      var front, p := ps[..|ps| - 1], ps[|ps| - 1];
      GroupsContents(front);
      GroupsKeys(front);
      forall c | c in Groups(ps) ensures Groups(ps)[c] == Select(ps, q => Label(q) == c) {
        assert Select(ps, q => Label(q) == c) ==
               Select(front, q => Label(q) == c) + (if Label(p) == c then [p] else []);
        if c == Label(p) && c !in Groups(front) {
          SelectNone(front, q => Label(q) == c);
        }
      }
    }
  }

  /** The categories are listed once each, and exactly the grouped ones. */
  lemma {:induction false} CategoryOrderLists(ps: seq<Product>)
    ensures forall c :: c in CategoryOrder(ps) <==> c in Groups(ps)
    ensures forall i, j | 0 <= i < j < |CategoryOrder(ps)| :: CategoryOrder(ps)[i] != CategoryOrder(ps)[j]
  {
    if ps != [] {
      CategoryOrderLists(ps[..|ps| - 1]);
    }
  }

  /** The products and orders tables; `nextOrderId` is the id the next insert gets. */
  class Store {
    var products: seq<Product>
    var orders: seq<Order>
    var nextOrderId: nat

    ghost predicate Valid()
      reads this
    {
      1 <= nextOrderId && forall i | 0 <= i < |orders| :: orders[i].id < nextOrderId
    }

    constructor (products: seq<Product>)
      ensures Valid() && this.products == products && orders == [] && nextOrderId == 1
    {
      this.products := products;
      orders := [];
      nextOrderId := 1;
    }

    /** `updateStock`; `changes` is the number of rows updated. */
    method UpdateStock(id: int, quantity: int) returns (changes: nat)
      modifies this`products
      ensures products == AddStock(old(products), id, quantity)
      ensures changes > 0 <==> exists i | 0 <= i < |old(products)| :: old(products)[i].id == id
    {
      changes := CountWithId(products, id);
      products := AddStock(products, id, quantity);
    }

    /** `checkStock`: one result per line, in order. */
    method CheckStock(items: seq<Item>) returns (results: seq<StockResult>)
      ensures results == StockReport(products, items)
    {
      results := [];
      for k := 0 to |items|
        invariant results == StockReport(products, items[..k])
      {
        assert items[..k + 1][..k] == items[..k];
        var product := Lookup(products, items[k].productId);
        if product.None? {
          results := results + [StockResult(items[k].productId, false, Some(NotFound), None)];
        } else if product.value.stock < items[k].quantity {
          results := results + [StockResult(items[k].productId, false, Some(ShortReason(product.value.stock)),
                                            Some(items[k].quantity))];
        } else {
          results := results + [StockResult(items[k].productId, true, None, None)];
        }
      }
      assert items[..|items|] == items;
    }

    /** The first loop of `createOrder`: it stops at the first missing
        product, and otherwise collects the line details and the total. */
    method PriceLines(items: seq<Item>) returns (missing: Option<nat>, details: seq<LineDetail>, total: int)
      ensures missing == FirstMissing(products, items)
      ensures missing.None? ==> details == Details(products, items) && total == Total(products, items)
    {
      total := 0;
      details := [];
      for k := 0 to |items|
        invariant FirstMissing(products, items[..k]).None?
        invariant details == Details(products, items[..k]) && total == Total(products, items[..k])
      {
        assert items[..k + 1][..k] == items[..k];
        var product := Lookup(products, items[k].productId);
        if product.None? {
          assert FirstMissing(products, items[..k + 1]) == Some(k);
          FirstMissingPrefix(products, items, k + 1);
          return Some(k), details, total;
        }
        var lineTotal := product.value.price * items[k].quantity;
        total := total + lineTotal;
        details := details + [LineDetail(product.value.id, product.value.name, items[k].quantity,
                                         product.value.price, lineTotal)];
      }
      assert items[..|items|] == items;
      missing := None;
    }

    /** The last loop of `createOrder`: one `updateStock` per line. */
    method DecrementStock(items: seq<Item>)
      modifies this`products
      ensures products == ApplyOrder(old(products), items)
    {
      for k := 0 to |items|
        invariant products == ApplyOrder(old(products), items[..k])
      {
        assert items[..k + 1][..k] == items[..k];
        var _ := UpdateStock(items[k].productId, -items[k].quantity);
      }
      assert items[..|items|] == items;
    }

    /** `createOrder`. */
    method CreateOrder(businessId: int, customerId: int, items: seq<Item>, deliveryType: string,
                       address: Option<string>) returns (r: Result<Order>)
      requires Valid()
      modifies this
      ensures Valid()
      ensures OrderOutcome(r, products, orders)
              == PlaceOrder(old(products), old(orders), old(nextOrderId), businessId, customerId,
                            items, deliveryType, address)
      ensures r.Ok? ==> nextOrderId == old(nextOrderId) + 1
    {
      var missing, details, total := PriceLines(items);
      if missing.Some? {
        return Err(MissingMessage(items[missing.value].productId));
      }
      var check := CheckStock(items);
      if exists i | 0 <= i < |check| :: !check[i].available {
        return Err(OutOfStock);
      }
      var order := Order(nextOrderId, businessId, customerId, details, total, deliveryType, address, "pending");
      orders := orders + [order];
      nextOrderId := nextOrderId + 1;
      DecrementStock(items);
      r := Ok(order);
    }

    /** `updateOrderStatus`. */
    method UpdateOrderStatus(id: nat, status: string) returns (changes: nat)
      modifies this`orders
      ensures orders == OrderWithStatus(old(orders), id, status)
      ensures changes > 0 <==> exists i | 0 <= i < |old(orders)| :: old(orders)[i].id == id
    {
      changes := CountOrderId(orders, id);
      orders := OrderWithStatus(orders, id, status);
    }
  }

  /** A missing product among the first `n` lines is the first missing one of all. */
  lemma {:induction false} FirstMissingPrefix(ps: seq<Product>, items: seq<Item>, n: nat)
    requires n <= |items| && FirstMissing(ps, items[..n]).Some?
    ensures FirstMissing(ps, items) == FirstMissing(ps, items[..n])
    decreases |items| - n
  {
    if n < |items| {
      assert items[..n + 1][..n] == items[..n];
      FirstMissingPrefix(ps, items, n + 1);
    } else {
      assert items[..n] == items;
    }
  }

  /** `formatProductCatalog`'s grouping loop: the categories in first-appearance
      order and each one's products. */
  method GroupByCategory(ps: seq<Product>) returns (order: seq<string>, byCategory: map<string, seq<Product>>)
    ensures order == CategoryOrder(ps) && byCategory == Groups(ps)
  {
    order := [];
    byCategory := map[];
    for k := 0 to |ps|
      invariant order == CategoryOrder(ps[..k]) && byCategory == Groups(ps[..k])
    {
      assert ps[..k + 1][..k] == ps[..k];
      var cat := Label(ps[k]);
      if cat !in byCategory {
        byCategory := byCategory[cat := []];
      }
      if cat !in order {
        order := order + [cat];
      }
      byCategory := byCategory[cat := byCategory[cat] + [ps[k]]];
    }
    assert ps[..|ps|] == ps;
  }
}
