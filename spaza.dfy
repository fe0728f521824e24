/** The spaza shop's keyword handler: the branch a message takes, the order
    lines it accepts, the delivery details it reads, the stock inquiry, and
    the order it creates. */
module Spaza {
  import opened Wrappers
  import opened Text
  import opened Lang
  import opened Products
  import opened Outbound
  import opened Generic
  import opened ServiceBooking

  // -------------------------------------------------------- classification

  const CatalogWords := ["menu", "product", "catalog", "list", "price"]
  const HoursWords := ["hour", "open", "close", "time"]
  const BuyWords := ["buy", "purchase"]
  const OrdersWords := ["my order", "my purchase"]
  const DeliveryWords := ["delivery", "deliver"]
  const StockWords := ["stock", "available", "have"]

  /** An order starts with "order" or "i want", or mentions buying. */
  predicate IsOrderRequest(text: string) {
    StartsWith(text, "order") || MentionsAny(text, BuyWords) || StartsWith(text, "i want")
  }

  /** The branches of `handleMessage`. */
  datatype Intent = CatalogIntent | HoursIntent | OrderIntent | OrdersIntent | DeliveryIntent
                  | StockIntent | NoIntent

  /** The `if` chain of `handleMessage` on the lower-cased, trimmed text: the
      first branch whose keywords match wins. */
  function Classify(text: string): (r: Intent)
    ensures r == CatalogIntent <==> MentionsAny(text, CatalogWords)
    ensures r == HoursIntent <==> !MentionsAny(text, CatalogWords) && MentionsAny(text, HoursWords)
    ensures r == OrderIntent <==> !MentionsAny(text, CatalogWords) && !MentionsAny(text, HoursWords)
                                  && IsOrderRequest(text)
    ensures r == OrdersIntent <==> !MentionsAny(text, CatalogWords) && !MentionsAny(text, HoursWords)
                                   && !IsOrderRequest(text) && MentionsAny(text, OrdersWords)
    ensures r == DeliveryIntent <==> !MentionsAny(text, CatalogWords) && !MentionsAny(text, HoursWords)
                                     && !IsOrderRequest(text) && !MentionsAny(text, OrdersWords)
                                     && MentionsAny(text, DeliveryWords)
    ensures r == StockIntent <==> !MentionsAny(text, CatalogWords) && !MentionsAny(text, HoursWords)
                                  && !IsOrderRequest(text) && !MentionsAny(text, OrdersWords)
                                  && !MentionsAny(text, DeliveryWords) && MentionsAny(text, StockWords)
    ensures r == NoIntent <==> !MentionsAny(text, CatalogWords) && !MentionsAny(text, HoursWords)
                               && !IsOrderRequest(text) && !MentionsAny(text, OrdersWords)
                               && !MentionsAny(text, DeliveryWords) && !MentionsAny(text, StockWords)
  {
    if MentionsAny(text, CatalogWords) then CatalogIntent
    else if MentionsAny(text, HoursWords) then HoursIntent
    else if IsOrderRequest(text) then OrderIntent
    else if MentionsAny(text, OrdersWords) then OrdersIntent
    else if MentionsAny(text, DeliveryWords) then DeliveryIntent
    else if MentionsAny(text, StockWords) then StockIntent
    else NoIntent
  }

  /** "my purchase" already mentions a purchase, so it is taken as an order
      and never reaches the order list; only "my order" does. */
  lemma MyPurchaseIsOrder(text: string)
    requires Contains(text, "my purchase")
    ensures Classify(text) in {CatalogIntent, HoursIntent, OrderIntent}
  {
    assert "my purchase"[3..3 + |"purchase"|] == "purchase";
    assert OccursAt("my purchase", "purchase", 3);
    ContainsTransitive(text, "my purchase", "purchase");
    assert BuyWords[1] == "purchase";
  }

  /** "delivery" contains "deliver", so the two-word test is the test for
      "deliver" alone. */
  lemma DeliverIsEnough(text: string)
    ensures MentionsAny(text, DeliveryWords) <==> Contains(text, "deliver")
    ensures Contains(text, "delivery") || Contains(text, "deliver") <==> Contains(text, "deliver")
  {
    assert "delivery"[..|"deliver"|] == "deliver";
    assert OccursAt("delivery", "deliver", 0);
    if Contains(text, "delivery") {
      ContainsTransitive(text, "delivery", "deliver");
    }
    if Contains(text, "deliver") {
      assert DeliveryWords[1] == "deliver";
    }
  }

  // ------------------------------------------------------ matching products

  /** The product test of `products.find`: the lower-cased name contains the
      query, or the query contains the name's first word. */
  predicate Matches(p: Product, query: string) {
    Contains(ToLower(p.name), query) || Contains(query, FirstWord(ToLower(p.name)))
  }

  /** The position of the first matching product. */
  function FindIndex(ps: seq<Product>, query: string): (r: Option<nat>)
    ensures r.Some? ==> r.value < |ps| && Matches(ps[r.value], query)
                        && forall j | 0 <= j < r.value :: !Matches(ps[j], query)
    ensures r.None? ==> forall j | 0 <= j < |ps| :: !Matches(ps[j], query)
  {
    if ps == [] then None
    else if Matches(ps[0], query) then Some(0)
    else
      var rest := FindIndex(ps[1..], query);
      assert forall j | 1 <= j < |ps| :: ps[1..][j - 1] == ps[j];
      match rest
      case None => None
      case Some(k) => Some(k + 1)
  }

  /** `products.find(...)`: the first matching product. */
  function FindProduct(ps: seq<Product>, query: string): (r: Option<Product>)
    ensures r.None? <==> forall i | 0 <= i < |ps| :: !Matches(ps[i], query)
    ensures r.Some? ==> exists i | 0 <= i < |ps| :: ps[i] == r.value && Matches(ps[i], query)
                          && forall j | 0 <= j < i :: !Matches(ps[j], query)
  {
    match FindIndex(ps, query)
    case None => None
    case Some(k) => Some(ps[k])
  }

  /** A product whose name begins with a space has an empty first word, and
      the empty word is contained in every query. */
  lemma EmptyFirstWordMatchesAll(p: Product, query: string)
    requires |p.name| > 0 && p.name[0] == ' '
    ensures Matches(p, query)
  {
    assert ToLower(p.name)[0] == LowerChar(' ');
    assert |FirstWord(ToLower(p.name))| == 0;
    assert OccursAt(query, [], 0);
  }

  // ------------------------------------------------------------- order lines

  /** A `(quantity, name)` pair taken from the lower-cased order text by one
      of the three patterns; the quantity is `NaN` (None) when `parseInt`
      was handed the word, as the `word x 2` pattern does. */
  datatype Candidate = Candidate(quantity: Option<nat>, name: string)

  /** One pair: accepted when a product matches and has at least that
      quantity in stock. */
  function Accept(ps: seq<Product>, c: Candidate): (r: Option<Item>)
    ensures r.Some? <==> c.quantity.Some? && FindProduct(ps, ToLower(c.name)).Some?
                         && FindProduct(ps, ToLower(c.name)).value.stock >= c.quantity.value
    ensures r.Some? ==> r.value == Item(FindProduct(ps, ToLower(c.name)).value.id, c.quantity.value)
  {
    match c.quantity
    case None => None
    case Some(q) =>
      match FindProduct(ps, ToLower(c.name))
      case None => None
      case Some(p) => if p.stock >= q then Some(Item(p.id, q)) else None
  }

  /** `orderItems`: the accepted pairs, in order. */
  function Accepted(ps: seq<Product>, cs: seq<Candidate>): (r: seq<Item>)
    ensures |r| <= |cs|
    ensures r == [] <==> forall k | 0 <= k < |cs| :: Accept(ps, cs[k]).None?
  {
    if cs == [] then []
    else
      var front := Accepted(ps, cs[..|cs| - 1]);
      assert forall k | 0 <= k < |cs| - 1 :: cs[..|cs| - 1][k] == cs[k];
      match Accept(ps, cs[|cs| - 1])
      case Some(item) => front + [item]
      case None => front
  }

  /** One more pair adds its line exactly when it is accepted. */
  lemma AcceptedStep(ps: seq<Product>, cs: seq<Candidate>, c: Candidate)
    ensures Accepted(ps, cs + [c])
            == Accepted(ps, cs) + (if Accept(ps, c).Some? then [Accept(ps, c).value] else [])
  {
    assert (cs + [c])[..|cs + [c]| - 1] == cs;
  }

  /** Every accepted line comes from some pair: a listed product with at least
      the line's quantity in stock. */
  lemma {:induction false} AcceptedInStock(ps: seq<Product>, cs: seq<Candidate>)
    ensures forall k | 0 <= k < |Accepted(ps, cs)| ::
              exists p | p in ps :: p.id == Accepted(ps, cs)[k].productId
                                    && p.stock >= Accepted(ps, cs)[k].quantity >= 0
  {
    if cs != [] {
      var front := cs[..|cs| - 1];
      AcceptedInStock(ps, front);
      var c := cs[|cs| - 1];
      var r := Accepted(ps, cs);
      forall k | 0 <= k < |r|
        ensures exists p | p in ps :: p.id == r[k].productId && p.stock >= r[k].quantity >= 0
      {
        if k < |Accepted(ps, front)| {
          assert r[k] == Accepted(ps, front)[k];
        } else {
          var p := FindProduct(ps, ToLower(c.name)).value;
          assert r[k] == Item(p.id, c.quantity.value);
          assert p in ps;
        }
      }
    } else {
      assert Accepted(ps, cs) == [];
    }
  }

  /** No pair is accepted when no product matches any name. */
  lemma {:induction false} NothingMatchesNothingAccepted(ps: seq<Product>, cs: seq<Candidate>)
    requires forall k, i | 0 <= k < |cs| && 0 <= i < |ps| :: !Matches(ps[i], ToLower(cs[k].name))
    ensures Accepted(ps, cs) == []
  {
    if cs != [] {
      NothingMatchesNothingAccepted(ps, cs[..|cs| - 1]);
      assert FindProduct(ps, ToLower(cs[|cs| - 1].name)).None?;
    }
  }

  /** The `pattern.exec` loops of `handleOrderRequest`, over the pairs. */
  method AcceptLines(ps: seq<Product>, cs: seq<Candidate>) returns (items: seq<Item>)
    ensures items == Accepted(ps, cs)
  {
    items := [];
    for k := 0 to |cs|
      invariant items == Accepted(ps, cs[..k])
    {
      assert cs[..k + 1][..k] == cs[..k];
      if cs[k].quantity.Some? {
        var product := FindProduct(ps, ToLower(cs[k].name));
        if product.Some? && product.value.stock >= cs[k].quantity.value {
          items := items + [Item(product.value.id, cs[k].quantity.value)];
        }
      }
    }
    assert cs[..|cs|] == cs;
  }

  // --------------------------------------------------------- delivery details

  const Delivery := "delivery"
  const Pickup := "pickup"

  /** `deliveryType`, read from the lower-cased text. */
  function DeliveryType(text: string): (r: string)
    ensures r == Delivery <==> Contains(text, "deliver")
    ensures r == Delivery || r == Pickup
  {
    DeliverIsEnough(text);
    if Contains(text, "delivery") || Contains(text, "deliver") then Delivery else Pickup
  }

  /** The separators of `[:\s]`, and the line terminators `.` stops at. */
  predicate Separator(c: char) {
    c == ':' || IsSpace(c)
  }

  predicate LineTerminator(c: char) {
    c == '\n' || c == '\r' || c == '\U{2028}' || c == '\U{2029}'
  }

  /** The end of the run of separators starting at `j`. */
  function SeparatorsEnd(s: string, j: nat): (r: nat)
    requires j <= |s|
    ensures j <= r <= |s|
    ensures forall k | j <= k < r :: Separator(s[k])
    ensures r < |s| ==> !Separator(s[r])
    decreases |s| - j
  {
    if j < |s| && Separator(s[j]) then SeparatorsEnd(s, j + 1) else j
  }

  /** The end of the line starting at `p`. */
  function LineEnd(s: string, p: nat): (r: nat)
    requires p <= |s|
    ensures p <= r <= |s|
    ensures forall k | p <= k < r :: !LineTerminator(s[k])
    ensures r < |s| ==> LineTerminator(s[r])
    decreases |s| - p
  {
    if p < |s| && !LineTerminator(s[p]) then LineEnd(s, p + 1) else p
  }

  /** Where `(.+)` starts once `[:\s]+` has taken `s[j..k]` and given back
      what it must: the last position in `(j, k]` holding a character that
      is not a line terminator. */
  function CaptureStart(s: string, j: nat, k: nat): (r: Option<nat>)
    requires k <= |s|
    ensures r.Some? ==> j < r.value <= k && r.value < |s| && !LineTerminator(s[r.value])
    decreases k
  {
    if k <= j then None
    else if k < |s| && !LineTerminator(s[k]) then Some(k)
    else CaptureStart(s, j, k - 1)
  }

  const AddressWord := "address"

  /** The group of `/address[:\s]+(.+)/` for a match of "address" at `i`. */
  function CaptureAt(s: string, i: nat): (r: Option<string>)
    requires i + |AddressWord| <= |s|
    ensures r.Some? ==> |r.value| > 0 && forall k | 0 <= k < |r.value| :: !LineTerminator(r.value[k])
  {
    var j := i + |AddressWord|;
    var k := SeparatorsEnd(s, j);
    if k == j then None
    else
      match CaptureStart(s, j, k)
      case None => None
      case Some(p) => Some(s[p..LineEnd(s, p)])
  }

  /** The leftmost match, case-insensitively, at or after `i`. */
  function AddressFrom(s: string, i: nat): (r: Option<string>)
    requires i <= |s|
    ensures r.Some? ==> |r.value| > 0 && forall k | 0 <= k < |r.value| :: !LineTerminator(r.value[k])
    decreases |s| - i
  {
    if i + |AddressWord| > |s| then None
    else if OccursAt(ToLower(s), AddressWord, i) && CaptureAt(s, i).Some? then CaptureAt(s, i)
    else AddressFrom(s, i + 1)
  }

  /** The trimmed address group, when the text has one. */
  function DeliveryAddress(messageText: string): (r: Option<string>)
    ensures r.Some? ==> forall k | 0 <= k < |r.value| :: !LineTerminator(r.value[k])
  {
    match AddressFrom(messageText, 0)
    case None => None
    case Some(c) =>
      TrimKeeps(c);
      Some(Trim(c))
  }

  /** Trimming only removes characters. */
  lemma TrimKeeps(s: string)
    ensures forall k | 0 <= k < |Trim(s)| :: Trim(s)[k] in s
  {
    var t := TrimStart(s);
    assert t == s[|s| - |t|..];
    assert Trim(s) == TrimEnd(t);
    assert Trim(s) == t[..|Trim(s)|];
    forall k | 0 <= k < |Trim(s)| ensures Trim(s)[k] in s {
      assert Trim(s)[k] == s[|s| - |t| + k];
    }
  }

  /** What `handleOrderRequest` decides before creating the order. */
  datatype OrderPlan = NoItems | PlaceItems(items: seq<Item>, deliveryType: string, address: Option<string>)

  /** The accepted lines; when there are any, the delivery type, and the
      address for a delivery only. */
  function PlanOrder(ps: seq<Product>, cs: seq<Candidate>, messageText: string): (r: OrderPlan)
    ensures r.NoItems? <==> Accepted(ps, cs) == []
    ensures r.PlaceItems? ==> r.items == Accepted(ps, cs)
                              && (r.deliveryType == Delivery <==> Contains(ToLower(messageText), "deliver"))
                              && (r.deliveryType == Pickup ==> r.address.None?)
                              && (r.deliveryType == Delivery ==> r.address == DeliveryAddress(messageText))
  {
    var items := Accepted(ps, cs);
    if items == [] then NoItems
    else
      var deliveryType := DeliveryType(ToLower(messageText));
      PlaceItems(items, deliveryType, if deliveryType == Delivery then DeliveryAddress(messageText) else None)
  }

  /** With product ids unique in the table, every accepted order is created:
      each line's product exists and has its quantity, so neither error reply
      of `handleOrderRequest` can be reached. */
  lemma AcceptedAlwaysCreated(ps: seq<Product>, os: seq<Order>, nextId: nat, businessId: int, customerId: int,
                              cs: seq<Candidate>, deliveryType: string, address: Option<string>)
    requires forall j, k | 0 <= j < k < |ps| :: ps[j].id != ps[k].id
    ensures PlaceOrder(ps, os, nextId, businessId, customerId, Accepted(GetProducts(ps, businessId, AllProducts), cs),
                       deliveryType, address).result.Ok?
  {
    var listed := GetProducts(ps, businessId, AllProducts);
    var items := Accepted(listed, cs);
    AcceptedInStock(listed, cs);
    forall k | 0 <= k < |items|
      ensures Products.Lookup(ps, items[k].productId).Some?
      ensures Products.Lookup(ps, items[k].productId).value.stock >= items[k].quantity
    {
      var p :| p in listed && p.id == items[k].productId && p.stock >= items[k].quantity;
      assert multiset(listed)[p] > 0;
      assert p in multiset(ps);
      var i :| 0 <= i < |ps| && ps[i] == p;
      LookupUnique(ps, i);
    }
    assert FirstMissing(ps, items).None?;
    assert AllInStock(ps, items);
  }

  const AllProducts := ProductFilters("", None)
  const InStockOnly := ProductFilters("", Some(true))

  // -------------------------------------------------------- order replies

  function OrderUsage(code: string): string {
    match Resolve(code)
    case "af" => "Om 'n bestelling te plaas, spesifiseer asseblief items en hoeveelhede."
    case "xh" => "Ukubeka umyalelo, nceda cazulula izinto kunye neembalo."
    case "zu" => "Ukubeka i-oda, sicela unikeze izinto kanye nezinga."
    case "st" => "Ho beha taelo, ka kopo fana ka lihlahisoa le palo."
    case _ => OrderUsageEn
  }

  const OrderUsageEn := "To place an order, please specify items and quantities.\n\nExample: \"order 2 bread, 1 milk, 3 eggs\"\n\nOr reply \"menu\" to see available products."

  const SorryStock := "Sorry, some items are out of stock. Reply \"menu\" to see current stock."
  const SorryError := "Sorry, there was an error processing your order. Please try again."

  /** `toFixed(2)` of an amount in cents. */
  function PriceText(cents: int): string {
    if cents < 0 then "-" + Money(-cents) else Money(cents)
  }

  const CreatedHead := "✅ Order Created!\n\nOrder #"
  const ItemsHead := "\n\nItems:\n"
  const Bullet := "• "
  const Times := " x"
  const DashR := " - R"
  const Newline := "\n"
  const TotalHead := "\nTotal: R"
  const DeliveryHead := "Delivery: "
  const AddressHead := "Address: "
  const StatusHead := "\nStatus: "
  const CreatedTail := "\n\nWe'll notify you when your order is ready!"

  /** One `• name xN - Rtotal` line. */
  function ItemLine(d: LineDetail): string {
    Bullet + d.name + Times + IntToString(d.quantity) + DashR + PriceText(d.total) + Newline
  }

  function ItemLines(ds: seq<LineDetail>): string {
    if ds == [] then "" else ItemLines(ds[..|ds| - 1]) + ItemLine(ds[|ds| - 1])
  }

  /** The address line appears only for a non-empty address. */
  function AddressLine(address: Option<string>): string {
    if address.Some? && address.value != "" then AddressHead + address.value + Newline else ""
  }

  function ConfirmationHead(o: Order): string {
    CreatedHead + NatToString(o.id) + ItemsHead
  }

  function ConfirmationTail(o: Order, deliveryType: string, address: Option<string>): string {
    TotalHead + PriceText(o.total) + Newline + DeliveryHead + deliveryType + Newline + AddressLine(address)
    + StatusHead + o.status + CreatedTail
  }

  /** The confirmation of a created order. */
  function Confirmation(o: Order, deliveryType: string, address: Option<string>): string {
    ConfirmationHead(o) + ItemLines(o.items) + ConfirmationTail(o, deliveryType, address)
  }

  lemma ItemLinesStep(ds: seq<LineDetail>, k: nat)
    requires k < |ds|
    ensures ItemLines(ds[..k + 1]) == ItemLines(ds[..k]) + ItemLine(ds[k])
  {
    assert ds[..k + 1][..k] == ds[..k];
  }

  /** A line names its product. */
  lemma ItemLineNames(d: LineDetail)
    ensures Contains(ItemLine(d), d.name)
  {
    var rest := Times + IntToString(d.quantity) + DashR + PriceText(d.total) + Newline;
    assert ItemLine(d) == Bullet + d.name + rest;
    ContainsInfix(Bullet, d.name, rest);
  }

  /** Every line of the order, with its product's name, is in the lines. */
  lemma {:induction false} ItemLinesListEveryItem(ds: seq<LineDetail>, i: nat)
    requires i < |ds|
    ensures Contains(ItemLines(ds), ItemLine(ds[i]))
  {
    var front := ds[..|ds| - 1];
    var last := ItemLine(ds[|ds| - 1]);
    assert ItemLines(ds) == ItemLines(front) + last;
    if i == |ds| - 1 {
      assert ItemLines(front) + last == ItemLines(front) + last + "";
      ContainsInfix(ItemLines(front), last, "");
    } else {
      assert front[i] == ds[i];
      ItemLinesListEveryItem(front, i);
      assert (ItemLines(front) + last)[..|ItemLines(front)|] == ItemLines(front);
      StartsWithContains(ItemLines(ds), ItemLines(front));
      ContainsTransitive(ItemLines(ds), ItemLines(front), ItemLine(ds[i]));
    }
  }

  /** The confirmation names every product of the order, and the address of
      a delivery. */
  lemma ConfirmationMentionsItems(o: Order, deliveryType: string, address: Option<string>, i: nat)
    requires i < |o.items|
    ensures Contains(Confirmation(o, deliveryType, address), o.items[i].name)
  {
    ItemLinesListEveryItem(o.items, i);
    ItemLineNames(o.items[i]);
    ContainsTransitive(ItemLines(o.items), ItemLine(o.items[i]), o.items[i].name);
    ContainsInfix(ConfirmationHead(o), ItemLines(o.items), ConfirmationTail(o, deliveryType, address));
    ContainsTransitive(Confirmation(o, deliveryType, address), ItemLines(o.items), o.items[i].name);
  }

  /** The `order.items.forEach` loop building the confirmation. */
  method BuildConfirmation(o: Order, deliveryType: string, address: Option<string>) returns (text: string)
    ensures text == Confirmation(o, deliveryType, address)
  {
    var lines := "";
    for k := 0 to |o.items|
      invariant lines == ItemLines(o.items[..k])
    {
      ItemLinesStep(o.items, k);
      lines := lines + ItemLine(o.items[k]);
    }
    assert o.items[..|o.items|] == o.items;
    text := ConfirmationHead(o) + lines + ConfirmationTail(o, deliveryType, address);
  }

  /** The reply to a failed `createOrder`: the stock apology when its message
      mentions "out of stock", else the generic one. */
  function FailureReply(error: string): string {
    if Contains(error, "out of stock") then SorryStock else SorryError
  }

  /** The effect of `handleOrderRequest` from the tables and the log before
      (`...0`) to after (`...1`). */
  predicate OrderEffect(plan: OrderPlan, products0: seq<Product>, orders0: seq<Order>, next0: nat, log0: seq<Entry>,
                        products1: seq<Product>, orders1: seq<Order>, next1: nat, log1: seq<Entry>, env: Env,
                        business: Business, customer: Customer, lang: string, reply: string) {
    match plan
    case NoItems =>
      reply == OrderUsage(lang) && products1 == products0 && orders1 == orders0 && next1 == next0 && log1 == log0
    case PlaceItems(items, deliveryType, address) =>
      var out := PlaceOrder(products0, orders0, next0, business.id, customer.id, items, deliveryType, address);
      products1 == out.products && orders1 == out.orders
      && (out.result.Ok? ==>
            reply == Confirmation(out.result.value, deliveryType, address)
            && log1 == log0 + PostGeneric(env, customer.phone, reply, Some(business.id)).entries)
      && (out.result.Err? ==> reply == FailureReply(out.result.error) && log1 == log0)
  }

  /** `handleOrderRequest`: `cs` are the pairs the patterns found. With no
      accepted line nothing changes; otherwise the order is created as
      `createOrder` does, and its confirmation is sent and returned. */
  method HandleOrderRequest(store: Store, outbox: Outbox, business: Business, customer: Customer,
                            messageText: string, cs: seq<Candidate>, lang: string) returns (reply: string)
    requires store.Valid()
    modifies store, outbox`log
    ensures store.Valid()
    ensures OrderEffect(PlanOrder(GetProducts(old(store.products), business.id, AllProducts), cs, messageText),
                        old(store.products), old(store.orders), old(store.nextOrderId), old(outbox.log),
                        store.products, store.orders, store.nextOrderId, outbox.log, outbox.env,
                        business, customer, lang, reply)
  {
    var products := GetProducts(store.products, business.id, AllProducts);
    var items := AcceptLines(products, cs);
    if |items| == 0 {
      return OrderUsage(lang);
    }
    var deliveryType := DeliveryType(ToLower(messageText));
    var deliveryAddress := None;
    if deliveryType == Delivery {
      deliveryAddress := DeliveryAddress(messageText);
    }
    var order := store.CreateOrder(business.id, customer.id, items, deliveryType, deliveryAddress);
    if order.Err? {
      return FailureReply(order.error);
    }
    reply := BuildConfirmation(order.value, deliveryType, deliveryAddress);
    var _ := outbox.SendWhatsAppMessage(customer.phone, reply, Some(business.id));
  }

  // ---------------------------------------------------------- stock inquiry

  /** The keywords `text.replace(/stock|available|have|do you/i, '')` tries,
      in the order the alternation does. */
  const QueryKeywords := ["stock", "available", "have", "do you"]

  /** The first alternative that matches at `i`. */
  function KeywordAt(s: string, i: nat): (r: Option<nat>)
    ensures r.Some? ==> r.value < |QueryKeywords| && OccursAt(s, QueryKeywords[r.value], i)
                        && forall w | 0 <= w < r.value :: !OccursAt(s, QueryKeywords[w], i)
    ensures r.None? ==> forall w | 0 <= w < |QueryKeywords| :: !OccursAt(s, QueryKeywords[w], i)
  {
    if OccursAt(s, QueryKeywords[0], i) then Some(0)
    else if OccursAt(s, QueryKeywords[1], i) then Some(1)
    else if OccursAt(s, QueryKeywords[2], i) then Some(2)
    else if OccursAt(s, QueryKeywords[3], i) then Some(3)
    else None
  }

  /** The leftmost position at or after `i` where an alternative matches. */
  function FirstKeyword(s: string, i: nat): (r: Option<nat>)
    requires i <= |s|
    ensures r.Some? ==> i <= r.value <= |s| && KeywordAt(s, r.value).Some?
                        && forall j | i <= j < r.value :: KeywordAt(s, j).None?
    ensures r.None? ==> forall j | i <= j <= |s| :: KeywordAt(s, j).None?
    decreases |s| - i
  {
    if KeywordAt(s, i).Some? then Some(i)
    else if i == |s| then None
    else FirstKeyword(s, i + 1)
  }

  /** The text with the first keyword match removed (one match: the pattern
      is not global). */
  function RemoveKeyword(s: string): (r: string)
    ensures FirstKeyword(s, 0).None? ==> r == s
    ensures FirstKeyword(s, 0).Some? ==>
              var i := FirstKeyword(s, 0).value;
              var w := QueryKeywords[KeywordAt(s, i).value];
              r == s[..i] + s[i + |w|..]
  {
    match FirstKeyword(s, 0)
    case None => s
    case Some(i) => s[..i] + s[i + |QueryKeywords[KeywordAt(s, i).value]|..]
  }

  /** What the stock branch asks about. */
  function StockQuery(text: string): string {
    Trim(RemoveKeyword(text))
  }

  /** A text that mentions a keyword loses exactly one keyword's length
      before trimming. */
  lemma RemoveKeywordLength(text: string)
    requires MentionsAny(text, StockWords)
    ensures exists w | 0 <= w < |QueryKeywords| :: |RemoveKeyword(text)| == |text| - |QueryKeywords[w]|
  {
    var k :| 0 <= k < |StockWords| && Contains(text, StockWords[k]);
    var i: nat :| i <= |text| && OccursAt(text, StockWords[k], i);
    assert QueryKeywords[k] == StockWords[k];
    assert KeywordAt(text, i).Some?;
    var j := FirstKeyword(text, 0).value;
    var w := KeywordAt(text, j).value;
    assert OccursAt(text, QueryKeywords[w], j);
  }

  const SpecifyProduct := "Please specify which product you want to check. Example: \"stock bread\""
  const NotFoundHead := "Product \""
  const NotFoundTail := "\" not found. Reply \"menu\" to see all products."
  const Tick := "✅ "
  const Cross := "❌ "

  /** The pieces of the in-stock text around the price and the stock. */
  function InStockParts(code: string): (string, string, string) {
    match Resolve(code)
    case "af" => (" is beskikbaar!\n\nPrys: R", "\nVoorraad: ", " eenhede")
    case "xh" => (" ifumaneka!\n\nImali: R", "\nIsitokhwe: ", "")
    case "zu" => (" iyatholakala!\n\nInani: R", "\nIsitokhwe: ", "")
    case "st" => (" e fumaneha!\n\nTheko: R", "\nSefate: ", "")
    case _ => (" is available!\n\nPrice: R", "\nStock: ", " units")
  }

  function InStockRest(code: string, p: Product): string {
    var parts := InStockParts(code);
    parts.0 + PriceText(p.price) + parts.1 + IntToString(p.stock) + parts.2
  }

  function InStockText(code: string, p: Product): string {
    Tick + p.name + InStockRest(code, p)
  }

  const OutEnMid := " is currently out of stock.\n\nPrice: R"
  const OutEnTail := "\nWe'll restock soon!"

  /** Only the English out-of-stock text shows the price. */
  function OutOfStockRest(code: string, p: Product): string {
    match Resolve(code)
    case "af" => " is tans uit voorraad."
    case "xh" => " ayikho ngoku."
    case "zu" => " ayikho njengamanje."
    case "st" => " ha e se na hajoale."
    case _ => OutEnMid + PriceText(p.price) + OutEnTail
  }

  function OutOfStockText(code: string, p: Product): string {
    Cross + p.name + OutOfStockRest(code, p)
  }

  /** `handleStockInquiry` over the business's products. */
  function StockAnswer(ps: seq<Product>, query: string, code: string): string {
    match FindProduct(ps, query)
    case None => NotFoundHead + query + NotFoundTail
    case Some(p) => if p.stock > 0 then InStockText(code, p) else OutOfStockText(code, p)
  }

  /** The answer repeats the query when no product matches. */
  lemma NotFoundRepeatsQuery(ps: seq<Product>, query: string, code: string)
    requires FindProduct(ps, query).None?
    ensures Contains(StockAnswer(ps, query, code), query)
  {
    ContainsInfix(NotFoundHead, query, NotFoundTail);
  }

  /** The answer names the product found, and it is the in-stock text exactly
      when the stock is positive. */
  lemma StockAnswerFacts(ps: seq<Product>, query: string, code: string)
    requires FindProduct(ps, query).Some?
    ensures var p := FindProduct(ps, query).value;
            Contains(StockAnswer(ps, query, code), p.name)
            && (StockAnswer(ps, query, code) == InStockText(code, p) <==> p.stock > 0)
  {
    var p := FindProduct(ps, query).value;
    ContainsInfix(Tick, p.name, InStockRest(code, p));
    ContainsInfix(Cross, p.name, OutOfStockRest(code, p));
    assert InStockText(code, p)[0] == Tick[0];
    assert OutOfStockText(code, p)[0] == Cross[0];
  }

  // ---------------------------------------------------------- delivery info

  function DeliveryInfo(code: string): string {
    match Resolve(code)
    case "af" => "📦 Aflewering Inligting:\n\n• Minimum bestelling: R100\n• Aflewering fooi: R20\n• Aflewering beskikbaar binne 5km radius"
    case "xh" => "📦 Ulwazi Lweendleko:\n\n• Umyalelo ophantsi: R100\n• Imali yendleko: R20"
    case "zu" => "📦 Ulwazi Lokulethwa:\n\n• Oda eliphansi: R100\n• Imali yokulethwa: R20"
    case "st" => "📦 Tlhahisoleseding ea Ho Fetisetsa:\n\n• Taolo e tlase: R100\n• Teefo ea ho fetisetsa: R20"
    case _ => DeliveryInfoEn
  }

  const DeliveryInfoEn := "📦 Delivery Information:\n\n• Minimum order: R100\n• Delivery fee: R20\n• Delivery available within 5km radius\n• Same day delivery for orders before 3pm\n\nReply \"order\" to place an order."

  /** A language without texts gets the English ones. */
  lemma UnknownLanguageEnglish(code: string)
    requires !Known(code)
    ensures OrderUsage(code) == OrderUsageEn && DeliveryInfo(code) == DeliveryInfoEn
  {
  }

  // ------------------------------------------------------------- the handler

  /** What `handleMessage` resolves with: a text, the in-stock catalog or the
      customer's orders (whose rendering is not modelled), a throw, or `null`. */
  datatype Reply = Said(text: string) | CatalogOf(products: seq<Product>, language: string)
                 | OrdersOf(customerId: int, language: string) | Threw(error: string) | NoReply

  /** The replies of the branches that change nothing. */
  function Answer(intent: Intent, text: string, lang: string, business: Business, customer: Customer,
                  ps: seq<Product>): Reply {
    match intent
    case CatalogIntent => CatalogOf(GetProducts(ps, business.id, InStockOnly), lang)
    case HoursIntent =>
      (match HoursReply(business)
       case Ok(h) => if h.Some? then Said(h.value) else NoReply
       case Err(e) => Threw(e))
    case OrdersIntent => OrdersOf(customer.id, lang)
    case DeliveryIntent => Said(DeliveryInfo(lang))
    case StockIntent =>
      var query := StockQuery(text);
      if query == "" then Said(SpecifyProduct)
      else Said(StockAnswer(GetProducts(ps, business.id, AllProducts), query, lang))
    case _ => NoReply
  }

  /** `handleMessage(business, customer, messageText)`; `cs` are the pairs the
      order patterns find in the lower-cased text. */
  method HandleMessage(store: Store, outbox: Outbox, business: Business, customer: Customer,
                       messageText: string, cs: seq<Candidate>) returns (reply: Reply)
    requires store.Valid()
    modifies store, outbox`log
    ensures store.Valid()
    ensures var text := Trim(ToLower(messageText));
            var lang := Effective(customer.language, business.language);
            (Classify(text) != OrderIntent ==>
               reply == Answer(Classify(text), text, lang, business, customer, old(store.products))
               && store.products == old(store.products) && store.orders == old(store.orders)
               && store.nextOrderId == old(store.nextOrderId) && outbox.log == old(outbox.log))
            && (Classify(text) == OrderIntent ==>
                  reply.Said?
                  && OrderEffect(PlanOrder(GetProducts(old(store.products), business.id, AllProducts), cs, messageText),
                                 old(store.products), old(store.orders), old(store.nextOrderId), old(outbox.log),
                                 store.products, store.orders, store.nextOrderId, outbox.log, outbox.env,
                                 business, customer, lang, reply.text))
  {
    var text := Trim(ToLower(messageText));
    var language := Effective(customer.language, business.language);
    var intent := Classify(text);
    if intent == OrderIntent {
      var r := HandleOrderRequest(store, outbox, business, customer, messageText, cs, language);
      reply := Said(r);
    } else {
      reply := Respond(store, intent, text, language, business, customer);
    }
  }

  method Respond(store: Store, intent: Intent, text: string, lang: string, business: Business, customer: Customer)
    returns (reply: Reply)
    ensures reply == Answer(intent, text, lang, business, customer, store.products)
  {
    if intent == CatalogIntent {
      reply := CatalogOf(GetProducts(store.products, business.id, InStockOnly), lang);
    } else if intent == HoursIntent {
      var h := GetOperatingHours(business);
      reply := if h.Some? then Said(h.value) else Threw("TypeError");
    } else if intent == OrdersIntent {
      reply := OrdersOf(customer.id, lang);
    } else if intent == DeliveryIntent {
      reply := Said(DeliveryInfo(lang));
    } else if intent == StockIntent {
      var query := StockQuery(text);
      if query != "" {
        reply := Said(StockAnswer(GetProducts(store.products, business.id, AllProducts), query, lang));
      } else {
        reply := Said(SpecifyProduct);
      }
    } else {
      reply := NoReply;
    }
  }
}
