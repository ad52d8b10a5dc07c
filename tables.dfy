/** The shop's tables: how each model's primary key is read and how `setattr`
    writes each model's columns. */
module Tables {
  import opened Wrappers
  import opened Models
  import opened Repository

  /** An optional request field as a keyword-argument value. */
  function OptionalText(o: Option<string>): (v: Value)
    ensures Truthy(v) <==> o.Some? && o.value != ""
  {
    match o
    case None => Null
    case Some(s) => Str(s)
  }

  function OptionalReal(o: Option<real>): (v: Value)
    ensures Truthy(v) <==> o.Some? && o.value != 0.0
  {
    match o
    case None => Null
    case Some(x) => Real(x)
  }

  /** `setattr` on a product: name, base price and description. */
  function SetProductAttr(p: Product, name: string, v: Value): (r: Product)
    ensures r.id == p.id && r.createdAt == p.createdAt
  {
    match v
    case Str(s) =>
      if name == "name" then p.(name := s)
      else if name == "description" then p.(description := Some(s))
      else p
    case Real(x) => if name == "base_price" then p.(basePrice := x) else p
    case _ => p
  }

  /** `setattr` on a group: name and discount. */
  function SetGroupAttr(g: Group, name: string, v: Value): (r: Group)
    ensures r.id == g.id && r.createdAt == g.createdAt
  {
    match v
    case Str(s) => if name == "name" then g.(name := s) else g
    case Real(x) => if name == "discount_percent" then g.(discountPercent := x) else g
    case _ => g
  }

  /** `setattr` on an order: every column but the id, the owner and the creation time. */
  function SetOrderAttr(o: Order, name: string, v: Value): (r: Order)
    ensures r.id == o.id && r.userId == o.userId && r.createdAt == o.createdAt
  {
    match v
    case Str(s) =>
      if name == "shipping_method" then o.(shippingMethod := s)
      else if name == "shipping_location" then o.(shippingLocation := s)
      else if name == "fulfill_status" then o.(fulfillStatus := Some(s))
      else o
    case Real(x) => if name == "total_price" then o.(totalPrice := x) else o
    case Bool(b) => if name == "from_admin" then o.(fromAdmin := b) else o
    case Instant(t) => if name == "fulfill_at" then o.(fulfillAt := Some(t)) else o
    case Null => o
  }

  /** Stores and line items are never updated by the handlers modelled here;
      `setattr` on them leaves them as they are. */
  function KeepStore(s: Store, name: string, v: Value): Store { s }
  function KeepLine(l: OrderProduct, name: string, v: Value): OrderProduct { l }

  ghost predicate GroupTable(t: Table<Id, Group>)
    reads t
  {
    t.Valid() && t.keyOf == GroupKey && t.keyText == IdText && t.setAttr == SetGroupAttr
  }

  ghost predicate ProductTable(t: Table<Id, Product>)
    reads t
  {
    t.Valid() && t.keyOf == ProductKey && t.keyText == IdText && t.setAttr == SetProductAttr
  }

  ghost predicate StoreTable(t: Table<Id, Store>)
    reads t
  {
    t.Valid() && t.keyOf == StoreKey && t.keyText == IdText && t.setAttr == KeepStore
  }

  ghost predicate OrderTable(t: Table<Id, Order>)
    reads t
  {
    t.Valid() && t.keyOf == OrderKey && t.keyText == IdText && t.setAttr == SetOrderAttr
  }

  ghost predicate LineTable(t: Table<LineKey, OrderProduct>)
    reads t
  {
    t.Valid() && t.keyOf == LineKeyOf && t.keyText == LineKeyText && t.setAttr == KeepLine
  }

  /** The foreign keys of `OrderProduct`: every line item refers to an existing
      order and an existing product. */
  predicate LinesReferToRows(orders: seq<Order>, products: seq<Product>, lines: seq<OrderProduct>) {
    forall l :: l in lines ==> HasKey(orders, OrderKey, l.orderId) && HasKey(products, ProductKey, l.productId)
  }

  /** A fresh, empty orders table satisfies the table invariant. */
  method NewOrderTable() returns (t: Table<Id, Order>)
    ensures OrderTable(t) && t.rows == [] && fresh(t)
  {
    t := new Table(OrderKey, IdText, SetOrderAttr);
  }
}
