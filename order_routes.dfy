/** The order endpoints: placing an order, reading and deleting one, and
    fulfilling one (shipping label, customer mail, status update). */
module OrderRoutes {
  import opened Wrappers
  import opened Models
  import opened Repository
  import opened Tables
  import opened UserRepository
  import opened OrderRepository

  // ---- Placing an order ----

  /** The detail of the 404 for an item whose product does not exist. */
  function ProductUnavailable(productId: Id): (d: string)
    ensures |d| == |productId| + 31
    ensures d[..|"Product #"|] == "Product #"
    ensures d[|"Product #"|..|"Product #"| + |productId|] == productId
  {
    "Product #" + productId + " is not available now!"
  }

  /** The first item, in request order, whose product does not exist. */
  function FirstMissingProduct(products: seq<Product>, items: seq<OrderProductRequest>): (r: Option<Id>)
    ensures r.None? <==> forall i :: 0 <= i < |items| ==> HasKey(products, ProductKey, items[i].productId)
    ensures r.Some? ==>
              exists i :: 0 <= i < |items| && items[i].productId == r.value &&
                          !HasKey(products, ProductKey, r.value) &&
                          forall j :: 0 <= j < i ==> HasKey(products, ProductKey, items[j].productId)
  {
    match FirstMatch(items, (it: OrderProductRequest) => !HasKey(products, ProductKey, it.productId))
    case None => None
    case Some(it) => Some(it.productId)
  }

  /** The stock check of `create_order`: `get_by_id` on each item's product,
      in request order, stopping at the first that raises. */
  method CheckProducts(products: Table<Id, Product>, items: seq<OrderProductRequest>) returns (missing: Option<Id>)
    requires ProductTable(products)
    ensures missing == FirstMissingProduct(products.rows, items)
  {
    var i := 0;
    while i < |items|
      invariant 0 <= i <= |items|
      invariant forall j :: 0 <= j < i ==> HasKey(products.rows, ProductKey, items[j].productId)
    {
      if products.GetById(items[i].productId).Err? {
        missing := Some(items[i].productId);
        ghost var first := FirstMissingProduct(products.rows, items);
        assert first.Some?;
        assert first == missing by {
          var k :| 0 <= k < |items| && items[k].productId == first.value &&
                   !HasKey(products.rows, ProductKey, first.value) &&
                   forall j :: 0 <= j < k ==> HasKey(products.rows, ProductKey, items[j].productId);
          assert !(k < i) && !(i < k);
        }
        return;
      }
      i := i + 1;
    }
    missing := None;
  }

  /** `data_to_add`: one line item per request item, for the new order. */
  function LineRows(orderId: Id, items: seq<OrderProductRequest>): (r: seq<OrderProduct>)
    ensures |r| == |items|
    ensures forall i :: 0 <= i < |r| ==> r[i].orderId == orderId
    ensures forall i :: 0 <= i < |r| ==>
              r[i].productId == items[i].productId && r[i].quantity == items[i].quantity
  {
    seq(|items|, i requires 0 <= i < |items| => OrderProduct(orderId, items[i].productId, items[i].quantity))
  }

  /** The sum of the requested quantities. */
  function RequestedQuantity(items: seq<OrderProductRequest>): int {
    if items == [] then 0 else items[0].quantity + RequestedQuantity(items[1..])
  }

  /** The line items of a new order add up to the requested quantities. */
  lemma {:induction false} LineRowsQuantity(orderId: Id, items: seq<OrderProductRequest>)
    ensures TotalQuantity(LineRows(orderId, items), orderId) == RequestedQuantity(items)
  {
    if items != [] {
      assert LineRows(orderId, items)[1..] == LineRows(orderId, items[1..]);
      LineRowsQuantity(orderId, items[1..]);
    }
  }

  /** Once a new order's items are stored, its total quantity in the listing is
      the sum of the requested quantities. */
  lemma NewOrderQuantity(lines: seq<OrderProduct>, orderId: Id, items: seq<OrderProductRequest>)
    requires !HasLines(lines, orderId)
    ensures TotalQuantity(lines + LineRows(orderId, items), orderId) == RequestedQuantity(items)
  {
    TotalQuantityAppend(lines, LineRows(orderId, items), orderId);
    TotalQuantityWithoutLines(lines, orderId);
    LineRowsQuantity(orderId, items);
  }

  /** A customer's new order, once its items are stored, is in their own
      listing with their e-mail and the requested total quantity. */
  lemma NewOrderIsListed(users: seq<User>, orders: seq<Order>, lines: seq<OrderProduct>,
                         customer: User, o: Order, items: seq<OrderProductRequest>)
    requires UniqueKeys(users, UserKey) && customer in users && !customer.isAdmin
    requires o.userId == customer.id && !HasLines(lines, o.id) && items != []
    ensures exists row :: row in ListOrders(users, orders + [o], lines + LineRows(o.id, items), customer) &&
                          row.id == o.id && row.email == customer.email &&
                          row.totalQuantity == RequestedQuantity(items)
  {
    var allOrders, allLines := orders + [o], lines + LineRows(o.id, items);
    assert allLines[|lines|].orderId == o.id;
    var owner := OwnerOf(users, o);
    assert owner == Some(customer) by {
      var i :| 0 <= i < |users| && users[i] == customer;
      var j :| 0 <= j < |users| && users[j] == owner.value;
      assert !(i < j) && !(j < i) by {
        assert UserKey(users[i]) == UserKey(users[j]);
      }
    }
    assert Listed(users, allLines, customer, o);
    NewOrderQuantity(lines, o.id, items);
    assert o in allOrders;
    assert RowOf(users, allLines, o) in ListOrders(users, allOrders, allLines, customer);
  }

  /** No product appears twice in the request. */
  predicate DistinctProducts(items: seq<OrderProductRequest>) {
    forall i, j :: 0 <= i < j < |items| ==> items[i].productId != items[j].productId
  }

  /** The batch insert of a new order's items keeps the (order, product)
      primary key exactly when no product is requested twice. */
  lemma LineBatchIsUnique(lines: seq<OrderProduct>, orderId: Id, items: seq<OrderProductRequest>)
    requires UniqueKeys(lines, LineKeyOf) && !HasLines(lines, orderId)
    ensures UniqueKeys(lines + LineRows(orderId, items), LineKeyOf) <==> DistinctProducts(items)
  {
    var added := LineRows(orderId, items);
    var all := lines + added;
    if UniqueKeys(all, LineKeyOf) {
      forall i, j | 0 <= i < j < |items| ensures items[i].productId != items[j].productId {
        assert all[|lines| + i] == added[i] && all[|lines| + j] == added[j];
        assert LineKeyOf(all[|lines| + i]) != LineKeyOf(all[|lines| + j]);
      }
    }
    if DistinctProducts(items) {
      forall i, j | 0 <= i < j < |all| ensures LineKeyOf(all[i]) != LineKeyOf(all[j]) {
        if j < |lines| {
          assert all[i] == lines[i] && all[j] == lines[j];
        } else if i < |lines| {
          assert all[i] == lines[i] && all[i].orderId != orderId;
          assert all[j] == added[j - |lines|];
        } else {
          assert all[i] == added[i - |lines|] && all[j] == added[j - |lines|];
        }
      }
    }
  }

  /** What `create_order` settles before writing anything: the customer the
      order is for and whether an admin placed it, or the error it stops with.
      A missing product is found before a missing customer is noticed. */
  function CreateOrderCheck(users: seq<User>, products: seq<Product>, actor: User, data: OrderCreate): (r: Result<(User, bool)>)
    ensures FirstMissingProduct(products, data.items).Some? ==>
              r == Err(HttpError(404, ProductUnavailable(FirstMissingProduct(products, data.items).value)))
    ensures r.Ok? <==>
              FirstMissingProduct(products, data.items).None? &&
              ResolveCustomer(users, actor, data.customerEmail).0.Some?
    ensures r.Ok? ==>
              (r.value.0, r.value.1) == (ResolveCustomer(users, actor, data.customerEmail).0.value,
                                         ResolveCustomer(users, actor, data.customerEmail).1)
    ensures r.Err? && FirstMissingProduct(products, data.items).None? ==>
              r == Err(Unhandled("AttributeError"))
  {
    var (customer, fromAdmin) := ResolveCustomer(users, actor, data.customerEmail);
    match FirstMissingProduct(products, data.items)
    case Some(pid) => Err(HttpError(404, ProductUnavailable(pid)))
    case None =>
      match customer
      case None => Err(Unhandled("AttributeError"))
      case Some(u) => Ok((u, fromAdmin))
  }

  /** A customer always orders for themselves, whatever e-mail the request names. */
  lemma CustomerOrdersForThemselves(users: seq<User>, products: seq<Product>, actor: User, data: OrderCreate)
    requires !actor.isAdmin && FirstMissingProduct(products, data.items).None?
    ensures CreateOrderCheck(users, products, actor, data) == Ok((actor, false))
  {
  }

  /** An admin who names the e-mail of a user orders for the first user with
      that e-mail, marked as placed by an admin; naming an unknown e-mail ends
      in an unhandled AttributeError. */
  lemma AdminOrdersForCustomer(users: seq<User>, products: seq<Product>, actor: User, data: OrderCreate)
    requires actor.isAdmin && EmailGiven(data.customerEmail)
    requires FirstMissingProduct(products, data.items).None?
    ensures UserByEmail(users, data.customerEmail.value).Some? ==>
              CreateOrderCheck(users, products, actor, data) ==
              Ok((UserByEmail(users, data.customerEmail.value).value, true))
    ensures UserByEmail(users, data.customerEmail.value).None? ==>
              CreateOrderCheck(users, products, actor, data) == Err(Unhandled("AttributeError"))
  {
  }

  /** Under the foreign keys, no line item refers to an order id not yet in use. */
  lemma NewOrderHasNoLines(orders: seq<Order>, products: seq<Product>, lines: seq<OrderProduct>, orderId: Id)
    requires LinesReferToRows(orders, products, lines) && !HasKey(orders, OrderKey, orderId)
    ensures !HasLines(lines, orderId)
  {
    forall i | 0 <= i < |lines| ensures lines[i].orderId != orderId {
      assert lines[i] in lines;
    }
  }

  /** Appending a new order and then its items, all of whose products exist,
      keeps the foreign keys. */
  lemma NewLinesReferToRows(orders: seq<Order>, o: Order, products: seq<Product>, lines: seq<OrderProduct>,
                            items: seq<OrderProductRequest>)
    requires LinesReferToRows(orders, products, lines)
    requires FirstMissingProduct(products, items).None?
    ensures LinesReferToRows(orders + [o], products, lines)
    ensures LinesReferToRows(orders + [o], products, lines + LineRows(o.id, items))
  {
    var all := orders + [o];
    forall l | l in lines + LineRows(o.id, items)
      ensures HasKey(all, OrderKey, l.orderId) && HasKey(products, ProductKey, l.productId)
    {
      if l in lines {
        var k :| 0 <= k < |orders| && OrderKey(orders[k]) == l.orderId;
        assert all[k] == orders[k];
      } else {
        var i :| 0 <= i < |items| && LineRows(o.id, items)[i] == l;
        assert HasKey(products, ProductKey, items[i].productId);
        assert all[|orders|] == o;
      }
    }
  }

  /** `create_order`.  After the checks it inserts the order (one commit) and
      then its line items (a second commit); when the second commit fails the
      order stays without items. */
  method CreateOrder(
    users: Table<Id, User>, products: Table<Id, Product>,
    orders: Table<Id, Order>, lines: Table<LineKey, OrderProduct>,
    actor: User, data: OrderCreate, newId: Id, now: Time)
    returns (r: Result<Order>)
    requires ProductTable(products) && OrderTable(orders) && LineTable(lines)
    requires LinesReferToRows(orders.rows, products.rows, lines.rows)
    modifies orders, lines
    ensures OrderTable(orders) && LineTable(lines)
    ensures LinesReferToRows(orders.rows, products.rows, lines.rows)
    ensures CreateOrderCheck(users.rows, products.rows, actor, data).Err? ==>
              r == Err(CreateOrderCheck(users.rows, products.rows, actor, data).error) &&
              orders.rows == old(orders.rows) && lines.rows == old(lines.rows)
    ensures CreateOrderCheck(users.rows, products.rows, actor, data).Ok? &&
            HasKey(old(orders.rows), OrderKey, newId) ==>
              r == Err(HttpError(400, CreateFailed)) &&
              orders.rows == old(orders.rows) && lines.rows == old(lines.rows)
    ensures CreateOrderCheck(users.rows, products.rows, actor, data).Ok? &&
            !HasKey(old(orders.rows), OrderKey, newId) ==>
              var (customer, fromAdmin) := CreateOrderCheck(users.rows, products.rows, actor, data).value;
              var o := NewOrder(newId, now, data.shippingMethod, data.shippingLocation,
                                data.totalPrice, customer.id, fromAdmin);
              orders.rows == old(orders.rows) + [o] &&
              (DistinctProducts(data.items) ==>
                 r == Ok(o) && lines.rows == old(lines.rows) + LineRows(newId, data.items)) &&
              (!DistinctProducts(data.items) ==>
                 r == Err(HttpError(400, CreateFailed)) && lines.rows == old(lines.rows))
  {
    var customer, fromAdmin := Some(actor), false;
    if actor.isAdmin && EmailGiven(data.customerEmail) {
      customer := users.GetByItem((u: User) => u.email == data.customerEmail.value);
      fromAdmin := true;
    }

    var missing := CheckProducts(products, data.items);
    if missing.Some? {
      return Err(HttpError(404, ProductUnavailable(missing.value)));
    }
    if customer.None? {
      return Err(Unhandled("AttributeError"));
    }

    var o := NewOrder(newId, now, data.shippingMethod, data.shippingLocation,
                      data.totalPrice, customer.value.id, fromAdmin);
    var created := orders.Create(o);
    if created.Err? {
      return Err(created.error);
    }
    NewOrderHasNoLines(old(orders.rows), products.rows, lines.rows, newId);
    LineBatchIsUnique(lines.rows, newId, data.items);
    NewLinesReferToRows(old(orders.rows), o, products.rows, lines.rows, data.items);

    var added := lines.CreateAll(LineRows(newId, data.items));
    if added.Err? {
      return Err(added.error);
    }
    r := Ok(o);
  }

  // ---- Reading and deleting an order ----

  /** `GET /orders/{order_id}`: the order, or `get_by_id`'s 404. */
  function GetOrder(orders: Table<Id, Order>, orderId: Id): (r: Result<Order>)
    reads orders
    requires OrderTable(orders)
    ensures r.Ok? <==> HasKey(orders.rows, OrderKey, orderId)
    ensures r.Ok? ==> r.value in orders.rows && r.value.id == orderId
    ensures r.Err? ==> r.error == HttpError(404, NoRecord(orderId))
  {
    orders.GetById(orderId)
  }

  const NoRights: string := "Do not have sufficient rights!"
  const OrderDeleted: string := "Delete order successfully!"

  /** `delete_order`: admins only; the order must exist; the delete is
      refused by the database while line items still refer to the order. */
  method DeleteOrder(orders: Table<Id, Order>, products: Table<Id, Product>, lines: Table<LineKey, OrderProduct>,
                     actor: User, orderId: Id)
    returns (r: Result<string>)
    requires OrderTable(orders) && LineTable(lines)
    requires LinesReferToRows(orders.rows, products.rows, lines.rows)
    modifies orders
    ensures OrderTable(orders)
    ensures LinesReferToRows(orders.rows, products.rows, lines.rows)
    ensures !actor.isAdmin ==> r == Err(HttpError(403, NoRights)) && orders.rows == old(orders.rows)
    ensures actor.isAdmin && !HasKey(old(orders.rows), OrderKey, orderId) ==>
              r == Err(HttpError(404, NoRecord(orderId))) && orders.rows == old(orders.rows)
    ensures actor.isAdmin && HasKey(old(orders.rows), OrderKey, orderId) && HasLines(lines.rows, orderId) ==>
              r == Err(HttpError(400, DeleteFailed)) && orders.rows == old(orders.rows)
    ensures actor.isAdmin && HasKey(old(orders.rows), OrderKey, orderId) && !HasLines(lines.rows, orderId) ==>
              r == Ok(OrderDeleted) && |orders.rows| == |old(orders.rows)| - 1 &&
              forall o :: o in orders.rows <==> o in old(orders.rows) && o.id != orderId
  {
    if !actor.isAdmin {
      return Err(HttpError(403, NoRights));
    }
    var found := orders.GetById(orderId);
    if found.Err? {
      return Err(found.error);
    }
    var i := IndexOfKey(orders.rows, OrderKey, orderId).value;
    RemoveKeyedRow(orders.rows, OrderKey, orderId, i);
    var deleted := orders.Delete(orderId, HasLines(lines.rows, orderId));
    if deleted.Err? {
      return Err(deleted.error);
    }
    forall l | l in lines.rows ensures HasKey(orders.rows, OrderKey, l.orderId) {
      var j :| 0 <= j < |lines.rows| && lines.rows[j] == l;
      var k :| 0 <= k < |old(orders.rows)| && OrderKey(old(orders.rows)[k]) == l.orderId;
      assert old(orders.rows)[k] in orders.rows;
    }
    r := Ok(OrderDeleted);
  }

  // ---- Fulfilling an order ----

  /** The body of the fulfilment mail: for a shipped order, the tracking
      number; otherwise the store to collect the order from. */
  datatype MailBody =
    | Shipped(customerName: string, orderId: Id, shippingMethod: string,
              trackingNumber: Option<string>, companyName: string)
    | Collect(customerName: string, orderId: Id, shippingMethod: string,
              shippingLocation: string, companyName: string)

  datatype Mail = Mail(subject: string, body: MailBody, recipient: string)

  /** The Celery queue of `send_email_task`: the mails handed to it, in order. */
  class MailQueue {
    var queued: seq<Mail>

    constructor ()
      ensures queued == []
    {
      queued := [];
    }

    /** `send_email_task.delay`: enqueue one mail. */
    method Delay(subject: string, body: MailBody, recipient: string)
      modifies this
      ensures queued == old(queued) + [Mail(subject, body, recipient)]
    {
      queued := queued + [Mail(subject, body, recipient)];
    }
  }

  /** The subject of the fulfilment mail: it names the order. */
  function FulfilledSubject(orderId: Id): (s: string)
    ensures |s| == |orderId| + 30
    ensures s[..10] == "The Order " && s[10..10 + |orderId|] == orderId
  {
    "The Order " + orderId + " has been fulfilled."
  }

  const OrderFulfilled: string := "Order is fulfilled!"

  /** What `fulfill_order` does before updating the order: the mail it
      enqueues and the answer it gives, or the exception that ends it first.
      The lookup's None ends in AttributeError; a failed carrier request makes
      the label helper return None, whose unpacking raises TypeError. */
  function FulfillPlan(users: seq<User>, orders: seq<Order>, orderId: Id, data: ShippingLabel,
                       shipEngine: Payload -> Transport): (r: Result<(Mail, FulfillResponse)>)
    ensures GetUserOrder(users, orders, orderId).None? ==> r == Err(Unhandled("AttributeError"))
    ensures GetUserOrder(users, orders, orderId).Some? &&
            GetUserOrder(users, orders, orderId).value.1.shippingMethod != Freeship ==>
              r.Ok? && r.value.1 == Message(OrderFulfilled)
    ensures GetUserOrder(users, orders, orderId).Some? &&
            GetUserOrder(users, orders, orderId).value.1.shippingMethod == Freeship ==>
              match GenerateShippingLabel(data, shipEngine)
              case Returned(link, tracking) => r.Ok? && r.value.1 == Labelled(link, tracking)
              case ReturnedNone => r == Err(Unhandled("TypeError"))
              case Raised(e) => r == Err(Unhandled(e))
    ensures r.Ok? ==>
              var (u, o) := GetUserOrder(users, orders, orderId).value;
              r.value.0.recipient == u.email && r.value.0.subject == FulfilledSubject(orderId) &&
              r.value.0.body.customerName == u.name && r.value.0.body.orderId == orderId &&
              r.value.0.body.companyName == data.shipFrom.companyName
  {
    match GetUserOrder(users, orders, orderId)
    case None => Err(Unhandled("AttributeError"))
    case Some((u, o)) =>
      var subject := FulfilledSubject(o.id);
      if o.shippingMethod == Freeship then
        match GenerateShippingLabel(data, shipEngine)
        case ReturnedNone => Err(Unhandled("TypeError"))
        case Raised(e) => Err(Unhandled(e))
        case Returned(link, tracking) =>
          var body := Shipped(u.name, o.id, o.shippingMethod, tracking, data.shipFrom.companyName);
          Ok((Mail(subject, body, u.email), Labelled(link, tracking)))
      else
        var body := Collect(u.name, o.id, o.shippingMethod, o.shippingLocation, data.shipFrom.companyName);
        Ok((Mail(subject, body, u.email), Message(OrderFulfilled)))
  }

  /** The keyword arguments of the status update. */
  function FulfilKwargs(now: Time): Kwargs {
    [("fulfill_status", Str(Fulfilled)), ("fulfill_at", Instant(now))]
  }

  /** One order as it is after fulfilment, when it is the one fulfilled. */
  function MarkOne(o: Order, orderId: Id, now: Time): Order {
    if o.id == orderId then o.(fulfillStatus := Some(Fulfilled), fulfillAt := Some(now)) else o
  }

  /** The orders after fulfilling `orderId` at `now`. */
  function MarkFulfilled(orders: seq<Order>, orderId: Id, now: Time): (r: seq<Order>)
    ensures |r| == |orders|
    ensures forall i :: 0 <= i < |r| ==> r[i] == MarkOne(orders[i], orderId, now)
  {
    seq(|orders|, i requires 0 <= i < |orders| => MarkOne(orders[i], orderId, now))
  }

  /** The status update sets exactly the status and the instant. */
  lemma FulfilKwargsSetStatus(o: Order, now: Time)
    ensures ApplyKwargs(o, FulfilKwargs(now), SetOrderAttr) ==
            o.(fulfillStatus := Some(Fulfilled), fulfillAt := Some(now))
  {
    var kw := FulfilKwargs(now);
    assert "fulfill_status" != "shipping_method" && "fulfill_status" != "shipping_location";
    var once := SetOrderAttr(o, "fulfill_status", Str(Fulfilled));
    assert once == o.(fulfillStatus := Some(Fulfilled));
    var twice := SetOrderAttr(once, "fulfill_at", Instant(now));
    assert twice == once.(fulfillAt := Some(now));
    assert kw[1..] == [("fulfill_at", Instant(now))] && kw[1..][1..] == [];
    assert ApplyKwargs(once, kw[1..], SetOrderAttr) == ApplyKwargs(twice, [], SetOrderAttr);
    assert ApplyKwargs(o, kw, SetOrderAttr) == ApplyKwargs(once, kw[1..], SetOrderAttr);
  }

  /** Under the primary key, updating the row keyed `orderId` is `MarkFulfilled`. */
  lemma UpdateIsMarkFulfilled(orders: seq<Order>, orderId: Id, now: Time, i: nat)
    requires UniqueKeys(orders, OrderKey) && i < |orders| && orders[i].id == orderId
    ensures orders[i := ApplyKwargs(orders[i], FulfilKwargs(now), SetOrderAttr)] == MarkFulfilled(orders, orderId, now)
  {
    FulfilKwargsSetStatus(orders[i], now);
    forall j | 0 <= j < |orders| && j != i ensures orders[j].id != orderId {
      if j < i {
        assert OrderKey(orders[j]) != OrderKey(orders[i]);
      } else {
        assert OrderKey(orders[i]) != OrderKey(orders[j]);
      }
    }
  }

  /** Fulfilling changes no order's id, owner or shipping details, so the
      lookup finds the same order, only marked. */
  lemma {:induction false} LookupAfterMark(orders: seq<Order>, orderId: Id, now: Time)
    ensures FirstMatch(MarkFulfilled(orders, orderId, now), (o: Order) => o.id == orderId) ==
            match FirstMatch(orders, (o: Order) => o.id == orderId)
            case None => None
            case Some(o) => Some(MarkOne(o, orderId, now))
  {
    if orders != [] {
      assert MarkFulfilled(orders, orderId, now)[1..] == MarkFulfilled(orders[1..], orderId, now);
      LookupAfterMark(orders[1..], orderId, now);
    }
  }

  /** Nothing checks the current status: fulfilling an order that is already
      fulfilled goes through again, with the same mail and the same answer. */
  lemma FulfilAgain(users: seq<User>, orders: seq<Order>, orderId: Id, now: Time,
                    data: ShippingLabel, shipEngine: Payload -> Transport)
    ensures FulfillPlan(users, MarkFulfilled(orders, orderId, now), orderId, data, shipEngine) ==
            FulfillPlan(users, orders, orderId, data, shipEngine)
  {
    LookupAfterMark(orders, orderId, now);
  }

  /** `fulfill_order`: look the order up with its owner, get a label when it
      ships, enqueue the mail, then mark the order fulfilled at `now`. */
  method FulfillOrder(users: Table<Id, User>, orders: Table<Id, Order>, queue: MailQueue,
                      orderId: Id, data: ShippingLabel, shipEngine: Payload -> Transport, now: Time)
    returns (r: Result<FulfillResponse>)
    requires OrderTable(orders)
    modifies orders, queue
    ensures OrderTable(orders)
    ensures FulfillPlan(users.rows, old(orders.rows), orderId, data, shipEngine).Err? ==>
              r == Err(FulfillPlan(users.rows, old(orders.rows), orderId, data, shipEngine).error) &&
              orders.rows == old(orders.rows) && queue.queued == old(queue.queued)
    ensures FulfillPlan(users.rows, old(orders.rows), orderId, data, shipEngine).Ok? ==>
              var (mail, response) := FulfillPlan(users.rows, old(orders.rows), orderId, data, shipEngine).value;
              r == Ok(response) && queue.queued == old(queue.queued) + [mail] &&
              orders.rows == MarkFulfilled(old(orders.rows), orderId, now)
  {
    var found := GetUserOrder(users.rows, orders.rows, orderId);
    if found.None? {
      return Err(Unhandled("AttributeError"));
    }
    var (u, o) := found.value;
    var subject := FulfilledSubject(o.id);
    var response := Message(OrderFulfilled);
    var body;
    if o.shippingMethod == Freeship {
      var call := GenerateShippingLabel(data, shipEngine);
      match call {
        case ReturnedNone => return Err(Unhandled("TypeError"));
        case Raised(e) => return Err(Unhandled(e));
        case Returned(link, tracking) =>
          body := Shipped(u.name, o.id, o.shippingMethod, tracking, data.shipFrom.companyName);
          response := Labelled(link, tracking);
      }
    } else {
      body := Collect(u.name, o.id, o.shippingMethod, o.shippingLocation, data.shipFrom.companyName);
    }
    queue.Delay(subject, body, u.email);

    var i :| 0 <= i < |orders.rows| && orders.rows[i] == o;
    KeyedRowIsUnique(orders.rows, OrderKey, orderId, i);
    UpdateIsMarkFulfilled(orders.rows, orderId, now, i);
    var _ := orders.UpdateById(orderId, FulfilKwargs(now));
    r := Ok(response);
  }
}
