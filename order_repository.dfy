/** The order queries (the listing and the order-with-owner lookup) and the
    parts of the shipping-label call that do not touch the network: building
    the request and reading the reply. */
module OrderRepository {
  import opened Wrappers
  import opened Models
  import opened Repository

  // ---- The order listing ----

  /** The owner of an order, through the join of orders with users on `user_id`. */
  function OwnerOf(users: seq<User>, o: Order): (r: Option<User>)
    ensures r.Some? ==> r.value in users && r.value.id == o.userId
    ensures r.None? <==> forall u :: u in users ==> u.id != o.userId
  {
    FirstMatch(users, (u: User) => u.id == o.userId)
  }

  predicate HasLines(lines: seq<OrderProduct>, orderId: Id) {
    exists i :: 0 <= i < |lines| && lines[i].orderId == orderId
  }

  /** `func.sum(OrderProduct.quantity)` over the line items of one order. */
  function TotalQuantity(lines: seq<OrderProduct>, orderId: Id): int {
    if lines == [] then 0
    else (if lines[0].orderId == orderId then lines[0].quantity else 0) + TotalQuantity(lines[1..], orderId)
  }

  /** The sum over a concatenation is the sum of the sums. */
  lemma {:induction false} TotalQuantityAppend(a: seq<OrderProduct>, b: seq<OrderProduct>, orderId: Id)
    ensures TotalQuantity(a + b, orderId) == TotalQuantity(a, orderId) + TotalQuantity(b, orderId)
  {
    if a != [] {
      assert (a + b)[0] == a[0] && (a + b)[1..] == a[1..] + b;
      TotalQuantityAppend(a[1..], b, orderId);
    } else {
      assert a + b == b;
    }
  }

  /** Line items of other orders do not count. */
  lemma {:induction false} TotalQuantityWithoutLines(lines: seq<OrderProduct>, orderId: Id)
    requires !HasLines(lines, orderId)
    ensures TotalQuantity(lines, orderId) == 0
  {
    if lines != [] {
      assert !HasLines(lines[1..], orderId) by {
        forall i | 0 <= i < |lines[1..]| ensures lines[1..][i].orderId != orderId {
          assert lines[1..][i] == lines[i + 1];
        }
      }
      TotalQuantityWithoutLines(lines[1..], orderId);
    }
  }

  /** The listing's filter: a customer sees the orders they own, an admin sees
      the orders placed by an admin (whoever owns them). */
  predicate Visible(viewer: User, o: Order, owner: User) {
    if viewer.isAdmin then o.fromAdmin else owner.id == viewer.id
  }

  /** An order makes it into the listing when the inner joins find its owner
      and at least one line item, and the viewer may see it. */
  predicate Listed(users: seq<User>, lines: seq<OrderProduct>, viewer: User, o: Order) {
    && HasLines(lines, o.id)
    && OwnerOf(users, o).Some?
    && Visible(viewer, o, OwnerOf(users, o).value)
  }

  /** The listing row of an order: its columns, the owner's e-mail and the
      total quantity. */
  function RowOf(users: seq<User>, lines: seq<OrderProduct>, o: Order): OrderResponse
    requires OwnerOf(users, o).Some?
  {
    OrderResponse(o.id, o.createdAt, o.totalPrice, o.fulfillStatus, o.shippingMethod,
                  OwnerOf(users, o).value.email, TotalQuantity(lines, o.id))
  }

  /** `get_list_order`: one row per listed order, in storage order. */
  function ListOrders(users: seq<User>, orders: seq<Order>, lines: seq<OrderProduct>, viewer: User): (r: seq<OrderResponse>)
    ensures |r| <= |orders|
    ensures forall row :: row in r <==>
              exists o :: o in orders && Listed(users, lines, viewer, o) && row == RowOf(users, lines, o)
  {
    if orders == [] then []
    else
      var o := orders[0];
      var rest := ListOrders(users, orders[1..], lines, viewer);
      assert forall x :: x in orders <==> x == o || x in orders[1..];
      (if Listed(users, lines, viewer, o) then [RowOf(users, lines, o)] else []) + rest
  }

  /** Every listed row is an order the viewer may see: for a customer one of
      their own, for an admin one placed by an admin. */
  lemma ListedOrdersAreVisible(users: seq<User>, orders: seq<Order>, lines: seq<OrderProduct>, viewer: User, row: OrderResponse)
    requires row in ListOrders(users, orders, lines, viewer)
    ensures !viewer.isAdmin ==> exists o :: o in orders && o.id == row.id && o.userId == viewer.id
    ensures viewer.isAdmin ==> exists o :: o in orders && o.id == row.id && o.fromAdmin
  {
    var o :| o in orders && Listed(users, lines, viewer, o) && row == RowOf(users, lines, o);
  }

  /** Every listed row carries its owner's e-mail and the sum of its line quantities. */
  lemma ListedRowContents(users: seq<User>, orders: seq<Order>, lines: seq<OrderProduct>, viewer: User, row: OrderResponse)
    requires row in ListOrders(users, orders, lines, viewer)
    ensures exists o, u :: o in orders && u in users && u.id == o.userId && o.id == row.id &&
                           row.email == u.email && row.totalQuantity == TotalQuantity(lines, o.id)
  {
    var o :| o in orders && Listed(users, lines, viewer, o) && row == RowOf(users, lines, o);
    var u := OwnerOf(users, o).value;
    assert u in users && u.id == o.userId;
  }

  /** An order without line items never appears: the join on `OrderProduct` drops it. */
  lemma OrderWithoutLinesIsNotListed(users: seq<User>, orders: seq<Order>, lines: seq<OrderProduct>, viewer: User, orderId: Id)
    requires !HasLines(lines, orderId)
    ensures forall row :: row in ListOrders(users, orders, lines, viewer) ==> row.id != orderId
  {
  }

  /** Every listed row has the id of one of the orders listed from. */
  lemma RowIdIsAnOrderId(users: seq<User>, orders: seq<Order>, lines: seq<OrderProduct>, viewer: User, row: OrderResponse)
    requires row in ListOrders(users, orders, lines, viewer)
    ensures exists k :: 0 <= k < |orders| && orders[k].id == row.id
  {
    var o :| o in orders && Listed(users, lines, viewer, o) && row == RowOf(users, lines, o);
    var k :| 0 <= k < |orders| && orders[k] == o;
  }

  /** Grouping by order gives one row per order: no two rows share an order id. */
  lemma {:induction false} OneRowPerOrder(users: seq<User>, orders: seq<Order>, lines: seq<OrderProduct>, viewer: User)
    requires UniqueKeys(orders, OrderKey)
    ensures var r := ListOrders(users, orders, lines, viewer);
            forall i, j :: 0 <= i < j < |r| ==> r[i].id != r[j].id
  {
    if orders != [] {
      var o, tail := orders[0], orders[1..];
      var rest := ListOrders(users, tail, lines, viewer);
      assert UniqueKeys(tail, OrderKey) by {
        forall i, j | 0 <= i < j < |tail| ensures OrderKey(tail[i]) != OrderKey(tail[j]) {
          assert tail[i] == orders[i + 1] && tail[j] == orders[j + 1];
        }
      }
      OneRowPerOrder(users, tail, lines, viewer);
      var r := ListOrders(users, orders, lines, viewer);
      if Listed(users, lines, viewer, o) {
        var first := RowOf(users, lines, o);
        assert r == [first] + rest;
        forall j | 0 <= j < |rest| ensures rest[j].id != o.id {
          RowIdIsAnOrderId(users, tail, lines, viewer, rest[j]);
          var k :| 0 <= k < |tail| && tail[k].id == rest[j].id;
          assert OrderKey(orders[0]) != OrderKey(orders[k + 1]);
        }
        forall i, j | 0 <= i < j < |r| ensures r[i].id != r[j].id {
          assert r[j] == rest[j - 1];
          if i > 0 {
            assert r[i] == rest[i - 1];
          }
        }
      } else {
        assert r == rest;
      }
    }
  }

  // ---- One order with its owner ----

  /** `get_user_order`: the (User, Order) pair of the join for that order id,
      or None when no order has that id or its owner is missing. */
  function GetUserOrder(users: seq<User>, orders: seq<Order>, orderId: Id): (r: Option<(User, Order)>)
    ensures r.Some? ==> r.value.1 in orders && r.value.1.id == orderId &&
                        r.value.0 in users && r.value.0.id == r.value.1.userId
    ensures UniqueKeys(orders, OrderKey) ==>
              (r.None? <==> forall o, u :: o in orders && u in users && o.id == orderId ==> u.id != o.userId)
  {
    match FirstMatch(orders, (o: Order) => o.id == orderId)
    case None => None
    case Some(o) =>
      match OwnerOf(users, o)
      case None => None
      case Some(u) => Some((u, o))
  }

  // ---- The shipping-label request ----

  /** One entry of the request's `packages`: `{"weight": dict(package.weight)}`. */
  datatype PackagePayload = PackagePayload(weight: Weight)

  /** The `shipment` object sent to the carrier. */
  datatype Payload = Payload(
    serviceCode: Option<string>, shipTo: ShipTo, shipFrom: ShipFrom, packages: seq<PackagePayload>)

  /** The request body `generate_shipping_label` builds from the fulfil request. */
  function BuildPayload(data: ShippingLabel): (p: Payload)
    ensures p.serviceCode == data.serviceCode && p.shipTo == data.shipTo && p.shipFrom == data.shipFrom
    ensures |p.packages| == |data.packages|
    ensures forall i :: 0 <= i < |p.packages| ==> p.packages[i].weight == data.packages[i].weight
  {
    Payload(data.serviceCode, data.shipTo, data.shipFrom,
            seq(|data.packages|, i requires 0 <= i < |data.packages| => PackagePayload(data.packages[i].weight)))
  }

  /** Reading a payload back as a fulfil request. */
  function RequestOf(p: Payload): ShippingLabel {
    ShippingLabel(p.serviceCode, p.shipTo, p.shipFrom,
                  seq(|p.packages|, i requires 0 <= i < |p.packages| => Package(p.packages[i].weight)))
  }

  /** The payload loses nothing of the request. */
  lemma PayloadKeepsRequest(data: ShippingLabel)
    ensures RequestOf(BuildPayload(data)) == data
  {
    var back := RequestOf(BuildPayload(data));
    assert back.packages == data.packages by {
      forall i | 0 <= i < |data.packages| ensures back.packages[i] == data.packages[i] {
        assert back.packages[i] == Package(data.packages[i].weight);
      }
    }
  }

  /** The carrier's JSON reply, as far as the code reads it.  `labelDownload`
      is None when the reply has no "label_download" object, and Some(None)
      when that object has no "pdf"; `packages` is None when the reply has no
      "packages" list; each entry is the package's "tracking_number", None
      when it is missing. */
  datatype LabelReply = LabelReply(labelDownload: Option<Option<string>>, packages: Option<seq<Option<string>>>)

  /** What the HTTP request produced: a `RequestException`, or a reply. */
  datatype Transport = RequestFailed | Replied(reply: LabelReply)

  /** How `generate_shipping_label` ends: it returns the (label, tracking
      number) pair, returns None (after printing the request error), or raises
      while reading the reply. */
  datatype LabelCall =
    | Returned(shippingLabel: Option<string>, trackingNumber: Option<string>)
    | ReturnedNone
    | Raised(exception: string)

  /** `generate_shipping_label`, with the carrier's API as the oracle
      `shipEngine`, which answers the payload. */
  function GenerateShippingLabel(data: ShippingLabel, shipEngine: Payload -> Transport): (r: LabelCall)
    ensures shipEngine(BuildPayload(data)).RequestFailed? <==> r.ReturnedNone?
    ensures r.Returned? <==>
              && shipEngine(BuildPayload(data)).Replied?
              && shipEngine(BuildPayload(data)).reply.labelDownload.Some?
              && shipEngine(BuildPayload(data)).reply.packages.Some?
              && |shipEngine(BuildPayload(data)).reply.packages.value| > 0
    ensures r.Returned? ==>
              var reply := shipEngine(BuildPayload(data)).reply;
              r.shippingLabel == reply.labelDownload.value && r.trackingNumber == reply.packages.value[0]
  {
    match shipEngine(BuildPayload(data))
    case RequestFailed => ReturnedNone
    case Replied(reply) =>
      if reply.labelDownload.None? then Raised("AttributeError")
      else if reply.packages.None? then Raised("TypeError")
      else if |reply.packages.value| == 0 then Raised("IndexError")
      else Returned(reply.labelDownload.value, reply.packages.value[0])
  }
}
