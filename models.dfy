/** The shop's records and request bodies (the SQLModel classes), with the
    defaults the classes declare.  Ids are UUIDs in their text form; instants
    (`created_at`, `fulfill_at`, `datetime.now()`) are opaque integers. */
module Models {
  import opened Wrappers

  type Id = string
  type Time = int

  // The string constants of the ShippingMethod and FulfillStatus enums.  The
  // columns that hold them are plain strings, so other values can be stored.
  const Pickup: string := "pickup"
  const Freeship: string := "freeship"
  const Unfulfilled: string := "unfulfilled"
  const Fulfilled: string := "fulfilled"

  // ---- Tables ----

  /** A user as this model reads it (the password hash is left out). */
  datatype User = User(
    id: Id, createdAt: Time, name: string, phone: string, address: string,
    email: string, isAdmin: bool, groupId: Option<Id>)

  datatype Group = Group(id: Id, createdAt: Time, name: string, discountPercent: real)

  datatype Product = Product(
    id: Id, createdAt: Time, name: string, basePrice: real, description: Option<string>)

  /** A store location; `isStore` false marks a warehouse. */
  datatype Store = Store(id: Id, createdAt: Time, name: string, address: string, isStore: bool)

  datatype Order = Order(
    id: Id, createdAt: Time,
    shippingMethod: string, shippingLocation: string, totalPrice: real,
    userId: Id, fulfillStatus: Option<string>, fulfillAt: Option<Time>, fromAdmin: bool)

  /** One line item; its primary key is the pair (orderId, productId). */
  datatype OrderProduct = OrderProduct(orderId: Id, productId: Id, quantity: int)

  type LineKey = (Id, Id)

  function UserKey(u: User): Id { u.id }
  function GroupKey(g: Group): Id { g.id }
  function ProductKey(p: Product): Id { p.id }
  function StoreKey(s: Store): Id { s.id }
  function OrderKey(o: Order): Id { o.id }
  function LineKeyOf(l: OrderProduct): LineKey { (l.orderId, l.productId) }

  /** The text of a UUID key, as f-strings render it. */
  function IdText(k: Id): string { k }

  /** The text of an order-product key (the model never renders one in a message). */
  function LineKeyText(k: LineKey): string { k.0 + "/" + k.1 }

  /** `Order(...)` built from its required columns: the status starts as
      "unfulfilled" and there is no fulfilment instant yet. */
  function NewOrder(
    id: Id, createdAt: Time, shippingMethod: string, shippingLocation: string,
    totalPrice: real, userId: Id, fromAdmin: bool): (o: Order)
    ensures o.fulfillStatus == Some(Unfulfilled) && o.fulfillAt == None
    ensures o.id == id && o.userId == userId && o.fromAdmin == fromAdmin
    ensures o.shippingMethod == shippingMethod && o.shippingLocation == shippingLocation
    ensures o.totalPrice == totalPrice && o.createdAt == createdAt
  {
    Order(id, createdAt, shippingMethod, shippingLocation, totalPrice, userId,
          Some(Unfulfilled), None, fromAdmin)
  }

  // ---- Request bodies ----

  datatype OrderProductRequest = OrderProductRequest(productId: Id, quantity: int)

  datatype OrderCreate = OrderCreate(
    shippingMethod: string, shippingLocation: string, totalPrice: real,
    customerEmail: Option<string>, items: seq<OrderProductRequest>)

  /** An `OrderCreate` body that leaves out `customer_email`: it defaults to None. */
  function NewOrderCreate(
    shippingMethod: string, shippingLocation: string, totalPrice: real,
    items: seq<OrderProductRequest>): (d: OrderCreate)
    ensures d.customerEmail == None && d.items == items
    ensures d.shippingMethod == shippingMethod && d.shippingLocation == shippingLocation
    ensures d.totalPrice == totalPrice
  {
    OrderCreate(shippingMethod, shippingLocation, totalPrice, None, items)
  }

  datatype ProductBase = ProductBase(name: string, basePrice: real, description: Option<string>)
  datatype UpdateProduct = UpdateProduct(name: Option<string>, basePrice: Option<real>, description: Option<string>)
  datatype GroupBase = GroupBase(name: string, discountPercent: real)
  datatype UpdateGroup = UpdateGroup(name: Option<string>, discountPercent: Option<real>)
  datatype StoreBase = StoreBase(name: string, address: string, isStore: bool)
  datatype ProductDiscountPrice = ProductDiscountPrice(customerEmail: Option<string>, productId: Id)
  datatype ProductPrice = ProductPrice(discountPrice: real, quantity: int)

  /** A `StoreBase` body that leaves out `is_store`: it defaults to a store, not a warehouse. */
  function NewStoreBase(name: string, address: string): (s: StoreBase)
    ensures s.isStore && s.name == name && s.address == address
  {
    StoreBase(name, address, true)
  }

  /** One row of the order listing. */
  datatype OrderResponse = OrderResponse(
    id: Id, createdAt: Time, totalPrice: real, fulfillStatus: Option<string>,
    shippingMethod: string, email: string, totalQuantity: int)

  /** What the fulfil endpoint answers: the label and tracking number of a
      shipped order (either may be None when the carrier's reply lacks it), or
      the plain acknowledgement. */
  datatype FulfillResponse =
    | Labelled(shippingLabel: Option<string>, trackingNumber: Option<string>)
    | Message(message: string)

  // ---- The shipping-label request ----

  datatype ShipFrom = ShipFrom(
    companyName: string, name: string, phone: string, addressLine1: string,
    cityLocality: string, stateProvince: Option<string>, postalCode: Option<string>,
    countryCode: Option<string>)

  datatype ShipTo = ShipTo(
    name: string, phone: string, addressLine1: string, cityLocality: string,
    postalCode: Option<string>, countryCode: Option<string>)

  datatype Weight = Weight(value: real, unit: Option<string>)
  datatype Package = Package(weight: Weight)

  datatype ShippingLabel = ShippingLabel(
    serviceCode: Option<string>, shipTo: ShipTo, shipFrom: ShipFrom, packages: seq<Package>)

  /** A `ShipFrom` that leaves out the optional fields: Texas, 95128, US. */
  function NewShipFrom(
    companyName: string, name: string, phone: string, addressLine1: string,
    cityLocality: string): (s: ShipFrom)
    ensures s.stateProvince == Some("TX") && s.postalCode == Some("95128")
    ensures s.countryCode == Some("US")
    ensures s.companyName == companyName && s.name == name && s.phone == phone
    ensures s.addressLine1 == addressLine1 && s.cityLocality == cityLocality
  {
    ShipFrom(companyName, name, phone, addressLine1, cityLocality, Some("TX"), Some("95128"), Some("US"))
  }

  /** A `ShipTo` that leaves out the optional fields: 95128, US. */
  function NewShipTo(name: string, phone: string, addressLine1: string, cityLocality: string): (s: ShipTo)
    ensures s.postalCode == Some("95128") && s.countryCode == Some("US")
    ensures s.name == name && s.phone == phone
    ensures s.addressLine1 == addressLine1 && s.cityLocality == cityLocality
  {
    ShipTo(name, phone, addressLine1, cityLocality, Some("95128"), Some("US"))
  }

  /** A `Weight` without a unit is in ounces. */
  function NewWeight(value: real): (w: Weight)
    ensures w.unit == Some("ounce") && w.value == value
  {
    Weight(value, Some("ounce"))
  }

  /** A `ShippingLabel` that leaves out the service: USPS priority mail. */
  function NewShippingLabel(shipTo: ShipTo, shipFrom: ShipFrom, packages: seq<Package>): (l: ShippingLabel)
    ensures l.serviceCode == Some("usps_priority_mail")
    ensures l.shipTo == shipTo && l.shipFrom == shipFrom && l.packages == packages
  {
    ShippingLabel(Some("usps_priority_mail"), shipTo, shipFrom, packages)
  }
}
