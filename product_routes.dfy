/** The product endpoints: creating, updating and deleting products, and the
    two pricing endpoints. */
module ProductRoutes {
  import opened Wrappers
  import opened Models
  import opened Repository
  import opened Tables
  import opened UserRepository

  // ---- Pricing ----

  /** The price after the group discount: the base price less the base price
      times the discount. */
  function DiscountPrice(basePrice: real, discountPercent: real): (p: real)
    ensures p == basePrice * (1.0 - discountPercent)
  {
    basePrice - basePrice * discountPercent
  }

  /** Without a discount the price is the base price; with a full discount it is 0. */
  lemma DiscountExtremes(basePrice: real)
    ensures DiscountPrice(basePrice, 0.0) == basePrice
    ensures DiscountPrice(basePrice, 1.0) == 0.0
  {
  }

  /** A ten percent discount on 100 is 90, and three of those cost 270. */
  lemma WorkedPrices()
    ensures DiscountPrice(100.0, 0.1) == 90.0
    ensures GetProductPrice(ProductPrice(90.0, 3)) == 270.0
  {
  }

  /** A discount between 0 and 1 keeps a non-negative price between 0 and the base price. */
  lemma DiscountPriceBounds(basePrice: real, discountPercent: real)
    requires basePrice >= 0.0 && 0.0 <= discountPercent <= 1.0
    ensures 0.0 <= DiscountPrice(basePrice, discountPercent) <= basePrice
  {
    assert basePrice * discountPercent <= basePrice * 1.0;
    assert 0.0 <= basePrice * discountPercent;
  }

  /** A larger discount never gives a higher price. */
  lemma DiscountIsMonotone(basePrice: real, d1: real, d2: real)
    requires basePrice >= 0.0 && d1 <= d2
    ensures DiscountPrice(basePrice, d2) <= DiscountPrice(basePrice, d1)
  {
    assert basePrice * d1 <= basePrice * d2;
  }

  /** `get_product_price`: the discounted unit price times the quantity. */
  function GetProductPrice(data: ProductPrice): (p: real)
    ensures data.quantity == 0 ==> p == 0.0
    ensures data.quantity == 1 ==> p == data.discountPrice
    ensures data.discountPrice >= 0.0 && data.quantity >= 0 ==> p >= 0.0
  {
    data.discountPrice * data.quantity as real
  }

  /** Prices of a split quantity add up to the price of the whole. */
  lemma LinePriceAdds(price: real, q1: int, q2: int)
    ensures GetProductPrice(ProductPrice(price, q1 + q2)) ==
            GetProductPrice(ProductPrice(price, q1)) + GetProductPrice(ProductPrice(price, q2))
  {
    assert (q1 + q2) as real == q1 as real + q2 as real;
  }

  /** `get_product_discount_price`: the effective customer's group discount
      applied to the product's base price.  A missing customer fails at
      `user.id`, before the product is read; a missing product is
      `get_by_id`'s 404; a customer without a group fails when the discount is
      read. */
  function GetProductDiscountPrice(users: seq<User>, groups: seq<Group>, products: seq<Product>,
                                   actor: User, data: ProductDiscountPrice): (r: Result<real>)
    ensures ResolveCustomer(users, actor, data.customerEmail).0.None? ==>
              r == Err(Unhandled("AttributeError"))
    ensures ResolveCustomer(users, actor, data.customerEmail).0.Some? &&
            !HasKey(products, ProductKey, data.productId) ==>
              r == Err(HttpError(404, NoRecord(data.productId)))
    ensures r.Ok? ==>
              var c := ResolveCustomer(users, actor, data.customerEmail).0.value;
              exists p, g :: p in products && p.id == data.productId &&
                             UserGroup(users, groups, c.id) == Some(g) &&
                             r.value == DiscountPrice(p.basePrice, g.discountPercent)
    ensures r.Err? && ResolveCustomer(users, actor, data.customerEmail).0.Some? &&
            HasKey(products, ProductKey, data.productId) ==>
              r == Err(Unhandled("AttributeError")) &&
              UserGroup(users, groups, ResolveCustomer(users, actor, data.customerEmail).0.value.id).None?
  {
    match ResolveCustomer(users, actor, data.customerEmail).0
    case None => Err(Unhandled("AttributeError"))
    case Some(c) =>
      var userGroup := UserGroup(users, groups, c.id);
      match IndexOfKey(products, ProductKey, data.productId)
      case None => Err(HttpError(404, NoRecord(data.productId)))
      case Some(i) =>
        match userGroup
        case None => Err(Unhandled("AttributeError"))
        case Some(g) => Ok(DiscountPrice(products[i].basePrice, g.discountPercent))
  }

  /** An admin asking for a customer by e-mail gets exactly the price that
      customer would get asking for themselves. */
  lemma AdminGetsCustomerPrice(users: seq<User>, groups: seq<Group>, products: seq<Product>,
                               actor: User, data: ProductDiscountPrice, customer: User)
    requires actor.isAdmin && EmailGiven(data.customerEmail)
    requires UserByEmail(users, data.customerEmail.value) == Some(customer)
    ensures GetProductDiscountPrice(users, groups, products, actor, data) ==
            GetProductDiscountPrice(users, groups, products, customer, data.(customerEmail := None))
  {
  }

  /** A customer's `customer_email` is ignored: the price is their own. */
  lemma CustomerEmailIsIgnored(users: seq<User>, groups: seq<Group>, products: seq<Product>,
                               actor: User, data: ProductDiscountPrice)
    requires !actor.isAdmin
    ensures GetProductDiscountPrice(users, groups, products, actor, data) ==
            GetProductDiscountPrice(users, groups, products, actor, data.(customerEmail := None))
  {
  }

  // ---- Creating, updating and deleting products ----

  /** `create_product`: insert the product built from the request. */
  method CreateProduct(products: Table<Id, Product>, data: ProductBase, newId: Id, now: Time)
    returns (r: Result<Product>)
    requires ProductTable(products)
    modifies products
    ensures ProductTable(products)
    ensures HasKey(old(products.rows), ProductKey, newId) ==>
              r == Err(HttpError(400, CreateFailed)) && products.rows == old(products.rows)
    ensures !HasKey(old(products.rows), ProductKey, newId) ==>
              var p := Product(newId, now, data.name, data.basePrice, data.description);
              r == Ok(p) && products.rows == old(products.rows) + [p]
  {
    r := products.Create(Product(newId, now, data.name, data.basePrice, data.description));
  }

  /** `dict(data)` of an `UpdateProduct`, in field order. */
  function ProductKwargs(data: UpdateProduct): Kwargs {
    [("name", OptionalText(data.name)), ("base_price", OptionalReal(data.basePrice)),
     ("description", OptionalText(data.description))]
  }

  /** A product patched with the fields of `data` that are given and truthy. */
  function PatchProduct(p: Product, data: UpdateProduct): Product {
    Product(
      p.id, p.createdAt,
      if data.name.Some? && data.name.value != "" then data.name.value else p.name,
      if data.basePrice.Some? && data.basePrice.value != 0.0 then data.basePrice.value else p.basePrice,
      if data.description.Some? && data.description.value != "" then data.description else p.description)
  }

  /** `update` with `dict(data)` patches exactly the given, truthy fields. */
  lemma ProductUpdateIsPatch(p: Product, data: UpdateProduct)
    ensures ApplyKwargs(p, ProductKwargs(data), SetProductAttr) == PatchProduct(p, data)
  {
    var kw := ProductKwargs(data);
    assert "base_price" != "name" && "description" != "name";
    var p1 := Assign(p, kw[0], SetProductAttr);
    var p2 := Assign(p1, kw[1], SetProductAttr);
    var p3 := Assign(p2, kw[2], SetProductAttr);
    assert p3 == PatchProduct(p, data);
    assert kw[1..][1..][1..] == [];
    assert ApplyKwargs(p2, kw[1..][1..], SetProductAttr) == ApplyKwargs(p3, [], SetProductAttr);
    assert ApplyKwargs(p1, kw[1..], SetProductAttr) == ApplyKwargs(p2, kw[1..][1..], SetProductAttr);
  }

  /** A `base_price` of 0 is falsy, so `update_product` cannot set it. */
  lemma ZeroPriceIsIgnored(p: Product, data: UpdateProduct)
    requires data.basePrice == Some(0.0)
    ensures ApplyKwargs(p, ProductKwargs(data), SetProductAttr).basePrice == p.basePrice
  {
    ProductUpdateIsPatch(p, data);
  }

  /** `update_product`: `get_by_id` (404 when missing), then `update` with
      every field of the request. */
  method UpdateProductById(products: Table<Id, Product>, productId: Id, data: UpdateProduct)
    returns (r: Result<Product>)
    requires ProductTable(products)
    modifies products
    ensures ProductTable(products)
    ensures !HasKey(old(products.rows), ProductKey, productId) ==>
              r == Err(HttpError(404, NoRecord(productId))) && products.rows == old(products.rows)
    ensures HasKey(old(products.rows), ProductKey, productId) ==>
              var i := IndexOfKey(old(products.rows), ProductKey, productId).value;
              var p := PatchProduct(old(products.rows)[i], data);
              r == Ok(p) && products.rows == old(products.rows)[i := p]
  {
    var found := products.GetById(productId);
    if found.Err? {
      return Err(found.error);
    }
    ProductUpdateIsPatch(found.value, data);
    var i := IndexOfKey(products.rows, ProductKey, productId).value;
    assert found.value == products.rows[i] by {
      var j :| 0 <= j < |products.rows| && products.rows[j] == found.value;
      KeyedRowIsUnique(products.rows, ProductKey, productId, j);
    }
    var p := products.Update(productId, ProductKwargs(data));
    r := Ok(p);
  }

  predicate ProductInUse(lines: seq<OrderProduct>, productId: Id) {
    exists l :: l in lines && l.productId == productId
  }

  const ProductDeleted: string := "Delete product successfully!"

  /** `delete_product`: `get_by_id` (404 when missing), then `delete`, which
      the database refuses while line items still refer to the product. */
  method DeleteProduct(products: Table<Id, Product>, orders: Table<Id, Order>,
                       lines: Table<LineKey, OrderProduct>, productId: Id)
    returns (r: Result<string>)
    requires ProductTable(products)
    requires LinesReferToRows(orders.rows, products.rows, lines.rows)
    modifies products
    ensures ProductTable(products)
    ensures LinesReferToRows(orders.rows, products.rows, lines.rows)
    ensures !HasKey(old(products.rows), ProductKey, productId) ==>
              r == Err(HttpError(404, NoRecord(productId))) && products.rows == old(products.rows)
    ensures HasKey(old(products.rows), ProductKey, productId) && ProductInUse(lines.rows, productId) ==>
              r == Err(HttpError(400, DeleteFailed)) && products.rows == old(products.rows)
    ensures HasKey(old(products.rows), ProductKey, productId) && !ProductInUse(lines.rows, productId) ==>
              r == Ok(ProductDeleted) && |products.rows| == |old(products.rows)| - 1 &&
              forall p :: p in products.rows <==> p in old(products.rows) && p.id != productId
  {
    var found := products.GetById(productId);
    if found.Err? {
      return Err(found.error);
    }
    var i := IndexOfKey(products.rows, ProductKey, productId).value;
    RemoveKeyedRow(products.rows, ProductKey, productId, i);
    var deleted := products.Delete(productId, ProductInUse(lines.rows, productId));
    if deleted.Err? {
      return Err(deleted.error);
    }
    forall l | l in lines.rows ensures HasKey(products.rows, ProductKey, l.productId) {
      var k :| 0 <= k < |old(products.rows)| && ProductKey(old(products.rows)[k]) == l.productId;
      assert old(products.rows)[k] in products.rows;
    }
    r := Ok(ProductDeleted);
  }
}
