# Order lifecycle of the pyapp shop, in Dafny

This project models the order lifecycle of a small FastAPI shop whose data
lives in SQLModel tables. It covers:

- the generic record access of `BaseRepository`: lookup by id with a 404, first-match lookup, filtered listing and counting, pagination, create, batch create, the truthy-only update, and delete with its commit and rollback;
- the order handlers:
  - placing an order, with the admin-for-customer resolution, the product check and two separate commits;
  - reading an order;
  - deleting an order, for admins only;
  - fulfilling an order: a shipping label for `freeship`, one mail to the owner, then the status update;
- the order listing query and the order-with-owner lookup;
- the shipping-label request and how its reply is read;
- the product, group and store handlers, including both pricing endpoints.

Each table is a `Repository.Table` object. Its `rows` field holds the table in
storage order. Its invariant is the primary-key constraint. The handlers are
methods that change the tables they write and state the whole new state. The
queries are functions over the rows.

Each modelled endpoint ends in one of three ways:

- `Ok`, a success;
- `HttpError(status, detail)`, an `HTTPException`;
- `Unhandled(exception)`, a Python exception the handler does not catch, which FastAPI answers with a 500.

The handlers take as parameters what the source gets from the outside: the
current user, fresh UUIDs, `datetime.now()`, and the carrier's answer.
`Models.Id` is the text of a UUID and `Models.Time` is an opaque instant.

Behaviours of the code worth knowing:

- Fulfilling an order does not check its current status. A second fulfilment repeats the label call, the mail and the update. There is no conflict error.
- The order and its line items are two separate commits. A failing batch leaves the order without items.
- A failed carrier request makes the label helper return None, and unpacking it raises `TypeError`. The result is a 500, not a dedicated external-service error. It happens before any mail or update.
- Deleting an order or a product that line items still refer to does not cascade. The foreign key makes the commit fail, which gives the rollback's 400.
- The mail is enqueued before the status is committed.
- Neither the discount nor the quantity is range-checked.
- An admin who names an unknown customer e-mail gets a 500 (`AttributeError` on `None`), not a 404, and only after the product check.

Facts the model relies on:

- In `app/models/user.py`, pydantic's `Field` shadows SQLModel's. So `Group.name`'s `unique=True` and `User.group_id`'s foreign key never reach the database.
- Group names are kept apart only by `create_group`'s own lookup.
- Deleting a group or a store always commits.

## Model

| member | source | states |
|---|---|---|
| Repository.DropNone | app/repository/base.py:88 | the result keeps exactly the keyword pairs whose value is not None, and is no longer than the input |
| Repository.DropNoneIsRedundant | app/repository/base.py:85-89 | dropping the None values before `update` changes nothing, since `update` skips falsy values anyway |
| Repository.FalsyKwargsChangeNothing | app/repository/base.py:123-125 | keyword arguments that are all falsy leave the record as it was |
| Repository.IndexOfKey | app/repository/base.py:69 | `session.get` finds a position holding the key exactly when some row has that key |
| Repository.KeyedRowIsUnique | app/repository/base.py:69 | under the primary key, the row found for a key is the only row with that key |
| Repository.FirstMatch | app/repository/base.py:77-83 | None exactly when no row matches; otherwise the earliest matching row in storage order |
| Repository.Filter | app/repository/base.py:36-41 | the result holds exactly the rows that satisfy the filter |
| Repository.CountMatchesFilter | app/repository/base.py:22-41 | counting with a filter equals the length of the fetch with the same filter |
| Repository.Page | app/repository/base.py:43-50 | at most `limit` rows, the i-th being row `skip + i`; as many as remain when fewer than `limit`; none past the end |
| Repository.RemoveKeyedRow | app/repository/base.py:163-167 | removing the keyed row keeps every other row and only those, and keeps the keys unique |
| Repository.NoRecord | app/repository/base.py:73-75 | the 404 detail ends with the id that was looked up |
| Repository.Table.constructor | app/repository/base.py:12-13 | a new table is empty and satisfies the key invariant |
| Repository.Table.GetById | app/repository/base.py:67-75 | the row with that key when one exists, otherwise 404 "No record found with id: " plus the id |
| Repository.Table.GetByItem | app/repository/base.py:77-83 | the first row, in storage order, satisfying the filter, or None exactly when no row does |
| Repository.Table.GetAllBy | app/repository/base.py:36-41 | exactly the rows that satisfy the filter |
| Repository.Table.CountBy | app/repository/base.py:22-27 | equals the number of rows `GetAllBy` returns for the same filter |
| Repository.Table.GetAllPaginated | app/repository/base.py:43-50 | the rows in order from position `skip`: `limit` of them, or all that remain when fewer; none when `skip` is past the end |
| Repository.Table.Create | app/repository/base.py:101-118 | appends exactly the new row; on a key clash, rolls back (rows unchanged) and answers 400 |
| Repository.Table.CreateAll | app/repository/base.py:148-161 | appends all rows in one commit; if any key clashes, inserts none and answers 400 |
| Repository.Table.Update | app/repository/base.py:120-146 | the keyed row becomes the result of assigning the truthy arguments in order; every other row is unchanged; keys are preserved |
| Repository.Table.UpdateById | app/repository/base.py:85-89 | patches the keyed row like `Update`; for a missing id: 400 if some value is truthy (setattr on None), otherwise None, with nothing changed |
| Repository.Table.Delete | app/repository/base.py:163-186 | removes exactly the keyed row; when a foreign key still refers to it, rolls back and answers 400 |
| Repository.Table.DeleteById | app/repository/base.py:188-196 | 404 with nothing removed for a missing id; otherwise behaves as `Delete` |
| Models.NewOrder | app/models/order.py:16-22 | a new order starts "unfulfilled" with no fulfilment instant, with the given owner, price, method, location and admin flag |
| Models.NewOrderCreate | app/models/order.py:42-44 | `customer_email` defaults to None |
| Models.NewStoreBase | app/models/store.py:6-9 | `is_store` defaults to true |
| Models.NewShipFrom | app/models/order.py:72-80 | state, postal code and country default to TX, 95128 and US |
| Models.NewShipTo | app/models/order.py:83-89 | postal code and country default to 95128 and US |
| Models.NewWeight | app/models/order.py:92-94 | the unit defaults to ounces |
| Models.NewShippingLabel | app/models/order.py:101-105 | the service defaults to "usps_priority_mail" |
| Tables.SetProductAttr | app/repository/base.py:123-125 | `setattr` on a product never changes its id or creation time |
| Tables.SetGroupAttr | app/repository/base.py:123-125 | `setattr` on a group never changes its id or creation time |
| Tables.SetOrderAttr | app/repository/base.py:123-125 | `setattr` on an order never changes its id, owner or creation time |
| Tables.OptionalText | app/api/routes/v1/product.py:71 | a request field counts as truthy exactly when it is given and not empty |
| Tables.OptionalReal | app/api/routes/v1/product.py:71 | a request number counts as truthy exactly when it is given and not 0 |
| Tables.NewOrderTable | app/repository/base.py:12-13 | an empty orders table satisfies the invariant the order handlers require |
| UserRepository.UserByEmail | app/api/routes/v1/order.py:62-64 | the first user, in storage order, with that e-mail, or None exactly when there is none |
| UserRepository.UserGroup | app/repository/user.py:10-17 | a found group belongs to a user with that id; with unique user ids, a user whose group row exists always gets it |
| UserRepository.ResolveCustomer | app/api/routes/v1/order.py:60-65 | `from_admin` holds exactly when an admin names a non-empty e-mail; then the customer is the user with that e-mail (possibly None), otherwise the caller |
| OrderRepository.OwnerOf | app/repository/order.py:23 | the join finds a user with the order's `user_id`, or None exactly when there is none |
| OrderRepository.TotalQuantityAppend | app/repository/order.py:21 | the quantity sum over two batches of line items is the sum of their sums |
| OrderRepository.TotalQuantityWithoutLines | app/repository/order.py:21-24 | an order without line items sums to 0 |
| OrderRepository.ListOrders | app/repository/order.py:12-29 | a row is listed exactly when it belongs to an order that has an owner and line items and that the viewer may see; never more rows than orders |
| OrderRepository.ListedOrdersAreVisible | app/repository/order.py:26 | a customer sees only their own orders; an admin sees only orders placed by an admin |
| OrderRepository.ListedRowContents | app/repository/order.py:14-25 | every row carries its owner's e-mail and the sum of its line quantities |
| OrderRepository.OrderWithoutLinesIsNotListed | app/repository/order.py:24 | an order without line items never appears |
| OrderRepository.RowIdIsAnOrderId | app/repository/order.py:15 | every listed row has the id of an order |
| OrderRepository.OneRowPerOrder | app/repository/order.py:25 | no two rows share an order id |
| OrderRepository.GetUserOrder | app/repository/order.py:32-39 | a found pair is the order with that id and its owner; with unique order ids, None exactly when no order with that id has an owner |
| OrderRepository.BuildPayload | app/repository/order.py:43-48 | the payload keeps service, ship-to and ship-from, and has one weight entry per package, in order |
| OrderRepository.PayloadKeepsRequest | app/repository/order.py:43-48 | the request can be read back from the payload unchanged |
| OrderRepository.GenerateShippingLabel | app/repository/order.py:42-69 | returns None exactly when the request fails; returns the pair exactly when the reply has `label_download` and a non-empty `packages`; the pair is (pdf, first tracking number) |
| OrderRoutes.ProductUnavailable | app/api/routes/v1/order.py:74-77 | the 404 detail names the missing product id |
| OrderRoutes.FirstMissingProduct | app/api/routes/v1/order.py:68-77 | None exactly when every item's product exists; otherwise the first item, in request order, whose product is missing |
| OrderRoutes.CheckProducts | app/api/routes/v1/order.py:68-77 | the loop over the items stops at exactly the first missing product |
| OrderRoutes.LineRows | app/api/routes/v1/order.py:90 | one line item per request item, in order, with the new order's id and the item's product and quantity |
| OrderRoutes.LineRowsQuantity | app/api/routes/v1/order.py:90-93 | the new line items add up to the requested quantities |
| OrderRoutes.NewOrderQuantity | app/api/routes/v1/order.py:90-93 | after the batch, the order's total quantity is the sum of the requested quantities |
| OrderRoutes.NewOrderIsListed | app/api/routes/v1/order.py:80-93 | a customer's new order with items appears in their listing, with their e-mail and the requested total quantity |
| OrderRoutes.LineBatchIsUnique | app/api/routes/v1/order.py:89-93 | the batch insert keeps the (order, product) key exactly when no product is requested twice |
| OrderRoutes.CreateOrderCheck | app/api/routes/v1/order.py:60-77 | a missing product gives 404 naming the first one; otherwise a missing customer gives AttributeError; otherwise the resolved customer and admin flag |
| OrderRoutes.CustomerOrdersForThemselves | app/api/routes/v1/order.py:60-65 | a non-admin always orders for themselves, with `from_admin` false |
| OrderRoutes.AdminOrdersForCustomer | app/api/routes/v1/order.py:60-65 | an admin naming an e-mail orders for that user with `from_admin` true, or fails with AttributeError when there is no such user |
| OrderRoutes.NewOrderHasNoLines | app/models/order.py:28-30 | while the foreign keys hold, no line item refers to an unused order id |
| OrderRoutes.NewLinesReferToRows | app/api/routes/v1/order.py:80-93 | inserting the order and then its checked items keeps the line-item foreign keys |
| OrderRoutes.CreateOrder | app/api/routes/v1/order.py:54-95 | on a failed check, nothing is written and the check's error is returned; on an id clash, 400 with nothing written; otherwise exactly the new order is appended, then either all its line items (when no product repeats) or none, with a 400 and the order kept; foreign keys preserved |
| OrderRoutes.GetOrder | app/api/routes/v1/order.py:118-122 | the order with that id, or 404 exactly when there is none |
| OrderRoutes.DeleteOrder | app/api/routes/v1/order.py:125-143 | non-admin: 403, nothing changed; missing order: 404; order with line items: 400, nothing changed; otherwise exactly that order is removed; foreign keys preserved |
| OrderRoutes.MailQueue.Delay | app/api/routes/v1/order.py:202 | `send_email_task.delay` appends exactly one mail to the queue |
| OrderRoutes.FulfilledSubject | app/api/routes/v1/order.py:158 | the subject starts "The Order " followed by the order id |
| OrderRoutes.FulfillPlan | app/api/routes/v1/order.py:155-200 | a missing order or owner gives AttributeError; any method other than `freeship` answers "Order is fulfilled!"; `freeship` answers the label call's pair, or fails with TypeError or the reply's exception; the mail goes to the owner with the order's subject |
| OrderRoutes.MarkFulfilled | app/api/routes/v1/order.py:205-210 | only the orders with that id are changed, to "fulfilled" at the given instant |
| OrderRoutes.FulfilKwargsSetStatus | app/api/routes/v1/order.py:205-210 | the update's arguments set exactly the status and the instant |
| OrderRoutes.UpdateIsMarkFulfilled | app/api/routes/v1/order.py:205-210 | under the primary key, `update_by_id` on the order is `MarkFulfilled` |
| OrderRoutes.LookupAfterMark | app/repository/order.py:32-39 | after marking, the lookup finds the same order, only marked |
| OrderRoutes.FulfilAgain | app/api/routes/v1/order.py:151-212 | with no status guard, fulfilling an already fulfilled order plans the same mail and answer again |
| OrderRoutes.FulfillOrder | app/api/routes/v1/order.py:151-212 | on failure, no mail and no change; on success, exactly one mail is enqueued and only that order is set to "fulfilled" at `now` |
| ProductRoutes.DiscountPrice | app/api/routes/v1/product.py:115-116 | the discounted price is the base price times one minus the discount |
| ProductRoutes.DiscountExtremes | app/api/routes/v1/product.py:115-116 | discount 0 keeps the base price; discount 1 gives 0 |
| ProductRoutes.WorkedPrices | app/api/routes/v1/product.py:115-125 | 10% off 100 is 90; three at 90 cost 270 |
| ProductRoutes.DiscountPriceBounds | app/api/routes/v1/product.py:115-116 | a non-negative base price with a discount in [0,1] gives a price in [0, base] |
| ProductRoutes.DiscountIsMonotone | app/api/routes/v1/product.py:115-116 | a larger discount never gives a higher price |
| ProductRoutes.GetProductPrice | app/api/routes/v1/product.py:124-126 | quantity 0 costs 0; quantity 1 costs the unit price; non-negative inputs give a non-negative total |
| ProductRoutes.LinePriceAdds | app/api/routes/v1/product.py:125 | the price of a split quantity is the sum of the parts' prices |
| ProductRoutes.GetProductDiscountPrice | app/api/routes/v1/product.py:98-116 | missing customer: AttributeError; missing product: 404; customer without a group: AttributeError; otherwise the product's base price discounted by the customer's group |
| ProductRoutes.AdminGetsCustomerPrice | app/api/routes/v1/product.py:103-109 | an admin naming a customer's e-mail gets exactly that customer's own price |
| ProductRoutes.CustomerEmailIsIgnored | app/api/routes/v1/product.py:104 | a non-admin's `customer_email` does not change the answer |
| ProductRoutes.CreateProduct | app/api/routes/v1/product.py:24-30 | appends exactly the product with the given name, base price and description; 400 with nothing changed on an id clash |
| ProductRoutes.ProductUpdateIsPatch | app/api/routes/v1/product.py:71-74 | `update` with the request's fields changes exactly the fields that are given and truthy |
| ProductRoutes.ZeroPriceIsIgnored | app/api/routes/v1/product.py:71-74 | a `base_price` of 0 leaves the price unchanged |
| ProductRoutes.UpdateProductById | app/api/routes/v1/product.py:60-75 | 404 with nothing changed for a missing id; otherwise only that product changes, patched with its given truthy fields |
| ProductRoutes.DeleteProduct | app/api/routes/v1/product.py:79-90 | 404 for a missing id; 400 with nothing changed while line items refer to it; otherwise exactly that product is removed; foreign keys preserved |
| GroupRoutes.AddingUnusedNameKeepsNamesDistinct | app/api/routes/v1/group.py:19-31 | adding a group under an unused name keeps group names distinct |
| GroupRoutes.CreateGroup | app/api/routes/v1/group.py:15-32 | an existing name: 400 "This group is already exist. Please create a new one!" with nothing changed; otherwise exactly the group with the given name and discount is appended; distinct names stay distinct |
| GroupRoutes.GetGroup | app/api/routes/v1/group.py:44-48 | the group with that id, or 404 exactly when there is none |
| GroupRoutes.GroupUpdateIsPatch | app/api/routes/v1/group.py:65-68 | `update` with the request's fields changes exactly the fields that are given and truthy |
| GroupRoutes.ZeroDiscountIsIgnored | app/api/routes/v1/group.py:65-68 | a discount of 0 cannot be set |
| GroupRoutes.UpdateGroupById | app/api/routes/v1/group.py:54-69 | 404 with nothing changed for a missing id; otherwise only that group changes, patched with its given truthy fields |
| GroupRoutes.DeleteGroup | app/api/routes/v1/group.py:73-84 | 404 with nothing changed for a missing id; otherwise exactly that group is removed |
| StoreRoutes.CreateStore | app/api/routes/v1/store.py:16-22 | appends exactly the store with the given name, address and kind; 400 with nothing changed on an id clash |
| StoreRoutes.ListStoreAddress | app/api/routes/v1/store.py:32-44 | an address is listed exactly when a location of the wanted kind has it: stores for "pickup", warehouses otherwise |
| StoreRoutes.AddressListsSplitLocations | app/api/routes/v1/store.py:35-44 | every location is listed for "pickup" or for another method, and not both |
| StoreRoutes.NonPickupMethodsAgree | app/api/routes/v1/store.py:41-44 | every method other than "pickup", known or not, lists the same addresses |
| StoreRoutes.DeleteStore | app/api/routes/v1/store.py:48-59 | 404 with nothing changed for a missing id; otherwise exactly that store is removed |

## Left out

- Network and broker I/O are abstracted:
  - The carrier's HTTP API is the oracle parameter `shipEngine`. Its headers and URL are not modelled.
  - Any `RequestException`, including a reply that is not JSON, is `RequestFailed`.
  - The Celery/SMTP mail is the `MailQueue` log. The mail body is a record of the values it shows, not the rendered text; `capitalize()` is not modelled.
- Authentication (app/core/security.py, app/core/deps.py, app/api/routes/v1/google_sso.py) is left out. The current user is a parameter of each handler.
- app/api/routes/v1/user.py is not part of this model. It depends on a user module that is not available, and on password hashing.
- app/models/base.py is not part of this model. Fresh ids and creation instants are handler parameters.
- Other query helpers are left out because no modelled handler uses them: `count_all`, `get_all`, `get_all_paginated_by` (ordering by creation time), `check_exist` and `delete_all`.
- The thin handlers are left out because each only passes another call through: `get_user_emails`, `list_order`, `list_product`, `get_product` and `list_group`. `ListOrders`, `GetAllBy` and `GetById` cover what they return.
- `item_logger` calls and `print` are left out. They do not affect state or answers.
- The database's own error text after "Error creating record: ", "Error updating record: " and "Error deleting record: " is not produced.
- Only the failures the schema can cause make a commit fail:
  - a primary-key clash on insert;
  - a line item's foreign key on delete.
  Lost connections and other database errors are not modelled.
- Request validation by FastAPI and pydantic is not modelled: malformed UUIDs, wrong types, and 422 answers.
- Concurrency is not modelled. Each handler is one sequential step over the tables, so races between two fulfil calls and interleavings of the two commits of `create_order` are not captured.
- Prices and discounts are Python floats. They are modelled as exact `real` numbers, without IEEE-754 rounding.
- `setattr` on stores and line items is the identity (`Tables.KeepStore`, `Tables.KeepLine`), because no modelled handler updates those tables. Users are only read.
- `setattr` on products, groups and orders (`Tables.SetProductAttr`, `Tables.SetGroupAttr`, `Tables.SetOrderAttr`) is modelled only for the columns the handlers pass. Any other name is ignored. Python would instead assign it, which could change `id`, `user_id` or `created_at`, or raise for an unknown field, which the rollback turns into a 400. So the key-preservation part of `Table.Valid` holds only because of this restriction.
- Repository.Table.GetAllPaginated: the defaults `skip = 0` and `limit = 10` (app/repository/base.py:44) are not modelled, because a Dafny function has no default arguments; a caller relying on them passes 0 and 10.
- OrderRoutes.FulfillPlan does not describe the mail body's shipping method, tracking number or location. They are fixed by its definition, which `FulfillOrder` uses, but they are not stated in its contract.
