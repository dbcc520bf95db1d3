# Hortifruti point of sale and stock ledgers in Dafny

This project is a Dafny model of the rules of a greengrocer's point-of-sale and inventory
system. The system has a FastAPI back end and a React client. The model covers:

- **PDV** (`Pdv`): the point-of-sale screen. Its cart has one line per product, and each
  line is priced at quantity × price. The add, remove and change-quantity handlers guard
  against the catalog stock. Changing customer is gated by a confirmation, and checkout
  builds the sale payload.
- **Sales** (`Sales`): sale creation. It checks the customer, then checks each item
  against the stock the earlier items left and decrements it. It records one item row per
  requested item and commits once. The daily summary totals the day by payment method.
- **Products** (`Products`): stock movements in place. `entrada` adds to the stock,
  `saída` subtracts (refused when the stock is short) and `ajuste` sets it; any other kind
  leaves it alone. Products are soft-deleted, and the listing shows active ones only.
- **Accounts receivable** (`Receivables`):
  - one account per sale;
  - payments capped at the remaining balance;
  - the status recomputed in priority order paid, partial, overdue, pending;
  - the overdue summary;
  - sellers see only the accounts of their own sales, and only admins update.
- **Supplier boxes** (`SupplierBoxes`): box numbers are unique per supplier. Weight
  movements keep the `disponível` / `em_uso` status in step with the weight. Boxes are
  soft-deleted, and the listing is filtered.
- **Locations** (`Locations`):
  - one stock row per product and location;
  - the stock overview grouped by location name, in first-seen order;
  - the low-stock report;
  - partial updates;
  - soft-deleted locations.
- **Client rules**:
  - the payment form's guards, the status label and when the pay button is shown
    (`PaymentForm`);
  - the role-filtered menu and its active entry (`Navigation`);
  - the dashboard's low-stock panel (`Dashboard`).

**Modelling choices:**

- Money, quantities and weights are integers: cents, units and grams.
- Tables are sequences held in the fields of one class per router. Each endpoint is a method
  returning `Result`, and an endpoint that fails leaves every field as it was, like an
  uncommitted session.
- Each endpoint's new state is tied to a specification function of the old state. The
  properties are proved about those functions.
- The current time, today's date, the logged-in user and the operator's answer to a
  confirmation dialog are parameters.
- A Python truthiness filter (`if status:`) is an `Option` where `Some("")` and `Some(0)`
  mean "no filter".

## Model

| member | source | states |
|---|---|---|
| Pdv.AddNewProduct | client/src/pages/PDV.tsx:74-79 | Adding a product with no line appends exactly one line: quantity 1, total = price. Every earlier line is unchanged. |
| Pdv.AddExistingBelowStock | client/src/pages/PDV.tsx:64-72 | A product whose line is below its stock gets that line raised by exactly one unit and re-priced to (q+1)·price. Every other line is unchanged. |
| Pdv.AddExistingAtStock | client/src/pages/PDV.tsx:66-67 | A product whose line has reached its stock leaves the cart unchanged. |
| Pdv.UpdateNonPositiveRemoves | client/src/pages/PDV.tsx:87-91 | Setting a quantity ≤ 0 gives exactly the cart that removing the product gives. |
| Pdv.UpdateRejected | client/src/pages/PDV.tsx:93-94 | A positive quantity above the catalog stock, or for a product missing from the catalog, leaves the cart unchanged. |
| Pdv.UpdateAccepted | client/src/pages/PDV.tsx:93-100 | An accepted quantity sets that product's line to q at q·price, keeping its product. Every other line is untouched. |
| Pdv.RemovedDropsOnlyThatProduct | client/src/pages/PDV.tsx:83-85 | After a removal no line has the product, every other line survives, and removing an absent product changes nothing. |
| Pdv.IncrementedIsQuantitySet | client/src/pages/PDV.tsx:68-72 | With one line per product, the add increment is the quantity update to q+1, so both handlers price lines the same way. |
| Pdv.RemovedKeepsValid | client/src/pages/PDV.tsx:83-85 | Removing keeps one line per product, each line priced at quantity × price. |
| Pdv.StepKeepsValid | client/src/pages/PDV.tsx:63-101 | Every cart handler keeps one line per product, each with quantity ≥ 1 and total = quantity × price. |
| Pdv.ReplayKeepsValid | client/src/pages/PDV.tsx:63-105 | After any sequence of handlers the cart is still valid, and its total equals the sum of quantity × price. |
| Pdv.TotalIsExtendedTotal | client/src/pages/PDV.tsx:103-105 | On consistent lines the displayed total (sum of line totals) equals the sum of quantity × price. |
| Pdv.TotalAppend | client/src/pages/PDV.tsx:103-105 | Appending a line raises the total by that line's total. |
| Pdv.TotalAfterRemove | client/src/pages/PDV.tsx:83-85 | Removing a product lowers the total by exactly its line's total. |
| Pdv.TotalAfterQuantitySet | client/src/pages/PDV.tsx:95-99 | Setting a line's quantity to q moves the total by q·price minus the line's old total. |
| Pdv.PayloadTotalIsSumOfItems | client/src/pages/PDV.tsx:133-139 | The payload's total_amount equals the sum of its items' total_price. |
| Pdv.FindCustomer | client/src/pages/PDV.tsx:115-116 | A customer is selected iff an id was chosen and some customer has it. The selected customer is one of the list and has that id. |
| Pdv.PointOfSale.constructor | client/src/pages/PDV.tsx:27-29 | The screen starts with no customer, an empty cart and cash payment. |
| Pdv.PointOfSale.AddToCart | client/src/pages/PDV.tsx:63-81 | The cart becomes the add step of the old cart, the cart invariant is kept, and customer and method are unchanged. |
| Pdv.PointOfSale.RemoveFromCart | client/src/pages/PDV.tsx:83-85 | The cart loses exactly the product's line, keeping the invariant and the other state. |
| Pdv.PointOfSale.UpdateQuantity | client/src/pages/PDV.tsx:87-101 | The cart becomes the change-quantity step. A quantity ≤ 0 removes the line, and the invariant is kept. |
| Pdv.PointOfSale.SetPaymentMethod | client/src/pages/PDV.tsx:250-259 | Selects one of the four payment methods and changes nothing else. |
| Pdv.PointOfSale.HandleCustomerChange | client/src/pages/PDV.tsx:107-117 | On a non-empty cart a declined confirmation keeps cart and customer. Otherwise the cart is emptied and the customer is the one found, or none. |
| Pdv.PointOfSale.HandleCheckout | client/src/pages/PDV.tsx:119-143 | No customer gives the first alert, and an empty cart the second. Otherwise the result is one payload: the customer's id, the method's code, total = cart total = sum of items, and one item per line, in order, carrying (id, quantity, price, total). |
| Pdv.PointOfSale.OnSaleCreated | client/src/pages/PDV.tsx:54-59 | After a created sale the cart is empty and no customer is selected. |
| Sales.AppliedDecrementsByQuantity | backend/app/routers/sales.py:55-75 | A successful sale lowers each product's stock by exactly the total quantity its items ask, and no other product or field changes. Products sold or previously non-negative stay non-negative. |
| Sales.SaleFitsStock | backend/app/routers/sales.py:61-62 | A successful sale never asks more of a product than its stock held. |
| Sales.MissingProductFails | backend/app/routers/sales.py:57-59 | An item naming an unknown product makes the sale fail. |
| Sales.SalesLedger.constructor | backend/app/routers/sales.py:33-38 | An empty ledger over the given customers and products. |
| Sales.SalesLedger.CreateSale | backend/app/routers/sales.py:33-79 | An unknown customer gives 404. A failing item gives its error, and a failure changes nothing. The sale succeeds exactly when the customer exists and every item applies. On success the stock becomes the items applied in order, and one sale and one item row per item are recorded. The request is taken to carry total_amount, status and per-item prices, and they are stored as sent (see Left out). |
| Sales.MethodsPartitionTheDay | backend/app/routers/sales.py:119-126 | The per-method totals add up to the day's total, and the per-method counts to the day's number of sales. |
| Sales.MethodRowsAreExact | backend/app/routers/sales.py:119-126 | One row per payment method used, each holding exactly that method's total and count. |
| Sales.DailySummaryIsConsistent | backend/app/routers/sales.py:99-139 | total_sales and total_count are the sum and number of today's sales, and the method rows partition both. |
| Products.MovementRejectedOnlyWhenShort | backend/app/routers/products.py:98-105 | A movement is refused exactly when it is a `saída` larger than the stock. Accepted movements on non-negative values keep the stock non-negative. |
| Products.InflowThenOutflowRestores | backend/app/routers/products.py:98-105 | On non-negative stock, a `saída` undoes an `entrada` of the same quantity. An `ajuste` result does not depend on the previous stock. |
| Products.MovementTouchesOneProduct | backend/app/routers/products.py:84-105 | 404 exactly when no product has the id. Otherwise only that product's stock changes, to the moved value. |
| Products.MovementKeepsStockNonNegative | backend/app/routers/products.py:100-103 | With non-negative stocks and quantity, every stock stays non-negative after an accepted movement. |
| Products.ListingShowsActiveOnly | backend/app/routers/products.py:12-20 | The listing holds only active products of the table, and a large enough first page holds all of them. |
| Products.DeletedProductLeavesListing | backend/app/routers/products.py:63-75 | A deleted product keeps its row with is_active false, leaves every page of the listing, and no other row changes. |
| Products.ProductCatalog.constructor | backend/app/routers/products.py:12-20 | A catalog over products with unique ids and no movements. |
| Products.ProductCatalog.CreateStockMovement | backend/app/routers/products.py:77-109 | The endpoint as intended (see Findings). Errors change nothing. Otherwise the stock is updated and one movement row is recorded with the request's fields, and the table keys are kept. |
| Products.AsWrittenRecordsNoMovement | backend/app/routers/products.py:84-94 | As written, the endpoint answers 404 exactly when the intended one does and 500 for every existing product, so it never records a movement, even an inflow the intended endpoint accepts. |
| Products.AsWrittenRejectsInflow | backend/app/routers/products.py:90-94 | For one product with 10 units and an inflow of 5, the intended endpoint gives 15 units; the endpoint as written fails. |
| Products.ProductCatalog.DeleteProduct | backend/app/routers/products.py:63-75 | 404 for an unknown product. Otherwise the product becomes inactive and every row is kept. |
| Receivables.StatusPriority | backend/app/routers/accounts_receivable.py:116-123 | Each recomputed status holds iff its condition holds and no earlier one does: paid, then partial, then overdue, then pending. |
| Receivables.PaymentStatusAgreesWithRecomputed | backend/app/routers/accounts_receivable.py:157-160 | Once something is paid, the payment's status equals the recomputed status for any due date. |
| Receivables.PaymentSettlesBalance | backend/app/routers/accounts_receivable.py:142-160 | A payment is refused iff it exceeds amount − paid. Otherwise paid rises by exactly the payment and stays ≤ amount, and the status is paid iff nothing remains. |
| Receivables.PaymentsAccumulate | backend/app/routers/accounts_receivable.py:154-160 | Two accepted payments equal one payment of their sum. |
| Receivables.UpdateWritesOnlySuppliedFields | backend/app/routers/accounts_receivable.py:111-123 | An update writes the supplied fields, keeps the others and the keys, and always recomputes the status. |
| Receivables.LookupRespectsVisibility | backend/app/routers/accounts_receivable.py:49-68 | 404 iff no account has the id, 403 iff the user may not see it, otherwise that account. |
| Receivables.ListingRespectsVisibility | backend/app/routers/accounts_receivable.py:22-47 | Every listed account is a row of the table, has the requested status, belongs to a customer whose name contains the requested text, and is visible to the user. On a first page large enough, every account passing the filters is listed. An admin with no filters sees the whole table. |
| Receivables.SumEntriesOfRows | backend/app/routers/accounts_receivable.py:198-210 | The sum of the entries' remaining balances equals the sum of amount − paid over the rows. |
| Receivables.SumRemainingNonNegative | backend/app/routers/accounts_receivable.py:198 | With no account overpaid, the sum of remaining balances is non-negative. |
| Receivables.OverdueSummaryTotals | backend/app/routers/accounts_receivable.py:198-213 | count = number of entries, and total = the sum of their remaining. Each entry's remaining is amount − paid. |
| Receivables.OverdueEntriesAreVisibleOverdue | backend/app/routers/accounts_receivable.py:188-213 | Entry i is the entry of the i-th overdue account visible to the user. |
| Receivables.VisibleOverdueAreSummarised | backend/app/routers/accounts_receivable.py:188-213 | Every overdue account the user may see has its entry in the summary. |
| Receivables.OverdueTotalNonNegative | backend/app/routers/accounts_receivable.py:198 | With no account overpaid, the overdue total is non-negative. |
| Receivables.UpdatedKeepsKeys | backend/app/routers/accounts_receivable.py:111-113 | Rewriting an account with its id and sale kept keeps ids distinct and below the next id, one account per sale, and every account on a recorded sale. |
| Receivables.ReceivablesLedger.constructor | backend/app/routers/accounts_receivable.py:70-94 | An empty ledger over the recorded sales. |
| Receivables.ReceivablesLedger.CreateAccountReceivable | backend/app/routers/accounts_receivable.py:70-94 | 404 for an unknown sale, and 400 when the sale already has an account; errors change nothing. A known sale without an account always gets one: a new pending account with nothing paid, so a sale keeps at most one account. |
| Receivables.ReceivablesLedger.UpdateAccountReceivable | backend/app/routers/accounts_receivable.py:96-127 | 404 before 403 for non-admins. Otherwise the account becomes the partial update with its status recomputed. |
| Receivables.ReceivablesLedger.CreatePayment | backend/app/routers/accounts_receivable.py:129-164 | 404, then 400 above the remaining balance, with nothing changed. Otherwise the account is paid down and one payment row is recorded. |
| SupplierBoxes.MovementKeepsWeightAndStatus | backend/app/routers/supplier_boxes.py:131-151 | 404 iff the box is missing, and 400 iff a `saída` is heavier than the contents. Otherwise only that box's weight and status change, and from non-negative values the weight stays non-negative with a matching status. |
| SupplierBoxes.InflowThenOutflowRestores | backend/app/routers/supplier_boxes.py:140-151 | A `saída` undoes an `entrada` of the same weight, and the status returns to what the weight calls for. |
| SupplierBoxes.ListingShowsActiveBoxes | backend/app/routers/supplier_boxes.py:16-33 | Exactly the active boxes passing the supplier and status filters. When ids follow creation order, as the registry keeps them, a newer box is listed before an older one. Without filters, every active box, newest first. |
| SupplierBoxes.DeletedBoxLeavesListing | backend/app/routers/supplier_boxes.py:94-107 | A deleted box keeps its row, becomes inactive and leaves the listing under any filter. |
| SupplierBoxes.BoxRegistry.constructor | backend/app/routers/supplier_boxes.py:47-72 | An empty registry over the given suppliers. |
| SupplierBoxes.BoxRegistry.CreateSupplierBox | backend/app/routers/supplier_boxes.py:47-72 | 404 for an unknown supplier, and 400 when the supplier already has that box number. A known supplier with a fresh box number always gets a new empty, available, active box, and numbers stay unique per supplier. |
| SupplierBoxes.BoxRegistry.CreateBoxMovement | backend/app/routers/supplier_boxes.py:122-155 | On error nothing changes. Otherwise the box takes the moved weight and status and one movement row is recorded. |
| SupplierBoxes.BoxRegistry.DeleteSupplierBox | backend/app/routers/supplier_boxes.py:94-107 | 404 for an unknown box. Otherwise the box becomes inactive and its row is kept. |
| Locations.LocationUpdateWritesOnlySuppliedFields | backend/app/routers/locations.py:66-68 | Supplied fields are written, others and the id are kept. An empty update is the identity, and an update is idempotent. |
| Locations.ListingShowsActiveLocations | backend/app/routers/locations.py:16-30 | The listing holds active locations of the requested type, and a large enough first page holds all of them. |
| Locations.ProductLocationUpdateWritesOnlySuppliedFields | backend/app/routers/locations.py:151-153 | Supplied fields are written. Id, product, location and the other fields are kept. |
| Locations.GetStockOverview | backend/app/routers/locations.py:179-216 | The loop builds exactly the grouping by location name. |
| Locations.OverviewGroupsByName | backend/app/routers/locations.py:190-216 | One group per location name, in first-seen order, carrying its first row's location and exactly its rows' entries in input order. Every row lands in its group. |
| Locations.LowStockIsExact | backend/app/routers/locations.py:228-231 | A row is reported iff quantity ≤ min_quantity and min_quantity > 0. |
| Locations.LocationRegistry.constructor | backend/app/routers/locations.py:16-30 | A registry over locations with unique ids and no stock rows. |
| Locations.LocationRegistry.UpdateLocation | backend/app/routers/locations.py:55-72 | 404 for an unknown location. Otherwise the location is replaced by its partial update. |
| Locations.LocationRegistry.DeleteLocation | backend/app/routers/locations.py:74-86 | 404 for an unknown location. Otherwise it becomes inactive and its row is kept. |
| Locations.LocationRegistry.AddProductToLocation | backend/app/routers/locations.py:103-133 | 404 for the location, then 404 for the product, then 400 for a duplicate pair. A known location and product not yet paired always get one new row, and pairs stay unique. |
| Locations.LocationRegistry.UpdateProductLocation | backend/app/routers/locations.py:135-157 | 404 unless a row has that id and location. Otherwise that row takes the partial update. |
| Locations.LocationRegistry.RemoveProductFromLocation | backend/app/routers/locations.py:159-176 | 404 unless a row has that id and location. Otherwise exactly that row is deleted. |
| PaymentForm.PaymentValidationChain | client/src/pages/AccountsReceivable.tsx:141-164 | Missing account or blank amount → first alert; amount ≤ 0 → second; above the remaining balance → third, carrying the remaining. Otherwise exactly one submission of {amount, method, notes}. Each holds iff. |
| PaymentForm.SubmittedPaymentIsAccepted | client/src/pages/AccountsReceivable.tsx:153-163 | A submitted payment is accepted by the server's rule and lowers the remaining balance, never below zero. For positive amounts, form and server accept the same payments. |
| PaymentForm.PayOfferedIffSomePaymentSubmits | client/src/pages/AccountsReceivable.tsx:166-168 | The pay button (remaining > 0) is shown iff the form accepts some amount. Paying the whole remaining balance hides it and labels the account "Pago". |
| PaymentForm.StatusTextOfRecomputed | client/src/pages/AccountsReceivable.tsx:117-128 | The label of a recomputed status is "Pago", "Parcial", "Vencido" or "Pendente" exactly under the condition of that status. |
| Navigation.MenuByRole | client/src/components/Layout.tsx:21-39 | An admin gets the whole menu. Anyone else, or no user, gets exactly PDV, Clientes, Vendas and Contas a Receber, in menu order. |
| Navigation.NonAdminSeesOpenEntries | client/src/components/Layout.tsx:34-39 | A non-admin sees a menu entry iff it is not admin-only, and sees nothing outside the menu. |
| Navigation.SharedAreTheOpenEntries | client/src/components/Layout.tsx:21-32 | The entries not reserved to admins are exactly those four, in order. |
| Navigation.AtMostOneActive | client/src/components/Layout.tsx:52 | Menu targets are pairwise distinct, so on any page at most one entry of any user's menu is highlighted. |
| Dashboard.LowStockIsExact | client/src/pages/Dashboard.tsx:40-42 | The list holds exactly the products with stock ≤ min_stock and splits over concatenation, which keeps catalog order. With no data it is empty. |
| Dashboard.ShownIsFirstFive | client/src/pages/Dashboard.tsx:125-170 | The detail list is the first min(5, count) low products, all of them low. The counter shows the full count. |
| Dashboard.SectionShownIffSomeLow | client/src/pages/Dashboard.tsx:163 | The low-stock section appears iff product data has arrived and some product has stock ≤ min_stock. |

## Left out

- Sales.SalesLedger.CreateSale treats the request as carrying `total_amount` and `status`, and each item as carrying `unit_price` and `total_price`, and records the seller as the sale's `seller_id`. The request schemas (backend/app/schemas.py:127-147) have none of these four fields, and the router reads them (backend/app/routers/sales.py:47, 49, 69-70) and passes `user_id` where the sale table has `seller_id` (backend/app/models.py:83). As written, every sale that passes the customer check fails at those reads; the model follows the evident intent.
- HTTP, JSON and authentication are not modelled: the logged-in user is a parameter, and
  the axios interceptors, token storage and route guards are left out. Password hashing and
  JWTs are calls into libraries.
- react-query caching, invalidation and the loading states are not modelled. A catalog or
  customer list still loading is the empty list.
- Floating point is not modelled. Money, quantities and weights are integers, so
  `toFixed(2)` and `parseFloat` formatting and rounding are out. An amount field that
  parses to NaN is not modelled.
- The `ORDER BY due_date` of the receivable listing is not modelled: that listing keeps
  table order.
- SupplierBoxes.ListingShowsActiveBoxes models `ORDER BY created_at DESC` as the table order
  reversed. This assumes rows are appended in creation order; boxes created at the same
  instant are not modelled.
- `ilike` in the receivable listing is modelled as a case-sensitive substring test, and the
  `%` and `_` wildcards a customer name may contain are matched literally.
- Joins are not modelled: the stock overview and the low-stock report take the already
  joined rows as input.
- The account-receivable, location, product-location, supplier-box and box-movement
  schemas are not part of this model. Their fields are the ones the routers and the client
  read and write.
- Products.ProductCatalog.CreateStockMovement models the endpoint as intended. As written, it
  fails on every call past the 404 check; see Findings.
- Dashboard.LowStockIsExact reads each product's min_stock as present. The products
  response schema (backend/app/schemas.py:107-113) carries no min_stock field, and how
  the comparison behaves on the served JSON is not modelled.
- Read-only endpoints are left out: single-row reads, payment and movement histories, the
  sales listings and the supplier-box status summary (`get_boxes_summary`), as are
  `create_product`, `update_product`, `create_location`, `update_supplier_box` and
  `update_sale`. They carry no rule beyond the row lookup.
- The existence checks of `add_product_to_location` and `create_supplier_box` do not look
  at `is_active`, and box-number uniqueness counts inactive boxes too. The model does the
  same.
- The server's `create_payment` accepts a zero or negative amount; only the client rejects
  one. The model keeps that difference.
- In the overdue summary, an account whose customer is missing gets no customer name
  instead of raising.
- The update body of a product location is modelled without `product_id`, so the
  pair-uniqueness check runs only on insert, as in the source.
- Creation defaults are assumed, since the ORM models that set them are not part of this
  model. A new account receivable starts with nothing paid and status pending
  (backend/app/routers/accounts_receivable.py:89). A new supplier box starts with weight 0,
  status `disponível` and active (backend/app/routers/supplier_boxes.py:67).
- Route matching is not modelled. `GET /sales/daily-summary` (backend/app/routers/sales.py:99)
  is declared after `GET /sales/{sale_id}` (backend/app/routers/sales.py:21). The path
  parameter would therefore match first and reject "daily-summary" as an integer, so the
  summary looks unreachable as written. Sales.GetDailySummary models the handler's body.
- The daily-summary display on the dashboard and the other CRUD screens carry no rules and
  are left out.

## Findings

| source | as written | input that shows it | evidently intended | confidence | as-written member | corrected member |
|---|---|---|---|---|---|---|
| backend/app/routers/products.py:90-94 | `StockMovement(product_id=product_id, user_id=…, **movement.dict())`, where the body's fields already hold `product_id` (backend/app/schemas.py:166-173). Python raises a `TypeError` for the repeated keyword, so every call past the 404 check answers 500 and changes nothing. | An existing product with 10 units and an inflow of 5 | The movement is recorded and the stock becomes 15 | not executed; read from the text | Products.AsWrittenRejectsInflow | Products.ProductCatalog.CreateStockMovement |
