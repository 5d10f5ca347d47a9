# Inventory store models in Dafny

This project models the persistence layer of an inventory back end: the model classes that
keep suppliers, product categories, products, stock-in invoices with their item lines, and
stock-outs in a relational database. Each table is a map from primary key to row. Each SQL
statement is an operation on those maps:

- an `INSERT`, `UPDATE` or `DELETE` is a method of a model class, which changes the table
  fields of a shared `Database` object;
- a `SELECT` is a function over the table values.

The centrepiece is `StockInItemModel.updateInvoiceAndItem`. It edits an invoice header and
one of its item lines inside one transaction:

- a supplier or product that is omitted falls back to the stored one;
- the line must belong to the invoice;
- every failure rolls both tables back.

`UpdatePlan` states the outcome of that transaction as a function of the tables at BEGIN.
`StockInItemModel.Statements` runs the statements one by one and is proved to produce that
outcome. `StockInItemModel.UpdateInvoiceAndItem` adds BEGIN, ROLLBACK and COMMIT. It is
proved to leave both tables unchanged on every failure, and on success to rewrite exactly
the two target rows.

Modules:

- `Common`: optional values, errors (`throw new Error`, `throw { status, message }`, and
  errors raised by the store), and scalar column types.
- `Ordering`: the order in which rows come back. The store promises no scan order, so the
  model fixes one: a scan visits keys in ascending code-point order. `ORDER BY` is then a
  stable sort of that scan, and `LIMIT`/`OFFSET` is a slice. Scans, filters, joins, sorts
  and pages never repeat a row of a table whose rows sit under their own id.
- `Schema`: the row types, the six tables as one value, and the `Database` class.
- `Suppliers`, `Categories`, `Products`, `StockInInvoices`, `StockInItems`, `StockOuts`: one
  module per model file.

Modelling choices:

- The clock (`new Date()`, `NOW()`, `CURRENT_TIMESTAMP`) is an integer parameter `now`. Both
  rows written by the transaction get the same `now`, as they share one transaction time.
- Dates are the text the caller sent. Prices are integers, because no code path computes
  with them.
- Joins on `x.fk = y.id` are lookups by primary key. On a table whose rows sit under their
  own id (`Database.Valid`), this is the same as a join on the column.
- Where an `ORDER BY` leaves ties unordered, the model breaks them by primary key.

Where the model code does less than the system as a whole, the model follows the code:

- Conflict probes before `create`, page/pageSize defaults, search, and NotFound responses
  are done by the controllers, not the models.
- `update` returns null for an unknown id rather than failing.
- `delete` returns false whether or not a row was removed.
- No delete of a single stock-in item exists in the model code, so none is modelled.

## Model

| member | source | states |
|---|---|---|
| Ordering.Rows | src/models/supplier.model.ts:57 | a full scan: every row of the table, as many as it has, none twice when no two keys hold the same row |
| Ordering.Filter | src/models/stockInItem.model.ts:116 | `WHERE`: each row satisfying the condition exactly as often as in the input, no other row |
| Ordering.Sort | src/models/stockInInvoice.model.ts:45 | `ORDER BY`: the result is a permutation of the scan (same multiset and members) sorted by the comparator, so repeat-free when the scan is |
| Ordering.Page | src/models/supplier.model.ts:57 | `LIMIT l OFFSET o`: exactly min(l, n - o) rows (none past the end), the i-th being row o + i of the ordered input, so repeat-free when the input is |
| Ordering.PagesConcatenate | src/models/supplier.model.ts:57-61 | reading page (a, o) then page (b, o + a) yields exactly page (a + b, o) |
| Suppliers.FindOne | src/models/supplier.model.ts:45-54 | returns a row with exactly that `supplier_name`, and null iff no row has that name |
| Suppliers.FindById | src/models/supplier.model.ts:64-72 | returns a stored row with that id, and null iff no row has that id |
| Suppliers.Listing | src/models/supplier.model.ts:57 | every supplier once (none twice), newest `created_at` first |
| Suppliers.FindAll | src/models/supplier.model.ts:57-61 | exactly min(limit, n - offset) suppliers, each the one at position offset + i of the newest-first order, none twice |
| Suppliers.SupplierModel.Create | src/models/supplier.model.ts:22-42 | fails with "Supplier data is required to create a new supplier." without data, and with a unique violation on a taken id; otherwise inserts the five columns with both timestamps `now` and leaves the table unchanged on failure |
| Suppliers.SupplierModel.Update | src/models/supplier.model.ts:75-93 | rejects an empty patch; a patch naming `updated_at` is a double assignment; an unknown id gives null; otherwise only the supplied keys and `updated_at = now` change, on that row alone (moved if its id was patched); the table is unchanged on every failure |
| Suppliers.SupplierModel.Delete | src/models/supplier.model.ts:95-99 | removes exactly the row with that id and no other; reports false |
| Categories.PatchesCompose | src/models/category.model.ts:70-88 | two successive updates equal one update with the merged patch, the later key winning |
| Categories.FindOne | src/models/category.model.ts:41-50 | returns a row with exactly that `category_name`, and null iff none has it |
| Categories.FindById | src/models/category.model.ts:59-67 | returns a stored row with that id, and null iff no row has that id |
| Categories.FindAll | src/models/category.model.ts:52-56 | every category once (none twice), with no page, newest `created_at` first |
| Categories.CountTotalCategory | src/models/category.model.ts:96-100 | the count is the number of rows a full scan returns |
| Categories.CategoryModel.Create | src/models/category.model.ts:19-39 | fails with "category data is required to create a new category." without data; otherwise inserts the five given columns and the count grows by one |
| Categories.CategoryModel.Update | src/models/category.model.ts:70-88 | rejects an empty patch ("Category data is required to update a category."); otherwise sets only the supplied keys plus `updated_at = now` on that row, or returns null for an unknown id |
| Categories.CategoryModel.Delete | src/models/category.model.ts:90-94 | removes only the row with that id, and the count drops by one when it existed |
| Products.StampedPatchSetsUpdatedAt | src/models/product.model.ts:106-122 | once stamped, the patched row carries `updated_at = now` whatever the caller supplied, and keeps `minimum_stock` |
| Products.FindOne | src/models/product.model.ts:46-61 | returns a product matching `product_code`, `name_en` and `name_kh` all three, and null iff every product differs in at least one |
| Products.FindById | src/models/product.model.ts:91-99 | returns a stored product with that id, and null iff none has it |
| Products.JoinCategories | src/models/product.model.ts:76-81 | the inner join: every listed product has an existing category whose name it carries, every such product is listed, and no product of a repeat-free input is listed twice |
| Products.FindAll | src/models/product.model.ts:63-87 | exactly the products whose category exists, each once, with its name, newest `created_at` first |
| Products.CountTotalProducts | src/models/product.model.ts:131-135 | the count is the number of rows a full scan returns |
| Products.ProductModel.Create | src/models/product.model.ts:21-44 | fails with "Product data is required to create a new product." without data; otherwise inserts the eight given columns with `minimum_stock` NULL, and `findById` and `findOne` then find the row |
| Products.ProductModel.Update | src/models/product.model.ts:101-123 | rejects an empty patch; otherwise writes `updated_at = now` into the caller's patch and sets exactly its keys on that row, or returns null for an unknown id; the table is unchanged on failure |
| Products.ProductModel.Delete | src/models/product.model.ts:125-129 | removes only that row, after which `findById` finds nothing and the count drops by one |
| StockInInvoices.FindAll | src/models/stockInInvoice.model.ts:44-48 | every invoice once (none twice), newest `created_at` first |
| StockInInvoices.Aggregate | src/models/stockInInvoice.model.ts:61-78 | the object built for a real item line is never the all-NULL object |
| StockInInvoices.AggregateAll | src/models/stockInInvoice.model.ts:61-74 | one object per line, built from the lines given and from no other, with no object twice when no line repeats |
| StockInInvoices.ItemsOf | src/models/stockInInvoice.model.ts:61-79 | as written: an invoice with lines holds one object per own line (as many objects as lines, none twice) built with its product's names, and no other; one without lines gets a single all-NULL object |
| StockInInvoices.GroupAll | src/models/stockInInvoice.model.ts:75-79 | one group per invoice, each holding that invoice's supplier name and items |
| StockInInvoices.FindAllStockIn | src/models/stockInInvoice.model.ts:50-85 | every invoice exactly once (including those without supplier or lines) with its supplier name and aggregated lines, newest `created_at` first |
| StockInInvoices.EmptyInvoiceListsNullItem | src/models/stockInInvoice.model.ts:61-77 | an invoice without lines is listed with one phantom item whose every key is NULL |
| StockInInvoices.ItemsOfIntended | src/models/stockInInvoice.model.ts:61-79 | corrected aggregation: exactly one object per own line (as many as lines, none twice, each from a line of this invoice), never an all-NULL one, empty iff the invoice has no lines |
| StockInInvoices.FindOne | src/models/stockInInvoice.model.ts:88-96 | as written: an error when the relation `stock_in` does not exist; otherwise the row of `stock_in` with that id, and null iff it has none |
| StockInInvoices.FindOneMissesStoredInvoice | src/models/stockInInvoice.model.ts:88-96 | as written, `findOne` does not find a stored invoice: it fails when `stock_in` is undefined and finds nothing when it is empty, while the intended lookup finds it |
| StockInInvoices.FindOneIntended | src/models/stockInInvoice.model.ts:88-96 | corrected lookup in `invoice_stock_in`: a stored invoice with that id, and null iff none has it |
| StockInInvoices.InvoiceStockInModel.Create | src/models/stockInInvoice.model.ts:21-43 | fails with "Invoice data is required to create a new stock." without data; otherwise inserts the seven given columns as they are, and the intended lookup finds the row |
| StockInItems.JoinRows | src/models/stockInItem.model.ts:67-70 | inner join with invoice, supplier and product: exactly the lines for which all three exist, each with their columns, and no line of a repeat-free input twice |
| StockInItems.FindAll | src/models/stockInItem.model.ts:55-75 | exactly the lines whose invoice, supplier and product exist, each once, joined, newest `created_at` first |
| StockInItems.FindById | src/models/stockInItem.model.ts:77-98 | a row of the full listing with that item id, and null iff the listing has none |
| StockInItems.ItemsReferencing | src/models/stockInItem.model.ts:116 | exactly the item lines whose `invoice_stockin_id` is the invoice, each once |
| StockInItems.FindStockInByInvoiceId | src/models/stockInItem.model.ts:100-121 | exactly the joinable lines of that invoice, each once, joined, newest `created_at` first |
| StockInItems.FirstIsNewest | src/models/stockInItem.model.ts:117 | the first row of a `created_at DESC` listing is at least as new as every row of it |
| StockInItems.InvoiceListingIsFilteredListing | src/models/stockInItem.model.ts:100-121 | the per-invoice listing is the full listing restricted to that invoice |
| StockInItems.QuantityRemove | src/models/stockInItem.model.ts:247 | the `SUM` does not depend on scan order: any line may be taken first |
| StockInItems.QuantityInsert | src/models/stockInItem.model.ts:247-251 | a new line adds its quantity to its product's name's total and to no other name's |
| StockInItems.QuantityWithoutItems | src/models/stockInItem.model.ts:247-251 | `COALESCE(SUM, 0)`: a name no line points to totals 0 |
| StockInItems.Totals | src/models/stockInItem.model.ts:243-256 | one row per given name, in order, with that name's total |
| StockInItems.CountProductsInStock | src/models/stockInItem.model.ts:243-259 | one row per distinct product `name_en`, each once, ascending by name, each total being the summed quantity of the lines of all products of that name |
| StockInItems.UnstockedNameCountsZero | src/models/stockInItem.model.ts:247-251 | a listed name with no line for any of its products has total 0 |
| StockInItems.UpdatePlan | src/models/stockInItem.model.ts:141-222 | succeeds iff the invoice exists and the line belongs to it; otherwise 404 with the message of the step that failed; on success the header gets the three given columns, the given or else the stored supplier and `updated_at = now`, and the line gets the three given columns, the given or else stored product and `updated_at = now`, all else kept |
| StockInItems.ForeignItemIsRejected | src/models/stockInItem.model.ts:183-222 | a line belonging to another invoice is never edited: the call fails with 404 |
| StockInItems.Reply | src/models/stockInItem.model.ts:226-233 | the response: the newest joined line of the invoice if it has one (a row of its listing, no older than any other), else the updated header; the line's joined row if it has one, else the updated line |
| StockInItems.JoinedReplyAfterUpdate | src/models/stockInItem.model.ts:226-233 | when the new supplier and product exist, both halves of the response are joined rows and the item half is the edited line |
| StockInItems.StockInItemModel.Create | src/models/stockInItem.model.ts:30-53 | fails with "StockInItem data is required." without data; otherwise inserts the given line taking `now` only for an absent timestamp, which raises the stock count of its product's name by its quantity |
| StockInItems.StockInItemModel.Statements | src/models/stockInItem.model.ts:141-222 | the statements between BEGIN and COMMIT compute exactly `UpdatePlan` and, on success, write exactly its two rows |
| StockInItems.StockInItemModel.UpdateInvoiceAndItem | src/models/stockInItem.model.ts:123-240 | all or nothing: on failure both tables equal their state before the call and the error is the plan's; on success only the header and the line are rewritten, and the response is read from the committed tables |
| StockOuts.JoinRows | src/models/stockout.model.ts:51-56 | inner joins with product and user: exactly the stock-outs whose product and employee exist, none of a repeat-free input twice |
| StockOuts.Listing | src/models/stockout.model.ts:44-59 | exactly the joinable stock-outs with names, each once, in `created_at DESC` order with NULL first |
| StockOuts.NullTimestampsComeFirst | src/models/stockout.model.ts:57-58 | in the `created_at DESC` order with NULL first, a row with a timestamp is followed only by rows with one no newer |
| StockOuts.FindAll | src/models/stockout.model.ts:44-62 | exactly min(limit, n - offset) rows, each at position offset + i of that order, all joinable, none twice |
| StockOuts.CountTotalProducts | src/models/stockout.model.ts:68-72 | the count is the number of `stock_out` rows a full scan returns |
| StockOuts.StockoutModel.Create | src/models/stockout.model.ts:21-42 | fails with "Stockout data is required to create a new stockout." without data; otherwise inserts the six given columns, with no check on product or stock, and the count grows by one |

## Left out

- Connection pool, `pool.query`, `client.connect`/`release` and the text of the SQL: each statement is modelled by its effect on the tables.
- Failures of the reads after COMMIT in `updateInvoiceAndItem`: they cannot undo the commit, so only the successful response is modelled.
- Controllers, routes, the entry points, the authentication and validation middleware, the user model and `src/utils/enum.ts`: these are outside the persistence core.
- Foreign-key, NOT NULL and unique-name constraints of the schema: the schema is not part of this model. Only primary keys are enforced, and inserting or updating onto a taken one fails with a unique violation.
- Suppliers.SupplierModel.Update, Categories.CategoryModel.Update, Products.ProductModel.Update: a patch key present with the value `undefined` is written as NULL by the source; the model treats it as not supplied.
- Suppliers.FindAll, StockOuts.FindAll: `limit` and `offset` are natural numbers; the error the store raises for a negative value is not modelled.
- StockOuts.FindAll: the `::uuid` casts are not modelled, so ids that are not uuids do not make the query fail.
- StockOuts.Listing: the `users` table is an argument, since the user model that writes it is not part of this model.
- StockInItems.CountProductsInStock: `SUM` comes back from the driver as text; the model returns the number.
- StockInItems.UpdatePlan: a stored `supplier_id` that is NULL is not modelled, because this model's rows always carry one.
- The order of rows whose sort keys tie, which the store leaves open, is fixed to primary-key order.
- StockInItems.CountProductsInStock: names are ordered by code point (the "C" collation). The database's own collation for `ORDER BY p.name_en` is not modelled.
- Products.ProductModel.Create: `INSERT` omits `minimum_stock`, and the model assumes that column has no default, so the row stores NULL. The schema is not part of this model.
- Quantity in hand, average cost, rounding, expiry defaults and creating an invoice together with its lines: no core function computes these.

## Findings

| source | as written | input that shows it | evidently intended | confidence | as-written member | corrected member |
|---|---|---|---|---|---|---|
| src/models/stockInInvoice.model.ts:88-96 | `findOne` selects from `stock_in` | any invoice stored by `create` in `invoice_stock_in`: `findOne(id)` fails (no relation `stock_in`) or returns null | select from `invoice_stock_in` | high, not executed | StockInInvoices.FindOneMissesStoredInvoice | StockInInvoices.FindOneIntended |
| src/models/stockInInvoice.model.ts:61-79 | `json_agg` over a LEFT JOIN with no matching line | an invoice with no lines is listed with `items = [{id: null, …, name_kh: null}]` | `items = []` for an invoice without lines | medium, not executed | StockInInvoices.EmptyInvoiceListsNullItem | StockInInvoices.ItemsOfIntended |
