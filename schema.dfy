/** The relational store behind the models: one row type per table, the six tables as
    one value, and the `Database` object whose tables the models' statements update. */
module Schema {
  import opened Common

  /** A row of `suppliers`. */
  datatype Supplier = Supplier(
    id: Id,
    supplier_name: string,
    phone_number: Option<string>,
    address: Option<string>,
    company_name: Option<string>,
    created_at: Time,
    updated_at: Time)

  /** A row of `categories`. */
  datatype Category = Category(
    id: Id,
    category_name: string,
    description: string,
    created_at: Time,
    updated_at: Time)

  /** A row of `products`. `minimum_stock` is read by the product listing but never written
      by the models, so a created product leaves it NULL. */
  datatype Product = Product(
    id: Id,
    category_id: Id,
    product_code: string,
    name_en: string,
    name_kh: string,
    beginning_quantity: int,
    minimum_stock: Option<int>,
    created_at: Time,
    updated_at: Time)

  /** A row of `invoice_stock_in`: the header of one purchase from one supplier. */
  datatype InvoiceStockIn = InvoiceStockIn(
    id: Id,
    supplier_id: Id,
    purchase_date: Date,
    reference_number: string,
    due_date: Date,
    created_at: Time,
    updated_at: Time)

  /** A row of `stock_in_items`: one product line of an invoice. */
  datatype StockInItem = StockInItem(
    id: Id,
    invoice_stockin_id: Id,
    product_id: Id,
    quantity: int,
    unit_price: Price,
    expire_date: Date,
    created_at: Time,
    updated_at: Time)

  /** A row of `stock_out`. Its timestamps are written as the caller gave them, so either
      may be NULL. */
  datatype StockOut = StockOut(
    id: Id,
    product_id: Id,
    quantity: int,
    employee: Id,
    created_at: Option<Time>,
    updated_at: Option<Time>)

  /** The contents of the six tables at one moment. */
  datatype Tables = Tables(
    suppliers: map<Id, Supplier>,
    categories: map<Id, Category>,
    products: map<Id, Product>,
    invoice_stock_in: map<Id, InvoiceStockIn>,
    stock_in_items: map<Id, StockInItem>,
    stock_out: map<Id, StockOut>)

  /** Every row of a table is filed under its own primary key. */
  ghost predicate KeyedSuppliers(m: map<Id, Supplier>) { forall k :: k in m ==> m[k].id == k }
  ghost predicate KeyedCategories(m: map<Id, Category>) { forall k :: k in m ==> m[k].id == k }
  ghost predicate KeyedProducts(m: map<Id, Product>) { forall k :: k in m ==> m[k].id == k }
  ghost predicate KeyedInvoices(m: map<Id, InvoiceStockIn>) { forall k :: k in m ==> m[k].id == k }
  ghost predicate KeyedItems(m: map<Id, StockInItem>) { forall k :: k in m ==> m[k].id == k }
  ghost predicate KeyedStockOuts(m: map<Id, StockOut>) { forall k :: k in m ==> m[k].id == k }

  ghost predicate WellKeyed(t: Tables) {
    && KeyedSuppliers(t.suppliers)
    && KeyedCategories(t.categories)
    && KeyedProducts(t.products)
    && KeyedInvoices(t.invoice_stock_in)
    && KeyedItems(t.stock_in_items)
    && KeyedStockOuts(t.stock_out)
  }

  /** The store that every model writes through. */
  class Database {
    var suppliers: map<Id, Supplier>
    var categories: map<Id, Category>
    var products: map<Id, Product>
    var invoice_stock_in: map<Id, InvoiceStockIn>
    var stock_in_items: map<Id, StockInItem>
    var stock_out: map<Id, StockOut>

    function Snapshot(): Tables
      reads this
    {
      Tables(suppliers, categories, products, invoice_stock_in, stock_in_items, stock_out)
    }

    ghost predicate Valid()
      reads this
    {
      WellKeyed(Snapshot())
    }

    /** An empty store. */
    constructor ()
      ensures Valid()
      ensures Snapshot() == Tables(map[], map[], map[], map[], map[], map[])
    {
      suppliers, categories, products := map[], map[], map[];
      invoice_stock_in, stock_in_items, stock_out := map[], map[], map[];
    }
  }
}
