/** Stock-in invoice headers (`InvoiceStockInModel`): rows of `invoice_stock_in`, and the
    per-invoice listing of their items. */
module StockInInvoices {
  import opened Common
  import opened Schema
  import opened Ordering
  import StockInItems

  predicate Newer(a: InvoiceStockIn, b: InvoiceStockIn) {
    a.created_at >= b.created_at
  }

  /** `findAll`: every invoice, newest `created_at` first. */
  function FindAll(invoices: map<Id, InvoiceStockIn>): (r: seq<InvoiceStockIn>)
    ensures |r| == |invoices|
    ensures forall v :: v in r <==> v in invoices.Values
    ensures forall i :: 0 < i < |r| ==> r[i - 1].created_at >= r[i].created_at
    ensures KeyedInvoices(invoices) ==> Distinct(r)
  {
    assert KeyedInvoices(invoices) ==> Injective(invoices);
    var r := Sort(Rows(invoices), Newer);
    assert SortedBy(r, Newer);
    r
  }

  /** One element of an invoice's `items` array: the `json_build_object` of an item row
      and its product's names. Every key is NULL when the LEFT JOIN found nothing. */
  datatype AggregatedItem = AggregatedItem(
    id: Option<Id>,
    invoice_stockin_id: Option<Id>,
    product_id: Option<Id>,
    quantity: Option<int>,
    unit_price: Option<Price>,
    expire_date: Option<Date>,
    created_at: Option<Time>,
    updated_at: Option<Time>,
    name_en: Option<string>,
    name_kh: Option<string>)

  /** The object built from the NULLs of an invoice with no item. */
  const NullItem := AggregatedItem(None, None, None, None, None, None, None, None, None, None)

  /** The object built for item `i` after `LEFT JOIN products`. */
  function Aggregate(products: map<Id, Product>, i: StockInItem): (a: AggregatedItem)
    ensures a != NullItem
  {
    AggregatedItem(
      Some(i.id), Some(i.invoice_stockin_id), Some(i.product_id), Some(i.quantity),
      Some(i.unit_price), Some(i.expire_date), Some(i.created_at), Some(i.updated_at),
      if i.product_id in products then Some(products[i.product_id].name_en) else None,
      if i.product_id in products then Some(products[i.product_id].name_kh) else None)
  }

  function AggregateAll(products: map<Id, Product>, s: seq<StockInItem>): (r: seq<AggregatedItem>)
    ensures |r| == |s|
    ensures forall i :: i in s ==> Aggregate(products, i) in r
    ensures forall a :: a in r ==> exists i :: i in s && a == Aggregate(products, i)
    ensures Distinct(s) ==> Distinct(r)
  {
    if s == [] then []
    else
      var rest := AggregateAll(products, s[1..]);
      HeadNotInTail(s);
      DistinctPrepend([Aggregate(products, s[0])], rest);
      [Aggregate(products, s[0])] + rest
  }

  /** `json_agg(...)` over the group of one invoice. The LEFT JOIN gives an invoice with
      no item one row of NULLs, so its array holds a single all-NULL object. */
  function ItemsOf(t: Tables, invoiceId: Id): (r: seq<AggregatedItem>)
    ensures (forall i :: i in t.stock_in_items.Values ==> i.invoice_stockin_id != invoiceId) ==>
      r == [NullItem]
    ensures forall i :: i in t.stock_in_items.Values && i.invoice_stockin_id == invoiceId ==>
      Aggregate(t.products, i) in r
    ensures (exists i :: i in t.stock_in_items.Values && i.invoice_stockin_id == invoiceId) ==>
      forall a :: a in r ==>
        exists i :: i in t.stock_in_items.Values && i.invoice_stockin_id == invoiceId && a == Aggregate(t.products, i)
    ensures (exists i :: i in t.stock_in_items.Values && i.invoice_stockin_id == invoiceId) ==>
      |r| == |StockInItems.ItemsReferencing(t.stock_in_items, invoiceId)|
    ensures KeyedItems(t.stock_in_items) ==> Distinct(r)
  {
    var own := StockInItems.ItemsReferencing(t.stock_in_items, invoiceId);
    if own == [] then [NullItem] else AggregateAll(t.products, own)
  }

  /** One row of `findAllStockIn`: the invoice's columns, its supplier's name (NULL when the
      LEFT JOIN found no supplier) and its `items` array. */
  datatype InvoiceWithItems = InvoiceWithItems(
    invoice: InvoiceStockIn,
    supplier_name: Option<string>,
    items: seq<AggregatedItem>)

  function SupplierName(suppliers: map<Id, Supplier>, inv: InvoiceStockIn): Option<string> {
    if inv.supplier_id in suppliers then Some(suppliers[inv.supplier_id].supplier_name) else None
  }

  /** The group `GROUP BY isi.id` forms for one invoice. */
  function Group(t: Tables, inv: InvoiceStockIn): InvoiceWithItems {
    InvoiceWithItems(inv, SupplierName(t.suppliers, inv), ItemsOf(t, inv.id))
  }

  function GroupAll(t: Tables, s: seq<InvoiceStockIn>): (r: seq<InvoiceWithItems>)
    ensures |r| == |s|
    ensures forall inv :: inv in s ==> Group(t, inv) in r
    ensures forall g :: g in r ==> g.invoice in s && g == Group(t, g.invoice)
  {
    if s == [] then [] else [Group(t, s[0])] + GroupAll(t, s[1..])
  }

  predicate NewerGroup(a: InvoiceWithItems, b: InvoiceWithItems) {
    a.invoice.created_at >= b.invoice.created_at
  }

  /** `findAllStockIn`: one row per invoice, including invoices with no supplier or no item,
      newest `created_at` first. */
  function FindAllStockIn(t: Tables): (r: seq<InvoiceWithItems>)
    ensures |r| == |t.invoice_stock_in|
    ensures forall g :: g in r ==> g.invoice in t.invoice_stock_in.Values && g == Group(t, g.invoice)
    ensures forall inv :: inv in t.invoice_stock_in.Values ==> Group(t, inv) in r
    ensures forall i :: 0 < i < |r| ==> r[i - 1].invoice.created_at >= r[i].invoice.created_at
  {
    var r := Sort(GroupAll(t, Rows(t.invoice_stock_in)), NewerGroup);
    assert SortedBy(r, NewerGroup);
    r
  }

  /** An invoice without items is listed with one phantom item whose every key is NULL. */
  lemma EmptyInvoiceListsNullItem(t: Tables, inv: InvoiceStockIn)
    requires inv in t.invoice_stock_in.Values
    requires forall i :: i in t.stock_in_items.Values ==> i.invoice_stockin_id != inv.id
    ensures exists g :: g in FindAllStockIn(t) && g.invoice == inv && g.items == [NullItem]
    ensures NullItem.id.None?
  {
    assert Group(t, inv) in FindAllStockIn(t);
  }

  /** The grouping with an empty array for an invoice without items. */
  function ItemsOfIntended(t: Tables, invoiceId: Id): (r: seq<AggregatedItem>)
    ensures |r| == |StockInItems.ItemsReferencing(t.stock_in_items, invoiceId)|
    ensures NullItem !in r
    ensures r == [] <==> forall i :: i in t.stock_in_items.Values ==> i.invoice_stockin_id != invoiceId
    ensures forall i :: i in t.stock_in_items.Values && i.invoice_stockin_id == invoiceId ==>
      Aggregate(t.products, i) in r
    ensures forall a :: a in r ==>
      exists i :: i in t.stock_in_items.Values && i.invoice_stockin_id == invoiceId && a == Aggregate(t.products, i)
    ensures KeyedItems(t.stock_in_items) ==> Distinct(r)
  {
    var own := StockInItems.ItemsReferencing(t.stock_in_items, invoiceId);
    var r := AggregateAll(t.products, own);
    if r == [] then r
    else
      assert own[0] in own;
      r
  }

  /** A relation the schema may or may not define. */
  datatype Relation<R> = Undefined | Defined(rows: map<Id, R>)

  /** `findOne(id)`: reads the relation `stock_in`, not `invoice_stock_in`,
      which is where `create` writes. */
  function FindOne(stock_in: Relation<InvoiceStockIn>, id: Id): (r: Result<Option<InvoiceStockIn>>)
    ensures stock_in.Undefined? ==> r == Err(Db(UndefinedTable("stock_in")))
    ensures stock_in.Defined? ==> r.Ok? && (r.value.Some? <==> id in stock_in.rows)
    ensures r.Ok? && r.value.Some? ==> r.value.value in stock_in.rows.Values
    ensures stock_in.Defined? && KeyedInvoices(stock_in.rows) && r.Ok? && r.value.Some? ==>
      r.value.value.id == id
  {
    match stock_in
    case Undefined => Err(Db(UndefinedTable("stock_in")))
    case Defined(rows) => Ok(if id in rows then Some(rows[id]) else None)
  }

  /** Whatever `invoice_stock_in` holds, `findOne` does not see it: the id of a stored
      invoice is an error when `stock_in` does not exist and not found when it is empty. */
  lemma FindOneMissesStoredInvoice(invoices: map<Id, InvoiceStockIn>, inv: InvoiceStockIn)
    requires inv.id in invoices && invoices[inv.id] == inv
    ensures FindOne(Undefined, inv.id) == Err(Db(UndefinedTable("stock_in")))
    ensures FindOne(Defined(map[]), inv.id) == Ok(None)
    ensures FindOneIntended(invoices, inv.id) == Some(inv)
  {
  }

  /** The lookup `findOne` is evidently meant to make: by primary key in `invoice_stock_in`. */
  function FindOneIntended(invoices: map<Id, InvoiceStockIn>, id: Id): (r: Option<InvoiceStockIn>)
    ensures r.Some? ==> r.value in invoices.Values
    ensures KeyedInvoices(invoices) ==> r.Some? ==> r.value.id == id
    ensures KeyedInvoices(invoices) ==>
      (r.None? <==> forall v :: v in invoices.Values ==> v.id != id)
  {
    if id in invoices then Some(invoices[id]) else None
  }

  class InvoiceStockInModel {
    const db: Database
    const invoiceStockIn: Option<InvoiceStockIn>

    constructor (db: Database, invoiceStockIn: Option<InvoiceStockIn>)
      ensures this.db == db && this.invoiceStockIn == invoiceStockIn
    {
      this.db := db;
      this.invoiceStockIn := invoiceStockIn;
    }

    /** `create`: inserts the seven given columns as they are and returns that row; the
        intended `findOne` then finds it. */
    method Create() returns (r: Result<InvoiceStockIn>)
      requires db.Valid()
      modifies db`invoice_stock_in
      ensures db.Valid()
      ensures invoiceStockIn.None? ==>
        r == Err(Thrown("Invoice data is required to create a new stock."))
      ensures invoiceStockIn.Some? && invoiceStockIn.value.id in old(db.invoice_stock_in) ==>
        r == Err(Db(UniqueViolation("invoice_stock_in")))
      ensures invoiceStockIn.Some? && invoiceStockIn.value.id !in old(db.invoice_stock_in) ==>
        && r == Ok(invoiceStockIn.value)
        && db.invoice_stock_in == old(db.invoice_stock_in)[r.value.id := r.value]
        && FindOneIntended(db.invoice_stock_in, r.value.id) == Some(r.value)
      ensures r.Err? ==> db.invoice_stock_in == old(db.invoice_stock_in)
    {
      if invoiceStockIn.None? {
        return Err(Thrown("Invoice data is required to create a new stock."));
      }
      var inv := invoiceStockIn.value;
      if inv.id in db.invoice_stock_in {
        return Err(Db(UniqueViolation("invoice_stock_in")));
      }
      db.invoice_stock_in := db.invoice_stock_in[inv.id := inv];
      r := Ok(inv);
    }
  }
}
