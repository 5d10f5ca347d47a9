/** Stock-in item lines (`StockInItemModel`): inserting a line, the joined item listings,
    the stock count per product name, and the transaction that edits an invoice header
    together with one of its lines. */
module StockInItems {
  import opened Common
  import opened Schema
  import opened Ordering

  /** A row of the item listings: the item's columns, the invoice's header columns, the
      supplier's name and the product's names. */
  datatype JoinedItem = JoinedItem(
    item: StockInItem,
    reference_number: string,
    purchase_date: Date,
    due_date: Date,
    supplier_id: Id,
    supplier_name: string,
    name_en: string,
    name_kh: string)

  /** The three inner joins of the listings find a partner for item `i`: its invoice, that
      invoice's supplier and its product. */
  predicate Joins(t: Tables, i: StockInItem) {
    && i.invoice_stockin_id in t.invoice_stock_in
    && t.invoice_stock_in[i.invoice_stockin_id].supplier_id in t.suppliers
    && i.product_id in t.products
  }

  /** The joined row built for item `i`. */
  function Join(t: Tables, i: StockInItem): (j: JoinedItem)
    requires Joins(t, i)
    ensures j.item == i
  {
    var inv := t.invoice_stock_in[i.invoice_stockin_id];
    var p := t.products[i.product_id];
    JoinedItem(i, inv.reference_number, inv.purchase_date, inv.due_date,
               inv.supplier_id, t.suppliers[inv.supplier_id].supplier_name, p.name_en, p.name_kh)
  }

  /** `stock_in_items JOIN invoice_stock_in JOIN suppliers JOIN products` over the rows `s`. */
  function JoinRows(t: Tables, s: seq<StockInItem>): (r: seq<JoinedItem>)
    ensures |r| <= |s|
    ensures forall j :: j in r ==> j.item in s && Joins(t, j.item) && j == Join(t, j.item)
    ensures forall i :: i in s && Joins(t, i) ==> Join(t, i) in r
    ensures Distinct(s) ==> Distinct(r)
  {
    if s == [] then []
    else
      var head := if Joins(t, s[0]) then [Join(t, s[0])] else [];
      var rest := JoinRows(t, s[1..]);
      HeadNotInTail(s);
      DistinctPrepend(head, rest);
      head + rest
  }

  predicate Newer(a: JoinedItem, b: JoinedItem) {
    a.item.created_at >= b.item.created_at
  }

  /** `findAll`: every item whose invoice, supplier and product exist, joined, newest
      `created_at` first. */
  function FindAll(t: Tables): (r: seq<JoinedItem>)
    ensures forall j :: j in r ==>
      j.item in t.stock_in_items.Values && Joins(t, j.item) && j == Join(t, j.item)
    ensures forall i :: i in t.stock_in_items.Values && Joins(t, i) ==> Join(t, i) in r
    ensures forall i :: 0 < i < |r| ==> r[i - 1].item.created_at >= r[i].item.created_at
    ensures KeyedItems(t.stock_in_items) ==> Distinct(r)
  {
    assert KeyedItems(t.stock_in_items) ==> Injective(t.stock_in_items);
    var r := Sort(JoinRows(t, Rows(t.stock_in_items)), Newer);
    assert SortedBy(r, Newer);
    r
  }

  /** `findById`: the joined row of the item with that id, or none when there is no such
      item or one of its joins finds nothing. */
  function FindById(t: Tables, id: Id): (r: Option<JoinedItem>)
    ensures r.Some? ==> r.value in FindAll(t)
    ensures KeyedItems(t.stock_in_items) ==> r.Some? ==> r.value.item.id == id
    ensures KeyedItems(t.stock_in_items) ==>
      (r.None? <==> forall j :: j in FindAll(t) ==> j.item.id != id)
  {
    if id in t.stock_in_items && Joins(t, t.stock_in_items[id])
    then Some(Join(t, t.stock_in_items[id]))
    else None
  }

  /** `WHERE sii.invoice_stockin_id = invoiceId` over a scan of the item lines: each line of
      that invoice, once. */
  function ItemsReferencing(items: map<Id, StockInItem>, invoiceId: Id): (r: seq<StockInItem>)
    ensures forall i :: i in r <==> i in items.Values && i.invoice_stockin_id == invoiceId
    ensures KeyedItems(items) ==> Distinct(r)
  {
    assert KeyedItems(items) ==> Injective(items);
    Filter(Rows(items), (i: StockInItem) => i.invoice_stockin_id == invoiceId)
  }

  /** `findStockInByInvoiceId`: the joined rows of the items of one invoice, newest
      `created_at` first. */
  function FindStockInByInvoiceId(t: Tables, invoiceId: Id): (r: seq<JoinedItem>)
    ensures forall j :: j in r ==>
      && j.item in t.stock_in_items.Values
      && j.item.invoice_stockin_id == invoiceId
      && Joins(t, j.item)
      && j == Join(t, j.item)
    ensures forall i :: i in t.stock_in_items.Values && i.invoice_stockin_id == invoiceId && Joins(t, i) ==>
      Join(t, i) in r
    ensures forall i :: 0 < i < |r| ==> r[i - 1].item.created_at >= r[i].item.created_at
    ensures KeyedItems(t.stock_in_items) ==> Distinct(r)
  {
    var r := Sort(JoinRows(t, ItemsReferencing(t.stock_in_items, invoiceId)), Newer);
    assert SortedBy(r, Newer);
    r
  }

  /** In a listing ordered newest `created_at` first, the first row (if any) is at least as
      new as every row of the listing. */
  lemma {:induction false} FirstIsNewest(r: seq<JoinedItem>)
    requires forall i :: 0 < i < |r| ==> r[i - 1].item.created_at >= r[i].item.created_at
    ensures r != [] ==> forall j :: j in r ==> r[0].item.created_at >= j.item.created_at
  {
    if |r| > 1 {
      FirstIsNewest(r[1..]);
      assert r == [r[0]] + r[1..];
    }
  }

  /** The rows of one invoice are the rows of the full listing that belong to it. */
  lemma InvoiceListingIsFilteredListing(t: Tables, invoiceId: Id, j: JoinedItem)
    ensures j in FindStockInByInvoiceId(t, invoiceId) <==>
      j in FindAll(t) && j.item.invoice_stockin_id == invoiceId
  {
  }

  /** What item `i` adds to the total of the products named `name`: the LEFT JOIN pairs it
      with its product, if that product has the name. */
  function Contribution(products: map<Id, Product>, name: string, i: StockInItem): int {
    if i.product_id in products && products[i.product_id].name_en == name then i.quantity else 0
  }

  /** `COALESCE(SUM(sii.quantity), 0)` over the group of the products named `name`. */
  function Quantity(products: map<Id, Product>, name: string, items: map<Id, StockInItem>): int
    decreases |items|
  {
    if items == map[] then 0
    else
      var k := Least(items.Keys);
      Contribution(products, name, items[k]) + Quantity(products, name, items - {k})
  }

  /** The total does not depend on the order of the scan: any one item can be taken first. */
  lemma {:induction false} QuantityRemove(products: map<Id, Product>, name: string,
                                          items: map<Id, StockInItem>, k: Id)
    requires k in items
    ensures Quantity(products, name, items) ==
      Contribution(products, name, items[k]) + Quantity(products, name, items - {k})
    decreases |items|
  {
    var first := Least(items.Keys);
    if first != k {
      var rest := items - {first};
      QuantityRemove(products, name, rest, k);
      var without := items - {k};
      assert first in without.Keys;
      LeastIsUnique(without.Keys, first);
      assert without - {first} == rest - {k};
    }
  }

  /** A new item line adds its quantity to the total of its product's name only. */
  lemma QuantityInsert(products: map<Id, Product>, name: string,
                       items: map<Id, StockInItem>, i: StockInItem)
    requires i.id !in items
    ensures Quantity(products, name, items[i.id := i]) ==
      Quantity(products, name, items) + Contribution(products, name, i)
  {
    QuantityRemove(products, name, items[i.id := i], i.id);
    assert items[i.id := i] - {i.id} == items;
  }

  /** The group of a name no item line points to sums to 0. */
  lemma {:induction false} QuantityWithoutItems(products: map<Id, Product>, name: string,
                                                items: map<Id, StockInItem>)
    requires forall i :: i in items.Values ==> Contribution(products, name, i) == 0
    ensures Quantity(products, name, items) == 0
    decreases |items|
  {
    if items != map[] {
      var k := Least(items.Keys);
      assert items[k] in items.Values;
      var rest := items - {k};
      assert forall i :: i in rest.Values ==> i in items.Values;
      QuantityWithoutItems(products, name, rest);
    }
  }

  /** One row of `countProductsInStock`. */
  datatype StockCount = StockCount(name_en: string, total_quantity: int)

  /** The distinct `name_en` of the products. */
  function ProductNames(products: map<Id, Product>): set<string> {
    set p | p in products.Values :: p.name_en
  }

  /** The row of each name of `names`, in that order. */
  function Totals(t: Tables, names: seq<string>): (r: seq<StockCount>)
    ensures |r| == |names|
    ensures forall i :: 0 <= i < |r| ==> r[i].name_en == names[i]
    ensures forall i :: 0 <= i < |r| ==>
      r[i].total_quantity == Quantity(t.products, names[i], t.stock_in_items)
  {
    if names == [] then []
    else [StockCount(names[0], Quantity(t.products, names[0], t.stock_in_items))] + Totals(t, names[1..])
  }

  /** Rows labelled with `names`, position by position, carry each name once and in the
      same order. */
  lemma LabelledRows(names: seq<string>, r: seq<StockCount>)
    requires |r| == |names|
    requires forall i :: 0 <= i < |r| ==> r[i].name_en == names[i]
    requires forall i, j :: 0 <= i < j < |names| ==> TextLe(names[i], names[j]) && names[i] != names[j]
    ensures forall n :: n in names <==> exists i :: 0 <= i < |r| && r[i].name_en == n
    ensures forall i, j :: 0 <= i < j < |r| ==> TextLe(r[i].name_en, r[j].name_en) && r[i].name_en != r[j].name_en
  {
    forall n | n in names ensures exists i :: 0 <= i < |r| && r[i].name_en == n {
      var i :| 0 <= i < |names| && names[i] == n;
      assert r[i].name_en == n;
    }
  }

  /** `countProductsInStock`: one row per distinct product name, in ascending name order,
      with the summed quantity of the item lines of the products of that name. */
  function CountProductsInStock(t: Tables): (r: seq<StockCount>)
    ensures |r| == |ProductNames(t.products)|
    ensures forall n :: n in ProductNames(t.products) <==> exists i :: 0 <= i < |r| && r[i].name_en == n
    ensures forall i :: 0 <= i < |r| ==>
      r[i].total_quantity == Quantity(t.products, r[i].name_en, t.stock_in_items)
    ensures forall i, j :: 0 <= i < j < |r| ==> TextLe(r[i].name_en, r[j].name_en) && r[i].name_en != r[j].name_en
  {
    var names := SortedKeys(ProductNames(t.products));
    var r := Totals(t, names);
    LabelledRows(names, r);
    r
  }

  /** A product name no item line points to is counted as 0. */
  lemma UnstockedNameCountsZero(t: Tables, i: nat)
    requires i < |CountProductsInStock(t)|
    requires forall item :: item in t.stock_in_items.Values ==>
      item.product_id !in t.products || t.products[item.product_id].name_en != CountProductsInStock(t)[i].name_en
    ensures CountProductsInStock(t)[i].total_quantity == 0
  {
    QuantityWithoutItems(t.products, CountProductsInStock(t)[i].name_en, t.stock_in_items);
  }

  /** The `StockInItem` record a model is constructed with; its timestamps may be absent. */
  datatype StockInItemData = StockInItemData(
    id: Id,
    invoice_stockin_id: Id,
    product_id: Id,
    quantity: int,
    unit_price: Price,
    expire_date: Date,
    created_at: Option<Time>,
    updated_at: Option<Time>)

  /** The header columns `updateInvoiceAndItem` sets; `supplier_id` may be omitted. */
  datatype InvoiceUpdate = InvoiceUpdate(
    purchase_date: Date,
    due_date: Date,
    reference_number: string,
    supplier_id: Option<Id>)

  /** The line columns `updateInvoiceAndItem` sets; `product_id` may be omitted. */
  datatype ItemUpdate = ItemUpdate(
    quantity: int,
    unit_price: Price,
    expire_date: Date,
    product_id: Option<Id>)

  /** The item line `itemId` exists and belongs to invoice `invoiceId`: the rows matched by
      `WHERE id = itemId AND invoice_stockin_id = invoiceId`. */
  predicate BelongsTo(items: map<Id, StockInItem>, itemId: Id, invoiceId: Id) {
    itemId in items && items[itemId].invoice_stockin_id == invoiceId
  }

  /** The outcome of the statements of `updateInvoiceAndItem` on the tables as they were at
      BEGIN: the failure thrown, or the two rows as the UPDATEs leave them. */
  function UpdatePlan(invoices: map<Id, InvoiceStockIn>, items: map<Id, StockInItem>,
                      invoiceId: Id, itemId: Id, iu: InvoiceUpdate, itu: ItemUpdate, now: Time)
    : (r: Result<(InvoiceStockIn, StockInItem)>)
    ensures r.Ok? <==> invoiceId in invoices && BelongsTo(items, itemId, invoiceId)
    ensures r.Err? ==> r.error.HttpError? && r.error.status == 404
    ensures invoiceId !in invoices ==>
      r.error.message == if Given(iu.supplier_id) then "Invoice not found or update failed" else "Invoice not found"
    ensures invoiceId in invoices && !BelongsTo(items, itemId, invoiceId) ==>
      r.error.message == if Given(itu.product_id) then "Item not found or update failed"
                         else "Item not found for the given invoice"
    ensures r.Ok? ==>
      var (inv, item) := r.value;
      var oldInv, oldItem := invoices[invoiceId], items[itemId];
      && inv.supplier_id == (if Given(iu.supplier_id) then iu.supplier_id.value else oldInv.supplier_id)
      && inv == oldInv.(purchase_date := iu.purchase_date, due_date := iu.due_date,
                        reference_number := iu.reference_number, supplier_id := inv.supplier_id,
                        updated_at := now)
      && item.product_id == (if Given(itu.product_id) then itu.product_id.value else oldItem.product_id)
      && item == oldItem.(quantity := itu.quantity, unit_price := itu.unit_price,
                          expire_date := itu.expire_date, product_id := item.product_id,
                          updated_at := now)
  {
    if invoiceId !in invoices then
      // without a supplier the fallback SELECT finds nothing; with one the UPDATE does
      Err(HttpError(404, if Given(iu.supplier_id) then "Invoice not found or update failed" else "Invoice not found"))
    else if !BelongsTo(items, itemId, invoiceId) then
      Err(HttpError(404, if Given(itu.product_id) then "Item not found or update failed"
                         else "Item not found for the given invoice"))
    else
      var oldInv, oldItem := invoices[invoiceId], items[itemId];
      var supplierId := if Given(iu.supplier_id) then iu.supplier_id.value else oldInv.supplier_id;
      var productId := if Given(itu.product_id) then itu.product_id.value else oldItem.product_id;
      Ok((oldInv.(purchase_date := iu.purchase_date, due_date := iu.due_date, supplier_id := supplierId,
                  reference_number := iu.reference_number, updated_at := now),
          oldItem.(quantity := itu.quantity, unit_price := itu.unit_price, expire_date := itu.expire_date,
                   product_id := productId, updated_at := now)))
  }

  /** A line of another invoice is never edited through this one: the call fails with 404. */
  lemma ForeignItemIsRejected(invoices: map<Id, InvoiceStockIn>, items: map<Id, StockInItem>,
                              invoiceId: Id, itemId: Id, iu: InvoiceUpdate, itu: ItemUpdate, now: Time)
    requires itemId in items && items[itemId].invoice_stockin_id != invoiceId
    ensures UpdatePlan(invoices, items, invoiceId, itemId, iu, itu, now).Err?
    ensures UpdatePlan(invoices, items, invoiceId, itemId, iu, itu, now).error.status == 404
  {
  }

  /** The invoice half of the response: the first joined line of the invoice, or else the
      updated header row itself. */
  datatype InvoiceReply = FirstLine(line: JoinedItem) | UpdatedInvoice(invoice: InvoiceStockIn)

  /** The item half of the response: the joined line, or else the updated item row itself. */
  datatype ItemReply = JoinedLine(line: JoinedItem) | UpdatedItem(item: StockInItem)

  datatype UpdateResponse = UpdateResponse(invoice: InvoiceReply, item: ItemReply)

  /** The response read after COMMIT from the tables `t`. */
  function Reply(t: Tables, invoiceId: Id, itemId: Id, inv: InvoiceStockIn, item: StockInItem)
    : (r: UpdateResponse)
    ensures r.invoice.FirstLine? <==> |FindStockInByInvoiceId(t, invoiceId)| > 0
    ensures r.invoice.FirstLine? ==>
      && r.invoice.line in FindStockInByInvoiceId(t, invoiceId)
      && forall j :: j in FindStockInByInvoiceId(t, invoiceId) ==>
           r.invoice.line.item.created_at >= j.item.created_at
    ensures r.invoice.UpdatedInvoice? ==> r.invoice.invoice == inv
    ensures r.item.JoinedLine? ==> FindById(t, itemId) == Some(r.item.line)
    ensures r.item.UpdatedItem? ==> FindById(t, itemId).None? && r.item.item == item
  {
    var lines := FindStockInByInvoiceId(t, invoiceId);
    FirstIsNewest(lines);
    UpdateResponse(
      if |lines| > 0 then FirstLine(lines[0]) else UpdatedInvoice(inv),
      match FindById(t, itemId)
      case Some(line) => JoinedLine(line)
      case None => UpdatedItem(item))
  }

  /** After a successful edit whose new supplier and product exist, both halves of the
      response are joined rows, and the item half is the edited line. */
  lemma JoinedReplyAfterUpdate(t: Tables, invoiceId: Id, itemId: Id, iu: InvoiceUpdate, itu: ItemUpdate, now: Time)
    requires WellKeyed(t)
    requires UpdatePlan(t.invoice_stock_in, t.stock_in_items, invoiceId, itemId, iu, itu, now).Ok?
    ensures
      var (inv, item) := UpdatePlan(t.invoice_stock_in, t.stock_in_items, invoiceId, itemId, iu, itu, now).value;
      var t' := t.(invoice_stock_in := t.invoice_stock_in[invoiceId := inv],
                   stock_in_items := t.stock_in_items[itemId := item]);
      inv.supplier_id in t.suppliers && item.product_id in t.products ==>
        && Reply(t', invoiceId, itemId, inv, item).invoice.FirstLine?
        && Reply(t', invoiceId, itemId, inv, item).item == JoinedLine(Join(t', item))
  {
    var (inv, item) := UpdatePlan(t.invoice_stock_in, t.stock_in_items, invoiceId, itemId, iu, itu, now).value;
    var t' := t.(invoice_stock_in := t.invoice_stock_in[invoiceId := inv],
                 stock_in_items := t.stock_in_items[itemId := item]);
    if inv.supplier_id in t.suppliers && item.product_id in t.products {
      assert Joins(t', item);
      assert item in t'.stock_in_items.Values by {
        assert t'.stock_in_items[itemId] == item;
      }
      assert Join(t', item) in FindStockInByInvoiceId(t', invoiceId);
    }
  }

  class StockInItemModel {
    const db: Database
    const stockInItem: Option<StockInItemData>

    constructor (db: Database, stockInItem: Option<StockInItemData>)
      ensures this.db == db && this.stockInItem == stockInItem
    {
      this.db := db;
      this.stockInItem := stockInItem;
    }

    /** `create`: inserts the given line, taking `now` for an absent timestamp; the line's
        quantity is added to the stock count of its product's name and to no other. */
    method Create(now: Time) returns (r: Result<StockInItem>)
      requires db.Valid()
      modifies db`stock_in_items
      ensures db.Valid()
      ensures stockInItem.None? ==> r == Err(Thrown("StockInItem data is required."))
      ensures stockInItem.Some? && stockInItem.value.id in old(db.stock_in_items) ==>
        r == Err(Db(UniqueViolation("stock_in_items")))
      ensures stockInItem.Some? && stockInItem.value.id !in old(db.stock_in_items) ==>
        var d := stockInItem.value;
        && r == Ok(StockInItem(d.id, d.invoice_stockin_id, d.product_id, d.quantity, d.unit_price,
                               d.expire_date, d.created_at.GetOr(now), d.updated_at.GetOr(now)))
        && db.stock_in_items == old(db.stock_in_items)[d.id := r.value]
        && forall name :: Quantity(db.products, name, db.stock_in_items) ==
             Quantity(db.products, name, old(db.stock_in_items)) + Contribution(db.products, name, r.value)
      ensures r.Err? ==> db.stock_in_items == old(db.stock_in_items)
    {
      if stockInItem.None? {
        return Err(Thrown("StockInItem data is required."));
      }
      var d := stockInItem.value;
      if d.id in db.stock_in_items {
        return Err(Db(UniqueViolation("stock_in_items")));
      }
      var row := StockInItem(d.id, d.invoice_stockin_id, d.product_id, d.quantity, d.unit_price,
                             d.expire_date, d.created_at.GetOr(now), d.updated_at.GetOr(now));
      ghost var before := db.stock_in_items;
      db.stock_in_items := db.stock_in_items[d.id := row];
      forall name ensures Quantity(db.products, name, db.stock_in_items) ==
                          Quantity(db.products, name, before) + Contribution(db.products, name, row) {
        QuantityInsert(db.products, name, before, row);
      }
      r := Ok(row);
    }

    /** The statements between BEGIN and COMMIT, each failure thrown as soon as it is
        detected. A failure after the header UPDATE leaves that UPDATE in place; undoing it
        is the caller's ROLLBACK. */
    method Statements(invoiceId: Id, itemId: Id, iu: InvoiceUpdate, itu: ItemUpdate, now: Time)
      returns (r: Result<(InvoiceStockIn, StockInItem)>)
      requires db.Valid()
      modifies db`invoice_stock_in, db`stock_in_items
      ensures db.Valid()
      ensures r == UpdatePlan(old(db.invoice_stock_in), old(db.stock_in_items), invoiceId, itemId, iu, itu, now)
      ensures r.Ok? ==>
        && db.invoice_stock_in == old(db.invoice_stock_in)[invoiceId := r.value.0]
        && db.stock_in_items == old(db.stock_in_items)[itemId := r.value.1]
    {
      // the header's supplier, kept from the stored header when none is given
      var supplierId: Id;
      if Given(iu.supplier_id) {
        supplierId := iu.supplier_id.value;
      } else {
        if invoiceId !in db.invoice_stock_in {
          return Err(HttpError(404, "Invoice not found"));
        }
        supplierId := db.invoice_stock_in[invoiceId].supplier_id;
      }

      // UPDATE invoice_stock_in ... WHERE id = invoiceId
      if invoiceId !in db.invoice_stock_in {
        return Err(HttpError(404, "Invoice not found or update failed"));
      }
      var inv := db.invoice_stock_in[invoiceId].(
        purchase_date := iu.purchase_date, due_date := iu.due_date, supplier_id := supplierId,
        reference_number := iu.reference_number, updated_at := now);
      db.invoice_stock_in := db.invoice_stock_in[invoiceId := inv];

      // the line's product, kept from the stored line of this invoice when none is given
      var productId: Id;
      if Given(itu.product_id) {
        productId := itu.product_id.value;
      } else {
        if !BelongsTo(db.stock_in_items, itemId, invoiceId) {
          return Err(HttpError(404, "Item not found for the given invoice"));
        }
        productId := db.stock_in_items[itemId].product_id;
      }

      // UPDATE stock_in_items ... WHERE id = itemId AND invoice_stockin_id = invoiceId
      if !BelongsTo(db.stock_in_items, itemId, invoiceId) {
        return Err(HttpError(404, "Item not found or update failed"));
      }
      var item := db.stock_in_items[itemId].(
        quantity := itu.quantity, unit_price := itu.unit_price, expire_date := itu.expire_date,
        product_id := productId, updated_at := now);
      db.stock_in_items := db.stock_in_items[itemId := item];
      r := Ok((inv, item));
    }

    /** `updateInvoiceAndItem`: all or nothing. On a failure both tables are as they were;
        on success exactly the header `invoiceId` and its line `itemId` are rewritten, and
        the response is read from the committed tables. */
    method UpdateInvoiceAndItem(invoiceId: Id, itemId: Id, iu: InvoiceUpdate, itu: ItemUpdate, now: Time)
      returns (r: Result<UpdateResponse>)
      requires db.Valid()
      modifies db`invoice_stock_in, db`stock_in_items
      ensures db.Valid()
      ensures
        var plan := UpdatePlan(old(db.invoice_stock_in), old(db.stock_in_items), invoiceId, itemId, iu, itu, now);
        && (plan.Err? ==>
              && r == Err(plan.error)
              && db.invoice_stock_in == old(db.invoice_stock_in)
              && db.stock_in_items == old(db.stock_in_items))
        && (plan.Ok? ==>
              && db.invoice_stock_in == old(db.invoice_stock_in)[invoiceId := plan.value.0]
              && db.stock_in_items == old(db.stock_in_items)[itemId := plan.value.1]
              && r == Ok(Reply(db.Snapshot(), invoiceId, itemId, plan.value.0, plan.value.1)))
    {
      // BEGIN
      var savedInvoices, savedItems := db.invoice_stock_in, db.stock_in_items;
      var outcome := Statements(invoiceId, itemId, iu, itu, now);
      if outcome.Err? {
        // ROLLBACK
        db.invoice_stock_in, db.stock_in_items := savedInvoices, savedItems;
        return Err(outcome.error);
      }
      // COMMIT
      var (inv, item) := outcome.value;
      r := Ok(Reply(db.Snapshot(), invoiceId, itemId, inv, item));
    }
  }
}
