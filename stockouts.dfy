/** Stock leaving the warehouse (`StockoutModel`): rows of `stock_out`, listed with the
    product's names and the employee's user name. */
module StockOuts {
  import opened Common
  import opened Schema
  import opened Ordering

  /** A row of `users` as the listing reads it. The table itself is kept by the user
      model, which is not part of this model, so the listing takes it as an argument. */
  datatype User = User(id: Id, user_name: string)

  /** A row of the listing: the stock-out's columns, its product's names and the name of
      the user recorded as `employee`. */
  datatype StockOutListing = StockOutListing(
    stockOut: StockOut,
    name_en: string,
    name_kh: string,
    user_name: string)

  /** Both inner joins find a partner for `o`. */
  predicate Joins(products: map<Id, Product>, users: map<Id, User>, o: StockOut) {
    o.product_id in products && o.employee in users
  }

  function Join(products: map<Id, Product>, users: map<Id, User>, o: StockOut): (l: StockOutListing)
    requires Joins(products, users, o)
    ensures l.stockOut == o
  {
    StockOutListing(o, products[o.product_id].name_en, products[o.product_id].name_kh,
                    users[o.employee].user_name)
  }

  /** `stock_out JOIN products JOIN users` over the rows `s`. */
  function JoinRows(products: map<Id, Product>, users: map<Id, User>, s: seq<StockOut>)
    : (r: seq<StockOutListing>)
    ensures forall l :: l in r ==>
      l.stockOut in s && Joins(products, users, l.stockOut) && l == Join(products, users, l.stockOut)
    ensures forall o :: o in s && Joins(products, users, o) ==> Join(products, users, o) in r
    ensures Distinct(s) ==> Distinct(r)
  {
    if s == [] then []
    else
      var head := if Joins(products, users, s[0]) then [Join(products, users, s[0])] else [];
      var rest := JoinRows(products, users, s[1..]);
      HeadNotInTail(s);
      DistinctPrepend(head, rest);
      head + rest
  }

  /** `DESC` on a nullable timestamp: NULL sorts before every timestamp. */
  predicate NewerTime(a: Option<Time>, b: Option<Time>) {
    a.None? || (b.Some? && a.value >= b.value)
  }

  /** `ORDER BY stock_out.created_at DESC`. */
  predicate Newer(a: StockOutListing, b: StockOutListing) {
    NewerTime(a.stockOut.created_at, b.stockOut.created_at)
  }

  /** The joined rows in `ORDER BY created_at DESC`, before `LIMIT`/`OFFSET`. */
  function Listing(stock_out: map<Id, StockOut>, products: map<Id, Product>, users: map<Id, User>)
    : (r: seq<StockOutListing>)
    ensures forall l :: l in r ==>
      l.stockOut in stock_out.Values && Joins(products, users, l.stockOut)
      && l == Join(products, users, l.stockOut)
    ensures forall o :: o in stock_out.Values && Joins(products, users, o) ==>
      Join(products, users, o) in r
    ensures forall i :: 0 < i < |r| ==> NewerTime(r[i - 1].stockOut.created_at, r[i].stockOut.created_at)
    ensures KeyedStockOuts(stock_out) ==> Distinct(r)
  {
    assert KeyedStockOuts(stock_out) ==> Injective(stock_out);
    var r := Sort(JoinRows(products, users, Rows(stock_out)), Newer);
    assert SortedBy(r, Newer);
    r
  }

  /** In a listing ordered newest first with NULL first (as `Listing` and every page of
      `FindAll` are), a row with a timestamp is followed only by rows with one no newer. */
  lemma {:induction false} NullTimestampsComeFirst(r: seq<StockOutListing>, i: nat, j: nat)
    requires forall k :: 0 < k < |r| ==> NewerTime(r[k - 1].stockOut.created_at, r[k].stockOut.created_at)
    requires i < j < |r|
    requires r[i].stockOut.created_at.Some?
    ensures r[j].stockOut.created_at.Some?
    ensures r[i].stockOut.created_at.value >= r[j].stockOut.created_at.value
    decreases j - i
  {
    if j > i + 1 {
      NullTimestampsComeFirst(r, i, j - 1);
    }
    assert NewerTime(r[j - 1].stockOut.created_at, r[j].stockOut.created_at);
  }

  /** `findAll(limit, offset)`: at most `limit` joined rows after skipping the first
      `offset` of the newest-first order. */
  function FindAll(stock_out: map<Id, StockOut>, products: map<Id, Product>, users: map<Id, User>,
                   limit: nat, offset: nat): (r: seq<StockOutListing>)
    ensures var all := Listing(stock_out, products, users);
      && |r| == (if offset >= |all| then 0 else Min(limit, |all| - offset))
      && forall i :: 0 <= i < |r| ==> r[i] == all[offset + i]
    ensures forall l :: l in r ==> l.stockOut in stock_out.Values && Joins(products, users, l.stockOut)
    ensures forall i :: 0 < i < |r| ==> NewerTime(r[i - 1].stockOut.created_at, r[i].stockOut.created_at)
    ensures KeyedStockOuts(stock_out) ==> Distinct(r)
  {
    var all := Listing(stock_out, products, users);
    assert SortedBy(all, Newer);
    PageOfSorted(all, limit, offset, Newer);
    Page(all, limit, offset)
  }

  /** `countTotalProducts`: `SELECT COUNT(*) FROM stock_out`, one per row of the scan. */
  function CountTotalProducts(stock_out: map<Id, StockOut>): (n: nat)
    ensures n == |Rows(stock_out)|
  {
    |stock_out|
  }

  class StockoutModel {
    const db: Database
    const stockout: Option<StockOut>

    constructor (db: Database, stockout: Option<StockOut>)
      ensures this.db == db && this.stockout == stockout
    {
      this.db := db;
      this.stockout := stockout;
    }

    /** `create`: inserts the six given columns as they are, absent timestamps as NULL.
        Nothing checks that the product exists or that it has the stock. */
    method Create() returns (r: Result<StockOut>)
      requires db.Valid()
      modifies db`stock_out
      ensures db.Valid()
      ensures stockout.None? ==>
        r == Err(Thrown("Stockout data is required to create a new stockout."))
      ensures stockout.Some? && stockout.value.id in old(db.stock_out) ==>
        r == Err(Db(UniqueViolation("stock_out")))
      ensures stockout.Some? && stockout.value.id !in old(db.stock_out) ==>
        && r == Ok(stockout.value)
        && db.stock_out == old(db.stock_out)[stockout.value.id := stockout.value]
        && CountTotalProducts(db.stock_out) == CountTotalProducts(old(db.stock_out)) + 1
      ensures r.Err? ==> db.stock_out == old(db.stock_out)
    {
      if stockout.None? {
        return Err(Thrown("Stockout data is required to create a new stockout."));
      }
      var o := stockout.value;
      if o.id in db.stock_out {
        return Err(Db(UniqueViolation("stock_out")));
      }
      db.stock_out := db.stock_out[o.id := o];
      r := Ok(o);
    }
  }
}
