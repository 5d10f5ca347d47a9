/** The product registry (`ProductModel`): rows of `products`, listed with the name of
    their category. */
module Products {
  import opened Common
  import opened Schema
  import opened Ordering

  /** The `Product` record a model is constructed with: the eight columns `create` writes. */
  datatype ProductData = ProductData(
    id: Id,
    category_id: Id,
    product_code: string,
    name_en: string,
    name_kh: string,
    beginning_quantity: int,
    created_at: Time,
    updated_at: Time)

  /** A `Partial<Product>`: the keys an update supplies. A missing patch is the empty one. */
  datatype ProductPatch = ProductPatch(
    id: Option<Id>,
    category_id: Option<Id>,
    product_code: Option<string>,
    name_en: Option<string>,
    name_kh: Option<string>,
    beginning_quantity: Option<int>,
    created_at: Option<Time>,
    updated_at: Option<Time>)
  {
    predicate IsEmpty() {
      id.None? && category_id.None? && product_code.None? && name_en.None? && name_kh.None?
      && beginning_quantity.None? && created_at.None? && updated_at.None?
    }
  }

  /** `SET <each supplied key>`. `minimum_stock` is not a key of the patch. */
  function Patched(p: Product, d: ProductPatch): Product {
    p.(id := d.id.GetOr(p.id),
       category_id := d.category_id.GetOr(p.category_id),
       product_code := d.product_code.GetOr(p.product_code),
       name_en := d.name_en.GetOr(p.name_en),
       name_kh := d.name_kh.GetOr(p.name_kh),
       beginning_quantity := d.beginning_quantity.GetOr(p.beginning_quantity),
       created_at := d.created_at.GetOr(p.created_at),
       updated_at := d.updated_at.GetOr(p.updated_at))
  }

  /** Once `update` has stamped the patch, the row's `updated_at` is the clock's, whatever
      the caller put there, and every other column is the patch's or the old one. */
  lemma StampedPatchSetsUpdatedAt(p: Product, d: ProductPatch, now: Time)
    ensures Patched(p, d.(updated_at := Some(now))).updated_at == now
    ensures Patched(p, d.(updated_at := Some(now))).minimum_stock == p.minimum_stock
    ensures d.IsEmpty() ==> Patched(p, d.(updated_at := Some(now))) == p.(updated_at := now)
  {
  }

  /** `findOne(product_code, name_en, name_kh)`: a product matching all three, or none. */
  function FindOne(products: map<Id, Product>, product_code: string, name_en: string, name_kh: string)
    : (r: Option<Product>)
    ensures r.Some? ==>
      && r.value in products.Values
      && r.value.product_code == product_code
      && r.value.name_en == name_en
      && r.value.name_kh == name_kh
    ensures r.None? <==> forall p :: p in products.Values ==>
      p.product_code != product_code || p.name_en != name_en || p.name_kh != name_kh
  {
    var hits := Filter(Rows(products), (p: Product) =>
      p.product_code == product_code && p.name_en == name_en && p.name_kh == name_kh);
    if hits == [] then None else Some(hits[0])
  }

  /** `findById`: the row whose `id` column equals `id`, read through the primary key. */
  function FindById(products: map<Id, Product>, id: Id): (r: Option<Product>)
    ensures r.Some? ==> r.value in products.Values
    ensures KeyedProducts(products) ==> r.Some? ==> r.value.id == id
    ensures KeyedProducts(products) ==>
      (r.None? <==> forall p :: p in products.Values ==> p.id != id)
  {
    if id in products then Some(products[id]) else None
  }

  /** A row of the product listing: every product column plus its category's name. */
  datatype ProductListing = ProductListing(product: Product, category_name: string)

  /** `products p JOIN categories c ON p.category_id = c.id` over the rows `s`. */
  function JoinCategories(categories: map<Id, Category>, s: seq<Product>): (r: seq<ProductListing>)
    ensures forall l :: l in r ==>
      && l.product in s
      && l.product.category_id in categories
      && l.category_name == categories[l.product.category_id].category_name
    ensures forall p :: p in s && p.category_id in categories ==>
      ProductListing(p, categories[p.category_id].category_name) in r
    ensures Distinct(s) ==> Distinct(r)
  {
    if s == [] then []
    else
      var head := if s[0].category_id in categories
        then [ProductListing(s[0], categories[s[0].category_id].category_name)]
        else [];
      var rest := JoinCategories(categories, s[1..]);
      HeadNotInTail(s);
      DistinctPrepend(head, rest);
      head + rest
  }

  predicate Newer(a: ProductListing, b: ProductListing) {
    a.product.created_at >= b.product.created_at
  }

  /** `findAll`: the products whose category exists, each with that category's name,
      newest `created_at` first. */
  function FindAll(products: map<Id, Product>, categories: map<Id, Category>): (r: seq<ProductListing>)
    ensures forall l :: l in r ==>
      && l.product in products.Values
      && l.product.category_id in categories
      && l.category_name == categories[l.product.category_id].category_name
    ensures forall p :: p in products.Values && p.category_id in categories ==>
      ProductListing(p, categories[p.category_id].category_name) in r
    ensures forall i :: 0 < i < |r| ==> r[i - 1].product.created_at >= r[i].product.created_at
    ensures KeyedProducts(products) ==> Distinct(r)
  {
    assert KeyedProducts(products) ==> Injective(products);
    var r := Sort(JoinCategories(categories, Rows(products)), Newer);
    assert SortedBy(r, Newer);
    r
  }

  /** `countTotalProducts`: `SELECT COUNT(*) FROM products`, one per row of the scan. */
  function CountTotalProducts(products: map<Id, Product>): (n: nat)
    ensures n == |Rows(products)|
  {
    |products|
  }

  class ProductModel {
    const db: Database
    const product: Option<ProductData>

    constructor (db: Database, product: Option<ProductData>)
      ensures this.db == db && this.product == product
    {
      this.db := db;
      this.product := product;
    }

    /** `create`: inserts the eight given columns; `minimum_stock` stays NULL. No check
        that the category exists is made here. */
    method Create() returns (r: Result<Product>)
      requires db.Valid()
      modifies db`products
      ensures db.Valid()
      ensures product.None? ==>
        r == Err(Thrown("Product data is required to create a new product."))
      ensures product.Some? && product.value.id in old(db.products) ==>
        r == Err(Db(UniqueViolation("products")))
      ensures product.Some? && product.value.id !in old(db.products) ==>
        var d := product.value;
        && r == Ok(Product(d.id, d.category_id, d.product_code, d.name_en, d.name_kh,
                           d.beginning_quantity, None, d.created_at, d.updated_at))
        && db.products == old(db.products)[d.id := r.value]
        && FindById(db.products, d.id) == Some(r.value)
        && FindOne(db.products, d.product_code, d.name_en, d.name_kh).Some?
      ensures r.Err? ==> db.products == old(db.products)
    {
      if product.None? {
        return Err(Thrown("Product data is required to create a new product."));
      }
      var d := product.value;
      if d.id in db.products {
        return Err(Db(UniqueViolation("products")));
      }
      var row := Product(d.id, d.category_id, d.product_code, d.name_en, d.name_kh,
                         d.beginning_quantity, None, d.created_at, d.updated_at);
      db.products := db.products[d.id := row];
      assert db.products[d.id] == row && row in db.products.Values;
      r := Ok(row);
    }

    /** `update(id, data)`: rejects an empty patch, then writes `now` into the patch's
        `updated_at` (the caller sees the patch changed) and sets every key of the patch on
        the row with that id. */
    method Update(id: Id, data: ProductPatch, now: Time)
      returns (r: Result<Option<Product>>, data': ProductPatch)
      requires db.Valid()
      modifies db`products
      ensures db.Valid()
      ensures data.IsEmpty() ==>
        r == Err(Thrown("Product data is required to update a product.")) && data' == data
      ensures !data.IsEmpty() ==> data' == data.(updated_at := Some(now))
      ensures !data.IsEmpty() && id !in old(db.products) ==> r == Ok(None)
      ensures !data.IsEmpty() && id in old(db.products) ==>
        var row := Patched(old(db.products)[id], data');
        && row.updated_at == now
        && if row.id != id && row.id in old(db.products) then
             r == Err(Db(UniqueViolation("products")))
           else
             && r == Ok(Some(row))
             && db.products == (old(db.products) - {id})[row.id := row]
             && FindById(db.products, row.id) == Some(row)
      ensures r.Err? || r == Ok(None) ==> db.products == old(db.products)
    {
      data' := data;
      if data.IsEmpty() {
        return Err(Thrown("Product data is required to update a product.")), data';
      }
      data' := data.(updated_at := Some(now));
      if id !in db.products {
        return Ok(None), data';
      }
      var row := Patched(db.products[id], data');
      if row.id != id && row.id in db.products {
        return Err(Db(UniqueViolation("products"))), data';
      }
      db.products := (db.products - {id})[row.id := row];
      r := Ok(Some(row));
    }

    /** `delete(id)`: removes the row with that id; the boolean it computes is always false. */
    method Delete(id: Id) returns (reported: bool)
      requires db.Valid()
      modifies db`products
      ensures db.Valid()
      ensures db.products == old(db.products) - {id}
      ensures FindById(db.products, id) == None
      ensures id in old(db.products) ==>
        CountTotalProducts(db.products) == CountTotalProducts(old(db.products)) - 1
      ensures !reported
    {
      db.products := db.products - {id};
      reported := false;
    }
  }
}
