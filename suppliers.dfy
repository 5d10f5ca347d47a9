/** The supplier registry (`SupplierModel`): insert, look up, list a page, patch and
    delete rows of `suppliers`. */
module Suppliers {
  import opened Common
  import opened Schema
  import opened Ordering

  /** The `Supplier` record a model is constructed with. `create` ignores its timestamps. */
  datatype SupplierData = SupplierData(
    id: Id,
    supplier_name: string,
    phone_number: Option<string>,
    address: Option<string>,
    company_name: Option<string>,
    created_at: Option<Time>,
    updated_at: Option<Time>)

  /** A `Partial<Supplier>`: the keys an update supplies. A missing patch is the empty one. */
  datatype SupplierPatch = SupplierPatch(
    id: Option<Id>,
    supplier_name: Option<string>,
    phone_number: Option<string>,
    address: Option<string>,
    company_name: Option<string>,
    created_at: Option<Time>,
    updated_at: Option<Time>)
  {
    predicate IsEmpty() {
      id.None? && supplier_name.None? && phone_number.None? && address.None?
      && company_name.None? && created_at.None? && updated_at.None?
    }
  }

  /** `SET <each supplied key>, updated_at = now`. The caller never supplies `updated_at`
      itself: that statement is rejected (see `Update`). */
  function Patched(s: Supplier, p: SupplierPatch, now: Time): Supplier {
    Supplier(
      p.id.GetOr(s.id),
      p.supplier_name.GetOr(s.supplier_name),
      if p.phone_number.Some? then p.phone_number else s.phone_number,
      if p.address.Some? then p.address else s.address,
      if p.company_name.Some? then p.company_name else s.company_name,
      p.created_at.GetOr(s.created_at),
      now)
  }

  /** `findOne`: a supplier whose `supplier_name` equals the argument exactly, or none. */
  function FindOne(suppliers: map<Id, Supplier>, supplier_name: string): (r: Option<Supplier>)
    ensures r.Some? ==> r.value in suppliers.Values && r.value.supplier_name == supplier_name
    ensures r.None? <==> forall s :: s in suppliers.Values ==> s.supplier_name != supplier_name
  {
    var hits := Filter(Rows(suppliers), (s: Supplier) => s.supplier_name == supplier_name);
    if hits == [] then None else Some(hits[0])
  }

  /** `findById`: the row whose `id` column equals `id`, read through the primary key. */
  function FindById(suppliers: map<Id, Supplier>, id: Id): (r: Option<Supplier>)
    ensures r.Some? ==> r.value in suppliers.Values
    ensures KeyedSuppliers(suppliers) ==> r.Some? ==> r.value.id == id
    ensures KeyedSuppliers(suppliers) ==>
      (r.None? <==> forall s :: s in suppliers.Values ==> s.id != id)
  {
    if id in suppliers then Some(suppliers[id]) else None
  }

  predicate Newer(a: Supplier, b: Supplier) {
    a.created_at >= b.created_at
  }

  /** `ORDER BY created_at DESC` over the whole table. */
  function Listing(suppliers: map<Id, Supplier>): (r: seq<Supplier>)
    ensures |r| == |suppliers|
    ensures forall s :: s in r <==> s in suppliers.Values
    ensures forall i :: 0 < i < |r| ==> r[i - 1].created_at >= r[i].created_at
    ensures KeyedSuppliers(suppliers) ==> Distinct(r)
  {
    assert KeyedSuppliers(suppliers) ==> Injective(suppliers);
    var r := Sort(Rows(suppliers), Newer);
    assert SortedBy(r, Newer);
    r
  }

  /** `findAll(limit, offset)`: at most `limit` suppliers, newest first, after skipping the
      first `offset` of that order. */
  function FindAll(suppliers: map<Id, Supplier>, limit: nat, offset: nat): (r: seq<Supplier>)
    ensures |r| == if offset >= |Listing(suppliers)| then 0 else Min(limit, |Listing(suppliers)| - offset)
    ensures forall i :: 0 <= i < |r| ==> r[i] == Listing(suppliers)[offset + i]
    ensures forall s :: s in r ==> s in suppliers.Values
    ensures forall i :: 0 < i < |r| ==> r[i - 1].created_at >= r[i].created_at
    ensures KeyedSuppliers(suppliers) ==> Distinct(r)
  {
    var all := Listing(suppliers);
    assert SortedBy(all, Newer);
    PageOfSorted(all, limit, offset, Newer);
    Page(all, limit, offset)
  }

  class SupplierModel {
    const db: Database
    const supplier: Option<SupplierData>

    constructor (db: Database, supplier: Option<SupplierData>)
      ensures this.db == db && this.supplier == supplier
    {
      this.db := db;
      this.supplier := supplier;
    }

    /** `create`: inserts the five given columns with both timestamps set to `now`. */
    method Create(now: Time) returns (r: Result<Supplier>)
      requires db.Valid()
      modifies db`suppliers
      ensures db.Valid()
      ensures supplier.None? ==>
        r == Err(Thrown("Supplier data is required to create a new supplier."))
      ensures supplier.Some? && supplier.value.id in old(db.suppliers) ==>
        r == Err(Db(UniqueViolation("suppliers")))
      ensures supplier.Some? && supplier.value.id !in old(db.suppliers) ==>
        var d := supplier.value;
        && r == Ok(Supplier(d.id, d.supplier_name, d.phone_number, d.address, d.company_name, now, now))
        && db.suppliers == old(db.suppliers)[d.id := r.value]
        && FindById(db.suppliers, d.id) == Some(r.value)
      ensures r.Err? ==> db.suppliers == old(db.suppliers)
    {
      if supplier.None? {
        return Err(Thrown("Supplier data is required to create a new supplier."));
      }
      var d := supplier.value;
      if d.id in db.suppliers {
        return Err(Db(UniqueViolation("suppliers")));
      }
      var row := Supplier(d.id, d.supplier_name, d.phone_number, d.address, d.company_name, now, now);
      db.suppliers := db.suppliers[d.id := row];
      r := Ok(row);
    }

    /** `update(id, data)`: rejects an empty patch, then sets the supplied keys and
        `updated_at = now` on the row with that id. */
    method Update(id: Id, data: SupplierPatch, now: Time) returns (r: Result<Option<Supplier>>)
      requires db.Valid()
      modifies db`suppliers
      ensures db.Valid()
      ensures data.IsEmpty() ==>
        r == Err(Thrown("Supplier data is required to update a supplier."))
      ensures !data.IsEmpty() && data.updated_at.Some? ==>
        r == Err(Db(MultipleAssignments("updated_at")))
      ensures !data.IsEmpty() && data.updated_at.None? && id !in old(db.suppliers) ==>
        r == Ok(None)
      ensures !data.IsEmpty() && data.updated_at.None? && id in old(db.suppliers) ==>
        var row := Patched(old(db.suppliers)[id], data, now);
        if row.id != id && row.id in old(db.suppliers) then
          r == Err(Db(UniqueViolation("suppliers")))
        else
          && r == Ok(Some(row))
          && db.suppliers == (old(db.suppliers) - {id})[row.id := row]
          && FindById(db.suppliers, row.id) == Some(row)
      ensures r.Err? || r == Ok(None) ==> db.suppliers == old(db.suppliers)
    {
      if data.IsEmpty() {
        return Err(Thrown("Supplier data is required to update a supplier."));
      }
      if data.updated_at.Some? {
        // the SET list would name `updated_at` twice
        return Err(Db(MultipleAssignments("updated_at")));
      }
      if id !in db.suppliers {
        return Ok(None);
      }
      var row := Patched(db.suppliers[id], data, now);
      if row.id != id && row.id in db.suppliers {
        return Err(Db(UniqueViolation("suppliers")));
      }
      db.suppliers := (db.suppliers - {id})[row.id := row];
      r := Ok(Some(row));
    }

    /** `delete(id)`: removes the row with that id. The boolean the source computes,
        `rows[0] > 0` on a DELETE without RETURNING, is always false. */
    method Delete(id: Id) returns (reported: bool)
      requires db.Valid()
      modifies db`suppliers
      ensures db.Valid()
      ensures db.suppliers == old(db.suppliers) - {id}
      ensures FindById(db.suppliers, id) == None
      ensures !reported
    {
      db.suppliers := db.suppliers - {id};
      reported := false;
    }
  }
}
