/** The category registry (`CategoryModel`): rows of `categories`. */
module Categories {
  import opened Common
  import opened Schema
  import opened Ordering

  /** A `Partial<Category>`: the keys an update supplies. A missing patch is the empty one. */
  datatype CategoryPatch = CategoryPatch(
    id: Option<Id>,
    category_name: Option<string>,
    description: Option<string>,
    created_at: Option<Time>,
    updated_at: Option<Time>)
  {
    predicate IsEmpty() {
      id.None? && category_name.None? && description.None? && created_at.None? && updated_at.None?
    }
  }

  /** `SET <each supplied key>, updated_at = CURRENT_TIMESTAMP`. */
  function Patched(c: Category, p: CategoryPatch, now: Time): Category {
    Category(
      p.id.GetOr(c.id),
      p.category_name.GetOr(c.category_name),
      p.description.GetOr(c.description),
      p.created_at.GetOr(c.created_at),
      now)
  }

  /** A later patch wins key by key over an earlier one. */
  function Merge(p: CategoryPatch, q: CategoryPatch): CategoryPatch {
    CategoryPatch(
      if q.id.Some? then q.id else p.id,
      if q.category_name.Some? then q.category_name else p.category_name,
      if q.description.Some? then q.description else p.description,
      if q.created_at.Some? then q.created_at else p.created_at,
      if q.updated_at.Some? then q.updated_at else p.updated_at)
  }

  /** Two updates in a row leave the row as one update with the merged patch would. */
  lemma PatchesCompose(c: Category, p: CategoryPatch, q: CategoryPatch, t1: Time, t2: Time)
    ensures Patched(Patched(c, p, t1), q, t2) == Patched(c, Merge(p, q), t2)
  {
  }

  /** `findOne`: a category whose `category_name` equals the argument exactly, or none. */
  function FindOne(categories: map<Id, Category>, category_name: string): (r: Option<Category>)
    ensures r.Some? ==> r.value in categories.Values && r.value.category_name == category_name
    ensures r.None? <==> forall c :: c in categories.Values ==> c.category_name != category_name
  {
    var hits := Filter(Rows(categories), (c: Category) => c.category_name == category_name);
    if hits == [] then None else Some(hits[0])
  }

  /** `findById`: the row whose `id` column equals `id`, read through the primary key. */
  function FindById(categories: map<Id, Category>, id: Id): (r: Option<Category>)
    ensures r.Some? ==> r.value in categories.Values
    ensures KeyedCategories(categories) ==> r.Some? ==> r.value.id == id
    ensures KeyedCategories(categories) ==>
      (r.None? <==> forall c :: c in categories.Values ==> c.id != id)
  {
    if id in categories then Some(categories[id]) else None
  }

  predicate Newer(a: Category, b: Category) {
    a.created_at >= b.created_at
  }

  /** `findAll`: every category, newest `created_at` first; it takes no page. */
  function FindAll(categories: map<Id, Category>): (r: seq<Category>)
    ensures |r| == |categories|
    ensures forall c :: c in r <==> c in categories.Values
    ensures forall i :: 0 < i < |r| ==> r[i - 1].created_at >= r[i].created_at
    ensures KeyedCategories(categories) ==> Distinct(r)
  {
    assert KeyedCategories(categories) ==> Injective(categories);
    var r := Sort(Rows(categories), Newer);
    assert SortedBy(r, Newer);
    r
  }

  /** `countTotalCategory`: `SELECT COUNT(*)`, one per row of the scan. */
  function CountTotalCategory(categories: map<Id, Category>): (n: nat)
    ensures n == |Rows(categories)|
  {
    |categories|
  }

  class CategoryModel {
    const db: Database
    const category: Option<Category>

    constructor (db: Database, category: Option<Category>)
      ensures this.db == db && this.category == category
    {
      this.db := db;
      this.category := category;
    }

    /** `create`: inserts the five given columns as they are. */
    method Create() returns (r: Result<Category>)
      requires db.Valid()
      modifies db`categories
      ensures db.Valid()
      ensures category.None? ==>
        r == Err(Thrown("category data is required to create a new category."))
      ensures category.Some? && category.value.id in old(db.categories) ==>
        r == Err(Db(UniqueViolation("categories")))
      ensures category.Some? && category.value.id !in old(db.categories) ==>
        && r == Ok(category.value)
        && db.categories == old(db.categories)[category.value.id := category.value]
        && CountTotalCategory(db.categories) == CountTotalCategory(old(db.categories)) + 1
      ensures r.Err? ==> db.categories == old(db.categories)
    {
      if category.None? {
        return Err(Thrown("category data is required to create a new category."));
      }
      var c := category.value;
      if c.id in db.categories {
        return Err(Db(UniqueViolation("categories")));
      }
      db.categories := db.categories[c.id := c];
      r := Ok(c);
    }

    /** `update(id, data)`: rejects an empty patch, then sets the supplied keys and
        `updated_at = now` on the row with that id. */
    method Update(id: Id, data: CategoryPatch, now: Time) returns (r: Result<Option<Category>>)
      requires db.Valid()
      modifies db`categories
      ensures db.Valid()
      ensures data.IsEmpty() ==>
        r == Err(Thrown("Category data is required to update a category."))
      ensures !data.IsEmpty() && data.updated_at.Some? ==>
        r == Err(Db(MultipleAssignments("updated_at")))
      ensures !data.IsEmpty() && data.updated_at.None? && id !in old(db.categories) ==>
        r == Ok(None)
      ensures !data.IsEmpty() && data.updated_at.None? && id in old(db.categories) ==>
        var row := Patched(old(db.categories)[id], data, now);
        if row.id != id && row.id in old(db.categories) then
          r == Err(Db(UniqueViolation("categories")))
        else
          && r == Ok(Some(row))
          && db.categories == (old(db.categories) - {id})[row.id := row]
          && FindById(db.categories, row.id) == Some(row)
      ensures r.Err? || r == Ok(None) ==> db.categories == old(db.categories)
    {
      if data.IsEmpty() {
        return Err(Thrown("Category data is required to update a category."));
      }
      if data.updated_at.Some? {
        // the SET list would name `updated_at` twice
        return Err(Db(MultipleAssignments("updated_at")));
      }
      if id !in db.categories {
        return Ok(None);
      }
      var row := Patched(db.categories[id], data, now);
      if row.id != id && row.id in db.categories {
        return Err(Db(UniqueViolation("categories")));
      }
      db.categories := (db.categories - {id})[row.id := row];
      r := Ok(Some(row));
    }

    /** `delete(id)`: removes the row with that id; the boolean it computes is always false. */
    method Delete(id: Id) returns (reported: bool)
      requires db.Valid()
      modifies db`categories
      ensures db.Valid()
      ensures db.categories == old(db.categories) - {id}
      ensures id in old(db.categories) ==>
        CountTotalCategory(db.categories) == CountTotalCategory(old(db.categories)) - 1
      ensures !reported
    {
      db.categories := db.categories - {id};
      reported := false;
    }
  }
}
