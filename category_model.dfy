/** The columns of `categories` (backend/src/models/Category.js) that the category controller reads. */
module CategoryModel {
  import opened Wrappers

  datatype Category = Category(id: nat, name: string, description: Option<string>, icon: Option<string>, sortOrder: int, status: int)

  predicate IsEnabled(c: Category) { c.status == 1 }

  /** `id` is the primary key of `categories`. */
  ghost predicate UniqueCategoryIds(categories: seq<Category>) {
    forall i, j :: 0 <= i < j < |categories| ==> categories[i].id != categories[j].id
  }

  /** `Category.findOne({ where: { id, status: 1 } })`. */
  function FindEnabledCategory(categories: seq<Category>, id: nat): (r: Option<Category>)
    ensures r.Some? ==> r.value in categories && r.value.id == id && IsEnabled(r.value)
    ensures r.None? ==> forall i :: 0 <= i < |categories| ==> !(categories[i].id == id && IsEnabled(categories[i]))
  {
    if categories == [] then None
    else if categories[0].id == id && IsEnabled(categories[0]) then Some(categories[0])
    else FindEnabledCategory(categories[1..], id)
  }

  /** The category a good's `category` association resolves to, whatever its status. */
  function FindCategory(categories: seq<Category>, id: nat): (r: Option<Category>)
    ensures r.Some? ==> r.value in categories && r.value.id == id
    ensures r.None? ==> forall i :: 0 <= i < |categories| ==> categories[i].id != id
  {
    if categories == [] then None
    else if categories[0].id == id then Some(categories[0])
    else FindCategory(categories[1..], id)
  }
}
