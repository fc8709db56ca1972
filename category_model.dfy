/** The category record as the controllers use it. backend/models/Categories/Category.js is
    not part of this model, so its validators, indexes and timestamps are not known here:
    the record holds only the paths the controllers read and write. */
module CategoryModel {
  import opened Js
  import opened Mongo

  /** A stored category: `name` is None when it was created without one. */
  datatype Category = Category(name: Option<string>, author: Option<Id>, posts: seq<Id>)

  /** The filter `{ name }` built from a request body: an undefined `name` is dropped by
      Mongoose's query casting, so the filter is `{}` and matches every category. */
  function NameFilter(name: Option<string>): Category -> bool
  {
    (c: Category) => name.None? || c.name == name
  }
}
