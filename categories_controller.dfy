/** backend/controllers/categories/categoriesController.js: create with a duplicate-name check,
    list, delete and rename over the category store. */
module CategoriesController {
  import opened Js
  import opened Mongo
  import opened ErrorHandler
  import opened CategoryModel

  const DuplicateMessage := "Category already existing"
  const CreatedMessage := "Category created successfully"
  const FetchedMessage := "All categories successfully fetched"
  const DeletedMessage := "Category deleted successfully"
  const UpdatedMessage := "Category Updated successfully"

  /** The category store a handler leaves, how the request ended, and the document it returned
      (`updatedCategory`; None for the other handlers). */
  datatype CategoryStep = CategoryStep(categories: map<Id, Category>, outcome: Outcome, returned: Option<Category>)

  /** No two categories share a name. */
  predicate UniqueNames(categories: map<Id, Category>)
  {
    forall a, b :: a in categories && b in categories && a != b && categories[a].name.Some?
      ==> categories[a].name != categories[b].name
  }

  /** `createCategory` with the body's `name`, `req.userAuth.id` as `author`, and `newId` the
      ObjectId `Category.create` assigns. The duplicate error carries no status code. */
  function CreateCategorySpec(categories: map<Id, Category>, name: Option<string>, author: Option<Id>, newId: Id): (r: CategoryStep)
    requires newId !in categories
    ensures AnyMatch(categories, NameFilter(name)) <==> r.outcome == Thrown(PlainError(DuplicateMessage))
    ensures AnyMatch(categories, NameFilter(name)) ==> r.categories == categories
    ensures !AnyMatch(categories, NameFilter(name)) ==>
              r.outcome == Sent(200, "success", CreatedMessage)
              && r.categories == categories[newId := Category(name, author, [])]
    ensures r.returned.None?
  {
    if AnyMatch(categories, NameFilter(name)) then CategoryStep(categories, Thrown(PlainError(DuplicateMessage)), None)
    else CategoryStep(categories[newId := Category(name, author, [])], Sent(200, "success", CreatedMessage), None)
  }

  /** Creating keeps names unique; and a request without a name only succeeds on an empty store,
      because its filter `{}` matches any category. */
  lemma CreatePreservesUniqueNames(categories: map<Id, Category>, name: Option<string>, author: Option<Id>, newId: Id)
    requires newId !in categories && UniqueNames(categories)
    ensures UniqueNames(CreateCategorySpec(categories, name, author, newId).categories)
    ensures name.None? && categories != map[] ==> CreateCategorySpec(categories, name, author, newId).outcome.Thrown?
  {
    var r := CreateCategorySpec(categories, name, author, newId).categories;
    if !AnyMatch(categories, NameFilter(name)) {
      forall a, b | a in r && b in r && a != b && r[a].name.Some?
        ensures r[a].name != r[b].name
      {
        if a == newId {
          assert NameFilter(name)(categories[b]) == false;
        } else if b == newId {
          assert NameFilter(name)(categories[a]) == false;
        }
      }
    }
    if name.None? && categories != map[] {
      var c :| c in categories;
      assert NameFilter(name)(categories[c]);
    }
  }

  /** A duplicate name reaches the client as 500 "error", not as a client error. */
  lemma DuplicateCategoryIs500(categories: map<Id, Category>, name: Option<string>, author: Option<Id>, newId: Id, nodeEnv: Option<string>)
    requires newId !in categories && AnyMatch(categories, NameFilter(name))
    ensures var o := CreateCategorySpec(categories, name, author, newId).outcome;
            Respond(o, nodeEnv).code == 500 && Respond(o, nodeEnv).body.status == "error"
            && Respond(o, nodeEnv).body.message == DuplicateMessage
  {
  }

  /** `createCategory(req, resp)`. */
  method CreateCategory(categories: Collection<Category>, name: Option<string>, author: Option<Id>, newId: Id) returns (outcome: Outcome)
    requires newId !in categories.docs
    modifies categories
    ensures CategoryStep(categories.docs, outcome, None) == CreateCategorySpec(old(categories.docs), name, author, newId)
  {
    var isCategoryPresent := categories.FindOne(NameFilter(name));
    if isCategoryPresent {
      return Thrown(PlainError(DuplicateMessage));
    }
    categories.Create(newId, Category(name, author, []));
    outcome := Sent(200, "success", CreatedMessage);
  }

  /** The response of `getAllCategories`: every stored category document, each under its own
      `_id`, with status 201. */
  datatype CategoryList = CategoryList(code: int, status: string, message: string, all: map<Id, Category>)

  function GetAllCategories(categories: map<Id, Category>): (r: CategoryList)
    ensures r.code == 201 && r.status == "success" && r.message == FetchedMessage
    ensures r.all.Keys == categories.Keys
    ensures forall id :: id in r.all ==> r.all[id] == categories[id]
  {
    CategoryList(201, "success", FetchedMessage, categories)
  }

  /** A created category is listed afterwards under its new id, next to every earlier one; a
      deleted one is no longer listed and every other one still is. */
  lemma ListingFollowsCreateAndDelete(categories: map<Id, Category>, name: Option<string>, author: Option<Id>, newId: Id, gone: Id)
    requires newId !in categories
    ensures var r := CreateCategorySpec(categories, name, author, newId);
            r.outcome.Sent? ==> newId in GetAllCategories(r.categories).all
                                && GetAllCategories(r.categories).all[newId].name == name
                                && |GetAllCategories(r.categories).all| == |GetAllCategories(categories).all| + 1
    ensures var listed := GetAllCategories(DeleteCategorySpec(categories, gone).categories).all;
            gone !in listed && forall id :: id in categories && id != gone ==> id in listed
  {
  }

  /** `deleteCategory`: the category is removed when present, and the answer is 201 either way. */
  function DeleteCategorySpec(categories: map<Id, Category>, id: Id): (r: CategoryStep)
    ensures r.outcome == Sent(201, "success", DeletedMessage)
    ensures r.categories.Keys == categories.Keys - {id}
    ensures forall c :: c in r.categories ==> r.categories[c] == categories[c]
    ensures r.returned.None?
  {
    CategoryStep(DeleteById(categories, id, Everyone).docs, Sent(201, "success", DeletedMessage), None)
  }

  /** Deleting keeps names unique, and deleting an unknown id changes nothing. */
  lemma DeletePreservesUniqueNames(categories: map<Id, Category>, id: Id)
    requires UniqueNames(categories)
    ensures UniqueNames(DeleteCategorySpec(categories, id).categories)
    ensures id !in categories ==> DeleteCategorySpec(categories, id).categories == categories
  {
  }

  /** `deleteCategory(req, resp)`. */
  method DeleteCategory(categories: Collection<Category>, id: Id) returns (outcome: Outcome)
    modifies categories
    ensures CategoryStep(categories.docs, outcome, None) == DeleteCategorySpec(old(categories.docs), id)
  {
    var _ := categories.FindByIdAndDelete(id, Everyone);
    outcome := Sent(201, "success", DeletedMessage);
  }

  /** The update `{ name }`: an undefined `name` is dropped and the update changes nothing. */
  function Renamed(name: Option<string>): Category -> Category
  {
    (c: Category) => if name.Some? then c.(name := name) else c
  }

  /** `updateCategory`: only `name` changes; an unknown id gives `updatedCategory` null, and the
      answer is 201 either way. */
  function UpdateCategorySpec(categories: map<Id, Category>, id: Id, name: Option<string>): (r: CategoryStep)
    ensures r.outcome == Sent(201, "success", UpdatedMessage)
    ensures r.returned.None? <==> id !in categories
    ensures id !in categories ==> r.categories == categories
    ensures id in categories ==> r.returned.Some?
                                 && r.categories == categories[id := r.returned.value]
                                 && r.returned.value.(name := categories[id].name) == categories[id]
                                 && r.returned.value.name == (if name.Some? then name else categories[id].name)
  {
    var u := UpdateById(categories, id, Everyone, Renamed(name));
    CategoryStep(u.docs, Sent(201, "success", UpdatedMessage), u.result)
  }

  /** Renaming does not check for duplicates: two categories can end up with the same name. */
  lemma RenameCanDuplicateNames()
    ensures var before := map[1 := Category(Some("news"), None, []), 2 := Category(Some("tech"), None, [])];
            UniqueNames(before) && !UniqueNames(UpdateCategorySpec(before, 2, Some("news")).categories)
  {
    var before := map[1 := Category(Some("news"), None, []), 2 := Category(Some("tech"), None, [])];
    var after := UpdateCategorySpec(before, 2, Some("news")).categories;
    assert after[1].name == after[2].name;
  }

  /** `updateCategory(req, resp)`: returns the outcome and `updatedCategory`. */
  method UpdateCategory(categories: Collection<Category>, id: Id, name: Option<string>) returns (outcome: Outcome, updatedCategory: Option<Category>)
    modifies categories
    ensures CategoryStep(categories.docs, outcome, updatedCategory) == UpdateCategorySpec(old(categories.docs), id, name)
  {
    updatedCategory := categories.FindByIdAndUpdate(id, Everyone, Renamed(name));
    outcome := Sent(201, "success", UpdatedMessage);
  }
}
