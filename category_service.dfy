/** CategoryService: ADMIN-only create, rename and delete, and the lookup
    the product service relies on. */
module CategoryService {
  import opened Errors
  import opened JavaLang
  import opened Roles
  import opened Entities
  import opened Validation
  import opened Authorization
  import opened Repositories

  datatype CategoryRequest = CategoryRequest(name: Option<string>, description: Option<string>)

  /** `d != null ? d.trim() : null`. */
  function TrimOrNull(d: Option<string>): (r: Option<string>)
    ensures r.None? <==> d.None?
    ensures r.Some? ==> r.value == Trim(d.value)
  {
    match d
    case None => None
    case Some(s) => Some(Trim(s))
  }

  /** `existsByName`: exact equality on the stored name. */
  predicate ExistsByName(categories: map<int, Category>, name: string) {
    exists id :: id in categories && categories[id].name == name
  }

  /** No two categories carry the same name. */
  predicate NamesUnique(categories: map<int, Category>) {
    forall i, j :: i in categories && j in categories && categories[i].name == categories[j].name ==> i == j
  }

  /** `getCategoryEntity`. */
  function GetCategoryEntity(categories: map<int, Category>, id: int): (r: Result<Category>)
    ensures r.Ok? <==> id in categories
    ensures r.Ok? ==> r.value == categories[id]
    ensures r.Err? ==> r.error == NotFound("Category")
  {
    if id in categories then Ok(categories[id]) else Err(NotFound("Category"))
  }

  /** The category `createCategory` saves: ADMIN first, then a non-blank
      name, then the trimmed name must be free. */
  function CategoryCreation(categories: map<int, Category>, dto: CategoryRequest, userRole: Role): (r: Result<Category>)
    ensures userRole != ADMIN ==> r == Err(Forbidden)
    ensures r.Ok? <==> userRole == ADMIN && ValidateNotEmpty(dto.name, "name").Pass?
                       && !ExistsByName(categories, Trim(dto.name.value))
    ensures r.Err? && userRole == ADMIN ==> r.error == BadRequest("name")
    ensures r.Ok? ==> r.value == Category(Trim(dto.name.value), TrimOrNull(dto.description))
  {
    var guard := CheckAdminAccess(userRole, "create category");
    if guard.Fail? then Err(guard.error)
    else
      var nameCheck := ValidateNotEmpty(dto.name, "name");
      if nameCheck.Fail? then Err(nameCheck.error)
      else if ExistsByName(categories, Trim(dto.name.value)) then Err(BadRequest("name"))
      else Ok(Category(Trim(dto.name.value), TrimOrNull(dto.description)))
  }

  /** Creation never introduces a second category with the same name. */
  lemma CreationKeepsNamesUnique(categories: map<int, Category>, dto: CategoryRequest, userRole: Role, id: int)
    requires NamesUnique(categories) && id !in categories
    requires CategoryCreation(categories, dto, userRole).Ok?
    ensures NamesUnique(categories[id := CategoryCreation(categories, dto, userRole).value])
  {
    var c := CategoryCreation(categories, dto, userRole).value;
    forall i | i in categories ensures categories[i].name != c.name {
      assert !ExistsByName(categories, c.name);
    }
  }

  /** `createCategory`: saves the new category under a fresh id. */
  method CreateCategory(db: Store, dto: CategoryRequest, userRole: Role) returns (r: Result<int>)
    requires db.Valid()
    modifies db`categories, db`nextCategoryId
    ensures db.Valid()
    ensures CategoryCreation(old(db.categories), dto, userRole).Err? ==>
              r == Err(CategoryCreation(old(db.categories), dto, userRole).error)
              && db.categories == old(db.categories) && db.nextCategoryId == old(db.nextCategoryId)
    ensures CategoryCreation(old(db.categories), dto, userRole).Ok? ==>
              && r == Ok(old(db.nextCategoryId))
              && db.categories == old(db.categories)[old(db.nextCategoryId) := CategoryCreation(old(db.categories), dto, userRole).value]
              && db.nextCategoryId == old(db.nextCategoryId) + 1
  {
    var created := CategoryCreation(db.categories, dto, userRole);
    if created.Err? {
      return Err(created.error);
    }
    var id := db.nextCategoryId;
    db.categories := db.categories[id := created.value];
    db.nextCategoryId := id + 1;
    r := Ok(id);
  }

  /** The category `updateCategory` saves: ADMIN, non-blank name, existing
      id; the name is looked up only when the untrimmed new name differs,
      ignoring case, from the current one. */
  function CategoryUpdate(categories: map<int, Category>, id: int, dto: CategoryRequest, userRole: Role): (r: Result<Category>)
    ensures userRole != ADMIN ==> r == Err(Forbidden)
    ensures userRole == ADMIN && ValidateNotEmpty(dto.name, "name").Fail? ==> r == Err(BadRequest("name"))
    ensures userRole == ADMIN && ValidateNotEmpty(dto.name, "name").Pass? && id !in categories ==> r == Err(NotFound("Category"))
    ensures r.Ok? <==> userRole == ADMIN && ValidateNotEmpty(dto.name, "name").Pass? && id in categories
                       && (EqualsIgnoreCase(categories[id].name, dto.name.value)
                           || !ExistsByName(categories, Trim(dto.name.value)))
    ensures (r.Err? && userRole == ADMIN && ValidateNotEmpty(dto.name, "name").Pass?
             && id in categories) ==> r.error == BadRequest("name")
    ensures r.Ok? ==> r.value == Category(Trim(dto.name.value), TrimOrNull(dto.description))
  {
    var guard := CheckAdminAccess(userRole, "update category");
    if guard.Fail? then Err(guard.error)
    else
      var nameCheck := ValidateNotEmpty(dto.name, "name");
      if nameCheck.Fail? then Err(nameCheck.error)
      else if id !in categories then Err(NotFound("Category"))
      else if !EqualsIgnoreCase(categories[id].name, dto.name.value) && ExistsByName(categories, Trim(dto.name.value))
      then Err(BadRequest("name"))
      else Ok(Category(Trim(dto.name.value), TrimOrNull(dto.description)))
  }

  /** When the uniqueness query runs (the name changes beyond case), a
      rename keeps names unique. */
  lemma RenameKeepsNamesUnique(categories: map<int, Category>, id: int, dto: CategoryRequest, userRole: Role)
    requires NamesUnique(categories)
    requires CategoryUpdate(categories, id, dto, userRole).Ok?
    requires !EqualsIgnoreCase(categories[id].name, dto.name.value)
    ensures NamesUnique(categories[id := CategoryUpdate(categories, id, dto, userRole).value])
  {
    var c := CategoryUpdate(categories, id, dto, userRole).value;
    forall i | i in categories ensures categories[i].name != c.name {
      assert !ExistsByName(categories, c.name);
    }
  }

  /** A rename that only changes case skips the query, so it can produce a
      second category with the same name. */
  lemma CaseOnlyRenameMayDuplicate()
    ensures var categories := map[1 := Category("Books", None), 2 := Category("BOOKS", None)];
            && NamesUnique(categories)
            && CategoryUpdate(categories, 1, CategoryRequest(Some("BOOKS"), None), ADMIN).Ok?
            && !NamesUnique(categories[1 := CategoryUpdate(categories, 1, CategoryRequest(Some("BOOKS"), None), ADMIN).value])
  {
    var categories := map[1 := Category("Books", None), 2 := Category("BOOKS", None)];
    assert EqualsIgnoreCase("Books", "BOOKS");
    assert Trim("BOOKS") == "BOOKS" by { assert !IsTrimmable('B') && !IsTrimmable('S'); }
    var updated := categories[1 := Category("BOOKS", None)];
    assert updated[1].name == updated[2].name;
  }

  /** The case comparison uses the untrimmed new name: renaming a category to
      its own name padded with a space is refused as a duplicate of itself. */
  lemma PaddedOwnNameRefused()
    ensures CategoryUpdate(map[1 := Category("Books", None)], 1, CategoryRequest(Some(" Books"), None), ADMIN)
            == Err(BadRequest("name"))
  {
    var categories := map[1 := Category("Books", None)];
    assert !EqualsIgnoreCase("Books", " Books");
    assert Trim(" Books") == "Books" by {
      assert LeadingBlanks(" Books") == 1 by { assert LeadingBlanks("Books") == 0; }
      assert TrailingBlanks(" Books") == 0;
      assert " Books"[1..6] == "Books";
    }
    assert categories[1].name == "Books";
  }

  /** `updateCategory`: overwrites name and description in place. */
  method UpdateCategory(db: Store, id: int, dto: CategoryRequest, userRole: Role) returns (r: Outcome)
    requires db.Valid()
    modifies db`categories
    ensures db.Valid()
    ensures CategoryUpdate(old(db.categories), id, dto, userRole).Err? ==>
              r == Fail(CategoryUpdate(old(db.categories), id, dto, userRole).error)
              && db.categories == old(db.categories)
    ensures CategoryUpdate(old(db.categories), id, dto, userRole).Ok? ==>
              r == Pass && db.categories == old(db.categories)[id := CategoryUpdate(old(db.categories), id, dto, userRole).value]
  {
    var updated := CategoryUpdate(db.categories, id, dto, userRole);
    if updated.Err? {
      return Fail(updated.error);
    }
    db.categories := db.categories[id := updated.value];
    r := Pass;
  }

  /** `deleteCategory`: ADMIN, then NotFound, then the id is removed. */
  method DeleteCategory(db: Store, id: int, userRole: Role) returns (r: Outcome)
    requires db.Valid()
    modifies db`categories
    ensures db.Valid()
    ensures userRole != ADMIN ==> r == Fail(Forbidden)
    ensures userRole == ADMIN && id !in old(db.categories) ==> r == Fail(NotFound("Category"))
    ensures r.Pass? <==> userRole == ADMIN && id in old(db.categories)
    ensures db.categories == if r.Pass? then old(db.categories) - {id} else old(db.categories)
  {
    var guard := CheckAdminAccess(userRole, "delete category");
    if guard.Fail? {
      return guard;
    }
    if id !in db.categories {
      return Fail(NotFound("Category"));
    }
    db.categories := db.categories - {id};
    r := Pass;
  }
}
