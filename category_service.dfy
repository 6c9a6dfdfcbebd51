/**
 * The category service of internal/device/service/category_service.go: the
 * tree built from a flat category list, the listing that uses it, and the
 * guards of creating, updating, deleting and re-ordering custom categories.
 *
 * Repository answers are parameters: whether a name is taken, the category
 * a lookup by ID returns (None for none), the number of devices and of
 * child categories, and the list a listing query returns. Each of them is a
 * `Result` whose error is the database error the call reported, and every
 * write comes with a flag saying whether it reported one.
 */
module CategoryService {
  import opened Common
  import opened DeviceModel

  // ---------------------------------------------------------------------
  // buildCategoryTree

  /** The value snapshot of each category of a list, in list order. */
  function Rows(cats: seq<Category>): (rows: seq<CategoryRow>)
    reads cats
    ensures |rows| == |cats| && forall i :: 0 <= i < |cats| ==> rows[i] == cats[i].Row()
  {
    if cats == [] then [] else Rows(cats[..|cats| - 1]) + [cats[|cats| - 1].Row()]
  }

  /** The repository hands back one object per row: no category occurs twice. */
  predicate Distinct(cats: seq<Category>)
  {
    forall j, l :: 0 <= j < l < |cats| ==> cats[j] != cats[l]
  }

  /** The position each ID of the first n rows maps to after the first loop:
      a later category with the same ID replaces an earlier one. */
  function IdIndex(rows: seq<CategoryRow>, n: nat): map<int, nat>
    requires n <= |rows|
  {
    if n == 0 then map[] else IdIndex(rows, n - 1)[rows[n - 1].id := n - 1]
  }

  /** No row after position j and before n carries the ID of row j. */
  predicate LastWithId(rows: seq<CategoryRow>, j: int, n: int)
    requires 0 <= j < n <= |rows|
  {
    forall l :: j < l < n ==> rows[l].id != rows[j].id
  }

  /** The categories among the first n whose parent is `rootParent`, in order. */
  function RootsOf(cats: seq<Category>, rows: seq<CategoryRow>, rootParent: int, n: nat): seq<Category>
    requires |rows| == |cats| && n <= |cats|
  {
    if n == 0 then []
    else RootsOf(cats, rows, rootParent, n - 1) + (if rows[n - 1].parentID == rootParent then [cats[n - 1]] else [])
  }

  /** The categories among the first n that are not roots and name `id` as
      their parent, in order. */
  function ChildrenOf(cats: seq<Category>, rows: seq<CategoryRow>, rootParent: int, id: int, n: nat): seq<Category>
    requires |rows| == |cats| && n <= |cats|
  {
    if n == 0 then []
    else ChildrenOf(cats, rows, rootParent, id, n - 1)
         + (if rows[n - 1].parentID != rootParent && rows[n - 1].parentID == id then [cats[n - 1]] else [])
  }

  /** The children list category j ends with: the categories naming its ID
      if it is the last category with that ID, and nothing otherwise. */
  function ChildrenAfter(cats: seq<Category>, rows: seq<CategoryRow>, rootParent: int, j: int): seq<Category>
    requires |rows| == |cats| && 0 <= j < |cats|
  {
    if LastWithId(rows, j, |rows|) then ChildrenOf(cats, rows, rootParent, rows[j].id, |cats|) else []
  }

  /** What the map of the first loop holds: every ID of the first n rows,
      mapped to a row carrying it, which is the last such row. */
  lemma IdIndexFacts(rows: seq<CategoryRow>, n: nat)
    requires n <= |rows|
    ensures forall j :: 0 <= j < n ==> rows[j].id in IdIndex(rows, n)
    ensures forall k :: k in IdIndex(rows, n) ==> IdIndex(rows, n)[k] < n && rows[IdIndex(rows, n)[k]].id == k
    ensures forall j :: 0 <= j < n ==> (IdIndex(rows, n)[rows[j].id] == j <==> LastWithId(rows, j, n))
  {
    IdIndexDomain(rows, n);
    IdIndexLast(rows, n);
  }

  lemma {:induction false} IdIndexDomain(rows: seq<CategoryRow>, n: nat)
    requires n <= |rows|
    ensures forall j :: 0 <= j < n ==> rows[j].id in IdIndex(rows, n)
    ensures forall k :: k in IdIndex(rows, n) ==> IdIndex(rows, n)[k] < n && rows[IdIndex(rows, n)[k]].id == k
  {
    if n > 0 {
      IdIndexDomain(rows, n - 1);
    }
  }

  lemma {:induction false} IdIndexLast(rows: seq<CategoryRow>, n: nat)
    requires n <= |rows|
    ensures forall j :: 0 <= j < n ==>
      (rows[j].id in IdIndex(rows, n) && (IdIndex(rows, n)[rows[j].id] == j <==> LastWithId(rows, j, n)))
  {
    IdIndexDomain(rows, n);
    if n > 0 {
      IdIndexLast(rows, n - 1);
      var m := IdIndex(rows, n);
      assert m == IdIndex(rows, n - 1)[rows[n - 1].id := n - 1];
      forall j | 0 <= j < n
        ensures m[rows[j].id] == j <==> LastWithId(rows, j, n)
      {
        if j < n - 1 && rows[j].id != rows[n - 1].id {
          assert m[rows[j].id] == IdIndex(rows, n - 1)[rows[j].id];
          assert LastWithId(rows, j, n) <==> LastWithId(rows, j, n - 1);
        }
      }
    }
  }

  /** The map the first loop builds, as a map from IDs to positions. */
  ghost predicate Indexed(cats: seq<Category>, rows: seq<CategoryRow>, categoryMap: map<int, Category>, at: map<int, nat>)
    requires |rows| == |cats|
  {
    (forall k :: k in categoryMap <==> k in at)
    && (forall k :: k in at ==> at[k] < |cats| && categoryMap[k] == cats[at[k]] && rows[at[k]].id == k)
    && (forall j :: 0 <= j < |cats| ==> rows[j].id in at)
  }

  /** Every category's children are those among the first n categories that
      name its ID, when it is the category its ID maps to. */
  ghost predicate Linked(cats: seq<Category>, rows: seq<CategoryRow>, at: map<int, nat>, rootParent: int, n: nat)
    requires |rows| == |cats| && n <= |cats|
    requires forall j :: 0 <= j < |cats| ==> rows[j].id in at
    reads cats
  {
    forall j :: 0 <= j < |cats| ==>
      cats[j].children == (if at[rows[j].id] == j then ChildrenOf(cats, rows, rootParent, rows[j].id, n) else [])
  }

  /** The tree of `cats` whose roots are the categories with parent
      `rootParent`: the loops of buildCategoryTree, which resets every
      category's children, maps IDs to categories, and then appends each
      category either to the roots or to the children of the category its
      parent ID maps to, skipping it when no category has that ID. */
  method BuildForest(cats: seq<Category>, rootParent: int) returns (roots: seq<Category>)
    requires Distinct(cats)
    modifies set c | c in cats
    ensures Rows(cats) == old(Rows(cats))
    ensures roots == RootsOf(cats, Rows(cats), rootParent, |cats|)
    ensures forall j :: 0 <= j < |cats| ==> cats[j].children == ChildrenAfter(cats, Rows(cats), rootParent, j)
  {
    ghost var rows := Rows(cats);
    var categoryMap, at := MapCategories(cats, rows);
    roots := LinkCategories(cats, rows, categoryMap, at, rootParent);
    assert Rows(cats) == rows;
    IdIndexFacts(rows, |cats|);
    forall j | 0 <= j < |cats|
      ensures cats[j].children == ChildrenAfter(cats, rows, rootParent, j)
    {
      assert at[rows[j].id] == j <==> LastWithId(rows, j, |rows|);
    }
  }

  /** The state the second loop keeps after placing the first n categories:
      the rows unchanged, the roots those among them with parent
      `rootParent`, and every mapped category holding its children so far. */
  ghost predicate Linking(cats: seq<Category>, rows: seq<CategoryRow>, categoryMap: map<int, Category>,
                          at: map<int, nat>, rootParent: int, n: nat, roots: seq<Category>)
    reads cats
  {
    |rows| == |cats| && n <= |cats| && Distinct(cats)
    && Indexed(cats, rows, categoryMap, at)
    && (forall j :: 0 <= j < |cats| ==> cats[j].Row() == rows[j])
    && roots == RootsOf(cats, rows, rootParent, n)
    && Linked(cats, rows, at, rootParent, n)
  }

  /** The second loop, over the categories in input order. */
  method LinkCategories(cats: seq<Category>, ghost rows: seq<CategoryRow>, categoryMap: map<int, Category>,
                        ghost at: map<int, nat>, rootParent: int)
    returns (roots: seq<Category>)
    requires |rows| == |cats| && Distinct(cats)
    requires Indexed(cats, rows, categoryMap, at)
    requires forall j :: 0 <= j < |cats| ==> cats[j].Row() == rows[j] && cats[j].children == []
    modifies set c | c in cats
    ensures forall j :: 0 <= j < |cats| ==> cats[j].Row() == rows[j]
    ensures roots == RootsOf(cats, rows, rootParent, |cats|)
    ensures Linked(cats, rows, at, rootParent, |cats|)
  {
    roots := [];
    var i := 0;
    assert Linked(cats, rows, at, rootParent, 0) by {
      forall j | 0 <= j < |cats|
        ensures cats[j].children == (if at[rows[j].id] == j then ChildrenOf(cats, rows, rootParent, rows[j].id, 0) else [])
      {
        assert cats[j].children == [];
      }
    }
    while i < |cats|
      invariant Linking(cats, rows, categoryMap, at, rootParent, i, roots)
    {
      roots := Place(cats, rows, categoryMap, at, rootParent, i, roots);
      i := i + 1;
    }
  }

  /** The first loop: each category's children are reset and its ID is
      mapped to it, a later category with the same ID replacing an earlier one. */
  method MapCategories(cats: seq<Category>, ghost rows: seq<CategoryRow>)
    returns (categoryMap: map<int, Category>, ghost at: map<int, nat>)
    requires |rows| == |cats| && forall j :: 0 <= j < |cats| ==> cats[j].Row() == rows[j]
    modifies set c | c in cats
    ensures forall j :: 0 <= j < |cats| ==> cats[j].Row() == rows[j] && cats[j].children == []
    ensures at == IdIndex(rows, |cats|)
    ensures Indexed(cats, rows, categoryMap, at)
  {
    categoryMap := map[];
    at := map[];
    var i := 0;
    while i < |cats|
      invariant 0 <= i <= |cats|
      invariant forall j :: 0 <= j < |cats| ==> cats[j].Row() == rows[j]
      invariant at == IdIndex(rows, i)
      invariant forall k :: k in categoryMap <==> k in at
      invariant forall k :: k in at ==> at[k] < i && categoryMap[k] == cats[at[k]]
      invariant forall j :: 0 <= j < i ==> cats[j].children == []
    {
      var category := cats[i];
      categoryMap := categoryMap[category.id := category];
      at := at[category.id := i];
      ClearChildren(category);
      i := i + 1;
    }
    IdIndexFacts(rows, |cats|);
  }


  /** One step of the second loop: category i joins the roots, joins the
      children of the category its parent ID maps to, or is skipped. */
  method Place(cats: seq<Category>, ghost rows: seq<CategoryRow>, categoryMap: map<int, Category>,
               ghost at: map<int, nat>, rootParent: int, i: nat, roots: seq<Category>)
    returns (roots': seq<Category>)
    requires i < |cats| && Linking(cats, rows, categoryMap, at, rootParent, i, roots)
    modifies set c | c in cats
    ensures Linking(cats, rows, categoryMap, at, rootParent, i + 1, roots')
    ensures roots' == roots + (if rows[i].parentID == rootParent then [cats[i]] else [])
  {
    var category := cats[i];
    roots' := roots;
    if category.parentID == rootParent {
      roots' := roots + [category];
    } else if category.parentID in categoryMap {
      AttachChild(cats, rows, categoryMap, at, rootParent, i, roots);
      return;
    }
    forall j | 0 <= j < |cats|
      ensures cats[j].children == (if at[rows[j].id] == j then ChildrenOf(cats, rows, rootParent, rows[j].id, i + 1) else [])
    {
      assert ChildrenOf(cats, rows, rootParent, rows[j].id, i + 1) == ChildrenOf(cats, rows, rootParent, rows[j].id, i);
    }
  }

  /** The middle branch of one step of the second loop: category i is not a
      root and its parent ID maps to a category, which gains it as a child. */
  method AttachChild(cats: seq<Category>, ghost rows: seq<CategoryRow>, categoryMap: map<int, Category>,
                     ghost at: map<int, nat>, rootParent: int, i: nat, roots: seq<Category>)
    requires i < |cats| && Linking(cats, rows, categoryMap, at, rootParent, i, roots)
    requires rows[i].parentID != rootParent && rows[i].parentID in categoryMap
    modifies set c | c in cats
    ensures Linking(cats, rows, categoryMap, at, rootParent, i + 1, roots)
  {
    var category := cats[i];
    ghost var q := at[category.parentID];
    var parent := categoryMap[category.parentID];
    assert parent == cats[q];
    AddChild(parent, category);
    forall j | 0 <= j < |cats|
      ensures cats[j].children == (if at[rows[j].id] == j then ChildrenOf(cats, rows, rootParent, rows[j].id, i + 1) else [])
    {
      if j != q {
        assert cats[j].children == old(cats[j].children);
      }
    }
  }

  /** Resets a category's children to the empty list and changes nothing else. */
  method ClearChildren(c: Category)
    modifies c
    ensures c.children == [] && c.Row() == old(c.Row())
  {
    c.children := [];
  }

  /** Appends one child to a category's children and changes nothing else. */
  method AddChild(parent: Category, child: Category)
    modifies parent
    ensures parent.children == old(parent.children) + [child]
    ensures parent.Row() == old(parent.Row())
  {
    parent.children := parent.children + [child];
  }

  /** buildCategoryTree: the forest rooted at parent ID 0. */
  method BuildCategoryTree(cats: seq<Category>) returns (roots: seq<Category>)
    requires Distinct(cats)
    modifies set c | c in cats
    ensures Rows(cats) == old(Rows(cats))
    ensures roots == RootsOf(cats, Rows(cats), 0, |cats|)
    ensures forall j :: 0 <= j < |cats| ==> cats[j].children == ChildrenAfter(cats, Rows(cats), 0, j)
  {
    roots := BuildForest(cats, 0);
  }

  /** The roots are exactly the categories whose parent is the root parent,
      in input order. */
  lemma {:induction false} RootsOfFilter(cats: seq<Category>, rows: seq<CategoryRow>, rootParent: int, n: nat)
    requires |rows| == |cats| && n <= |cats|
    ensures |RootsOf(cats, rows, rootParent, n)| <= n
    ensures forall c :: c in RootsOf(cats, rows, rootParent, n) <==>
      exists j :: 0 <= j < n && cats[j] == c && rows[j].parentID == rootParent
  {
    if n > 0 {
      RootsOfFilter(cats, rows, rootParent, n - 1);
    }
  }

  /** A child list holds exactly the non-root categories that name the ID as parent. */
  lemma {:induction false} ChildrenOfFilter(cats: seq<Category>, rows: seq<CategoryRow>, rootParent: int, id: int, n: nat)
    requires |rows| == |cats| && n <= |cats|
    ensures |ChildrenOf(cats, rows, rootParent, id, n)| <= n
    ensures forall c :: c in ChildrenOf(cats, rows, rootParent, id, n) <==>
      exists j :: 0 <= j < n && cats[j] == c && rows[j].parentID == id && id != rootParent
  {
    if n > 0 {
      ChildrenOfFilter(cats, rows, rootParent, id, n - 1);
    }
  }

  predicate UniqueIds(rows: seq<CategoryRow>)
  {
    forall i, j :: 0 <= i < j < |rows| ==> rows[i].id != rows[j].id
  }

  /** With unique IDs every category ends with exactly the categories that
      name it as parent, in input order. */
  lemma UniqueIdsChildren(cats: seq<Category>, rows: seq<CategoryRow>, rootParent: int)
    requires |rows| == |cats| && UniqueIds(rows)
    ensures forall j :: 0 <= j < |cats| ==>
      ChildrenAfter(cats, rows, rootParent, j) == ChildrenOf(cats, rows, rootParent, rows[j].id, |cats|)
  {
  }

  /** A category whose parent ID is neither the root parent nor the ID of
      any category in the list is in no child list and is not a root. */
  lemma OrphanDropped(cats: seq<Category>, rows: seq<CategoryRow>, rootParent: int, j: int)
    requires |rows| == |cats| && 0 <= j < |cats| && Distinct(cats)
    requires rows[j].parentID != rootParent
    requires forall k :: 0 <= k < |rows| ==> rows[k].id != rows[j].parentID
    ensures cats[j] !in RootsOf(cats, rows, rootParent, |cats|)
    ensures forall k :: 0 <= k < |cats| ==> cats[j] !in ChildrenAfter(cats, rows, rootParent, k)
  {
    RootsOfFilter(cats, rows, rootParent, |cats|);
    forall k | 0 <= k < |cats|
      ensures cats[j] !in ChildrenOf(cats, rows, rootParent, rows[k].id, |cats|)
    {
      ChildrenOfFilter(cats, rows, rootParent, rows[k].id, |cats|);
    }
  }

  // ---------------------------------------------------------------------
  // GetCategoriesList

  datatype ListCategoriesRequest = ListCategoriesRequest(kind: string, parentID: int, includeCount: bool)

  /** The repository query a listing runs. */
  datatype CategoryQuery = ByParent(parentID: int) | ByType(kind: string, userID: int, includeCount: bool)

  /** The query GetCategoriesList chooses: the children of a positive parent
      ID, or otherwise the categories of the type, which defaults to "all". */
  function CategoriesQuery(userID: int, req: ListCategoriesRequest): (r: Result<CategoryQuery>)
    ensures userID <= 0 <==> r.Err?
    ensures r.Err? ==> r.error.code == Param
    ensures r.Ok? && req.parentID > 0 ==> r.value == ByParent(req.parentID)
    ensures r.Ok? && req.parentID <= 0 ==>
      r.value.ByType? && r.value.userID == userID && r.value.includeCount == req.includeCount
      && (req.kind == "" ==> r.value.kind == "all") && (req.kind != "" ==> r.value.kind == req.kind)
  {
    if userID <= 0 then Fail(Param, "invalid user ID")
    else if req.parentID > 0 then Ok(ByParent(req.parentID))
    else Ok(ByType(if req.kind == "" then "all" else req.kind, userID, req.includeCount))
  }

  /** GetCategoriesList; `queryFailed` is whether the chosen query reported
      a database error, and `fetched` is what it returned otherwise. The
      result is the tree rooted at parent ID 0. */
  method GetCategoriesList(userID: int, req: ListCategoriesRequest, queryFailed: bool, fetched: seq<Category>)
    returns (r: Result<seq<Category>>)
    requires Distinct(fetched)
    modifies set c | c in fetched
    ensures Rows(fetched) == old(Rows(fetched))
    ensures CategoriesQuery(userID, req).Err? ==> r == Err(CategoriesQuery(userID, req).error)
    ensures CategoriesQuery(userID, req).Ok? && queryFailed ==> r.Err? && r.error.code == Server
    ensures r.Err? ==> forall j :: 0 <= j < |fetched| ==> fetched[j].children == old(fetched[j].children)
    ensures CategoriesQuery(userID, req).Ok? && !queryFailed ==>
      r == Ok(RootsOf(fetched, Rows(fetched), 0, |fetched|))
      && forall j :: 0 <= j < |fetched| ==> fetched[j].children == ChildrenAfter(fetched, Rows(fetched), 0, j)
  {
    var query := CategoriesQuery(userID, req);
    if query.Err? {
      return Err(query.error);
    }
    if queryFailed {
      return Fail(Server, "failed to list the categories");
    }
    var roots := BuildCategoryTree(fetched);
    return Ok(roots);
  }

  /** The children query answers with categories whose parent is the
      requested positive ID, so none of them has parent 0 and the listing of
      a parent's children is always empty. */
  lemma {:induction false} ChildListingIsEmpty(fetched: seq<Category>, rows: seq<CategoryRow>, p: int, n: nat)
    requires |rows| == |fetched| && n <= |fetched| && p > 0
    requires forall j :: 0 <= j < |rows| ==> rows[j].parentID == p
    ensures RootsOf(fetched, rows, 0, n) == []
  {
    if n > 0 {
      ChildListingIsEmpty(fetched, rows, p, n - 1);
    }
  }

  /** GetCategoriesList as evidently intended: the children of a requested
      parent are the roots of the tree rooted at that parent. */
  method GetCategoriesListRooted(userID: int, req: ListCategoriesRequest, queryFailed: bool, fetched: seq<Category>)
    returns (r: Result<seq<Category>>)
    requires Distinct(fetched)
    modifies set c | c in fetched
    ensures Rows(fetched) == old(Rows(fetched))
    ensures CategoriesQuery(userID, req).Err? ==> r == Err(CategoriesQuery(userID, req).error)
    ensures CategoriesQuery(userID, req).Ok? && queryFailed ==> r.Err? && r.error.code == Server
    ensures r.Err? ==> forall j :: 0 <= j < |fetched| ==> fetched[j].children == old(fetched[j].children)
    ensures CategoriesQuery(userID, req).Ok? && !queryFailed ==>
      var root := if req.parentID > 0 then req.parentID else 0;
      r == Ok(RootsOf(fetched, Rows(fetched), root, |fetched|))
      && forall j :: 0 <= j < |fetched| ==> fetched[j].children == ChildrenAfter(fetched, Rows(fetched), root, j)
  {
    var query := CategoriesQuery(userID, req);
    if query.Err? {
      return Err(query.error);
    }
    if queryFailed {
      return Fail(Server, "failed to list the categories");
    }
    var root := if query.value.ByParent? then query.value.parentID else 0;
    var roots := BuildForest(fetched, root);
    return Ok(roots);
  }

  /** Rooted at the requested parent, a listing of its children returns all
      of them, in the order the repository gave. */
  lemma {:induction false} ChildListingRooted(fetched: seq<Category>, rows: seq<CategoryRow>, p: int, n: nat)
    requires |rows| == |fetched| && n <= |fetched|
    requires forall j :: 0 <= j < |rows| ==> rows[j].parentID == p
    ensures RootsOf(fetched, rows, p, n) == fetched[..n]
  {
    if n > 0 {
      ChildListingRooted(fetched, rows, p, n - 1);
      assert fetched[..n - 1] + [fetched[n - 1]] == fetched[..n];
    }
  }

  // ---------------------------------------------------------------------
  // CreateCustomCategory

  datatype CreateCategoryRequest = CreateCategoryRequest(
    name: string,
    description: string,
    parentID: int,
    icon: string,
    color: string,
    sortOrder: int)

  /** A parent a custom category may hang under: a system category or one of the caller's own. */
  predicate UsableParent(parent: CategoryRow, userID: int)
  {
    !(parent.kind == "custom" && parent.userID != userID)
  }

  /** CreateCustomCategory. `nameTaken` is whether the caller already has a
      category of that name; `parent` is the category the parent ID looks up;
      `insertFailed` is whether the insert reported a database error, and
      `newID` is the ID the insert writes back into the category. */
  function CreateCustomCategory(userID: int, req: CreateCategoryRequest, nameTaken: Result<bool>,
                                parent: Result<Option<CategoryRow>>, insertFailed: bool, newID: int)
    : (r: Result<CategoryRow>)
    ensures r.Ok? <==> userID > 0 && req.name != "" && nameTaken == Ok(false)
                       && (req.parentID > 0 ==> parent.Ok? && parent.value.Some? && UsableParent(parent.value.value, userID))
                       && !insertFailed
    ensures userID <= 0 || req.name == "" ==> r.Err? && r.error.code == Param
    ensures userID > 0 && req.name != "" && nameTaken.Err? ==> r.Err? && r.error.code == Server
    ensures userID > 0 && req.name != "" && nameTaken == Ok(true) ==> r.Err? && r.error.code == Param
    ensures userID > 0 && req.name != "" && nameTaken == Ok(false) && req.parentID > 0 && parent.Err? ==>
      r.Err? && r.error.code == Server
    ensures userID > 0 && req.name != "" && nameTaken == Ok(false) && req.parentID > 0 && parent == Ok(None) ==>
      r.Err? && r.error.code == NotFound
    ensures (userID > 0 && req.name != "" && nameTaken == Ok(false) && req.parentID > 0 && parent.Ok?
            && parent.value.Some? && !UsableParent(parent.value.value, userID)) ==> r.Err? && r.error.code == Forbidden
    ensures (userID > 0 && req.name != "" && nameTaken == Ok(false)
            && (req.parentID > 0 ==> parent.Ok? && parent.value.Some? && UsableParent(parent.value.value, userID))
            && insertFailed) ==> r.Err? && r.error.code == Server
    ensures r.Ok? ==> (r.value.id == newID && r.value.deviceCount == 0
      && r.value.kind == "custom" && r.value.userID == userID && r.value.isActive
      && r.value.name == req.name && r.value.description == req.description
      && r.value.parentID == req.parentID && r.value.icon == req.icon
      && r.value.color == req.color && r.value.sortOrder == req.sortOrder)
  {
    if userID <= 0 then Fail(Param, "invalid user ID")
    else if req.name == "" then Fail(Param, "category name must not be empty")
    else if nameTaken.Err? then Fail(Server, "failed to check the category name")
    else if nameTaken.value then Fail(Param, "category name already exists")
    else if req.parentID > 0 && parent.Err? then Fail(Server, "failed to check the parent category")
    else if req.parentID > 0 && parent.value.None? then Fail(NotFound, "parent category not found")
    else if req.parentID > 0 && parent.value.value.kind == "custom" && parent.value.value.userID != userID then
      Fail(Forbidden, "no permission to use this parent category")
    else if insertFailed then Fail(Server, "failed to create the category")
    else
      Ok(CategoryRow(newID, req.name, req.description, req.parentID, req.icon, req.color, req.sortOrder,
                     "custom", userID, true, 0))
  }

  // ---------------------------------------------------------------------
  // UpdateCustomCategory

  datatype UpdateCategoryRequest = UpdateCategoryRequest(
    name: string,
    description: string,
    parentID: int,
    icon: string,
    color: string,
    sortOrder: int)

  /** A category the caller may change: one of the caller's own custom categories. */
  predicate OwnCustom(row: CategoryRow, userID: int)
  {
    row.kind == "custom" && row.userID == userID
  }

  /** The merge of UpdateCustomCategory: strings change when non-empty, the
      parent and the sort order when positive. */
  function MergeCategory(row: CategoryRow, req: UpdateCategoryRequest): CategoryRow
  {
    row.(name := if req.name != "" then req.name else row.name,
         description := if req.description != "" then req.description else row.description,
         parentID := if req.parentID > 0 then req.parentID else row.parentID,
         icon := if req.icon != "" then req.icon else row.icon,
         color := if req.color != "" then req.color else row.color,
         sortOrder := if req.sortOrder > 0 then req.sortOrder else row.sortOrder)
  }

  /** The merge never changes who owns a category, its type, ID or state. */
  lemma MergeCategoryKeepsOwnership(row: CategoryRow, req: UpdateCategoryRequest)
    ensures var m := MergeCategory(row, req);
      m.id == row.id && m.kind == row.kind && m.userID == row.userID && m.isActive == row.isActive
      && (req.sortOrder <= 0 ==> m.sortOrder == row.sortOrder)
      && MergeCategory(m, req) == m
  {
  }

  /** UpdateCustomCategory on the fields of a loaded category, step by step
      as the source assigns them. `nameTaken` is whether another category of
      the caller has the new name, `parentExists` whether the new parent ID
      names a category, and `saveFailed` whether the write reported a
      database error. The new parent's owner is not looked at. */
  function CategoryUpdate(userID: int, categoryID: int, row: CategoryRow, req: UpdateCategoryRequest,
                          nameTaken: Result<bool>, parentExists: Result<bool>, saveFailed: bool): Outcome<CategoryRow>
  {
    if userID <= 0 || categoryID <= 0 then Outcome(Fail(Param, "invalid parameters"), row)
    else if !OwnCustom(row, userID) then Outcome(Fail(Forbidden, "no permission to change this category"), row)
    else if req.name != "" && nameTaken.Err? then Outcome(Fail(Server, "failed to check the category name"), row)
    else if req.name != "" && nameTaken.value then Outcome(Fail(Param, "category name already exists"), row)
    else
      var named := row.(name := if req.name != "" then req.name else row.name,
                        description := if req.description != "" then req.description else row.description);
      ReparentAndSave(categoryID, named, req, parentExists, saveFailed)
  }

  /** The part of CategoryUpdate after the name and description are
      assigned: the parent checks, the remaining fields and the write. */
  function ReparentAndSave(categoryID: int, named: CategoryRow, req: UpdateCategoryRequest,
                           parentExists: Result<bool>, saveFailed: bool): Outcome<CategoryRow>
  {
    if req.parentID > 0 && parentExists.Err? then Outcome(Fail(Server, "failed to check the parent category"), named)
    else if req.parentID > 0 && !parentExists.value then Outcome(Fail(NotFound, "parent category not found"), named)
    else if req.parentID > 0 && req.parentID == categoryID then
      Outcome(Fail(Param, "a category cannot be its own parent"), named)
    else
      var updated := named.(parentID := if req.parentID > 0 then req.parentID else named.parentID,
                            icon := if req.icon != "" then req.icon else named.icon,
                            color := if req.color != "" then req.color else named.color,
                            sortOrder := if req.sortOrder > 0 then req.sortOrder else named.sortOrder);
      if saveFailed then Outcome(Fail(Server, "failed to update the category"), updated)
      else Outcome(Ok(updated), updated)
  }

  /** The checks of UpdateCustomCategory that come before any field is
      assigned pass: positive IDs, the caller's own custom category, and a
      new name that is free. */
  predicate MayRename(userID: int, categoryID: int, row: CategoryRow, req: UpdateCategoryRequest, nameTaken: Result<bool>)
  {
    userID > 0 && categoryID > 0 && OwnCustom(row, userID) && (req.name != "" ==> nameTaken == Ok(false))
  }

  /** The cases of UpdateCustomCategory: bad IDs, a category of someone else
      or of the system, a failed name check and a taken name change nothing;
      a failed parent check, a missing parent and a category made its own
      parent keep the new name and description; a failed write keeps the
      whole merge; an update that passes every check stores and returns the
      merge. */
  lemma CategoryUpdateCases(userID: int, categoryID: int, row: CategoryRow, req: UpdateCategoryRequest,
                            nameTaken: Result<bool>, parentExists: Result<bool>, saveFailed: bool)
    ensures var o := CategoryUpdate(userID, categoryID, row, req, nameTaken, parentExists, saveFailed);
      var merged := MergeCategory(row, req);
      var partial := row.(name := merged.name, description := merged.description);
      && (userID <= 0 || categoryID <= 0 ==> o.result.Err? && o.result.error.code == Param && o.state == row)
      && (userID > 0 && categoryID > 0 && !OwnCustom(row, userID) ==>
            o.result.Err? && o.result.error.code == Forbidden && o.state == row)
      && (userID > 0 && categoryID > 0 && OwnCustom(row, userID) && req.name != "" && nameTaken.Err? ==>
            o.result.Err? && o.result.error.code == Server && o.state == row)
      && (userID > 0 && categoryID > 0 && OwnCustom(row, userID) && req.name != "" && nameTaken == Ok(true) ==>
            o.result.Err? && o.result.error.code == Param && o.state == row)
      && (MayRename(userID, categoryID, row, req, nameTaken) && req.parentID > 0 && parentExists.Err? ==>
            o.result.Err? && o.result.error.code == Server && o.state == partial)
      && (MayRename(userID, categoryID, row, req, nameTaken) && req.parentID > 0 && parentExists == Ok(false) ==>
            o.result.Err? && o.result.error.code == NotFound && o.state == partial)
      && (MayRename(userID, categoryID, row, req, nameTaken) && req.parentID > 0 && parentExists == Ok(true)
          && req.parentID == categoryID ==>
            o.result.Err? && o.result.error.code == Param && o.state == partial)
      && ((MayRename(userID, categoryID, row, req, nameTaken)
           && (req.parentID > 0 ==> parentExists == Ok(true) && req.parentID != categoryID)) ==> o.state == merged)
      && ((MayRename(userID, categoryID, row, req, nameTaken)
           && (req.parentID > 0 ==> parentExists == Ok(true) && req.parentID != categoryID) && saveFailed) ==>
            o.result.Err? && o.result.error.code == Server)
      && (o.result.Ok? <==> MayRename(userID, categoryID, row, req, nameTaken)
                            && (req.parentID > 0 ==> parentExists == Ok(true) && req.parentID != categoryID)
                            && !saveFailed)
      && (o.result.Ok? ==> o.state == merged && o.result.value == merged && OwnCustom(o.state, userID))
  {
    if MayRename(userID, categoryID, row, req, nameTaken) {
      var merged := MergeCategory(row, req);
      var partial := row.(name := merged.name, description := merged.description);
      ReparentAndSaveCases(categoryID, partial, req, parentExists, saveFailed);
      assert MergeCategory(partial, req) == merged;
    }
  }

  /** The cases of the part after renaming, on the renamed row. */
  lemma ReparentAndSaveCases(categoryID: int, named: CategoryRow, req: UpdateCategoryRequest,
                             parentExists: Result<bool>, saveFailed: bool)
    ensures var o := ReparentAndSave(categoryID, named, req, parentExists, saveFailed);
      var passes := req.parentID > 0 ==> parentExists == Ok(true) && req.parentID != categoryID;
      && (req.parentID > 0 && parentExists.Err? ==> o.result.Err? && o.result.error.code == Server && o.state == named)
      && (req.parentID > 0 && parentExists == Ok(false) ==>
            o.result.Err? && o.result.error.code == NotFound && o.state == named)
      && (req.parentID > 0 && parentExists == Ok(true) && req.parentID == categoryID ==>
            o.result.Err? && o.result.error.code == Param && o.state == named)
      && (passes ==> o.state == MergeCategory(named, req).(name := named.name, description := named.description))
      && (passes && saveFailed ==> o.result.Err? && o.result.error.code == Server)
      && (o.result.Ok? <==> passes && !saveFailed)
      && (o.result.Ok? ==> o.result.value == o.state)
  {
  }

  /** UpdateCustomCategory on what the lookup returned: a database error when
      `loadFailed`, otherwise the category object (null when none). The
      fields are assigned in the order of the source, so a failing later
      check or write leaves the earlier assignments on the object,
      unpersisted. */
  method UpdateCustomCategory(userID: int, categoryID: int, loadFailed: bool, c: Category?, req: UpdateCategoryRequest,
                              nameTaken: Result<bool>, parentExists: Result<bool>, saveFailed: bool)
    returns (r: Result<CategoryRow>)
    modifies c
    ensures c == null || loadFailed ==>
      r.Err? && r.error.code == (if userID <= 0 || categoryID <= 0 then Param else if loadFailed then Server else NotFound)
    ensures c != null && loadFailed ==> c.Row() == old(c.Row())
    ensures c != null && !loadFailed ==>
      var o := CategoryUpdate(userID, categoryID, old(c.Row()), req, nameTaken, parentExists, saveFailed);
      r == o.result && c.Row() == o.state
  {
    if userID <= 0 || categoryID <= 0 {
      return Fail(Param, "invalid parameters");
    }
    if loadFailed {
      return Fail(Server, "failed to load the category");
    }
    if c == null {
      return Fail(NotFound, "category not found");
    }
    if c.kind != "custom" || c.userID != userID {
      return Fail(Forbidden, "no permission to change this category");
    }
    if req.name != "" {
      if nameTaken.Err? {
        return Fail(Server, "failed to check the category name");
      }
      if nameTaken.value {
        return Fail(Param, "category name already exists");
      }
    }
    SetNameAndDescription(c, req);
    r := ReparentAndSaveCategory(c, categoryID, req, parentExists, saveFailed);
  }

  /** The rest of UpdateCustomCategory once the name and description are on
      the object. */
  method ReparentAndSaveCategory(c: Category, categoryID: int, req: UpdateCategoryRequest,
                                 parentExists: Result<bool>, saveFailed: bool) returns (r: Result<CategoryRow>)
    modifies c
    ensures var o := ReparentAndSave(categoryID, old(c.Row()), req, parentExists, saveFailed);
      r == o.result && c.Row() == o.state
  {
    if req.parentID > 0 {
      if parentExists.Err? {
        return Fail(Server, "failed to check the parent category");
      }
      if !parentExists.value {
        return Fail(NotFound, "parent category not found");
      }
      if req.parentID == categoryID {
        return Fail(Param, "a category cannot be its own parent");
      }
      c.parentID := req.parentID;
    }
    SetLooks(c, req);
    if saveFailed {
      return Fail(Server, "failed to update the category");
    }
    return Ok(c.Row());
  }

  /** The name and the description change when the request carries them. */
  method SetNameAndDescription(c: Category, req: UpdateCategoryRequest)
    modifies c
    ensures c.Row() == old(c.Row()).(name := if req.name != "" then req.name else old(c.name),
                                     description := if req.description != "" then req.description else old(c.description))
  {
    if req.name != "" {
      c.name := req.name;
    }
    if req.description != "" {
      c.description := req.description;
    }
  }

  /** The icon, colour and sort order change when the request carries them. */
  method SetLooks(c: Category, req: UpdateCategoryRequest)
    modifies c
    ensures c.Row() == old(c.Row()).(icon := if req.icon != "" then req.icon else old(c.icon),
                                     color := if req.color != "" then req.color else old(c.color),
                                     sortOrder := if req.sortOrder > 0 then req.sortOrder else old(c.sortOrder))
  {
    if req.icon != "" {
      c.icon := req.icon;
    }
    if req.color != "" {
      c.color := req.color;
    }
    if req.sortOrder > 0 {
      c.sortOrder := req.sortOrder;
    }
  }

  // ---------------------------------------------------------------------
  // DeleteCustomCategory

  /** DeleteCustomCategory: `category` is the lookup result, `deviceCount`
      the devices of the caller in it, `childCount` the number of child
      categories the children query returned, and `deleteFailed` whether the
      delete reported a database error. The checks run in order and the
      category is deleted only when all pass. */
  function DeleteCustomCategory(userID: int, categoryID: int, category: Result<Option<CategoryRow>>,
                                deviceCount: Result<nat>, childCount: Result<nat>, deleteFailed: bool): (r: Result<Unit>)
    ensures r.Ok? <==> userID > 0 && categoryID > 0 && category.Ok? && category.value.Some?
                       && OwnCustom(category.value.value, userID) && deviceCount == Ok(0) && childCount == Ok(0)
                       && !deleteFailed
    ensures userID <= 0 || categoryID <= 0 ==> r.Err? && r.error.code == Param
    ensures userID > 0 && categoryID > 0 && category.Err? ==> r.Err? && r.error.code == Server
    ensures userID > 0 && categoryID > 0 && category == Ok(None) ==> r.Err? && r.error.code == NotFound
    ensures (userID > 0 && categoryID > 0 && category.Ok? && category.value.Some?
             && !OwnCustom(category.value.value, userID)) ==> r.Err? && r.error.code == Forbidden
    ensures (userID > 0 && categoryID > 0 && category.Ok? && category.value.Some?
             && OwnCustom(category.value.value, userID)) ==>
      && (deviceCount.Err? ==> r.Err? && r.error.code == Server)
      && (deviceCount.Ok? && deviceCount.value > 0 ==> r == Fail(Business, "the category still has devices"))
      && (deviceCount == Ok(0) && childCount.Err? ==> r.Err? && r.error.code == Server)
      && (deviceCount == Ok(0) && childCount.Ok? && childCount.value > 0 ==> r.Err? && r.error.code == Business)
      && (deviceCount == Ok(0) && childCount == Ok(0) && deleteFailed ==> r.Err? && r.error.code == Server)
  {
    if userID <= 0 || categoryID <= 0 then Fail(Param, "invalid parameters")
    else if category.Err? then Fail(Server, "failed to load the category")
    else if category.value.None? then Fail(NotFound, "category not found")
    else if category.value.value.kind != "custom" || category.value.value.userID != userID then
      Fail(Forbidden, "no permission to delete this category")
    else if deviceCount.Err? then Fail(Server, "failed to check the category's devices")
    else if deviceCount.value > 0 then Fail(Business, "the category still has devices")
    else if childCount.Err? then Fail(Server, "failed to check the child categories")
    else if childCount.value > 0 then Fail(Business, "the category still has child categories")
    else if deleteFailed then Fail(Server, "failed to delete the category")
    else Ok(Unit)
  }

  // ---------------------------------------------------------------------
  // SortCategories

  datatype CategoryOrderItem = CategoryOrderItem(categoryID: int, sortOrder: int)

  /** SortCategories: the order items converted, one by one, into the maps
      the repository takes; `saveFailed` is whether the repository's write
      reported a database error. The answer carries the maps that were
      written. */
  method SortCategories(userID: int, orders: seq<CategoryOrderItem>, saveFailed: bool)
    returns (r: Result<seq<map<string, int>>>)
    ensures userID <= 0 ==> r.Err? && r.error.code == Param
    ensures userID > 0 && orders == [] ==> r.Err? && r.error.code == Param
    ensures userID > 0 && orders != [] && saveFailed ==> r.Err? && r.error.code == Server
    ensures r.Ok? <==> userID > 0 && orders != [] && !saveFailed
    ensures r.Ok? ==> |r.value| == |orders| && forall i :: 0 <= i < |orders| ==>
      r.value[i].Keys == {"category_id", "sort_order"}
      && r.value[i]["category_id"] == orders[i].categoryID && r.value[i]["sort_order"] == orders[i].sortOrder
  {
    if userID <= 0 {
      return Fail(Param, "invalid user ID");
    }
    if |orders| == 0 {
      return Fail(Param, "the sort data must not be empty");
    }
    var categoryOrders: seq<map<string, int>> := [];
    var i := 0;
    while i < |orders|
      invariant 0 <= i <= |orders| && |categoryOrders| == i
      invariant forall k :: 0 <= k < i ==>
        categoryOrders[k].Keys == {"category_id", "sort_order"}
        && categoryOrders[k]["category_id"] == orders[k].categoryID
        && categoryOrders[k]["sort_order"] == orders[k].sortOrder
    {
      var order := orders[i];
      categoryOrders := categoryOrders + [map["category_id" := order.categoryID, "sort_order" := order.sortOrder]];
      i := i + 1;
    }
    if saveFailed {
      return Fail(Server, "failed to update the category order");
    }
    return Ok(categoryOrders);
  }
}
