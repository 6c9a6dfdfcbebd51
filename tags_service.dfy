/**
 * The rules of internal/tags/service/tags_service.go: who may create,
 * change and delete a tag and in which order the guards are checked, the
 * partial update, the list filters and defaults, and the per-category
 * counting of GetTagStatistics. The repository is an input: the tags table
 * as a list of rows, the tag a lookup finds, whether a tag is in use.
 */
module TagsService {
  import opened Common
  import opened TagModel

  /** TagInfo: the public fields of a tag, without its owner. */
  datatype TagInfo = TagInfo(
    id: int,
    name: string,
    description: string,
    category: string,
    color: string,
    icon: string,
    tagType: string,
    active: bool,
    usageCount: int,
    createdAt: int,
    updatedAt: int)

  function ToInfo(t: TagRow): TagInfo
  {
    TagInfo(t.id, t.name, t.description, t.category, t.color, t.icon, t.tagType, t.active, t.usageCount, t.createdAt, t.updatedAt)
  }

  /** ListTagsResponse. */
  datatype ListResponse = ListResponse(tags: seq<TagInfo>, total: int)

  /** The loop every list handler ends with: one info per tag in order,
      and the total is the number of tags. */
  method BuildList(tags: seq<TagRow>) returns (resp: ListResponse)
    ensures resp.total == |tags| == |resp.tags|
    ensures forall i :: 0 <= i < |tags| ==> resp.tags[i] == ToInfo(tags[i])
  {
    var infos: seq<TagInfo> := [];
    var i := 0;
    while i < |tags|
      invariant 0 <= i <= |tags|
      invariant |infos| == i
      invariant forall j :: 0 <= j < i ==> infos[j] == ToInfo(tags[j])
    {
      infos := infos + [ToInfo(tags[i])];
      i := i + 1;
    }
    resp := ListResponse(infos, |tags|);
  }

  // ---------------------------------------------------------------------
  // ListTags, GetPopularTags, SearchTags

  datatype ListTagsRequest = ListTagsRequest(tagType: string, category: string, active: Option<bool>)

  /** The filters ListTags passes on; an absent request filters nothing. */
  datatype TagFilter = TagFilter(tagType: Option<string>, category: Option<string>, active: Option<bool>)

  function ListFilter(req: Option<ListTagsRequest>): (f: TagFilter)
    ensures req.None? ==> f == TagFilter(None, None, None)
    ensures req.Some? ==> (f.tagType.Some? <==> req.value.tagType != "") && (f.category.Some? <==> req.value.category != "")
                          && f.active == req.value.active
    ensures f.tagType.Some? ==> f.tagType.value != "" && f.tagType == Some(req.value.tagType)
    ensures f.category.Some? ==> f.category.value != "" && f.category == Some(req.value.category)
  {
    match req
    case None => TagFilter(None, None, None)
    case Some(q) =>
      TagFilter(if q.tagType != "" then Some(q.tagType) else None,
                if q.category != "" then Some(q.category) else None,
                q.active)
  }

  datatype PopularRequest = PopularRequest(limit: int, category: string)

  /** The limit and category GetPopularTags queries with: 10 unless the
      request gives a positive limit, and no category without a request. */
  function PopularQuery(req: Option<PopularRequest>): (q: (int, string))
    ensures q.0 > 0
    ensures req.Some? && req.value.limit > 0 ==> q.0 == req.value.limit
    ensures (req.None? || req.value.limit <= 0) ==> q.0 == 10
    ensures q.1 == if req.Some? then req.value.category else ""
  {
    var limit := if req.Some? && req.value.limit > 0 then req.value.limit else 10;
    (limit, if req.Some? then req.value.category else "")
  }

  /** ListTags: the query runs with the request's filter, and its database
      error is reported as such. */
  method ListTags(req: Option<ListTagsRequest>, query: TagFilter -> Result<seq<TagRow>>) returns (r: Result<ListResponse>)
    ensures query(ListFilter(req)).Err? ==> r.Err? && r.error.code == Database
    ensures query(ListFilter(req)).Ok? ==>
      var found := query(ListFilter(req)).value;
      r.Ok? && r.value.total == |found| == |r.value.tags|
      && forall i :: 0 <= i < |found| ==> r.value.tags[i] == ToInfo(found[i])
  {
    var found := query(ListFilter(req));
    if found.Err? {
      return Fail(Database, "failed to list the tags");
    }
    var resp := BuildList(found.value);
    return Ok(resp);
  }

  /** GetPopularTags: the query runs with the limit and category of
      PopularQuery, and its database error is reported as such. */
  method GetPopularTags(req: Option<PopularRequest>, popular: (int, string) -> Result<seq<TagRow>>)
    returns (r: Result<ListResponse>)
    ensures popular(PopularQuery(req).0, PopularQuery(req).1).Err? ==> r.Err? && r.error.code == Database
    ensures popular(PopularQuery(req).0, PopularQuery(req).1).Ok? ==>
      var found := popular(PopularQuery(req).0, PopularQuery(req).1).value;
      r.Ok? && r.value.total == |found| == |r.value.tags|
      && forall i :: 0 <= i < |found| ==> r.value.tags[i] == ToInfo(found[i])
  {
    var q := PopularQuery(req);
    var found := popular(q.0, q.1);
    if found.Err? {
      return Fail(Database, "failed to load the popular tags");
    }
    var resp := BuildList(found.value);
    return Ok(resp);
  }

  datatype SearchRequest = SearchRequest(keyword: string, category: string)

  /** SearchTags: without a keyword the answer is empty and the repository
      is not asked; otherwise `found` is what its search gives. */
  method SearchTags(req: Option<SearchRequest>, found: Result<seq<TagRow>>) returns (r: Result<ListResponse>)
    ensures (req.None? || req.value.keyword == "") ==> r == Ok(ListResponse([], 0))
    ensures req.Some? && req.value.keyword != "" && found.Err? ==> r.Err? && r.error.code == Database
    ensures req.Some? && req.value.keyword != "" && found.Ok? ==>
      r.Ok? && r.value.total == |found.value| == |r.value.tags|
      && forall i :: 0 <= i < |found.value| ==> r.value.tags[i] == ToInfo(found.value[i])
  {
    if req.None? || req.value.keyword == "" {
      return Ok(ListResponse([], 0));
    }
    if found.Err? {
      return Fail(Database, "search failed");
    }
    var resp := BuildList(found.value);
    return Ok(resp);
  }

  // ---------------------------------------------------------------------
  // GetTag

  /** GetTag: the usage count's own errors are ignored. */
  function GetTag(tagID: int, tag: Result<Option<TagRow>>, usedBy: int): (r: Result<(TagInfo, int)>)
    ensures tagID <= 0 ==> r.Err? && r.error.code == Param
    ensures tagID > 0 && tag.Err? ==> r.Err? && r.error.code == Database
    ensures tagID > 0 && tag == Ok(None) ==> r.Err? && r.error.code == NotFound
    ensures r.Ok? <==> tagID > 0 && tag.Ok? && tag.value.Some?
    ensures r.Ok? ==> r.value == (ToInfo(tag.value.value), usedBy)
  {
    if tagID <= 0 then Fail(Param, "invalid parameters")
    else match tag
      case Err(_) => Fail(Database, "failed to load the tag")
      case Ok(None) => Fail(NotFound, "tag not found")
      case Ok(Some(t)) => Ok((ToInfo(t), usedBy))
  }

  // ---------------------------------------------------------------------
  // CreateTag

  datatype CreateTagRequest = CreateTagRequest(name: string, description: string, category: string, color: string, icon: string)

  /** ExistsTagNameForUser: the user already has a custom tag with that name. */
  predicate NameTaken(table: seq<TagRow>, name: string, userID: int)
  {
    exists i :: 0 <= i < |table| && table[i].name == name && table[i].tagType == "custom" && table[i].ownerID == userID
  }

  /** CreateTag: the caller must be signed in, the name and category are
      required, and the user may not have a custom tag of that name yet.
      `table` is the tags table the name check reads, or the database error
      the check reported; `insertFailed` is whether the insert reported one.
      `newID` and `now` are the ID and the time stamps the insert writes back
      into the object. The new tag is the caller's active custom tag. */
  function CreateTag(userID: int, req: CreateTagRequest, table: Result<seq<TagRow>>, insertFailed: bool,
                     newID: int, now: int): (r: Result<TagRow>)
    ensures userID <= 0 ==> r.Err? && r.error.code == Auth
    ensures userID > 0 && (req.name == "" || req.category == "") ==> r.Err? && r.error.code == Param
    ensures userID > 0 && req.name != "" && req.category != "" && table.Err? ==> r.Err? && r.error.code == Database
    ensures userID > 0 && req.name != "" && req.category != "" && table.Ok? && NameTaken(table.value, req.name, userID) ==>
      r.Err? && r.error.code == Business
    ensures (userID > 0 && req.name != "" && req.category != "" && table.Ok? && !NameTaken(table.value, req.name, userID)
             && insertFailed) ==> r.Err? && r.error.code == Database
    ensures r.Ok? <==> userID > 0 && req.name != "" && req.category != "" && table.Ok?
                       && !NameTaken(table.value, req.name, userID) && !insertFailed
    ensures r.Ok? ==>
      && r.value.name == req.name && r.value.description == req.description && r.value.category == req.category
      && r.value.color == req.color && r.value.icon == req.icon
      && r.value.tagType == "custom" && r.value.active && r.value.ownerID == userID
    ensures r.Ok? ==> r.value.id == newID && r.value.usageCount == 0 && r.value.createdAt == now && r.value.updatedAt == now
  {
    if userID <= 0 then Fail(Auth, "authentication failed")
    else if req.name == "" || req.category == "" then Fail(Param, "name and category are required")
    else if table.Err? then Fail(Database, "name check failed")
    else if NameTaken(table.value, req.name, userID) then Fail(Business, "tag name already exists")
    else if insertFailed then Fail(Database, "create failed")
    else Ok(TagRow(newID, req.name, req.description, req.category, req.color, req.icon, "custom", true, 0, userID, now, now))
  }

  predicate SameOwnerCustom(a: TagRow, b: TagRow)
  {
    a.tagType == "custom" && b.tagType == "custom" && a.ownerID == b.ownerID
  }

  /** The user's custom tags have distinct names. */
  predicate CustomNamesUnique(table: seq<TagRow>)
  {
    forall i, j :: 0 <= i < j < |table| ==> SameOwnerCustom(table[i], table[j]) ==> table[i].name != table[j].name
  }

  /** Creating through CreateTag keeps every user's custom tag names distinct. */
  lemma CreateKeepsNamesUnique(userID: int, req: CreateTagRequest, table: seq<TagRow>, newID: int, now: int)
    requires CustomNamesUnique(table)
    requires CreateTag(userID, req, Ok(table), false, newID, now).Ok?
    ensures CustomNamesUnique(table + [CreateTag(userID, req, Ok(table), false, newID, now).value])
  {
    var t := CreateTag(userID, req, Ok(table), false, newID, now).value;
    var table' := table + [t];
    forall i, j | 0 <= i < j < |table'| && SameOwnerCustom(table'[i], table'[j])
      ensures table'[i].name != table'[j].name
    {
      assert table'[i] == table[i];
      if j < |table| {
        assert table'[j] == table[j];
      }
    }
  }

  // ---------------------------------------------------------------------
  // UpdateTag

  /** UpdateTagRequest; `active` is None when the request leaves it out. */
  datatype UpdateTagRequest = UpdateTagRequest(name: string, description: string, category: string, color: string, icon: string, active: Option<bool>)

  /** The merge of UpdateTag. */
  function MergeTag(t: TagRow, req: UpdateTagRequest): TagRow
  {
    t.(name := if req.name != "" then req.name else t.name,
       description := if req.description != "" then req.description else t.description,
       category := if req.category != "" then req.category else t.category,
       color := if req.color != "" then req.color else t.color,
       icon := if req.icon != "" then req.icon else t.icon,
       active := if req.active.Some? then req.active.value else t.active)
  }

  /** Field by field: each of the six editable fields takes the request's
      value exactly when the request carries one, the rest never change. */
  lemma MergeTagFields(t: TagRow, req: UpdateTagRequest)
    ensures var m := MergeTag(t, req);
      && (req.name != "" ==> m.name == req.name) && (req.name == "" ==> m.name == t.name)
      && (req.description != "" ==> m.description == req.description) && (req.description == "" ==> m.description == t.description)
      && (req.category != "" ==> m.category == req.category) && (req.category == "" ==> m.category == t.category)
      && (req.color != "" ==> m.color == req.color) && (req.color == "" ==> m.color == t.color)
      && (req.icon != "" ==> m.icon == req.icon) && (req.icon == "" ==> m.icon == t.icon)
      && (req.active.Some? ==> m.active == req.active.value) && (req.active.None? ==> m.active == t.active)
      && m.(name := t.name, description := t.description, category := t.category, color := t.color,
            icon := t.icon, active := t.active) == t
  {
  }

  /** An empty request leaves the tag as it is. */
  lemma MergeTagEmpty(t: TagRow)
    ensures MergeTag(t, UpdateTagRequest("", "", "", "", "", None)) == t
  {
  }

  lemma MergeTagIdempotent(t: TagRow, req: UpdateTagRequest)
    ensures MergeTag(MergeTag(t, req), req) == MergeTag(t, req)
  {
  }

  /** The guards of UpdateTag and DeleteTag, in order: the IDs, the lookup
      (a database error, then no tag), system tags, then ownership. */
  function TagWriteGuard(userID: int, tagID: int, found: Result<Option<TagRow>>, verb: string): (e: Option<Error>)
    ensures e.None? <==> userID > 0 && tagID > 0 && found.Ok? && found.value.Some?
                         && found.value.value.tagType != "system" && found.value.value.ownerID == userID
    ensures (userID <= 0 || tagID <= 0) ==> e.Some? && e.value.code == Param
    ensures userID > 0 && tagID > 0 && found.Err? ==> e.Some? && e.value.code == Database
    ensures userID > 0 && tagID > 0 && found == Ok(None) ==> e.Some? && e.value.code == NotFound
    ensures userID > 0 && tagID > 0 && found.Ok? && found.value.Some?
            && (found.value.value.tagType == "system" || found.value.value.ownerID != userID)
            ==> e.Some? && e.value.code == Forbidden
  {
    if userID <= 0 || tagID <= 0 then Some(Error(Param, "invalid parameters"))
    else if found.Err? then Some(Error(Database, "failed to load the tag"))
    else if found.value.None? then Some(Error(NotFound, "tag not found"))
    else if found.value.value.tagType == "system" then Some(Error(Forbidden, "system tags cannot be " + verb))
    else if found.value.value.ownerID != userID then Some(Error(Forbidden, "no access to this tag"))
    else None
  }

  /** What GetTagByID gave, as a value: its database error when `loadFailed`,
      otherwise no tag for null, or the tag's fields. */
  function Loaded(loadFailed: bool, tag: Tag?): Result<Option<TagRow>>
    reads tag
  {
    if loadFailed then Fail(Database, "failed to load the tag")
    else if tag == null then Ok(None)
    else Ok(Some(tag.Row()))
  }

  /** UpdateTag on what the lookup returned: a database error when
      `loadFailed`, otherwise the tag object (null when there is none).
      `saveFailed` is whether the write reported a database error; the object
      keeps the merge it was given even then. The write stamps UpdatedAt
      with the time `now` (an `auto_now` column) into the object before the
      answer is built from it. */
  method UpdateTag(userID: int, tagID: int, loadFailed: bool, tag: Tag?, req: UpdateTagRequest, saveFailed: bool,
                   now: int)
    returns (r: Result<TagInfo>)
    modifies tag
    ensures var guard := TagWriteGuard(userID, tagID, old(Loaded(loadFailed, tag)), "modified");
      && (guard.Some? ==> r == Err(guard.value) && (tag != null ==> tag.Row() == old(tag.Row())))
      && (guard.None? ==> tag != null && tag.Row() == MergeTag(old(tag.Row()), req).(updatedAt := now))
      && (guard.None? && saveFailed ==> r.Err? && r.error.code == Database)
      && (guard.None? && !saveFailed ==> r == Ok(ToInfo(tag.Row())))
  {
    var guard := TagWriteGuard(userID, tagID, Loaded(loadFailed, tag), "modified");
    if userID <= 0 || tagID <= 0 {
      return Fail(Param, "invalid parameters");
    }
    if loadFailed {
      return Fail(Database, "failed to load the tag");
    }
    if tag == null {
      return Fail(NotFound, "tag not found");
    }
    if tag.tagType == "system" {
      return Fail(Forbidden, "system tags cannot be modified");
    }
    if tag.ownerID != userID {
      return Fail(Forbidden, "no access to this tag");
    }
    assert guard.None?;
    SetTagText(tag, req);
    SetTagLook(tag, req);
    tag.updatedAt := now;
    if saveFailed {
      return Fail(Database, "update failed");
    }
    return Ok(ToInfo(tag.Row()));
  }

  /** The name, description and category of the update. */
  method SetTagText(tag: Tag, req: UpdateTagRequest)
    modifies tag
    ensures tag.Row() == old(tag.Row()).(
      name := if req.name != "" then req.name else old(tag.name),
      description := if req.description != "" then req.description else old(tag.description),
      category := if req.category != "" then req.category else old(tag.category))
  {
    if req.name != "" {
      tag.name := req.name;
    }
    if req.description != "" {
      tag.description := req.description;
    }
    if req.category != "" {
      tag.category := req.category;
    }
  }

  /** The color, icon and active flag of the update. */
  method SetTagLook(tag: Tag, req: UpdateTagRequest)
    modifies tag
    ensures tag.Row() == old(tag.Row()).(
      color := if req.color != "" then req.color else old(tag.color),
      icon := if req.icon != "" then req.icon else old(tag.icon),
      active := if req.active.Some? then req.active.value else old(tag.active))
  {
    if req.color != "" {
      tag.color := req.color;
    }
    if req.icon != "" {
      tag.icon := req.icon;
    }
    if req.active.Some? {
      tag.active := req.active.value;
    }
  }

  // ---------------------------------------------------------------------
  // DeleteTag

  /** DeleteTag: the write guard, then the usage check; `inUse` is what
      IsTagInUse gives and `deleteFailed` whether the delete reported a
      database error. The tag is deleted exactly when the answer is Ok. */
  function DeleteTag(userID: int, tagID: int, found: Result<Option<TagRow>>, inUse: Result<bool>,
                     deleteFailed: bool): (r: Result<Unit>)
    ensures var guard := TagWriteGuard(userID, tagID, found, "deleted");
      && (guard.Some? ==> r == Err(guard.value))
      && (guard.None? && inUse.Err? ==> r.Err? && r.error.code == Database)
      && (guard.None? && inUse == Ok(true) ==> r.Err? && r.error.code == Business)
      && (guard.None? && inUse == Ok(false) && deleteFailed ==> r.Err? && r.error.code == Database)
      && (r.Ok? <==> guard.None? && inUse == Ok(false) && !deleteFailed)
  {
    var guard := TagWriteGuard(userID, tagID, found, "deleted");
    if guard.Some? then Err(guard.value)
    else match inUse
      case Err(_) => Fail(Database, "check failed")
      case Ok(true) => Fail(Business, "the tag is in use and cannot be deleted")
      case Ok(false) => if deleteFailed then Fail(Database, "delete failed") else Ok(Unit)
  }

  /** Only the owner's unused custom tag can be deleted. */
  lemma DeleteOnlyOwnUnused(userID: int, tagID: int, found: Result<Option<TagRow>>, inUse: Result<bool>,
                            deleteFailed: bool)
    requires DeleteTag(userID, tagID, found, inUse, deleteFailed).Ok?
    ensures found.Ok? && found.value.Some? && found.value.value.ownerID == userID
            && found.value.value.tagType != "system" && inUse == Ok(false)
  {
  }

  // ---------------------------------------------------------------------
  // GetCustomTags

  /** GetCustomTags; `tags` is what the query returned, or its database error. */
  function GetCustomTags(userID: int, tags: Result<seq<TagRow>>): (r: Result<ListResponse>)
    ensures userID <= 0 ==> r.Err? && r.error.code == Auth
    ensures userID > 0 && tags.Err? ==> r.Err? && r.error.code == Database
    ensures r.Ok? <==> userID > 0 && tags.Ok?
    ensures r.Ok? ==> r.value.total == |tags.value| == |r.value.tags|
                      && forall i :: 0 <= i < |tags.value| ==> r.value.tags[i] == ToInfo(tags.value[i])
  {
    if userID <= 0 then Fail(Auth, "authentication failed")
    else if tags.Err? then Fail(Database, "failed to load the tags")
    else Ok(ListResponse(seq(|tags.value|, i requires 0 <= i < |tags.value| => ToInfo(tags.value[i])), |tags.value|))
  }

  // ---------------------------------------------------------------------
  // GetTagStatistics

  /** The number of tags in a category. */
  function CategoryCount(tags: seq<TagRow>, c: string): nat
  {
    if tags == [] then 0
    else CategoryCount(tags[..|tags| - 1], c) + if tags[|tags| - 1].category == c then 1 else 0
  }

  /** The usage count of the last tag with each name. */
  function UsageByTag(tags: seq<TagRow>): map<string, int>
  {
    if tags == [] then map[]
    else UsageByTag(tags[..|tags| - 1])[tags[|tags| - 1].name := tags[|tags| - 1].usageCount]
  }

  function Growth(tags: seq<TagRow>): map<string, nat>
  {
    if tags == [] then map[]
    else
      var g := Growth(tags[..|tags| - 1]);
      var c := tags[|tags| - 1].category;
      g[c := (if c in g then g[c] else 0) + 1]
  }

  /** GetTagStatistics's growth map has a key for each category that some tag
      has, holding the number of tags in it. */
  lemma {:induction false} GrowthCounts(tags: seq<TagRow>, c: string)
    ensures c in Growth(tags) <==> CategoryCount(tags, c) > 0
    ensures c in Growth(tags) ==> Growth(tags)[c] == CategoryCount(tags, c)
  {
    if tags != [] {
      GrowthCounts(tags[..|tags| - 1], c);
    }
  }

  /** The categories of the tags, each once, in order of first appearance. */
  function Categories(tags: seq<TagRow>): seq<string>
  {
    if tags == [] then []
    else
      var cs := Categories(tags[..|tags| - 1]);
      var c := tags[|tags| - 1].category;
      if c in cs then cs else cs + [c]
  }

  function CountsOf(cs: seq<string>, tags: seq<TagRow>): nat
  {
    if cs == [] then 0 else CountsOf(cs[..|cs| - 1], tags) + CategoryCount(tags, cs[|cs| - 1])
  }

  lemma {:induction false} CategoriesAreCounted(tags: seq<TagRow>, c: string)
    ensures c in Categories(tags) <==> CategoryCount(tags, c) > 0
  {
    if tags != [] {
      CategoriesAreCounted(tags[..|tags| - 1], c);
    }
  }

  /** Adding a tag raises the sum over distinct categories by one when its
      category is among them. */
  lemma {:induction false} CountsOfStep(cs: seq<string>, tags: seq<TagRow>, t: TagRow)
    requires forall i, j :: 0 <= i < j < |cs| ==> cs[i] != cs[j]
    ensures CountsOf(cs, tags + [t]) == CountsOf(cs, tags) + if t.category in cs then 1 else 0
  {
    if cs != [] {
      var init := cs[..|cs| - 1];
      CountsOfStep(init, tags, t);
      assert (tags + [t])[..|tags + [t]| - 1] == tags;
      assert cs == init + [cs[|cs| - 1]];
      assert cs[|cs| - 1] !in init;
    }
  }

  lemma {:induction false} CategoriesDistinct(tags: seq<TagRow>)
    ensures forall i, j :: 0 <= i < j < |Categories(tags)| ==> Categories(tags)[i] != Categories(tags)[j]
  {
    if tags != [] {
      CategoriesDistinct(tags[..|tags| - 1]);
    }
  }

  /** The per-category counts add up to the number of tags. */
  lemma {:induction false} GrowthAddsUp(tags: seq<TagRow>)
    ensures CountsOf(Categories(tags), tags) == |tags|
  {
    if tags != [] {
      var init := tags[..|tags| - 1];
      var t := tags[|tags| - 1];
      var cs := Categories(init);
      GrowthAddsUp(init);
      CategoriesDistinct(init);
      assert tags == init + [t];
      CountsOfStep(cs, init, t);
      if t.category !in cs {
        CategoriesAreCounted(init, t.category);
        assert Categories(tags) == cs + [t.category];
        assert CountsOf(Categories(tags), tags) == CountsOf(cs, tags) + CategoryCount(tags, t.category);
      }
    }
  }

  /** TagStatisticsResponse. */
  datatype TagStatistics = TagStatistics(usageByTag: map<string, int>, growthByCategory: map<string, nat>)

  /** GetTagStatistics: `tags` is what ListTags returned, or its database
      error; the loop runs over all tags. */
  method GetTagStatistics(tags: Result<seq<TagRow>>) returns (r: Result<TagStatistics>)
    ensures tags.Err? ==> r.Err? && r.error.code == Database
    ensures tags.Ok? ==> r == Ok(TagStatistics(UsageByTag(tags.value), Growth(tags.value)))
  {
    if tags.Err? {
      return Fail(Database, "failed to load the tags");
    }
    var all := tags.value;
    var usage: map<string, int> := map[];
    var growth: map<string, nat> := map[];
    var i := 0;
    while i < |all|
      invariant 0 <= i <= |all|
      invariant usage == UsageByTag(all[..i]) && growth == Growth(all[..i])
    {
      var t := all[i];
      assert all[..i + 1][..i] == all[..i];
      usage := usage[t.name := t.usageCount];
      var before := if t.category in growth then growth[t.category] else 0;
      growth := growth[t.category := before + 1];
      i := i + 1;
    }
    assert all[..|all|] == all;
    return Ok(TagStatistics(usage, growth));
  }
}
