/**
 * The request handling of internal/device/service/device_service.go: the
 * normalisation of a device-list query, the validation of a create request,
 * the partial update of a stored device, the status-change rules, the
 * accounting of a batch import and the type and size gate of an image
 * upload. Repository calls are parameters: the device a lookup returns (null
 * when there is none), and functions standing for the list query and the
 * batch insert.
 */
module DeviceService {
  import opened Common
  import opened GoLib
  import opened Dates
  import opened Paging
  import opened DeviceModel

  // ---------------------------------------------------------------------
  // GetDevicesList

  /** The largest page size a device list is served with. */
  const MaxListLimit: int := 100

  /** The sort columns a list may be ordered by. */
  const SortFields: set<string> := {"created_at", "purchase_price", "current_value", "purchase_date"}

  datatype ListRequest = ListRequest(
    page: int,
    limit: int,
    categoryID: int,
    status: string,
    sort: string,
    order: string,
    search: string)

  /** The keys of the query-parameter map the repository receives; each
      stands for the string key of the same name (PageKey, LimitKey,
      CategoryKey, StatusKey, SearchKey, SortKey, "order"). */
  datatype ParamKey = PageKey | LimitKey | CategoryKey | StatusKey | SearchKey | SortKey | OrderKey

  /** A value of the query-parameter map. */
  datatype ParamValue = IntParam(n: int) | StrParam(s: string)

  datatype ListPage = ListPage(devices: seq<DeviceRow>, total: nat, page: int, limit: int, totalPages: nat)

  /** A map with one more entry when the condition holds. */
  function AddIf(m: map<ParamKey, ParamValue>, cond: bool, key: ParamKey, value: ParamValue): (m': map<ParamKey, ParamValue>)
    ensures m'.Keys == if cond then m.Keys + {key} else m.Keys
  {
    if cond then m[key := value] else m
  }

  /** The page and the page size, clamped, which every query carries. */
  function ListBase(req: ListRequest): map<ParamKey, ParamValue>
  {
    map[][PageKey := IntParam(ClampPage(req.page))][LimitKey := IntParam(ClampLimit(req.limit, MaxListLimit))]
  }

  /** The query parameters GetDevicesList hands to the repository: page and
      limit always, clamped; a filter only when the request sets it; the
      sort column only when it is one of the allowed ones, and the order
      only with such a column and only when it is exactly "asc" or "desc". */
  function ListParams(req: ListRequest): map<ParamKey, ParamValue>
  {
    SortParams(req, FilterParams(req, ListBase(req)))
  }

  /** The category, status and search filters, each only when the request sets it. */
  function FilterParams(req: ListRequest, base: map<ParamKey, ParamValue>): map<ParamKey, ParamValue>
  {
    var withCategory := AddIf(base, req.categoryID > 0, CategoryKey, IntParam(req.categoryID));
    var withStatus := AddIf(withCategory, req.status != "", StatusKey, StrParam(req.status));
    AddIf(withStatus, req.search != "", SearchKey, StrParam(TrimSpace(req.search)))
  }

  /** The sort column when it is an allowed one, and the order only with it
      and only as "asc" or "desc". */
  function SortParams(req: ListRequest, filtered: map<ParamKey, ParamValue>): map<ParamKey, ParamValue>
  {
    var withSort := AddIf(filtered, req.sort in SortFields, SortKey, StrParam(req.sort));
    AddIf(withSort, req.sort in SortFields && (req.order == "asc" || req.order == "desc"), OrderKey, StrParam(req.order))
  }

  /** The entry of a parameter map under a key, if any. */
  function Lookup(m: map<ParamKey, ParamValue>, k: ParamKey): Option<ParamValue>
  {
    if k in m then Some(m[k]) else None
  }

  /** Key by key, what the list query is to carry: page and limit always,
      clamped; each filter only when the request sets it; the sort column
      only when it is one of the allowed ones; the order only with such a
      column and only when it is exactly "asc" or "desc". */
  function ParamOf(req: ListRequest, k: ParamKey): Option<ParamValue>
  {
    match k
    case PageKey => Some(IntParam(ClampPage(req.page)))
    case LimitKey => Some(IntParam(ClampLimit(req.limit, MaxListLimit)))
    case CategoryKey => if req.categoryID > 0 then Some(IntParam(req.categoryID)) else None
    case StatusKey => if req.status != "" then Some(StrParam(req.status)) else None
    case SearchKey => if req.search != "" then Some(StrParam(TrimSpace(req.search))) else None
    case SortKey => if req.sort in SortFields then Some(StrParam(req.sort)) else None
    case OrderKey =>
      if req.sort in SortFields && (req.order == "asc" || req.order == "desc") then Some(StrParam(req.order)) else None
  }

  lemma AddIfLookup(m: map<ParamKey, ParamValue>, cond: bool, key: ParamKey, value: ParamValue, k: ParamKey)
    ensures Lookup(AddIf(m, cond, key, value), k) == if cond && k == key then Some(value) else Lookup(m, k)
  {
  }

  /** The map built step by step carries, under every key, exactly what the
      key-by-key description says. */
  lemma FilterParamsLookup(req: ListRequest, base: map<ParamKey, ParamValue>, k: ParamKey)
    requires CategoryKey !in base && StatusKey !in base && SearchKey !in base
    ensures Lookup(FilterParams(req, base), k) ==
      if k == CategoryKey || k == StatusKey || k == SearchKey then ParamOf(req, k) else Lookup(base, k)
  {
    var withCategory := AddIf(base, req.categoryID > 0, CategoryKey, IntParam(req.categoryID));
    var withStatus := AddIf(withCategory, req.status != "", StatusKey, StrParam(req.status));
    AddIfLookup(base, req.categoryID > 0, CategoryKey, IntParam(req.categoryID), k);
    AddIfLookup(withCategory, req.status != "", StatusKey, StrParam(req.status), k);
    AddIfLookup(withStatus, req.search != "", SearchKey, StrParam(TrimSpace(req.search)), k);
  }

  lemma SortParamsLookup(req: ListRequest, filtered: map<ParamKey, ParamValue>, k: ParamKey)
    requires SortKey !in filtered && OrderKey !in filtered
    ensures Lookup(SortParams(req, filtered), k) ==
      if k == SortKey || k == OrderKey then ParamOf(req, k) else Lookup(filtered, k)
  {
    var withSort := AddIf(filtered, req.sort in SortFields, SortKey, StrParam(req.sort));
    AddIfLookup(filtered, req.sort in SortFields, SortKey, StrParam(req.sort), k);
    AddIfLookup(withSort, req.sort in SortFields && (req.order == "asc" || req.order == "desc"), OrderKey, StrParam(req.order), k);
  }

  /** The map built step by step carries, under every key, exactly what the
      key-by-key description says. */
  lemma ListParamsLookup(req: ListRequest, k: ParamKey)
    ensures Lookup(ListParams(req), k) == ParamOf(req, k)
  {
    var base := ListBase(req);
    assert Lookup(base, k) == if k == PageKey || k == LimitKey then ParamOf(req, k) else None;
    assert base.Keys == {PageKey, LimitKey};
    FilterParamsLookup(req, base, k);
    FilterParamsLookup(req, base, SortKey);
    FilterParamsLookup(req, base, OrderKey);
    SortParamsLookup(req, FilterParams(req, base), k);
  }


  /** The filter part of GetDevicesList: category, status and search, each
      only when the request sets it. */
  method AddFilters(req: ListRequest, base: map<ParamKey, ParamValue>) returns (params: map<ParamKey, ParamValue>)
    ensures params == FilterParams(req, base)
  {
    params := base;
    if req.categoryID > 0 {
      params := params[CategoryKey := IntParam(req.categoryID)];
    }
    if req.status != "" {
      params := params[StatusKey := StrParam(req.status)];
    }
    if req.search != "" {
      params := params[SearchKey := StrParam(TrimSpace(req.search))];
    }
  }

  /** The ordering part of GetDevicesList: the sort column only when it is
      an allowed one, and the order only with it and only as "asc" or "desc". */
  method AddSort(req: ListRequest, filtered: map<ParamKey, ParamValue>) returns (params: map<ParamKey, ParamValue>)
    ensures params == SortParams(req, filtered)
  {
    params := filtered;
    assert "" !in SortFields;
    if req.sort != "" {
      if req.sort in SortFields {
        params := params[SortKey := StrParam(req.sort)];
        if req.order == "asc" || req.order == "desc" {
          params := params[OrderKey := StrParam(req.order)];
        }
      }
    }
  }

  /** GetDevicesList. `query` stands for the repository's list query: the
      devices of the page and the total count for the given parameters, or
      the database error it reported. The second result is the parameter map
      the query is called with. */
  method GetDevicesList(userID: int, req: ListRequest, query: map<ParamKey, ParamValue> -> Result<(seq<DeviceRow>, nat)>)
    returns (r: Result<ListPage>, params: map<ParamKey, ParamValue>)
    ensures userID <= 0 ==> r.Err? && r.error.code == Param
    ensures userID > 0 ==> params == ListParams(req)
    ensures userID > 0 && query(params).Err? ==> r.Err? && r.error.code == Database
    ensures userID > 0 && query(params).Ok? ==>
      var (devices, total) := query(params).value;
      var limit := ClampLimit(req.limit, MaxListLimit);
      r == Ok(ListPage(devices, total, ClampPage(req.page), limit, TotalPages(total, limit)))
  {
    params := map[];
    if userID <= 0 {
      return Fail(Param, "invalid user ID"), params;
    }
    var page := req.page;
    var limit := req.limit;
    if page <= 0 {
      page := 1;
    }
    if limit <= 0 {
      limit := 10;
    }
    if limit > MaxListLimit {
      limit := MaxListLimit;
    }
    assert page == ClampPage(req.page) && limit == ClampLimit(req.limit, MaxListLimit);
    params := params[PageKey := IntParam(page)];
    params := params[LimitKey := IntParam(limit)];
    assert params == ListBase(req);
    params := AddFilters(req, params);
    params := AddSort(req, params);
    var found := query(params);
    if found.Err? {
      return Fail(Database, "failed to list the devices"), params;
    }
    var (devices, total) := found.value;
    return Ok(ListPage(devices, total, page, limit, TotalPages(total, limit))), params;
  }

  // ---------------------------------------------------------------------
  // validateCreateDeviceRequest

  /** The conditions a device may be recorded in. */
  const Conditions: set<string> := {"new", "good", "fair", "poor"}

  /** CreateDeviceRequest; `specifications` is the JSON text of the
      specification map, or None when the request has none. */
  datatype CreateDeviceRequest = CreateDeviceRequest(
    templateID: int,
    name: string,
    brand: string,
    model: string,
    categoryID: int,
    purchasePrice: real,
    purchaseDate: string,
    warrantyDate: string,
    serialNumber: string,
    color: string,
    storage: string,
    memory: string,
    processor: string,
    screenSize: string,
    condition: string,
    notes: string,
    specifications: Option<string>)

  /** validateCreateDeviceRequest: the first check that fails, in the order
      of the source; every failure is a parameter error. */
  function CreateRequestError(req: CreateDeviceRequest): Option<Error>
  {
    if req.templateID <= 0 then Some(Error(Param, "template ID is required"))
    else if req.categoryID <= 0 then Some(Error(Param, "category ID is required"))
    else if TrimSpace(req.name) == "" then Some(Error(Param, "device name is required"))
    else if TrimSpace(req.brand) == "" then Some(Error(Param, "brand is required"))
    else if TrimSpace(req.model) == "" then Some(Error(Param, "model is required"))
    else if req.purchasePrice <= 0.0 then Some(Error(Param, "purchase price must be greater than 0"))
    else if TrimSpace(req.purchaseDate) == "" then Some(Error(Param, "purchase date is required"))
    else if req.condition != "" && req.condition !in Conditions then Some(Error(Param, "invalid device condition"))
    else None
  }

  /** One named check of a validation chain. */
  datatype Check = Check(passes: bool, message: string)

  /** The checks of a create request, in the order they are made. */
  function CreateChecks(req: CreateDeviceRequest): seq<Check>
  {
    [ Check(req.templateID > 0, "template ID is required"),
      Check(req.categoryID > 0, "category ID is required"),
      Check(TrimSpace(req.name) != "", "device name is required"),
      Check(TrimSpace(req.brand) != "", "brand is required"),
      Check(TrimSpace(req.model) != "", "model is required"),
      Check(req.purchasePrice > 0.0, "purchase price must be greater than 0"),
      Check(TrimSpace(req.purchaseDate) != "", "purchase date is required"),
      Check(req.condition == "" || req.condition in Conditions, "invalid device condition") ]
  }

  /** The message of the first failing check of a chain. */
  function FirstFailure(checks: seq<Check>): Option<string>
  {
    if checks == [] then None
    else if !checks[0].passes then Some(checks[0].message)
    else FirstFailure(checks[1..])
  }

  /** A chain fails exactly when one of its checks fails, and then with the
      message of a failing check all of whose predecessors pass. */
  lemma {:induction false} FirstFailureSpec(checks: seq<Check>)
    ensures FirstFailure(checks).None? <==> forall k :: 0 <= k < |checks| ==> checks[k].passes
    ensures FirstFailure(checks).Some? ==>
      exists k :: 0 <= k < |checks| && !checks[k].passes && checks[k].message == FirstFailure(checks).value
                  && forall j :: 0 <= j < k ==> checks[j].passes
  {
    if checks != [] && checks[0].passes {
      var rest := checks[1..];
      FirstFailureSpec(rest);
      assert forall k :: 0 <= k < |rest| ==> rest[k] == checks[k + 1];
      if FirstFailure(rest).Some? {
        var k :| 0 <= k < |rest| && !rest[k].passes && rest[k].message == FirstFailure(rest).value
                 && forall j :: 0 <= j < k ==> rest[j].passes;
        assert forall j :: 0 <= j < k + 1 ==> checks[j].passes by {
          forall j | 0 <= j < k + 1 ensures checks[j].passes {
            if j > 0 { assert checks[j] == rest[j - 1]; }
          }
        }
        assert !checks[k + 1].passes && checks[k + 1].message == FirstFailure(checks).value;
      }
    } else if checks != [] {
      assert !checks[0].passes;
    }
  }

  /** The validation is the first failure of the checks, as a parameter error. */
  lemma CreateRequestErrorIsFirstFailure(req: CreateDeviceRequest)
    ensures CreateRequestError(req) ==
      (match FirstFailure(CreateChecks(req)) case None => None case Some(m) => Some(Error(Param, m)))
  {
    var checks := CreateChecks(req);
    FirstFailureSpec(checks);
    if FirstFailure(checks).Some? {
      var k :| 0 <= k < |checks| && !checks[k].passes && checks[k].message == FirstFailure(checks).value
               && forall j :: 0 <= j < k ==> checks[j].passes;
      // The checks before k pass and check k fails, which fixes the branch taken.
      assert k >= 1 ==> checks[0].passes;
      assert k >= 2 ==> checks[1].passes;
      assert k >= 3 ==> checks[2].passes;
      assert k >= 4 ==> checks[3].passes;
      assert k >= 5 ==> checks[4].passes;
      assert k >= 6 ==> checks[5].passes;
      assert k >= 7 ==> checks[6].passes;
    } else {
      assert checks[0].passes && checks[1].passes && checks[2].passes && checks[3].passes;
      assert checks[4].passes && checks[5].passes && checks[6].passes && checks[7].passes;
    }
  }

  /** A create request passes exactly when its IDs are positive, its name,
      brand, model and purchase date are not blank, its price is positive and
      its condition is empty or a known one. */
  lemma CreateRequestAccepted(req: CreateDeviceRequest)
    ensures CreateRequestError(req).None? <==>
      (req.templateID > 0 && req.categoryID > 0
       && TrimSpace(req.name) != "" && TrimSpace(req.brand) != "" && TrimSpace(req.model) != ""
       && req.purchasePrice > 0.0 && TrimSpace(req.purchaseDate) != ""
       && (req.condition == "" || req.condition in Conditions))
    ensures CreateRequestError(req).Some? ==> CreateRequestError(req).value.code == Param
  {
    var checks := CreateChecks(req);
    CreateRequestErrorIsFirstFailure(req);
    FirstFailureSpec(checks);
    if CreateRequestError(req).None? {
      assert checks[0].passes && checks[1].passes && checks[2].passes && checks[3].passes;
      assert checks[4].passes && checks[5].passes && checks[6].passes && checks[7].passes;
    }
  }

  // ---------------------------------------------------------------------
  // UpdateDevice

  /** UpdateDeviceRequest; `specifications` as in CreateDeviceRequest. */
  datatype UpdateDeviceRequest = UpdateDeviceRequest(
    name: string,
    brand: string,
    model: string,
    serialNumber: string,
    color: string,
    storage: string,
    memory: string,
    processor: string,
    screenSize: string,
    purchasePrice: real,
    purchaseDate: string,
    warrantyDate: string,
    condition: string,
    notes: string,
    specifications: Option<string>)

  /** The dates of an update request that are set are in the layout. */
  predicate UpdateDatesParse(req: UpdateDeviceRequest)
  {
    (req.purchaseDate == "" || ParseDate(req.purchaseDate).Some?)
    && (req.warrantyDate == "" || ParseDate(req.warrantyDate).Some?)
  }

  /** A request string replaces the stored one when it is not empty. */
  function Keep(requested: string, stored: string): (v: string)
    ensures v == (if requested == "" then stored else requested)
  {
    if requested != "" then requested else stored
  }

  /** A requested price replaces the stored one when it is positive. */
  function KeepPrice(requested: real, stored: real): (v: real)
    ensures v == (if requested > 0.0 then requested else stored)
  {
    if requested > 0.0 then requested else stored
  }

  /** A specification map in the request replaces the stored specifications. */
  function KeepSpecifications(requested: Option<string>, stored: string): (v: string)
    ensures v == (if requested.Some? then requested.value else stored)
  {
    if requested.Some? then requested.value else stored
  }

  /** The text fields and the price of an update, which are assigned first. */
  function UpdateTexts(row: DeviceRow, req: UpdateDeviceRequest): DeviceRow
  {
    row.(name := Keep(req.name, row.name),
         brand := Keep(req.brand, row.brand),
         model := Keep(req.model, row.model),
         serialNumber := Keep(req.serialNumber, row.serialNumber),
         color := Keep(req.color, row.color),
         storage := Keep(req.storage, row.storage),
         memory := Keep(req.memory, row.memory),
         processor := Keep(req.processor, row.processor),
         screenSize := Keep(req.screenSize, row.screenSize),
         purchasePrice := KeepPrice(req.purchasePrice, row.purchasePrice))
  }

  /** The merge of UpdateDevice when the request's dates parse: every field
      the request carries (a non-empty string, a positive price, a
      specification map) replaces the stored one. */
  function MergeDevice(row: DeviceRow, req: UpdateDeviceRequest): DeviceRow
    requires UpdateDatesParse(req)
  {
    UpdateTexts(row, req).(
      purchaseDate := if req.purchaseDate != "" then ParseDate(req.purchaseDate).value else row.purchaseDate,
      warrantyDate := if req.warrantyDate != "" then ParseDate(req.warrantyDate) else row.warrantyDate,
      condition := Keep(req.condition, row.condition),
      notes := Keep(req.notes, row.notes),
      specifications := KeepSpecifications(req.specifications, row.specifications))
  }

  /** The merge never touches the identity, ownership, template, category,
      valuation, status or sale of the device. */
  lemma MergeDeviceKeeps(row: DeviceRow, req: UpdateDeviceRequest)
    requires UpdateDatesParse(req)
    ensures var m := MergeDevice(row, req);
      m.id == row.id && m.userID == row.userID && m.templateID == row.templateID
      && m.categoryID == row.categoryID && m.currentValue == row.currentValue
      && m.status == row.status && m.salePrice == row.salePrice && m.saleDate == row.saleDate
  {
  }

  /** A request that carries nothing leaves the device as it is. */
  lemma MergeDeviceEmpty(row: DeviceRow)
    ensures MergeDevice(row, UpdateDeviceRequest("", "", "", "", "", "", "", "", "", 0.0, "", "", "", "", None)) == row
  {
  }

  /** Applying the same update twice is applying it once. */
  lemma MergeDeviceIdempotent(row: DeviceRow, req: UpdateDeviceRequest)
    requires UpdateDatesParse(req)
    ensures MergeDevice(MergeDevice(row, req), req) == MergeDevice(row, req)
  {
  }

  /** UpdateDevice on the fields of a loaded device, step by step as the
      source assigns them: a date that does not parse, or a specification map
      that does not encode (`marshalFailed`), stops the update with the
      fields assigned before it already changed; `saveFailed` is whether the
      write reported a database error. */
  function DeviceUpdate(row: DeviceRow, req: UpdateDeviceRequest, marshalFailed: bool, saveFailed: bool): Outcome<DeviceRow>
  {
    var texts := UpdateTexts(row, req);
    if req.purchaseDate != "" && ParseDate(req.purchaseDate).None? then
      Outcome(Fail(Param, "invalid purchase date format"), texts)
    else
      var bought := if req.purchaseDate != "" then texts.(purchaseDate := ParseDate(req.purchaseDate).value) else texts;
      if req.warrantyDate != "" && ParseDate(req.warrantyDate).None? then
        Outcome(Fail(Param, "invalid warranty date format"), bought)
      else
        var warranted := if req.warrantyDate != "" then bought.(warrantyDate := ParseDate(req.warrantyDate)) else bought;
        NotesAndSave(warranted, req, marshalFailed, saveFailed)
  }

  /** The end of UpdateDevice: condition, notes, the specifications and the write. */
  function NotesAndSave(warranted: DeviceRow, req: UpdateDeviceRequest, marshalFailed: bool, saveFailed: bool)
    : Outcome<DeviceRow>
  {
    var noted := warranted.(condition := Keep(req.condition, warranted.condition), notes := Keep(req.notes, warranted.notes));
    if req.specifications.Some? && marshalFailed then Outcome(Fail(Param, "invalid specifications format"), noted)
    else
      var updated := noted.(specifications := KeepSpecifications(req.specifications, noted.specifications));
      if saveFailed then Outcome(Fail(Database, "failed to update the device"), updated)
      else Outcome(Ok(updated), updated)
  }

  /** The specification map of an update, if any, encodes. */
  predicate SpecsEncode(req: UpdateDeviceRequest, marshalFailed: bool)
  {
    req.specifications.None? || !marshalFailed
  }

  /** The update succeeds exactly when the dates it carries parse, the
      specifications encode and the write succeeds, and then the device is
      the merge of the request and is what is returned. A bad date or a
      specification map that does not encode is a parameter error, a failed
      write a database error that keeps the merge on the object. */
  lemma DeviceUpdateCases(row: DeviceRow, req: UpdateDeviceRequest, marshalFailed: bool, saveFailed: bool)
    ensures var o := DeviceUpdate(row, req, marshalFailed, saveFailed);
      && (o.result.Ok? <==> UpdateDatesParse(req) && SpecsEncode(req, marshalFailed) && !saveFailed)
      && (o.result.Ok? ==> o.state == MergeDevice(row, req) && o.result.value == o.state)
      && (!UpdateDatesParse(req) ==> o.result.Err? && o.result.error.code == Param)
      && (req.purchaseDate != "" && ParseDate(req.purchaseDate).None? ==> o.state == UpdateTexts(row, req))
      && (UpdateDatesParse(req) && !SpecsEncode(req, marshalFailed) ==>
            o.result.Err? && o.result.error.code == Param
            && o.state == MergeDevice(row, req).(specifications := row.specifications))
      && (UpdateDatesParse(req) && SpecsEncode(req, marshalFailed) ==> o.state == MergeDevice(row, req))
      && (UpdateDatesParse(req) && SpecsEncode(req, marshalFailed) && saveFailed ==>
            o.result.Err? && o.result.error.code == Database)
  {
  }

  /** UpdateDevice on what the repository returned: a database error when
      `loadFailed`, otherwise the device (null when the caller has no device
      with that ID). Only a successful update is persisted. */
  method UpdateDevice(deviceID: int, userID: int, loadFailed: bool, d: Device?, req: UpdateDeviceRequest,
                      marshalFailed: bool, saveFailed: bool) returns (r: Result<DeviceRow>)
    modifies d
    ensures deviceID <= 0 || userID <= 0 ==> r.Err? && r.error.code == Param && (d != null ==> d.Row() == old(d.Row()))
    ensures deviceID > 0 && userID > 0 && loadFailed ==>
      r.Err? && r.error.code == Database && (d != null ==> d.Row() == old(d.Row()))
    ensures deviceID > 0 && userID > 0 && !loadFailed && d == null ==> r.Err? && r.error.code == NotFound
    ensures deviceID > 0 && userID > 0 && !loadFailed && d != null ==>
      var o := DeviceUpdate(old(d.Row()), req, marshalFailed, saveFailed);
      r == o.result && d.Row() == o.state
  {
    if deviceID <= 0 || userID <= 0 {
      return Fail(Param, "invalid parameters");
    }
    if loadFailed {
      return Fail(Database, "failed to load the device");
    }
    if d == null {
      return Fail(NotFound, "device not found");
    }
    SetDeviceTexts(d, req);
    if req.purchaseDate != "" {
      var purchaseDate := ParseDate(req.purchaseDate);
      if purchaseDate.None? {
        return Fail(Param, "invalid purchase date format");
      }
      SetPurchaseDate(d, purchaseDate.value);
    }
    if req.warrantyDate != "" {
      var warrantyDate := ParseDate(req.warrantyDate);
      if warrantyDate.None? {
        return Fail(Param, "invalid warranty date format");
      }
      SetWarrantyDate(d, warrantyDate);
    }
    r := SaveDeviceNotes(d, req, marshalFailed, saveFailed);
  }

  /** The rest of UpdateDevice once the dates are on the object. */
  method SaveDeviceNotes(d: Device, req: UpdateDeviceRequest, marshalFailed: bool, saveFailed: bool)
    returns (r: Result<DeviceRow>)
    modifies d
    ensures var o := NotesAndSave(old(d.Row()), req, marshalFailed, saveFailed);
      r == o.result && d.Row() == o.state
  {
    SetDeviceNotes(d, req);
    if req.specifications.Some? {
      if marshalFailed {
        return Fail(Param, "invalid specifications format");
      }
      d.specifications := req.specifications.value;
    }
    if saveFailed {
      return Fail(Database, "failed to update the device");
    }
    return Ok(d.Row());
  }

  /** The text fields and the price change when the request carries them. */
  method SetDeviceTexts(d: Device, req: UpdateDeviceRequest)
    modifies d
    ensures d.Row() == UpdateTexts(old(d.Row()), req)
  {
    SetDeviceNames(d, req);
    SetDeviceHardware(d, req);
    SetDeviceSpecs(d, req);
    SetPurchasePrice(d, req);
  }

  /** The purchase price changes when the request carries a positive one. */
  method SetPurchasePrice(d: Device, req: UpdateDeviceRequest)
    modifies d
    ensures d.Row() == old(d.Row()).(purchasePrice := KeepPrice(req.purchasePrice, old(d.purchasePrice)))
  {
    d.purchasePrice := KeepPrice(req.purchasePrice, d.purchasePrice);
  }

  /** Stores the parsed purchase date. */
  method SetPurchaseDate(d: Device, date: Date)
    modifies d
    ensures d.Row() == old(d.Row()).(purchaseDate := date)
  {
    d.purchaseDate := date;
  }

  /** Stores the parsed warranty date, or none. */
  method SetWarrantyDate(d: Device, date: Option<Date>)
    modifies d
    ensures d.Row() == old(d.Row()).(warrantyDate := date)
  {
    d.warrantyDate := date;
  }

  /** The name, brand and model change when the request carries them. */
  method SetDeviceNames(d: Device, req: UpdateDeviceRequest)
    modifies d
    ensures d.Row() == old(d.Row()).(name := Keep(req.name, old(d.name)), brand := Keep(req.brand, old(d.brand)),
                                     model := Keep(req.model, old(d.model)))
  {
    d.name, d.brand, d.model := Keep(req.name, d.name), Keep(req.brand, d.brand), Keep(req.model, d.model);
  }

  /** The serial number, colour and storage change when the request carries them. */
  method SetDeviceHardware(d: Device, req: UpdateDeviceRequest)
    modifies d
    ensures d.Row() == old(d.Row()).(serialNumber := Keep(req.serialNumber, old(d.serialNumber)),
                                     color := Keep(req.color, old(d.color)), storage := Keep(req.storage, old(d.storage)))
  {
    d.serialNumber, d.color, d.storage := Keep(req.serialNumber, d.serialNumber), Keep(req.color, d.color), Keep(req.storage, d.storage);
  }

  /** The memory, processor and screen size change when the request carries them. */
  method SetDeviceSpecs(d: Device, req: UpdateDeviceRequest)
    modifies d
    ensures d.Row() == old(d.Row()).(memory := Keep(req.memory, old(d.memory)),
                                     processor := Keep(req.processor, old(d.processor)),
                                     screenSize := Keep(req.screenSize, old(d.screenSize)))
  {
    d.memory, d.processor, d.screenSize := Keep(req.memory, d.memory), Keep(req.processor, d.processor), Keep(req.screenSize, d.screenSize);
  }

  /** The condition and notes change when the request carries them. */
  method SetDeviceNotes(d: Device, req: UpdateDeviceRequest)
    modifies d
    ensures d.Row() == old(d.Row()).(condition := Keep(req.condition, old(d.condition)), notes := Keep(req.notes, old(d.notes)))
  {
    d.condition, d.notes := Keep(req.condition, d.condition), Keep(req.notes, d.notes);
  }

  // ---------------------------------------------------------------------
  // UpdateDeviceStatus

  /** The statuses a device may be given. */
  const Statuses: set<string> := {"active", "sold", "broken", "lost"}

  datatype StatusRequest = StatusRequest(status: string, salePrice: real, saleDate: string, notes: string)

  /** What UpdateDeviceStatus hands to the repository: the sale price and
      date are None (nil) unless the device is sold. */
  datatype StatusChange = StatusChange(status: string, salePrice: Option<real>, saleDate: Option<Date>, notes: string)

  /** UpdateDeviceStatus: the checks, then the repository call, whose
      database error `saveFailed` says whether it reported. The answer
      carries the change that was written. */
  function StatusUpdate(deviceID: int, userID: int, req: StatusRequest, saveFailed: bool): Result<StatusChange>
  {
    if deviceID <= 0 || userID <= 0 then Fail(Param, "invalid parameters")
    else if req.status !in Statuses then Fail(Param, "invalid device status")
    else if req.status != "sold" then
      if saveFailed then Fail(Database, "failed to update the device status")
      else Ok(StatusChange(req.status, None, None, req.notes))
    else if req.salePrice <= 0.0 then Fail(Param, "sale price must be greater than 0")
    else if req.saleDate == "" then Fail(Param, "sale date is required")
    else match ParseDate(req.saleDate)
      case None => Fail(Param, "invalid sale date format")
      case Some(date) =>
        if saveFailed then Fail(Database, "failed to update the device status")
        else Ok(StatusChange(req.status, Some(req.salePrice), Some(date), req.notes))
  }

  /** The checks of UpdateDeviceStatus pass: positive IDs, a known status
      and, for a sale, a positive price and a date that parses. */
  predicate StatusAccepted(deviceID: int, userID: int, req: StatusRequest)
  {
    deviceID > 0 && userID > 0 && req.status in Statuses
    && (req.status == "sold" ==> req.salePrice > 0.0 && req.saleDate != "" && ParseDate(req.saleDate).Some?)
  }

  /** A status change is accepted exactly when its checks pass and the write
      succeeds; a failing check is a parameter error and a failed write a
      database error. The repository receives the status and notes
      unchanged and a sale price and date exactly when the device is sold. */
  lemma StatusUpdateCases(deviceID: int, userID: int, req: StatusRequest, saveFailed: bool)
    ensures var r := StatusUpdate(deviceID, userID, req, saveFailed);
      && (r.Ok? <==> StatusAccepted(deviceID, userID, req) && !saveFailed)
      && (!StatusAccepted(deviceID, userID, req) ==> r.Err? && r.error.code == Param)
      && (StatusAccepted(deviceID, userID, req) && saveFailed ==> r.Err? && r.error.code == Database)
      && (r.Ok? ==> r.value.status == req.status && r.value.notes == req.notes
                    && (r.value.salePrice.Some? <==> req.status == "sold")
                    && (r.value.saleDate.Some? <==> req.status == "sold")
                    && (req.status == "sold" ==> r.value.salePrice == Some(req.salePrice)
                                                  && r.value.saleDate == ParseDate(req.saleDate)))
  {
  }

  // ---------------------------------------------------------------------
  // BatchImportDevices

  /** The most devices one batch import may carry. */
  const MaxImport: int := 100

  datatype ImportReport = ImportReport(totalCount: nat, successCount: int, failCount: int, errors: seq<string>)

  /** The error line of entry i (counted from 0), which names the entry by
      its position counted from 1. */
  function EntryLine(i: nat, message: string): string
  {
    "device " + FormatInt(i + 1) + ": " + message
  }

  /** The device a valid create request is stored as. */
  function NewDevice(userID: int, req: CreateDeviceRequest, purchaseDate: Date, warrantyDate: Option<Date>): DeviceRow
  {
    DeviceRow(0, userID, req.templateID, req.categoryID, req.name, req.brand, req.model, req.serialNumber,
              req.color, req.storage, req.memory, req.processor, req.screenSize, req.purchasePrice,
              req.purchasePrice, purchaseDate, warrantyDate, req.condition, "active", 0.0, None, req.notes,
              if req.specifications.Some? then req.specifications.value else "")
  }

  /** One entry of a batch: the device it becomes, or the message of the
      first check it fails. */
  function ImportEntry(userID: int, req: CreateDeviceRequest): Result<DeviceRow>
  {
    match CreateRequestError(req)
    case Some(e) => Err(e)
    case None =>
      match ParseDate(req.purchaseDate)
      case None => Fail(Param, "invalid purchase date format")
      case Some(purchaseDate) =>
        if req.warrantyDate != "" && ParseDate(req.warrantyDate).None? then Fail(Param, "invalid warranty date format")
        else Ok(NewDevice(userID, req, purchaseDate, if req.warrantyDate != "" then ParseDate(req.warrantyDate) else None))
  }

  /** What each entry of a batch becomes, in entry order. */
  function ImportOutcomes(userID: int, reqs: seq<CreateDeviceRequest>): (outs: seq<Result<DeviceRow>>)
    ensures |outs| == |reqs|
  {
    if reqs == [] then []
    else ImportOutcomes(userID, reqs[..|reqs| - 1]) + [ImportEntry(userID, reqs[|reqs| - 1])]
  }

  /** The outcome of entry i is that entry's own validation result. */
  lemma {:induction false} ImportOutcomeAt(userID: int, reqs: seq<CreateDeviceRequest>, i: nat)
    requires i < |reqs|
    ensures ImportOutcomes(userID, reqs)[i] == ImportEntry(userID, reqs[i])
  {
    var init := reqs[..|reqs| - 1];
    if i < |reqs| - 1 {
      ImportOutcomeAt(userID, init, i);
    }
  }

  /** The devices the first n outcomes contribute, in entry order. */
  function Imported(outs: seq<Result<DeviceRow>>, n: nat): seq<DeviceRow>
    requires n <= |outs|
  {
    if n == 0 then []
    else
      var before := Imported(outs, n - 1);
      match outs[n - 1]
      case Ok(device) => before + [device]
      case Err(_) => before
  }

  /** The error lines the first n outcomes contribute, in entry order. */
  function ImportErrors(outs: seq<Result<DeviceRow>>, n: nat): seq<string>
    requires n <= |outs|
  {
    if n == 0 then []
    else
      var before := ImportErrors(outs, n - 1);
      match outs[n - 1]
      case Ok(_) => before
      case Err(e) => before + [EntryLine(n - 1, e.message)]
  }

  /** Every entry contributes exactly one device or one error line. */
  lemma {:induction false} ImportAccounting(outs: seq<Result<DeviceRow>>, n: nat)
    requires n <= |outs|
    ensures |Imported(outs, n)| + |ImportErrors(outs, n)| == n
  {
    if n > 0 {
      ImportAccounting(outs, n - 1);
    }
  }

  /** Every error line names, counted from 1, an entry that failed, with
      that entry's message. */
  lemma {:induction false} ImportErrorsNameFailures(outs: seq<Result<DeviceRow>>, n: nat)
    requires n <= |outs|
    ensures forall line :: line in ImportErrors(outs, n) ==>
      exists i :: 0 <= i < n && outs[i].Err? && line == EntryLine(i, outs[i].error.message)
  {
    if n > 0 {
      ImportErrorsNameFailures(outs, n - 1);
      forall line | line in ImportErrors(outs, n)
        ensures exists i :: 0 <= i < n && outs[i].Err? && line == EntryLine(i, outs[i].error.message)
      {
        if line !in ImportErrors(outs, n - 1) {
          assert line == EntryLine(n - 1, outs[n - 1].error.message);
        }
      }
    }
  }

  /** The error lines of fewer entries are a prefix of those of more. */
  lemma {:induction false} ImportErrorsPrefix(outs: seq<Result<DeviceRow>>, i: nat, n: nat)
    requires i <= n <= |outs|
    ensures ImportErrors(outs, i) <= ImportErrors(outs, n)
  {
    if i < n {
      ImportErrorsPrefix(outs, i, n - 1);
    }
  }

  /** Conversely, every failing entry contributes its line, at the position
      after the lines of the entries before it, so the lines follow entry
      order. */
  lemma ImportErrorsListFailures(outs: seq<Result<DeviceRow>>, n: nat)
    requires n <= |outs|
    ensures forall i :: 0 <= i < n && outs[i].Err? ==>
      |ImportErrors(outs, i)| < |ImportErrors(outs, n)|
      && ImportErrors(outs, n)[|ImportErrors(outs, i)|] == EntryLine(i, outs[i].error.message)
    ensures forall i, j :: 0 <= i < j <= n && outs[i].Err? ==> |ImportErrors(outs, i)| < |ImportErrors(outs, j)|
  {
    forall i | 0 <= i < n && outs[i].Err?
      ensures |ImportErrors(outs, i)| < |ImportErrors(outs, n)|
      ensures ImportErrors(outs, n)[|ImportErrors(outs, i)|] == EntryLine(i, outs[i].error.message)
    {
      ImportErrorsPrefix(outs, i + 1, n);
    }
    forall i, j | 0 <= i < j <= n && outs[i].Err?
      ensures |ImportErrors(outs, i)| < |ImportErrors(outs, j)|
    {
      ImportErrorsPrefix(outs, i + 1, j);
    }
  }

  /** What every imported device satisfies: it belongs to the caller, is
      active, is valued at its positive purchase price and names a template
      and a category. */
  predicate ValidImport(userID: int, d: DeviceRow)
  {
    d.userID == userID && d.status == "active" && d.purchasePrice > 0.0 && d.currentValue == d.purchasePrice
    && d.templateID > 0 && d.categoryID > 0
  }

  /** An entry that passes becomes a valid imported device. */
  lemma ImportEntryValid(userID: int, req: CreateDeviceRequest)
    ensures ImportEntry(userID, req).Ok? ==> ValidImport(userID, ImportEntry(userID, req).value)
  {
    CreateRequestAccepted(req);
  }

  /** The devices kept are among the outcomes' devices. */
  lemma {:induction false} ImportedFromOutcomes(outs: seq<Result<DeviceRow>>, n: nat)
    requires n <= |outs|
    ensures forall d :: d in Imported(outs, n) ==> exists i :: 0 <= i < n && outs[i] == Ok(d)
  {
    if n > 0 {
      ImportedFromOutcomes(outs, n - 1);
      forall d | d in Imported(outs, n)
        ensures exists i :: 0 <= i < n && outs[i] == Ok(d)
      {
        if d !in Imported(outs, n - 1) {
          assert outs[n - 1] == Ok(d);
        }
      }
    }
  }

  /** Every device of a batch import is a valid one of the caller's. */
  lemma ImportedDevicesValid(userID: int, reqs: seq<CreateDeviceRequest>)
    ensures forall d :: d in Imported(ImportOutcomes(userID, reqs), |reqs|) ==> ValidImport(userID, d)
  {
    var outs := ImportOutcomes(userID, reqs);
    ImportedFromOutcomes(outs, |reqs|);
    forall i | 0 <= i < |reqs|
      ensures outs[i].Ok? ==> ValidImport(userID, outs[i].value)
    {
      ImportOutcomeAt(userID, reqs, i);
      ImportEntryValid(userID, reqs[i]);
    }
  }

  /** One turn of the import loop: entry i goes through the create-request
      validation, then the purchase date, then the warranty date when there
      is one, and adds its device or its error line. */
  method ImportNext(userID: int, reqs: seq<CreateDeviceRequest>, i: nat, devices: seq<DeviceRow>, errors: seq<string>)
    returns (devices': seq<DeviceRow>, errors': seq<string>)
    requires i < |reqs|
    requires devices == Imported(ImportOutcomes(userID, reqs), i)
    requires errors == ImportErrors(ImportOutcomes(userID, reqs), i)
    ensures devices' == Imported(ImportOutcomes(userID, reqs), i + 1)
    ensures errors' == ImportErrors(ImportOutcomes(userID, reqs), i + 1)
  {
    var req := reqs[i];
    ghost var outs := ImportOutcomes(userID, reqs);
    ImportOutcomeAt(userID, reqs, i);
    devices', errors' := devices, errors;
    var err := CreateRequestError(req);
    if err.Some? {
      errors' := errors + [EntryLine(i, err.value.message)];
      return;
    }
    var purchaseDate := ParseDate(req.purchaseDate);
    if purchaseDate.None? {
      errors' := errors + [EntryLine(i, "invalid purchase date format")];
      return;
    }
    var warrantyDate: Option<Date> := None;
    if req.warrantyDate != "" {
      warrantyDate := ParseDate(req.warrantyDate);
      if warrantyDate.None? {
        errors' := errors + [EntryLine(i, "invalid warranty date format")];
        return;
      }
    }
    devices' := devices + [NewDevice(userID, req, purchaseDate.value, warrantyDate)];
  }

  /** BatchImportDevices. `insert` stands for the repository's batch insert
      and gives the number of devices it stored, or its database error; the
      second result is the list of devices handed to it. */
  method BatchImportDevices(userID: int, reqs: seq<CreateDeviceRequest>, insert: seq<DeviceRow> -> Result<int>)
    returns (r: Result<ImportReport>, devices: seq<DeviceRow>)
    ensures userID <= 0 || |reqs| == 0 || |reqs| > MaxImport ==> r.Err? && r.error.code == Param
    ensures userID > 0 && 0 < |reqs| <= MaxImport ==> devices == Imported(ImportOutcomes(userID, reqs), |reqs|)
    ensures userID > 0 && 0 < |reqs| <= MaxImport && insert(devices).Err? ==> r.Err? && r.error.code == Database
    ensures userID > 0 && 0 < |reqs| <= MaxImport && insert(devices).Ok? ==>
      var stored := insert(devices).value;
      r == Ok(ImportReport(|reqs|, stored, |reqs| - stored, ImportErrors(ImportOutcomes(userID, reqs), |reqs|)))
  {
    devices := [];
    if userID <= 0 {
      return Fail(Param, "invalid user ID"), devices;
    }
    if |reqs| == 0 {
      return Fail(Param, "the device list must not be empty"), devices;
    }
    if |reqs| > MaxImport {
      return Fail(Param, "at most 100 devices may be imported at once"), devices;
    }
    var errors;
    devices, errors := ImportAll(userID, reqs);
    r := InsertImported(|reqs|, devices, errors, insert);
  }

  /** The end of BatchImportDevices: the batch insert and the report. */
  method InsertImported(total: nat, devices: seq<DeviceRow>, errors: seq<string>, insert: seq<DeviceRow> -> Result<int>)
    returns (r: Result<ImportReport>)
    ensures insert(devices).Err? ==> r.Err? && r.error.code == Database
    ensures insert(devices).Ok? ==>
      r == Ok(ImportReport(total, insert(devices).value, total - insert(devices).value, errors))
  {
    var inserted := insert(devices);
    if inserted.Err? {
      return Fail(Database, "failed to import the devices");
    }
    var successCount := inserted.value;
    return Ok(ImportReport(total, successCount, total - successCount, errors));
  }

  /** The import loop of BatchImportDevices over all entries. */
  method ImportAll(userID: int, reqs: seq<CreateDeviceRequest>) returns (devices: seq<DeviceRow>, errors: seq<string>)
    ensures devices == Imported(ImportOutcomes(userID, reqs), |reqs|)
    ensures errors == ImportErrors(ImportOutcomes(userID, reqs), |reqs|)
  {
    ghost var outs := ImportOutcomes(userID, reqs);
    devices, errors := [], [];
    var i := 0;
    while i < |reqs|
      invariant 0 <= i <= |reqs|
      invariant devices == Imported(outs, i)
      invariant errors == ImportErrors(outs, i)
    {
      devices, errors := ImportNext(userID, reqs, i, devices, errors);
      i := i + 1;
    }
  }

  /** The counts of a report add up: every entry is a stored device or an
      error line, and failures are the entries not stored. */
  lemma ImportReportCounts(outs: seq<Result<DeviceRow>>, insert: seq<DeviceRow> -> Result<int>)
    ensures var devices := Imported(outs, |outs|);
      && |devices| + |ImportErrors(outs, |outs|)| == |outs|
      && (insert(devices) == Ok(|devices|) ==> |outs| - insert(devices).value == |ImportErrors(outs, |outs|)|)
  {
    ImportAccounting(outs, |outs|);
  }

  // ---------------------------------------------------------------------
  // UploadDeviceImage

  /** The media types an uploaded image may have. */
  const ImageTypes: set<string> := {"image/jpeg", "image/jpg", "image/png", "image/gif"}

  /** The extensions, lower-cased, whose files count as images. */
  const ImageExtensions: set<string> := {".jpeg", ".jpg", ".png", ".gif"}

  /** The largest accepted upload, 5 MiB. */
  const MaxImageSize: int := 5 * 1024 * 1024

  /** The type gate: the declared Content-Type, or the type named by the
      file's lower-cased extension, is an image type. */
  predicate ImageTypeAllowed(contentType: string, filename: string)
  {
    contentType in ImageTypes || "image/" + TrimPrefix(ToLower(Ext(filename)), ".") in ImageTypes
  }

  /** When the Content-Type is not an image type, the file passes exactly
      when its extension, lower-cased, is one of the image extensions. */
  lemma ImageTypeByExtension(contentType: string, filename: string)
    requires contentType !in ImageTypes
    ensures ImageTypeAllowed(contentType, filename) <==> ToLower(Ext(filename)) in ImageExtensions
  {
    var x := ToLower(Ext(filename));
    assert x != [] ==> x[0] == LowerChar(Ext(filename)[0]) == '.';
    ImageTypeSuffix(TrimPrefix(x, "."));
    DottedExtension(x);
  }

  /** The image types are "image/" followed by one of the bare extensions. */
  lemma ImageTypeSuffix(t: string)
    ensures "image/" + t in ImageTypes <==> t in {"jpeg", "jpg", "png", "gif"}
  {
    var s := "image/" + t;
    assert t == s[6..];
    if s == "image/jpeg" { assert t == "jpeg"; }
    else if s == "image/jpg" { assert t == "jpg"; }
    else if s == "image/png" { assert t == "png"; }
    else if s == "image/gif" { assert t == "gif"; }
    if t == "jpeg" { assert s == "image/jpeg"; }
    else if t == "jpg" { assert s == "image/jpg"; }
    else if t == "png" { assert s == "image/png"; }
    else if t == "gif" { assert s == "image/gif"; }
  }

  /** A string that is empty or starts with a dot is an image extension
      exactly when what follows the dot is a bare one. */
  lemma DottedExtension(x: string)
    requires x == [] || x[0] == '.'
    ensures x in ImageExtensions <==> TrimPrefix(x, ".") in {"jpeg", "jpg", "png", "gif"}
  {
    if x != [] {
      assert HasPrefix(x, ".");
      var t := TrimPrefix(x, ".");
      assert x == "." + t;
      assert t == x[1..];
      if x == ".jpeg" { assert t == "jpeg"; }
      else if x == ".jpg" { assert t == "jpg"; }
      else if x == ".png" { assert t == "png"; }
      else if x == ".gif" { assert t == "gif"; }
      if t == "jpeg" { assert x == ".jpeg"; }
      else if t == "jpg" { assert x == ".jpg"; }
      else if t == "png" { assert x == ".png"; }
      else if t == "gif" { assert x == ".gif"; }
    }
  }

  datatype ImageUpload = ImageUpload(imageID: int, deviceID: int, imageURL: string, imageType: string, sortOrder: int)

  /** The URL of a stored upload: the files live under /uploads/devices/ as
      device_<id>_<unix time>_<original name>. */
  function ImageURL(deviceID: int, timestamp: int, filename: string): (url: string)
    ensures HasPrefix(url, "/uploads/devices/device_")
    ensures |filename| <= |url| && url[|url| - |filename|..] == filename
  {
    var dir := "/uploads/devices/device_";
    var stamp := FormatInt(deviceID) + "_" + FormatInt(timestamp) + "_";
    assert (dir + (stamp + filename))[..|dir|] == dir;
    assert (dir + stamp + filename)[|dir + stamp|..] == filename;
    dir + stamp + filename
  }

  /** The middle of an image URL reads back: after the directory, the name
      splits at '_' into "device", the device ID and the upload time, with
      the original file name after them, for 64-bit IDs and times. */
  lemma ImageURLReadsBack(deviceID: int, timestamp: int, filename: string)
    requires MinInt64 <= deviceID <= MaxInt64 && MinInt64 <= timestamp <= MaxInt64
    ensures var url := ImageURL(deviceID, timestamp, filename);
      && |"/uploads/devices/"| <= |url|
      && var pieces := Split(url[|"/uploads/devices/"|..], '_');
      && |pieces| >= 3 && pieces[0] == "device" && pieces[3..] == Split(filename, '_')
      && Atoi(pieces[1]) == Some(deviceID) && Atoi(pieces[2]) == Some(timestamp)
  {
    var id := FormatInt(deviceID);
    var stamp := FormatInt(timestamp);
    FormatIntChars(deviceID, '_');
    FormatIntChars(timestamp, '_');
    var r2 := stamp + ['_'] + filename;
    var r1 := id + ['_'] + r2;
    var url := ImageURL(deviceID, timestamp, filename);
    assert url == "/uploads/devices/" + ("device" + ['_'] + r1);
    var name := url[|"/uploads/devices/"|..];
    assert name == "device" + ['_'] + r1;
    SplitFirst("device", '_', r1);
    SplitFirst(id, '_', r2);
    SplitFirst(stamp, '_', filename);
    ThreeHeads("device", id, stamp, Split(name, '_'), Split(r1, '_'), Split(r2, '_'), Split(filename, '_'));
    AtoiFormatInt(deviceID);
    AtoiFormatInt(timestamp);
  }

  /** Peeling three heads off a list, one at a time. */
  lemma ThreeHeads<T>(a: T, b: T, c: T, s0: seq<T>, s1: seq<T>, s2: seq<T>, s3: seq<T>)
    requires s0 == [a] + s1 && s1 == [b] + s2 && s2 == [c] + s3
    ensures |s0| >= 3 && s0[0] == a && s0[1] == b && s0[2] == c && s0[3..] == s3
  {
    assert s0[3..] == s1[2..] == s2[1..];
  }

  /** UploadDeviceImage. `device` is whether the caller owns a device with
      that ID, or the lookup's database error; `timestamp` is the current
      Unix time, which the stored file name carries; `insertFailed` is
      whether storing the image record reported a database error, and
      `newID` the ID that storing it writes back into the record. An upload
      is accepted exactly when the IDs are positive, the device exists, the
      type gate passes, the file is at most 5 MiB and the record is stored;
      the URL then is the one ImageURL names, which ends with the original
      file name. */
  function UploadImage(deviceID: int, userID: int, device: Result<bool>, filename: string, contentType: string,
                       size: int, timestamp: int, imageType: string, sortOrder: int, insertFailed: bool,
                       newID: int)
    : (r: Result<ImageUpload>)
    ensures r.Ok? <==> deviceID > 0 && userID > 0 && device == Ok(true) && ImageTypeAllowed(contentType, filename)
                       && size <= MaxImageSize && !insertFailed
    ensures deviceID <= 0 || userID <= 0 ==> r.Err? && r.error.code == Param
    ensures deviceID > 0 && userID > 0 && device.Err? ==> r.Err? && r.error.code == Database
    ensures deviceID > 0 && userID > 0 && device == Ok(false) ==> r.Err? && r.error.code == NotFound
    ensures (deviceID > 0 && userID > 0 && device == Ok(true)
             && !(ImageTypeAllowed(contentType, filename) && size <= MaxImageSize)) ==> r.Err? && r.error.code == Param
    ensures (deviceID > 0 && userID > 0 && device == Ok(true) && ImageTypeAllowed(contentType, filename)
             && size <= MaxImageSize && insertFailed) ==> r.Err? && r.error.code == Database
    ensures r.Ok? ==> r.value.imageID == newID && r.value.deviceID == deviceID
                      && r.value.imageType == imageType && r.value.sortOrder == sortOrder
                      && r.value.imageURL == ImageURL(deviceID, timestamp, filename)
                      && HasPrefix(r.value.imageURL, "/uploads/devices/device_")
                      && |filename| <= |r.value.imageURL|
                      && r.value.imageURL[|r.value.imageURL| - |filename|..] == filename
  {
    if deviceID <= 0 || userID <= 0 then Fail(Param, "invalid parameters")
    else if device.Err? then Fail(Database, "failed to load the device")
    else if !device.value then Fail(NotFound, "device not found")
    else if !ImageTypeAllowed(contentType, filename) then Fail(Param, "unsupported file type; JPEG, PNG and GIF are accepted")
    else if size > MaxImageSize then Fail(Param, "the file must not be larger than 5MB")
    else if insertFailed then Fail(Database, "failed to store the image record")
    else
      Ok(ImageUpload(newID, deviceID, ImageURL(deviceID, timestamp, filename), imageType, sortOrder))
  }
}
