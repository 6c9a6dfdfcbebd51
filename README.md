# lilidevice backend: the service rules, in Dafny

This project models the rule-bearing core of the lilidevice backend, a Go
service for people who keep a register of their devices. It tracks their
prices and price alerts, tags them, and computes statistics over them. The
services bind HTTP requests to ORM queries. Between the two they apply a set
of self-contained rules. This project models those rules and proves what they promise:

- **Device templates** (`TemplateService`): validating a template's field
  list, checking submitted device data against it, the `min:`/`max:`/`regex:`
  rule language, the list paging clamps and the partial update of a template.
- **Category hierarchy** (`CategoryService`): `buildCategoryTree`, which
  links a flat list into a forest in place, and the ownership guards of
  creating, updating, deleting and re-ordering custom categories.
- **Devices** (`DeviceService`, `Paging`):
  - list-parameter normalisation and the sort whitelist;
  - create-request validation;
  - the "empty means keep" update merge;
  - status changes;
  - batch-import accounting;
  - the image-upload gate.
- **Prices** (`PriceService`, `PriceRepository`):
  - alert validation, update and triggering;
  - the trigger filter;
  - the upsert keyed by device and user;
  - batch price updates;
  - the market summary over a sorted list;
  - prediction-point counting;
  - change-rate classification and trend analysis.
- **Statistics** (`StatisticsRepository`, `StatisticsService`):
  - device-age buckets with Go's truncating average;
  - comparison rows;
  - device-ID list parsing;
  - parameter defaults;
  - the export URL.
- **Tags** (`TagsService`): the create, update and delete guards, the merge, list defaults and per-category counts.
- **CORS** (`CorsMiddleware`): the Allow-Origin decision and the fixed headers.

`Common` holds the error codes and `Result`. `GoLib` models the part of Go's
`strings`, `strconv` and `path/filepath` packages that the rules depend on:
`TrimSpace`, `Split`/`Join`, `ToLower`, `Atoi`/`FormatInt`, `Ext` and
truncating division. `Dates` models `time.Parse` with the layout
`2006-01-02`. Records the services change in place are classes (`Device`,
`Category`, `DeviceTemplate`, `Price`, `PriceAlert`, `Tag`), each with a
`Row()` value snapshot. Records that are only read are datatypes.

Repository results are inputs. A read is a `Result` whose error is the
database error the repository reported: `Result<Option<Row>>` for a lookup,
`Result<bool>` or `Result<nat>` for an existence check or a count, a
function returning a `Result` for a parameterised query. A write, and the
load of an object the service then changes, is a `bool` flag saying whether
it failed; the object itself is null when the lookup found nothing. For
every operation in the "## Model" table, each database error the service
maps to an error code is modelled with that code. The current time, JSON
marshalling, regular-expression matching and float parsing
(`strconv.ParseFloat`) are also parameters. `verifyDeviceOwnership` is the parameter
`owns`.

Where the code and its description differ, the model follows the code:

- `validateCreateDeviceRequest` checks the purchase price before the purchase
  date (internal/device/service/device_service.go:867-872).
- A metric named `device_id` overwrites the device ID in a comparison row.
- `UpdateCustomCategory` does not apply the rule that a parent must be a
  system category or one of the caller's own; only creation checks it.
- `UpdatePriceAlert` stores a request without validating it. `UpdateSkipsValidation`
  shows that it can store an unknown alert type.

## Model

| member | source | states |
|---|---|---|
| TemplateService.Contains | internal/device/service/template_service.go:466-473 | the loop finds the value exactly when it occurs in the slice |
| TemplateService.FieldDefError | internal/device/service/template_service.go:362-384 | one field passes exactly when its name and label are non-empty, its type is one of the five, a select has options and the name was not seen; every failure is a parameter error |
| TemplateService.ValidateTemplateFields | internal/device/service/template_service.go:357-388 | the loop with its name set returns the error of the list specification |
| TemplateService.SchemaErrorNoneIff | internal/device/service/template_service.go:357-388 | a field list passes exactly when every field is well formed, no name was seen before and all names are distinct |
| TemplateService.SchemaAccepted | internal/device/service/template_service.go:357-388 | an accepted list has well-formed fields with pairwise distinct names, and conversely |
| TemplateService.SchemaErrorIsFirstFailure | internal/device/service/template_service.go:360-386 | a rejected list is rejected with the error of its first failing field, all fields before it passing |
| TemplateService.NameSetCons | internal/device/service/template_service.go:369-373 | the names seen after a prefix are the first name plus those of the rest of the prefix |
| TemplateService.RuleErrorCases | internal/device/service/template_service.go:433-460 | `min:n` fails iff the byte length is below n, `max:n` iff it is above n, an unparsable n or an unknown piece is ignored, and `regex:` fails unless the pattern matches |
| TemplateService.ValidateByRules | internal/device/service/template_service.go:428-463 | the early-exit loop over the `\|`-split pieces returns the first failing piece's error |
| TemplateService.RulesErrorNoneIff | internal/device/service/template_service.go:428-463 | the rules give no error exactly when every piece passes |
| TemplateService.RulesErrorIsFirstFailure | internal/device/service/template_service.go:432-460 | a failure is the error of some piece with every earlier piece passing |
| TemplateService.EmptyRulesPass | internal/device/service/template_service.go:428-433 | an empty rule string checks nothing |
| TemplateService.MinRule | internal/device/service/template_service.go:438-443 | the single rule `min:n` fails exactly when the value has fewer than n bytes |
| TemplateService.MaxRule | internal/device/service/template_service.go:444-449 | the single rule `max:n` fails exactly when the value has more than n bytes |
| TemplateService.SingleRule | internal/device/service/template_service.go:430-449 | a rule written as `min:`/`max:` plus a decimal is one piece, is its own trimmed form and reads back its bound |
| TemplateService.TypeErrorCases | internal/device/service/template_service.go:391-425 | a select value is valid iff it is an option, a text value iff it has at most 1000 bytes, a textarea always, a date iff it parses, a number iff it is a float, any other type always |
| TemplateService.FieldValueAccepted | internal/device/service/template_service.go:391-425 | a value is accepted iff its type check passes and, when the field has rules, the rules pass |
| TemplateService.CheckFieldsPrefix | internal/device/service/template_service.go:275-306 | checking one more field is one step of the per-field check |
| TemplateService.ValidateDeviceData | internal/device/service/template_service.go:264-309 | an error of the template lookup (parameter, server, not found, undecodable fields) is passed on; otherwise the answer is the per-field check of the template's fields |
| TemplateService.GetTemplateFields | internal/device/service/template_service.go:77-99 | a bad ID is a parameter error, a failed lookup a server error, a missing template not found; an empty Fields text gives no fields, a text that does not decode a server error, otherwise its decoding |
| TemplateService.CheckFieldsConsistent | internal/device/service/template_service.go:275-306 | the data is valid iff nothing is missing or invalid, and the error map has a key for exactly the missing and invalid fields |
| TemplateService.MissingNamesSnoc | internal/device/service/template_service.go:283-290 | the missing names of a longer template extend those of its prefix |
| TemplateService.CheckFieldsMissing | internal/device/service/template_service.go:283-290 | Missing lists exactly the required fields that are absent, nil or empty, in template order |
| TemplateService.CheckFieldsInvalid | internal/device/service/template_service.go:292-303 | Invalid holds exactly the present fields whose value fails its check, with the submitted value |
| TemplateService.FailingNamesSnoc | internal/device/service/template_service.go:292-303 | the failing names of a longer template add the last field exactly when it fails |
| TemplateService.MissingNamesOf | internal/device/service/template_service.go:283-290 | every missing name is the name of a template field |
| TemplateService.MissingNotInvalid | internal/device/service/template_service.go:283-297 | with distinct names, a missing field is never also invalid |
| TemplateService.OptionalAbsentSkipped | internal/device/service/template_service.go:292-295 | an optional field that is absent or nil changes nothing |
| TemplateService.TemplatesListPage | internal/device/service/template_service.go:33-56 | the answer carries the query's templates and total; the page is the request's, or 1 when not positive; the limit is the request's, 10 when not positive and 100 above 100; the page count is the ceiling of total over limit |
| TemplateService.GetTemplatesList | internal/device/service/template_service.go:31-57 | the query gets the request's category ID and active flag unchanged with the clamped page and size; its error is a server error, otherwise the answer is TemplatesListPage of the templates and total it returned |
| TemplateService.PopularTemplatesLimit | internal/device/service/template_service.go:248-253 | the limit lies in 1..50, defaulting to 10 and capped at 50 |
| TemplateService.GetPopularTemplates | internal/device/service/template_service.go:247-261 | the query gets the clamped limit; its error is a server error, otherwise its templates |
| TemplateService.MergeTemplateIdempotent | internal/device/service/template_service.go:180-214 | merging the same request twice is merging it once |
| TemplateService.MergeTemplateEmpty | internal/device/service/template_service.go:180-214 | an empty request changes only IsActive |
| TemplateService.TemplateUpdateCases | internal/device/service/template_service.go:166-222 | a bad ID is a parameter error; a failed category lookup a server error and a missing category not found, with only the name assigned; a bad schema its own error and a schema that does not encode a server error, with name, category and texts assigned; a failed write a server error keeping the merge; the update succeeds iff every check passes, and then stores and returns the merge with distinct field names |
| TemplateService.UpdateTemplate | internal/device/service/template_service.go:160-222 | a bad ID is a parameter error, a failed load a server error, a missing template not found, each leaving the object; otherwise the object's new fields and the result are those of the update specification |
| TemplateService.StoreTemplateSchema | internal/device/service/template_service.go:200-221 | the schema, active flag and write on the object give the result and state of the specification's last step |
| TemplateService.SetCategoryAndText | internal/device/service/template_service.go:183-199 | category, description and icon are overwritten only when the request carries them |
| TemplateService.SetSchemaAndState | internal/device/service/template_service.go:200-214 | fields are overwritten only when the request has some; IsActive always |
| Paging.ClampPage | internal/device/service/device_service.go:38-40 | the page is at least 1, and a valid page is kept |
| Paging.ClampLimit | internal/device/service/device_service.go:41-46 | the limit lies in 1..max: the default 10 below 1, max above it, otherwise unchanged |
| Paging.ClampIdempotent | internal/device/service/device_service.go:38-46 | clamping a clamped page or limit changes nothing |
| Paging.TotalPagesIsCeiling | internal/device/service/device_service.go:81 | the page count is the least one whose pages hold all items, and 0 exactly for no items |
| CategoryService.Rows | internal/device/service/category_service.go:377-396 | the snapshot list has one row per category, in order |
| CategoryService.IdIndexFacts | internal/device/service/category_service.go:379-383 | the ID map holds every ID, each pointing to the last category with that ID |
| CategoryService.IdIndexDomain | internal/device/service/category_service.go:379-383 | every seen ID is a key, and every key points to a category with that ID |
| CategoryService.IdIndexLast | internal/device/service/category_service.go:379-383 | a category is the one its ID maps to exactly when no later category has its ID |
| CategoryService.BuildForest | internal/device/service/category_service.go:377-396 | the stored fields are unchanged, the roots are the categories with the root parent in input order and every category's children are those its map entry collected |
| CategoryService.LinkCategories | internal/device/service/category_service.go:385-393 | the linking loop appends each category to the roots or to its parent's children |
| CategoryService.MapCategories | internal/device/service/category_service.go:379-383 | the first loop resets every child list and builds the ID map |
| CategoryService.Place | internal/device/service/category_service.go:386-392 | placing one category extends the roots by it exactly when it is a root, and keeps the loop's state (rows unchanged, roots so far, each mapped category's children so far) one category further |
| CategoryService.AttachChild | internal/device/service/category_service.go:390-391 | a non-root category whose parent ID is mapped joins that category's children, keeping the loop's state one category further |
| CategoryService.ClearChildren | internal/device/service/category_service.go:382 | the children become empty and nothing else changes |
| CategoryService.AddChild | internal/device/service/category_service.go:391 | the child is appended and nothing else changes |
| CategoryService.BuildCategoryTree | internal/device/service/category_service.go:377-396 | the roots are exactly the categories with parent ID 0, in input order; the stored fields are unchanged |
| CategoryService.RootsOfFilter | internal/device/service/category_service.go:386-389 | a category is a root iff it is an input category with the root parent |
| CategoryService.ChildrenOfFilter | internal/device/service/category_service.go:390-391 | a category is a child of an ID iff it is an input, non-root category naming that ID as parent |
| CategoryService.UniqueIdsChildren | internal/device/service/category_service.go:380-392 | with unique IDs, every category's children are exactly the inputs naming it as parent, in input order |
| CategoryService.OrphanDropped | internal/device/service/category_service.go:390 | a category whose non-root parent is not in the input is neither a root nor anyone's child |
| CategoryService.CategoriesQuery | internal/device/service/category_service.go:22-53 | a non-positive user is a parameter error; a positive parent ID lists its children, otherwise the type defaults to "all" |
| CategoryService.GetCategoriesList | internal/device/service/category_service.go:22-53 | the stored fields never change; a bad request is the query error, a failed query a server error with every child list untouched; otherwise the roots at parent 0 and every category's children as the linking loop leaves them |
| CategoryService.ChildListingIsEmpty | internal/device/service/category_service.go:35-48 | when every fetched category has the requested parent p > 0, the listing is empty |
| CategoryService.GetCategoriesListRooted | internal/device/service/category_service.go:22-53 | as GetCategoriesList, but the tree is rooted at the requested parent, with every category's children linked from that root |
| CategoryService.ChildListingRooted | internal/device/service/category_service.go:35-48 | rooted at the parent, the listing returns every fetched child in order |
| CategoryService.CreateCustomCategory | internal/device/service/category_service.go:84-137 | creation succeeds iff the user is positive, the name non-empty and free, a given parent exists and is a system or own category, and the insert succeeds; a failed name check, parent lookup or insert is a server error, a missing parent not found, a foreign parent forbidden; the new category is custom, the caller's, active, carries the request's fields and the ID the insert assigns, with no devices |
| CategoryService.MergeCategoryKeepsOwnership | internal/device/service/category_service.go:159-197 | the merge keeps ID, type, owner and state, keeps the sort order unless positive, and is idempotent |
| CategoryService.CategoryUpdateCases | internal/device/service/category_service.go:140-205 | bad IDs, a foreign or system category, a failed name check (server) and a taken name change nothing; a failed parent check (server), a missing parent and a self-parent keep the new name and description; a failed write (server) keeps the merge; success iff every check passes, storing and returning the merge |
| CategoryService.ReparentAndSaveCases | internal/device/service/category_service.go:173-204 | after renaming: a failed parent check (server), a missing parent and a self-parent keep the renamed row; otherwise the rest of the merge is applied and the write decides between a server error and success |
| CategoryService.UpdateCustomCategory | internal/device/service/category_service.go:140-205 | bad IDs are a parameter error, a failed load a server error, a missing category not found; otherwise the object's fields and the result are those of the update specification |
| CategoryService.ReparentAndSaveCategory | internal/device/service/category_service.go:173-204 | the parent checks, remaining assignments and write on the object give the result and state of the specification's last step |
| CategoryService.SetNameAndDescription | internal/device/service/category_service.go:160-173 | name and description change only when the request carries them |
| CategoryService.SetLooks | internal/device/service/category_service.go:188-196 | icon and colour change only when given, the sort order only when positive; the parent is not touched here |
| CategoryService.DeleteCustomCategory | internal/device/service/category_service.go:208-251 | deletion succeeds iff the category exists, is the caller's custom one, has no devices and no children and the delete succeeds, checked in that order; each failed lookup, count or delete is a server error, devices or children a business error |
| CategoryService.SortCategories | internal/device/service/category_service.go:284-307 | an empty order list or a non-positive user is a parameter error and a failed write a server error; otherwise one ID/order pair per item, in order |
| DeviceService.AddIf | internal/device/service/device_service.go:48-73 | a conditional parameter adds its key exactly when the condition holds |
| DeviceService.AddIfLookup | internal/device/service/device_service.go:48-73 | looking up after a conditional add finds the value exactly for that key |
| DeviceService.FilterParamsLookup | internal/device/service/device_service.go:50-58 | category, status and trimmed search are forwarded only when set |
| DeviceService.SortParamsLookup | internal/device/service/device_service.go:59-73 | the sort is forwarded only if whitelisted, the order only with it and only as "asc" or "desc" |
| DeviceService.ListParamsLookup | internal/device/service/device_service.go:38-73 | every parameter of the query map is the one the request determines |
| DeviceService.AddFilters | internal/device/service/device_service.go:50-58 | the filter assignments give the filter specification |
| DeviceService.AddSort | internal/device/service/device_service.go:59-73 | the sort assignments give the sort specification |
| DeviceService.GetDevicesList | internal/device/service/device_service.go:31-90 | a non-positive user is a parameter error; otherwise the query gets the normalised parameters, its error is a database error, and the page count is the ceiling |
| DeviceService.FirstFailureSpec | internal/device/service/device_service.go:851-886 | a check chain passes iff every check passes, and otherwise reports the first failing one |
| DeviceService.CreateRequestErrorIsFirstFailure | internal/device/service/device_service.go:851-886 | validateCreateDeviceRequest reports the first failing check as a parameter error |
| DeviceService.CreateRequestAccepted | internal/device/service/device_service.go:851-886 | a request passes iff the IDs are positive, name, brand, model and date are non-blank, the price positive and the condition empty or known |
| DeviceService.Keep | internal/device/service/device_service.go:218-244 | an empty requested string keeps the stored one |
| DeviceService.KeepPrice | internal/device/service/device_service.go:245-247 | the price changes only when positive |
| DeviceService.KeepSpecifications | internal/device/service/device_service.go:268-274 | the specification text changes only when the request has a map |
| DeviceService.MergeDeviceKeeps | internal/device/service/device_service.go:217-274 | the merge never touches ID, owner, template, category, value, status or sale fields |
| DeviceService.MergeDeviceEmpty | internal/device/service/device_service.go:217-274 | an empty request leaves the device unchanged |
| DeviceService.MergeDeviceIdempotent | internal/device/service/device_service.go:217-274 | merging the same request twice is merging it once |
| DeviceService.DeviceUpdateCases | internal/device/service/device_service.go:217-283 | the update succeeds iff the given dates parse, the specifications encode and the write succeeds; a bad date or specification map is a parameter error, a failed write a database error; a bad purchase date leaves only the texts assigned, bad specifications everything but them, and otherwise the device is the merge |
| DeviceService.UpdateDevice | internal/device/service/device_service.go:203-283 | invalid IDs are a parameter error, a failed load a database error, a missing device not found; otherwise the device's new fields and the result follow the update specification |
| DeviceService.SaveDeviceNotes | internal/device/service/device_service.go:262-283 | condition, notes, specifications and the write on the object give the result and state of the specification's last step |
| DeviceService.SetDeviceTexts | internal/device/service/device_service.go:218-247 | the text fields and the price change as the merge says |
| DeviceService.SetPurchasePrice | internal/device/service/device_service.go:245-247 | the price changes only when positive |
| DeviceService.SetPurchaseDate | internal/device/service/device_service.go:248-254 | the parsed purchase date is stored |
| DeviceService.SetWarrantyDate | internal/device/service/device_service.go:255-261 | the parsed warranty date is stored |
| DeviceService.SetDeviceNames | internal/device/service/device_service.go:218-226 | name, brand and model change only when given |
| DeviceService.SetDeviceHardware | internal/device/service/device_service.go:227-235 | serial number, colour and storage change only when given |
| DeviceService.SetDeviceSpecs | internal/device/service/device_service.go:236-244 | memory, processor and screen size change only when given |
| DeviceService.SetDeviceNotes | internal/device/service/device_service.go:262-267 | condition and notes change only when given |
| DeviceService.StatusUpdateCases | internal/device/service/device_service.go:310-354 | a status change passes iff the IDs are positive, the status known, a sale has a positive price and a parseable date, and the write succeeds; a failed check is a parameter error, a failed write a database error; sale fields are passed exactly for a sale |
| DeviceService.ImportAccounting | internal/device/service/device_service.go:425-481 | every entry is either imported or reported |
| DeviceService.ImportErrorsNameFailures | internal/device/service/device_service.go:425-481 | every error line belongs to a failing entry, prefixed with its 1-based index |
| DeviceService.ImportErrorsListFailures | internal/device/service/device_service.go:425-481 | conversely, every failing entry contributes its numbered line, placed after the lines of the entries before it, so lines follow entry order |
| DeviceService.ImportErrorsPrefix | internal/device/service/device_service.go:425-481 | the error lines of fewer entries are a prefix of those of more |
| DeviceService.ImportEntryValid | internal/device/service/device_service.go:425-481 | an accepted entry yields a device that passed validation and belongs to the caller |
| DeviceService.ImportedFromOutcomes | internal/device/service/device_service.go:425-481 | only passing entries reach the repository |
| DeviceService.ImportedDevicesValid | internal/device/service/device_service.go:425-481 | every imported device is valid and the caller's |
| DeviceService.ImportNext | internal/device/service/device_service.go:425-481 | one loop step appends the entry's device or its error |
| DeviceService.ImportAll | internal/device/service/device_service.go:425-481 | the loop over all entries gives the imported devices and the error lines |
| DeviceService.ImportOutcomeAt | internal/device/service/device_service.go:425-481 | each entry's outcome is its own validation result, whatever the other entries |
| DeviceService.BatchImportDevices | internal/device/service/device_service.go:411-495 | zero or more than 100 entries are rejected; the insert gets the valid devices, its error is a database error, otherwise the report counts the inserted devices and FailCount is total minus success |
| DeviceService.InsertImported | internal/device/service/device_service.go:483-494 | a failed insert is a database error, otherwise the report with the inserted count and total minus it as failures |
| DeviceService.ImportReportCounts | internal/device/service/device_service.go:484-494 | devices and errors add up to the entries; with a full insert the failures are the errors |
| DeviceService.ImageTypeByExtension | internal/device/service/device_service.go:527-540 | an unlisted content type is accepted iff the lower-cased extension is allowed |
| DeviceService.ImageTypeSuffix | internal/device/service/device_service.go:527-532 | "image/" plus a suffix is allowed iff the suffix is jpeg, jpg, png or gif |
| DeviceService.DottedExtension | internal/device/service/device_service.go:535-538 | a dotted extension is allowed iff its name without the dot is |
| DeviceService.ImageURL | internal/device/service/device_service.go:549-551 | the URL starts with the upload directory and ends with the file name |
| DeviceService.ImageURLReadsBack | internal/device/service/device_service.go:549-550 | for 64-bit IDs and times, the file name splits at `_` into `device`, the device ID and the upload time (each parsing back) and then the original name's own pieces |
| DeviceService.UploadImage | internal/device/service/device_service.go:512-573 | the upload passes iff the IDs are positive, the device exists, the type is allowed, the size at most 5 MiB and the record is stored; a failed lookup or insert is a database error; the answer carries the record ID the insert assigns, the request's type and order, and the URL ImageURL names, which ends with the file name |
| PriceRepository.ShouldTriggerCases | internal/price/repository/price_repository.go:325-344 | absolute drop at or below, absolute rise at or above, target at or below whatever the threshold type, percentage always, unknown type never |
| PriceRepository.TriggeringIsSubsequence | internal/price/repository/price_repository.go:321-351 | the triggered alerts are a subsequence of the fetched ones |
| PriceRepository.TriggeringMembers | internal/price/repository/price_repository.go:321-351 | an alert is triggered iff it was fetched and its rule fires |
| PriceRepository.CheckPriceAlerts | internal/price/repository/price_repository.go:321-351 | the flag loop returns the triggering alerts in fetched order |
| PriceRepository.Upserted | internal/price/repository/price_repository.go:36-54 | the stored row is the new one except that an update keeps the existing ID and creation time |
| PriceRepository.UpsertTable | internal/price/repository/price_repository.go:36-54 | the table gains the row's key and no other, and holds the upserted row there |
| PriceRepository.UpdateDevicePrice | internal/price/repository/price_repository.go:32-55 | the new table is the upsert, and the price object takes the stored ID and creation time |
| PriceService.AlertRequestError | internal/price/service/price_service.go:810-833 | a request passes iff its type and threshold type are known and the threshold positive, checked in that order |
| PriceService.CreateAlert | internal/price/service/price_service.go:280-320 | an alert is created iff the IDs are positive, the device is owned, the request valid and the insert succeeds; a bad request gives its validation error and a failed insert a database error; the new alert copies the request's type, threshold and enabled flag, is active and never triggered, stores the marshalled methods or "" for none, and carries the ID and creation time the insert assigns |
| PriceService.MergeAlertFields | internal/price/service/price_service.go:392-409 | each field changes only when the request carries it |
| PriceService.MergeAlertEmpty | internal/price/service/price_service.go:392-409 | an empty request leaves the alert unchanged |
| PriceService.MergeAlertIdempotent | internal/price/service/price_service.go:392-409 | merging the same request twice is merging it once |
| PriceService.UpdatePriceAlert | internal/price/service/price_service.go:378-417 | invalid IDs are a parameter error, a failed load a database error, a missing alert not found; otherwise the alert becomes the merge and the result is a database error exactly when the write fails |
| PriceService.MergeIntoAlert | internal/price/service/price_service.go:392-409 | the stored alert becomes the merge of the request: each given field replaces the old one and nothing else changes |
| PriceService.UpdateSkipsValidation | internal/price/service/price_service.go:392-409 | an update can store an alert type that creation would reject |
| PriceService.Triggered | internal/price/service/price_service.go:798-803 | status becomes "triggered", the count grows by exactly 1, the time is stamped and nothing else changes |
| PriceService.TriggerAlert | internal/price/service/price_service.go:798-803 | the alert becomes its triggered row |
| PriceService.TriggeringDistinct | internal/price/service/price_service.go:785-795 | the triggered alerts of distinct alerts are distinct |
| PriceService.CheckAndTriggerAlerts | internal/price/service/price_service.go:785-795 | each fetched alert is triggered exactly when its rule fires, the others unchanged |
| PriceService.TrendStatus | internal/price/service/price_service.go:775-782 | rising above 1, falling below -1, otherwise stable |
| PriceService.NewPriceRow | internal/price/service/price_service.go:233-246 | the change and trend are set only with a prior price, the rate only when the old price is positive |
| PriceService.FetchPriceFromSources | internal/price/service/price_service.go:768-772 | the stand-in never fails and gives 1000 plus the ID modulo 100, between 901 and 1099 |
| PriceService.UpdatePriceOutcome | internal/price/service/price_service.go:209-277 | parameter, ownership, fetch (server) and write (database) errors in that order, each leaving the table; otherwise the device's row for the caller holds the new price and time, other rows are untouched and the answer reports the old price (0 if none), the new one, their difference and the stored rate |
| PriceService.FetchedAlertsMembers | internal/price/repository/price_repository.go:311-315 | the alert query returns exactly the table's alerts of the device that are enabled and active, whatever their user |
| PriceService.FetchedAlertsDistinct | internal/price/repository/price_repository.go:311-315 | the query returns each alert once |
| PriceService.FiresOnce | internal/price/service/price_service.go:798-803 | a fired alert is no longer active, so no later price fires it again |
| PriceService.UpdatePrice | internal/price/service/price_service.go:209-277 | the answer and the new table are those of the UpdatePrice specification, and each alert of the table is triggered exactly when the update succeeded and the query and rule select it |
| PriceService.BuildPrice | internal/price/service/price_service.go:232-246 | the price object written is the specification's new row |
| PriceService.TriggerFetched | internal/price/service/price_service.go:785-795 | with its query, the alert check fires exactly the device's enabled, active alerts whose rule holds |
| PriceService.BatchResultsPerDevice | internal/price/service/price_service.go:537-566 | one result per ID, in input order; a result succeeds iff its turn updates the price, and then reports the fetched price; a device not owned reports the access message |
| PriceService.CountsAddUp | internal/price/service/price_service.go:537-566 | successes plus failures are the results |
| PriceService.BatchTable | internal/price/service/price_service.go:537-566 | after the batch the table keeps every key, other users' rows are untouched, and each updated device holds its fetched price for the caller |
| PriceService.AlertFiresAtMostOnce | internal/price/service/price_service.go:537-566 | each alert fires at most once in a batch, even for a repeated device, and only when some turn updated its device |
| PriceService.RepeatedDeviceSeesFirstUpdate | internal/price/service/price_service.go:537-566 | listing device 5 twice with no stored price reports a change from 0 to 1005 and then none at 1005 |
| PriceService.BatchUpdateOne | internal/price/service/price_service.go:538-565 | a turn on the table as it stands: a device not owned fails and changes nothing, otherwise UpdatePrice runs and its result and table are the turn's |
| PriceService.BatchUpdateAll | internal/price/service/price_service.go:537-566 | the loop threads the prices table through the turns, so a repeated device sees the price an earlier turn stored; the results, the table and the counts are those of the batch specification and each alert ends as the turns that updated its device leave it |
| PriceService.BatchUpdatePrices | internal/price/service/price_service.go:523-569 | a non-positive user or an empty ID list is rejected and changes nothing; otherwise total is the number of IDs, the counts add up, and the table and alerts are those after the batch |
| PriceService.InsertSorted | internal/price/service/price_service.go:841 | inserting into a sorted list keeps it sorted |
| PriceService.InsertPermutes | internal/price/service/price_service.go:841 | insertion adds exactly the element |
| PriceService.SortPrices | internal/price/service/price_service.go:841 | the sorted list has the input's length |
| PriceService.SortPricesSorted | internal/price/service/price_service.go:841 | the sorted list is in ascending order |
| PriceService.SortPricesPermutes | internal/price/service/price_service.go:841 | the sorted list is a permutation of the input |
| PriceService.MedianBounds | internal/price/service/price_service.go:858-862 | the median lies between the first and last of a sorted list |
| PriceService.CalculateMarketSummary | internal/price/service/price_service.go:836-865 | the summing loop gives the summary specification |
| PriceService.TimesIsProduct | internal/price/service/price_service.go:851-855 | repeated addition is multiplication |
| PriceService.SumBounds | internal/price/service/price_service.go:851-855 | a sum of values in [lo, hi] lies between n·lo and n·hi |
| PriceService.DivisionBounds | internal/price/service/price_service.go:855 | dividing by a positive count keeps the bounds |
| PriceService.MeanBounds | internal/price/service/price_service.go:855 | the mean of values in [lo, hi] lies in [lo, hi] |
| PriceService.MeanBetween | internal/price/service/price_service.go:851-855 | the mean of a sorted list lies between its first and last |
| PriceService.SortedExtremes | internal/price/service/price_service.go:841-846 | the first and last sorted prices are prices and bound all prices |
| PriceService.SummaryExtremes | internal/price/service/price_service.go:836-865 | min and max are input prices bounding all of them, range is max - min and DataSources the count |
| PriceService.SummaryCentre | internal/price/service/price_service.go:851-862 | the median and the average lie between min and max |
| PriceService.PointDays | internal/price/service/price_service.go:725-734 | ceil(days/7) points at days 1, 8, 15, … up to the horizon |
| PriceService.PredictionPoints | internal/price/service/price_service.go:725-734 | the step-7 loop gives the point days |
| PriceService.PointDaysStable | internal/price/service/price_service.go:725-734 | the loop's exit value gives the same points as the horizon |
| PriceService.PredictionOf | internal/price/service/price_service.go:679-745 | fewer than 5 histories is insufficient; otherwise 90, 180 or 30 days, at most 30 histories used and ceil(days/7) points |
| PriceService.PerformPricePrediction | internal/price/service/price_service.go:679-745 | the method gives the prediction specification |
| PriceService.GetPricePrediction | internal/price/service/price_service.go:153-206 | parameter and ownership errors, a cached prediction, a database error, and fewer than 5 histories rejected; the period defaults to "30d" |
| PriceService.ChangeRate | internal/price/service/price_service.go:635-637 | the percentage change from the first to the last price, with Go's infinities and NaN for a zero start |
| PriceService.DirectionMatchesTrendStatus | internal/price/service/price_service.go:639-644 | up, down and stable match the rising, falling and stable of determineTrendStatus |
| PriceService.TrendStrength | internal/price/service/price_service.go:668-676 | strong at |rate| >= 10, moderate at >= 5, otherwise weak |
| PriceService.AnalyzeTrend | internal/price/service/price_service.go:624-659 | fewer than 2 histories is stable with zero reliability; otherwise the direction follows the change rate and reliability lies in [0, 1] |
| PriceService.GetPriceTrend | internal/price/service/price_service.go:111-150 | parameter and ownership errors; otherwise the overall trend and rate are the medium-term ones |
| StatisticsRepository.LabelsDistinct | internal/statistics/repository/statistics_repository.go:127 | the four bucket keys are distinct |
| StatisticsRepository.BucketOf | internal/statistics/repository/statistics_repository.go:129-134 | below 90, 90 to 180, 180 to 365, and 365 and over |
| StatisticsRepository.BucketCountsAddUp | internal/statistics/repository/statistics_repository.go:127-134 | the four counts sum to the number of rows |
| StatisticsRepository.AverageIsFloorOfMean | internal/statistics/repository/statistics_repository.go:135-136 | for non-negative ages the average is the floor of the mean |
| StatisticsRepository.AverageTruncatesTowardZero | internal/statistics/repository/statistics_repository.go:136 | for every negative total the average is the ceiling of the mean: between the total and 0, and one above the floor quotient when the count does not divide the total |
| StatisticsRepository.DeviceAgeStatistics | internal/statistics/repository/statistics_repository.go:127-137 | all four keys are present with their counts, and the average is the truncated mean or 0 |
| StatisticsRepository.MetricRowLookup | internal/statistics/repository/statistics_repository.go:179-180 | the row has "device_id" and every metric, each metric 0, and the ID unless a metric has that name |
| StatisticsRepository.ComparisonRow | internal/statistics/repository/statistics_repository.go:179-180 | the inner loop builds the row specification |
| StatisticsRepository.GetComparison | internal/statistics/repository/statistics_repository.go:175-184 | one row per ID, in input order |
| StatisticsService.Authenticate | internal/statistics/service/statistics_service.go:17 | a non-positive user is an auth error |
| StatisticsService.Defaulted | internal/statistics/service/statistics_service.go:34-35 | an empty value takes the default |
| StatisticsService.GetDevicesStatistics | internal/statistics/service/statistics_service.go:32-39 | auth first, then the "month"/"category" defaults and a database error |
| StatisticsService.GetValueAnalysis | internal/statistics/service/statistics_service.go:41-48 | auth first, period defaults to "month" |
| StatisticsService.GetDepreciationStatistics | internal/statistics/service/statistics_service.go:78-84 | auth first, period defaults to "month", then a database error |
| StatisticsService.GetSpendingStatistics | internal/statistics/service/statistics_service.go:86-93 | auth first, "year"/"month" defaults, then a database error |
| StatisticsService.GetInvestmentReturn | internal/statistics/service/statistics_service.go:103-110 | auth first, include_sold defaults to true |
| StatisticsService.GetHeatmap | internal/statistics/service/statistics_service.go:95-101 | auth first, an empty type is a parameter error |
| StatisticsService.ParsedIDsStep | internal/statistics/service/statistics_service.go:55-57 | one more piece adds its value exactly when it parses |
| StatisticsService.ParseDeviceIDs | internal/statistics/service/statistics_service.go:53-58 | the loop returns the parsed trimmed pieces of the comma split, in order, or nothing for a blank string |
| StatisticsService.Decimals | internal/statistics/service/statistics_service.go:53-58 | the decimal form of each ID |
| StatisticsService.FormatIntShape | internal/statistics/service/statistics_service.go:53-58 | a decimal is non-empty, signed or digit-led, digit-ended and comma-free |
| StatisticsService.TrimFormatInt | internal/statistics/service/statistics_service.go:56 | trimming a decimal changes nothing |
| StatisticsService.ParsedDecimals | internal/statistics/service/statistics_service.go:55-57 | parsing the decimal pieces gives back the IDs |
| StatisticsService.DeviceIDsRoundTrip | internal/statistics/service/statistics_service.go:53-58 | a comma-joined list of 64-bit IDs parses back to the list |
| StatisticsService.JoinStartsWith | internal/statistics/service/statistics_service.go:54 | a joined list starts with its first piece |
| StatisticsService.BlankDeviceIDs | internal/statistics/service/statistics_service.go:54 | a blank string gives no IDs |
| StatisticsService.GetPriceTrends | internal/statistics/service/statistics_service.go:50-62 | auth first, period defaults to "30d", the query receives the parsed IDs, then a database error |
| StatisticsService.GetDeviceAgeStatistics | internal/statistics/service/statistics_service.go:71-76 | auth first, a database error, otherwise the bucket statistics |
| StatisticsService.PostComparison | internal/statistics/service/statistics_service.go:137-142 | auth first, otherwise one comparison row per ID |
| StatisticsService.PostExportReport | internal/statistics/service/statistics_service.go:119-125 | auth first, then the required fields; the URL is the prefix, the time, a dot and the lower-cased format |
| StatisticsService.ExtOfSuffix | internal/statistics/service/statistics_service.go:123 | the extension of a name ending in a dotted suffix without separators is that suffix |
| StatisticsService.ToLowerKeepsSeparators | internal/statistics/service/statistics_service.go:123 | lower-casing adds no dot or slash |
| StatisticsService.NameParts | internal/statistics/service/statistics_service.go:123-124 | the name's extension and middle part can be read back |
| StatisticsService.ExportURLReadsBack | internal/statistics/service/statistics_service.go:119-125 | the URL's extension is the lower-cased format and its middle parses back to the time |
| TagsService.BuildList | internal/tags/service/tags_service.go:40-41 | one info per tag in order, and Total is the number of tags |
| TagsService.ListFilter | internal/tags/service/tags_service.go:31-37 | type and category are filtered only when non-empty, active only when given |
| TagsService.PopularQuery | internal/tags/service/tags_service.go:114-118 | the limit is the request's when positive, otherwise 10; the category is the request's or empty |
| TagsService.ListTags | internal/tags/service/tags_service.go:31-43 | the query runs with the request's filter; its failure is a database error, otherwise one info per found tag in order and Total the count |
| TagsService.GetPopularTags | internal/tags/service/tags_service.go:114-124 | the query runs with the defaulted limit and category; its failure is a database error, otherwise one info per found tag in order and Total the count |
| TagsService.SearchTags | internal/tags/service/tags_service.go:126-133 | an empty keyword gives an empty list with Total 0; otherwise the found tags or a database error |
| TagsService.GetTag | internal/tags/service/tags_service.go:45-52 | parameter, database and not-found errors in order, otherwise the tag and its usage |
| TagsService.CreateTag | internal/tags/service/tags_service.go:54-72 | auth, required fields, a failed name lookup (database), a taken custom name and a failed insert (database) are rejected in that order; the new tag is custom, active, the caller's and carries the request, with the ID and time stamps the insert assigns and a zero usage count |
| TagsService.CreateKeepsNamesUnique | internal/tags/service/tags_service.go:57-69 | creation keeps each user's custom tag names unique |
| TagsService.MergeTagFields | internal/tags/service/tags_service.go:81-86 | each field changes only when given, Active only when the request sets it |
| TagsService.MergeTagEmpty | internal/tags/service/tags_service.go:81-86 | an empty request changes nothing |
| TagsService.MergeTagIdempotent | internal/tags/service/tags_service.go:81-86 | merging the same request twice is merging it once |
| TagsService.TagWriteGuard | internal/tags/service/tags_service.go:75-80 | a write passes iff the IDs are positive, the lookup succeeds, the tag exists, is not a system tag and is the caller's; a failed lookup is a database error, the rest in that order |
| TagsService.UpdateTag | internal/tags/service/tags_service.go:74-89 | a failing guard changes nothing; otherwise the tag becomes the merge with UpdatedAt stamped by the write, and the result is a database error when the write fails and the tag's info otherwise |
| TagsService.SetTagText | internal/tags/service/tags_service.go:81-83 | name, description and category change only when given |
| TagsService.SetTagLook | internal/tags/service/tags_service.go:84-86 | colour, icon and Active change only when given |
| TagsService.DeleteTag | internal/tags/service/tags_service.go:91-103 | the guard, then a failed usage check (database), a tag in use (business) and a failed delete (database); only then does deletion succeed |
| TagsService.DeleteOnlyOwnUnused | internal/tags/service/tags_service.go:91-103 | only the caller's unused custom tag is deleted |
| TagsService.GetCustomTags | internal/tags/service/tags_service.go:105-112 | auth first, then a failed query is a database error; otherwise one info per tag with Total the count |
| TagsService.GrowthCounts | internal/tags/service/tags_service.go:159-162 | a category is a key iff some tag has it, with the number of such tags |
| TagsService.CategoriesAreCounted | internal/tags/service/tags_service.go:161 | the category list holds exactly the categories in use |
| TagsService.CountsOfStep | internal/tags/service/tags_service.go:159-162 | one more tag adds one to the count of its category |
| TagsService.CategoriesDistinct | internal/tags/service/tags_service.go:161 | each category is listed once |
| TagsService.GrowthAddsUp | internal/tags/service/tags_service.go:159-162 | the per-category counts sum to the number of tags |
| TagsService.GetTagStatistics | internal/tags/service/tags_service.go:152-164 | a failed query is a database error; otherwise the usage of each name and the growth per category |
| CorsMiddleware.WithDefaults | internal/auth/middleware/cors_middleware.go:20-28 | empty values default to "*", the five methods and the three headers |
| CorsMiddleware.WithDefaultsIdempotent | internal/auth/middleware/cors_middleware.go:20-28 | defaults applied twice are applied once |
| CorsMiddleware.OriginAllowed | internal/auth/middleware/cors_middleware.go:35-42 | the flag loop with its break finds the origin iff some trimmed comma piece equals it |
| CorsMiddleware.Cors | internal/auth/middleware/cors_middleware.go:13-62 | the middleware writes the reply of the decision function |
| CorsMiddleware.ReplyFixedParts | internal/auth/middleware/cors_middleware.go:51-60 | methods, headers, credentials "true" and max-age "86400" are always set; only OPTIONS is answered with 200 and an empty body |
| CorsMiddleware.ReplyListedOrigin | internal/auth/middleware/cors_middleware.go:34-45 | with a specific list and an Origin, Allow-Origin is set iff the origin is listed, and then to the origin |
| CorsMiddleware.ReplyConfiguredOrigin | internal/auth/middleware/cors_middleware.go:46-48 | with "*" or no Origin, Allow-Origin is the configured string verbatim |
| CorsMiddleware.JoinedListAllows | internal/auth/middleware/cors_middleware.go:35-42 | a list written as comma-joined plain origins admits exactly those origins |
| GoLib.Utf8Len | internal/device/service/template_service.go:409-413 | Go's len counts UTF-8 bytes: at least the characters, equal for ASCII |
| GoLib.TrimLeftProps | internal/device/service/device_service.go:858-870 | trimming the left drops exactly the leading white space |
| GoLib.TrimRightProps | internal/device/service/device_service.go:858-870 | trimming the right drops exactly the trailing white space |
| GoLib.TrimSpaceIsSlice | internal/device/service/device_service.go:858-870 | TrimSpace removes white space at both ends and keeps the middle |
| GoLib.TrimSpaceEmptyIff | internal/device/service/device_service.go:858-870 | a string trims to empty iff it is all white space |
| GoLib.TrimSpaceIdempotent | internal/device/service/template_service.go:433 | trimming twice is trimming once |
| GoLib.IndexOf | internal/statistics/service/statistics_service.go:55 | the first position of a character, or none when absent |
| GoLib.Split | internal/statistics/service/statistics_service.go:55 | at least one piece, none containing the separator |
| GoLib.JoinSplit | internal/statistics/service/statistics_service.go:55 | joining the pieces gives back the string |
| GoLib.JoinCons | internal/statistics/service/statistics_service.go:55 | joining a longer list puts the separator after the first piece |
| GoLib.IndexOfAfter | internal/statistics/service/statistics_service.go:55 | the separator after a separator-free prefix is found at its end |
| GoLib.SplitJoin | internal/statistics/service/statistics_service.go:55 | splitting separator-free pieces joined by the separator gives back the pieces |
| GoLib.SplitFirst | internal/device/service/device_service.go:549 | a first piece without the separator is split off whole |
| GoLib.SplitAt | internal/statistics/service/statistics_service.go:55 | a split at the first separator is the first piece and the split of the rest |
| GoLib.TrimPrefix | internal/device/service/device_service.go:536-539 | removes the prefix when present and nothing otherwise |
| GoLib.ToLower | internal/device/service/device_service.go:535 | the same length, each character lower-cased |
| GoLib.ToLowerIdempotent | internal/device/service/device_service.go:535 | lower-casing twice is lower-casing once |
| GoLib.Atoi | internal/device/service/template_service.go:438-449 | a parse yields a 64-bit value of a signed or digit-led string |
| GoLib.NatToString | internal/statistics/service/statistics_service.go:123 | the decimal digits of a natural number |
| GoLib.NatToStringValue | internal/statistics/service/statistics_service.go:123 | the digits read back as the number |
| GoLib.AtoiFormatInt | internal/statistics/service/statistics_service.go:56 | parsing a formatted 64-bit integer gives it back |
| GoLib.FormatIntChars | internal/device/service/device_service.go:549 | a formatted integer contains nothing but digits and a minus sign |
| GoLib.Ext | internal/device/service/device_service.go:535 | the extension is a dot-led suffix with no further dot or slash |
| GoLib.GoDivBounds | internal/statistics/repository/statistics_repository.go:136 | Go's division truncates toward zero |
| GoLib.GoRem | internal/price/service/price_service.go:771 | Go's remainder pairs with truncating division and takes the dividend's sign |
| GoLib.GoDivNegative | internal/statistics/repository/statistics_repository.go:136 | on a negative dividend the truncated quotient is the floor quotient, plus one when the divisor does not divide it |
| GoLib.DivUnique | internal/statistics/repository/statistics_repository.go:136 | a quotient and remainder in [0, b) are Dafny's |
| Dates.PadDigits | internal/device/service/device_service.go:145 | a fixed-width digit string |
| Dates.FormatDate | internal/device/service/device_service.go:145 | the layout 2006-01-02 has ten characters |
| Dates.ParseDate | internal/device/service/device_service.go:145 | a parsed date is a valid calendar date |
| Dates.PadDigitsValue | internal/device/service/device_service.go:145 | padded digits read back as the number modulo the width |
| Dates.DigitsBound | internal/device/service/device_service.go:145 | k digits are below 10^k |
| Dates.ParseFormatDate | internal/device/service/device_service.go:145 | a valid date formats and parses back to itself |
| Dates.PadDigitsSmall | internal/device/service/device_service.go:145 | a number that fits reads back exactly |
| Dates.FormatDateParts | internal/device/service/device_service.go:145 | the formatted date is year, month and day with dashes |
| Dates.ParseDateParts | internal/device/service/device_service.go:145 | a well-shaped string of a valid date parses to it |
| Dates.FormatParseDate | internal/device/service/device_service.go:145 | a string that parses is the formatting of its date |
| Dates.DigitsPad | internal/device/service/device_service.go:145 | a digit string is the padding of its value |

## Left out

- Controllers, routers, configuration loading and the ORM queries. Their results are inputs of the model.
- Errors the service ignores (`_`, or a call whose error it drops, such as
  the price-history insert and the alert write of triggerAlert) are not modelled.
- JSON marshalling of option and notification lists is a parameter.
  `regexp.MatchString` and `strconv.ParseFloat` are oracles.
- `filepath.Ext`, `strings.ToLower`, `TrimSpace`, `Atoi` and `FormatInt` are
  modelled concretely. `ToLower` changes ASCII letters only; Go also
  lower-cases other Unicode letters.
- Go's 64-bit `int` arithmetic is unbounded in the model. `Atoi` does check the 64-bit range.
- Go's `float64` is modelled as `real`, exactly. NaN and the infinities are modelled only
  where analyzeTrend can divide by a zero price (`PriceService.ChangeRate`).
- `time.Now()` is a parameter. Dates other than the `2006-01-02` layout, `AddDate` and the period-to-start-date map are left out.
- Error messages are English paraphrases. Only the error codes are meant to match.
- The price service's volatility and standard deviation, predicted prices and
  confidence bands are left out, as are the device service's regression and
  accuracy heuristics. These are floating-point estimates with no
  discrete rule.
- `verifyDeviceOwnership` and the cached predictions are parameters, since
  they are stubs in the source. `fetchPriceFromSources` is written out as the
  source has it (`PriceService.FetchPriceFromSources`), but UpdatePrice and
  the batch take the price source as an input, of which the stand-in is one
  instance. `aggregateHistoryData` is the identity and is left out. The
  price-history record UpdatePrice writes is left out.
- GetDevicePrice, GetPriceHistory, GetPriceAlerts, DeletePriceAlert,
  GetMarketComparison and GetPriceSources are left out. Each is a lookup or a
  delete with only ID guards.
- GetDashboard, GetBrandsStatistics, PostCustomStatistics and GetInsights are
  left out. Each has only the user guard and canned data.
- GetTagCategories and GetRecommendations are left out, since each is a plain query.
- These service functions are left out: each is an ID or ownership guard
  around a lookup, insert or delete, whose database errors the model
  therefore does not cover.
  - device service: GetDeviceDetail, CreateDevice (its request check is
    modelled, as `DeviceService.CreateRequestErrorIsFirstFailure`),
    DeleteDevice, GetDeviceValuation, GetDeviceImages, DeleteDeviceImage and
    PredictDevicePrice;
  - category service: GetCategoryDetail, GetSystemCategories,
    GetCustomCategories, GetCategoryStatistics and SearchCategories
    (GetSystemCategories and GetCustomCategories build their tree with
    `CategoryService.BuildCategoryTree`);
  - template service: GetTemplateDetail, CreateTemplate (its field check is
    modelled, as `TemplateService.ValidateTemplateFields`), DeleteTemplate,
    GetRecommendedTemplates and GetTemplateStatistics.
- The AccessLog middleware is left out, since it only logs.
- CategoryService.BuildCategoryTree: requires the categories to be distinct objects, as a query returns them; so do BuildForest, LinkCategories, OrphanDropped, GetCategoriesList and GetCategoriesListRooted. The source does not state this.
- Category, device and template rows leave out their `CreatedAt`/`UpdatedAt` columns, and the `auto_now` time stamp an update writes back is modelled for tags only (`TagsService.UpdateTag`). IDs and creation times that an insert writes back are inputs where the answer carries them (CreateTag, CreateAlert, CreateCustomCategory, UploadImage).
- DeviceService.NewDevice, DeviceService.BatchImportDevices: each imported device gets its own entry's template and category IDs. That is the per-iteration loop variable of Go 1.22 and later; under an older Go, the pointers taken at device_service.go:441-442 would all alias the last entry's IDs. The Go version is not part of this model.
- TemplateService.ValidateTemplateFields: the field list has no null entries. A JSON `null` element decodes to a nil `*TemplateField`, which the Go code dereferences at template_service.go:362 and so panics; the model cannot express that input.
- PriceService.CheckAndTriggerAlerts: requires the fetched alerts to be distinct objects, as a query returns them; the source does not state this.
- PriceService.UpdatePrice: requires the alerts table to hold distinct objects, for the same reason.
- PriceService.BatchUpdatePrices: the whole batch uses one time `now`, where the source reads the clock in every turn; the insert ID and the write failure of each turn are inputs indexed by the turn.
- PriceService.SortPrices: `sort.Float64s` sorts the slice in place; the model sorts a value. The in-place update is not captured.
- PriceService.PointDays: the predicted price at each point is not modelled, only the day numbers.

## Findings

| source | as written | input that shows it | evidently intended | confidence | as-written member | corrected member |
|---|---|---|---|---|---|---|
| internal/device/service/category_service.go:35-48 | a positive parent ID queries that parent's children, then buildCategoryTree keeps only categories with parent ID 0 | parent_id = 3 with two child categories of category 3: the listing is empty | the children of the requested parent are listed | high (not executed) | CategoryService.ChildListingIsEmpty | CategoryService.ChildListingRooted |
