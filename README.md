# gouniverse/crud: the decision layer, in Dafny

`crud` is a server-side admin scaffold for Go. A caller configures it with:

- entity names;
- an endpoint URL;
- the field schemas of the create, read and update forms;
- callbacks that list, fetch, create, update and trash entities.

The scaffold then serves a listing page, a detail page, an edit page, a create modal and three
JSON/HTML endpoints. Two generations coexist: `Crud.go` (first) and `v2/` (second).

Most of the code builds HTML and JavaScript through foreign libraries. This project models the
decisions underneath that markup and proves what they promise:

- constructing a handler from a configuration (`Construction`);
- dispatching a request on its `path` parameter, and building the URLs that lead back to each
  handler (`CrudV1`, `CrudV2`, over a model of query-string parsing in `UrlQuery`);
- prepending framework assets when the caller supplies a layout;
- choosing a widget per field type;
- the submission pipelines: collect the named fields' values, validate the required ones
  fail-fast, and only then call the callback (`Submission`);
- the raw-marker convention `{!!...!!}` of the second-generation pages (`RawMarkers`);
- which row actions a listing shows, and the initial client model of the create form
  (`ManagerController`);
- the guards of the detail and edit pages and of the save, create and trash endpoints
  (`ReadController`, `UpdateController`, `CreateController`, `TrashController`).

Modelling choices:

- The caller's callbacks are Dafny function values inside `Option`, where `None` is Go's nil.
- Go's `error` is `GoError`.
- A request is a map from parameter name to value.
- A JSON response is `Outcome = Error(msg) | Success(msg, entityId)`.
- A page is a descriptor datatype listing what the page shows and what it hands to the layout.
- `GoStrings` models the parts of Go's `strings` and `unicode` packages the code uses:
  - `ReplaceAll` with an empty replacement, as one left-to-right pass;
  - `Trim(s, " ")`;
  - `TrimSpace` with Go's white-space set;
  - `HasPrefix`, `HasSuffix` and `Contains`.
- `UrlQuery` models how `net/url` splits a query. It cuts at '#', takes what follows the first
  '?', splits on '&', skips empty segments and those holding ';', splits at the first '=', and
  lets the first value of a repeated key win.

## Model

| member | source | states |
|---|---|---|
| Construction.NewCrud | NewCrud.go:5-40 | A nil rows callback fails first, whatever else is set. Otherwise a nil update-field list fails, while an empty one passes. The "FuncUpdate function is required" error never occurs. Every failure returns the zero handler. Success copies all 17 configuration fields unchanged (`ConfigOf` inverts the copy). |
| Construction.UpdateGuardUnreachable | NewCrud.go:14-18 | "Update enabled" already implies that the update callback is set, so the third guard cannot fire. |
| CrudTypes.Req | Crud.go:176-177 | `utils.Req` gives the parameter's value when the request has it, and the default otherwise. |
| CrudTypes.RouteKey | Crud.go:138-149 | A missing or empty `path` reads as "home". Any other value is used as given. |
| CrudTypes.PathOfQuerySafe | v2/consts.go:3-9 | Every route key is a non-empty word of lower-case letters and '-'. |
| CrudV1.GetRoute | Crud.go:151-170 | Lookup is exact; an unknown key gets the manager. Only the five listed keys reach another handler, each its own. The create modal is unreachable in this generation. |
| CrudV1.GetRoutePathOf | Crud.go:151-170 | Each builder's route key resolves back to that route. |
| CrudV1.Handler | Crud.go:138-149 | No `path`, or an empty one, gives the manager. Any other handler is reached only when `path` is exactly its key. |
| CrudV1.RouteUrl | Crud.go:760-788 | A builder's URL starts with the endpoint and always adds one new '?'. |
| CrudTypes.QueryUrlShape | v2/Crud.go:100-140 | Appending `sep` + "path=" + key keeps the endpoint as a prefix. It adds a '?' only when `sep` is one. Both generations' URL builders (also Crud.go:760-788) use it. |
| CrudV1.RouteUrlParams | Crud.go:760-788 | For an endpoint without a query, a builder's URL has exactly one parameter, `path`, holding the route's key. |
| CrudV1.RouteUrlRoundTrip | Crud.go:760-788 | For an endpoint without a query, the URL's only parameter is `path`, and the handler dispatches the URL back to its route. |
| CrudV1.Layout | Crud.go:858-878 | With a custom layout, the scripts are SweetAlert, Vue, Element Plus, then the caller's in order; the stylesheets are Element Plus's, then the caller's. Without one, the built-in shell's assets come first. |
| CrudV1.FormSpec | Crud.go:880-966 | One group per field, in order, each the field's first-generation group. |
| CrudV1.Form | Crud.go:880-966 | The loop builds exactly `FormSpec`. |
| CrudV1.PageEntityCreateAjax | Crud.go:172-205 | The response is the create submission's outcome: the first required-field failure, or the callback's error as "Save failed: "+msg, or "Saved successfully" with the returned id. |
| CrudV2.GetRoute | v2/Crud.go:49-68 | Exact lookup over the second-generation keys, including the create modal. Unknown keys fall back to home. |
| CrudV2.GetRoutePathOf | v2/Crud.go:49-68 | Each route key resolves back to its route. |
| CrudV2.Handler | v2/Crud.go:36-47 | As in the first generation: no `path`, or an empty one, gives the manager; other handlers are reached only by their exact key. |
| CrudV2.HandlerOfPath | v2/Crud.go:36-68 | A request whose `path` is a route's key is dispatched to that route. |
| CrudV2.RouteUrl | v2/Crud.go:100-140 | The URL starts with the endpoint. It has exactly one '?' unless the endpoint already had some, in which case the separator is '&' and no '?' is added. |
| CrudV2.RouteUrlForm | v2/Crud.go:100-140 | The URL is the endpoint, '&' if it holds a '?' and '?' otherwise, then "path=" and the key. |
| CrudV2.RouteUrlMarks | v2/Crud.go:100-140 | A builder's URL always has a query, and has no fragment when the endpoint has none. |
| CrudV2.RouteUrlParams | v2/Crud.go:100-140 | A builder's URL adds `path` = the route's key beneath the endpoint's own parameters. If the endpoint already sets `path`, its own value wins, because Go's query parser keeps the first value of a repeated name. |
| CrudV2.RouteUrlRoundTrip | v2/Crud.go:100-140 | The URL adds `path` and keeps all of the endpoint's own parameters. When the endpoint does not set `path`, the handler dispatches the URL back to its route. |
| CrudV2.EntityUrlParams | v2/entityManagerController.go:90-99 | A builder's URL followed by "&entity_id="+id adds `path` and then `entity_id` beneath the endpoint's own parameters, for an endpoint that does not set `path`. If the endpoint sets `entity_id` itself, its own value wins, as Go keeps the first value. |
| CrudV2.EntityUrlRoundTrip | v2/entityManagerController.go:90-99 | Such a link reaches its route and carries the id, as long as the endpoint sets neither parameter and the id holds no '&', '#' or ';'. |
| CrudV2.Layout | v2/Crud.go:227-248 | With a custom layout, the scripts are htmx, SweetAlert, Vue, Element Plus, then the caller's; the stylesheets are Element Plus's, then the caller's. Without one, the built-in shell's assets come first. |
| CrudV2.FrameworkPrefixSplits | v2/Crud.go:230-237 | Removing the framework prefix gives back the caller's lists unchanged. |
| CrudV2.FieldId | v2/Crud.go:260-263 | A field's own id is kept. A missing one becomes "id_" followed by the random suffix. |
| CrudV2.Form | v2/Crud.go:257-395 | The loop builds exactly `FormSpec`: per field, its group with the field's element id, then for a blockarea field its editor script with the same id. |
| CrudV2.FormSpecLength | v2/Crud.go:376-391 | There are as many tags as fields plus blockarea fields. |
| CrudV2.FormSpecAt | v2/Crud.go:376-391 | Field i's group sits at i plus the number of earlier blockarea fields. A blockarea field's script comes immediately after its group, with the same element id. |
| FormWidgets.WidgetFor | v2/Crud.go:281-362 | Each type tag maps to its widget, and an unrecognised tag gives the text input. A raw field shows its value verbatim (second generation only). Select options are the static ones in order, then the callback's. The image widget gets a browse link only for a non-empty file-manager URL. |
| FormWidgets.GroupFor | v2/Crud.go:264-374 | The label falls back to the field name and is marked when the field is required. A raw field has no label. Help appears only when non-empty. |
| Submission.NonEmptyNames | v2/Crud.go:405-437 | A name is listed iff it is non-empty and belongs to some field. |
| Submission.NonEmptyNamesSubsequence | Crud.go:968-988 | The listed names are the field names in declaration order with some left out. |
| Submission.ListNames | v2/Crud.go:405-437 | The append loop yields exactly `NonEmptyNames`. |
| Submission.CollectPosts | v2/entityUpdateController.go:181-185 | The posted map's keys are exactly the listed names. Each value is the request's, or "" when missing. |
| Submission.FirstViolation | v2/entityUpdateController.go:188-202 | The result is the first field, in declaration order, that is required and missing or empty. No field before it fails, and None means no field fails. |
| Submission.CheckRequired | v2/entityUpdateController.go:188-202 | The fail-fast loop reports exactly the first failing field's "<Label> is required field". |
| Submission.ViolatesInRequest | Crud.go:181-195 | Against the request, a required field fails iff its name is empty or its value is missing or empty. |
| Submission.UnnamedRequiredAlwaysFails | Crud.go:181-195 | A required field with an empty name makes every submission fail, at that field or earlier. |
| Submission.CreateFailsFast | Crud.go:181-204 | A failed validation reports the first failing field, and any two create callbacks give the same response (the callback is not consulted). |
| Submission.CreateAfterValidation | Crud.go:197-204 | Once validation passes, the callback's result alone decides: "Save failed: "+msg, or "Saved successfully" with the returned id. |
| Submission.EntityIdEdges | v2/entityUpdateController.go:174 | The id trimmed of ' ' is empty when the request's `entity_id` is only spaces. Otherwise it neither starts nor ends with a space. |
| Submission.UpdateIdRules | v2/entityUpdateController.go:174-179 | An id that is missing or only spaces is refused with "Entity ID is required" whatever the callback. A success echoes the trimmed id, which neither starts nor ends with a space. |
| Submission.UpdateFailsFast | v2/entityUpdateController.go:188-204 | With an id, a failed validation reports the first failing field, independently of the update callback. |
| RawMarkers.StripMarkers | v2/entityManagerController.go:114-115 | Removing each marker in one pass never lengthens the text. |
| RawMarkers.RenderCell | v2/entityManagerController.go:111-117 | A cell is HTML iff its marker text starts with "{!!" and ends with "!!}". Its content is the text with both markers removed and white space trimmed. |
| RawMarkers.UnmarkedOnlyTrimmed | v2/entityManagerController.go:114-116 | A text with neither marker is only trimmed. |
| RawMarkers.WrapStripRoundTrip | v2/entityReadController.go:89-98 | Wrapping a '{'-free, "!!}"-free text in the markers makes it raw, and stripping gives the text back. |
| RawMarkers.RawColumnRendersInnerHtml | v2/entityManagerController.go:111-117 | A wrapped cell under a raw column renders as HTML of the trimmed inner text. |
| RawMarkers.StripIsSinglePass | v2/entityManagerController.go:114-115 | Removal is single-pass: "{{!!!!" strips to "{!!", which still holds a marker. |
| ManagerController.Actions | v2/entityManagerController.go:84-125 | The view button is shown iff a read-fetch callback is set, edit iff an update-fetch callback is set, and trash iff a trash callback is set. They come in that order. The links are the read/update URL + "&entity_id=" + row id, and the trash button carries the row id. |
| ManagerController.ActionsIgnoreUpdateCallback | v2/entityManagerController.go:122-124 | The save callback never shows or hides a button. |
| ManagerController.ActionLinksRoundTrip | v2/entityManagerController.go:90-99 | When the endpoint sets neither `path` nor `entity_id`, the view and edit links reach the read and update pages and carry the row's id. |
| ManagerController.HeaderCells | v2/entityManagerController.go:73-81 | Each header is the column name with both markers removed, as text and untrimmed, followed by "Actions". |
| ManagerController.HeaderKeepsPlainName | v2/entityManagerController.go:73-77 | A marker-free column name is shown exactly as written, white space included. |
| ManagerController.RowCells | v2/entityManagerController.go:110-118 | The row has one cell per data item, each rendered under the column name at the same index. |
| ManagerController.CellRawnessByColumn | v2/entityManagerController.go:111-117 | Rawness depends on the column name only. It is the same for any two rows, whatever markers their cells hold. |
| ManagerController.ListingFor | v2/entityManagerController.go:59-130 | An alert appears iff the rows callback failed. Otherwise the table has the header and one row per fetched row, in order. |
| ManagerController.CreateModelLastWins | v2/entityManagerController.go:147-150 | The model maps a name to the value of the last field carrying it. |
| ManagerController.CreateModelKeys | v2/entityManagerController.go:147-150 | The model's keys are exactly the create fields' names. |
| ManagerController.FillCreateModel | v2/entityManagerController.go:147-150 | The assignment loop builds exactly `CreateModel`. |
| ManagerController.Page | v2/entityManagerController.go:25-239 | Status is 200 either way, and an alert replaces the table iff the rows callback fails. The page also sets: the title "<Singular> Manager"; the create button targeting the create-modal URL; the fixed trash dialog; the script's endpoints; the create model; and the DataTables assets and style. |
| ReadController.DetailRows | v2/entityReadController.go:86-104 | One row per fetched pair, in fetch order. The key is rendered by its own markers and the value by its own. |
| ReadController.DetailRawness | v2/entityReadController.go:89-98 | The key is raw iff it is wrapped in the markers, and the value likewise, independently. Both are stripped and trimmed. |
| ReadController.PageEntityRead | v2/entityReadController.go:24-136 | An empty id fails first with "Entity ID is required", then a nil fetch callback with "FuncFetchReadData is required". Otherwise status is 200, with an alert iff the fetch failed, else the pairs' rows. Extras appear only when an extras callback is set. The edit link, back link and titles are also given. |
| ReadController.ReadIdGuardFirst | v2/entityReadController.go:25-29 | Without an id, the response is the same for any configuration. |
| ReadController.ReadIdNotTrimmed | v2/entityReadController.go:25-29 | The detail page does not trim: an id of one space is rendered, while the save and trash endpoints would refuse it. |
| UpdateController.PageEntityUpdate | v2/entityUpdateController.go:25-171 | An empty id fails first. A failing fetch gives "Fetch data failed" and no form. Otherwise status is 200, with the update fields' form, the untrimmed id, the fetched values as the client model, the script's endpoints, and the editor assets. |
| UpdateController.EditIdGuardFirst | v2/entityUpdateController.go:26-30 | Without an id, the edit page is refused the same way for any configuration. |
| UpdateController.EditPageFormLength | v2/entityUpdateController.go:70 | The rendered form has one group per update field plus one script per blockarea field. |
| UpdateController.PageSave | v2/entityUpdateController.go:173-212 | The method computes exactly the update outcome. The id is `entity_id` trimmed of ' ', and an empty one is refused first. Next comes the fail-fast validation of the update fields, then the callback with the trimmed id: "Save failed: "+msg, or "Saved successfully" with the id. |
| CreateController.RedirectAsWrittenParams | v2/entityCreateController.go:65 | In the as-written redirect, `path` is "entity-update?entity_id=" followed by the id. |
| CreateController.RedirectAsWrittenMisroutes | v2/entityCreateController.go:65 | The as-written redirect is dispatched to the manager page and carries no `entity_id`. |
| CreateController.UnknownKeyGoesHome | v2/Crud.go:49-68 | A key longer than every route key selects the manager page. |
| CreateController.RedirectUrlReachesEditPage | v2/entityCreateController.go:65-72 | When the endpoint sets neither `path` nor `entity_id` and the id is plain, the corrected redirect reaches the edit page with the new entity's id. |
| CreateController.ModalSave | v2/entityCreateController.go:27-76 | Every failure of the create outcome becomes an error notice with its message. A success notice says "Saved successfully" and redirects to the as-written URL, the update page's URL + "?entity_id=" + id. For an endpoint without its own `path`, `entity_id` or fragment, and an id free of '&', '#' and ';', that URL opens the manager page and carries no `entity_id`. |
| CreateController.ModalSaveCorrected | v2/entityCreateController.go:27-76 | The same notices as `modalSave`, but a success redirects to the update page's URL + "&entity_id=" + id. Under the same conditions on the endpoint and id, that URL opens the edit page with the new entity's id. |
| CreateController.ModalSaveFailsFast | v2/entityCreateController.go:36-56 | A failed validation yields the first failing field's message, and the create callback plays no part. |
| CreateController.Modal | v2/entityCreateController.go:78-148 | The heading is "New <Singular>". The form is built from the create fields, and the submit URL starts with the endpoint. |
| CreateController.ModalSubmitsToCreateAjax | v2/entityCreateController.go:85-108 | The submit button's URL is dispatched to the create endpoint. |
| TrashController.PageEntityTrashAjax | v2/entityTrashController.go:22-38 | The id is `entity_id` trimmed of ' '. An empty id gives "Entity ID is required". Success holds iff the callback returns nil, with "Entity trashed successfully" and the trimmed id; a callback error gives "Entity failed to be trashed: "+msg. |
| TrashController.TrashIdRules | v2/entityTrashController.go:23-28 | An id that is missing or only spaces is refused the same way whatever the trash callback. An echoed id neither starts nor ends with a space. |
| TrashController.TrashUsesOnlyTrashCallback | v2/entityTrashController.go:22-38 | No other configuration field affects the outcome. |
| TrashController.TrashModalIsStatic | v2/entityTrashController.go:40-54 | The confirmation dialog is fixed and depends on no configuration field. |

## Left out

- Markup serialisation and escaping. The `hb`, `bs`, `form`, `icons` and `cdn` libraries are foreign, so widgets, cells, dialogs and pages are descriptor datatypes. CDN helpers are named resources; literal URLs are kept as literals.
- The inline JavaScript and its client behaviour (Vue apps, DataTables, SweetAlert, FileReader, the timed redirects). It runs in the browser. The JSON encoding of the URLs handed to it is also left out: they are kept as plain strings.
- HTTP plumbing. `ResponseWriter`, headers, the JSON envelope of `api.Respond` and the context value set in `Handler` are not modelled. Requests are parameter maps, and a status is only a field of a page descriptor.
- The page descriptors stand for the content each page hands to `layout`. How the layout combines them is `CrudV2.Layout`, and the rendered HTML is not modelled.
- Percent-decoding and '+' in query strings. `UrlQuery` compares raw text, so the URL round-trip lemmas describe the server exactly for ids and endpoints without '%' and '+'. They also keep '&', '#' and ';' out of ids.
- Go strings are byte sequences; the model takes them as `seq<char>`. Every string operation used here (prefix and suffix tests, `ReplaceAll`, `Trim`, `TrimSpace`, `IndexByte`, concatenation) acts the same on valid UTF-8 read as characters, and the markers and separators involved are ASCII. Invalid UTF-8 is not modelled.
- Random field ids (v2/Crud.go:261-263). `CrudV2.FormSpec`, `CrudV2.Form` and `UpdateController.PageEntityUpdate` take one suffix per field as a parameter.
- development/main.go, a demo server with databases and `ListenAndServe`.
- Crud.go's own copy of `NewCrud` and the data-only declarations (Crud.go:96-136, CrudConfig.go, FormField.go, v2/Config.go). NewCrud.go is the constructor modelled; the declarations are the datatypes of `CrudTypes`.
- The second generation's `form.Field` has the same shape as `FormField`, and its getters are field reads.
- The first generation's pages `pageEntityManager`, `pageEntityRead`, `pageEntityUpdate` and its create and trash modals (Crud.go:207-612, 673-753). They are outside the decision layer named here; the second-generation controllers model the same decisions.
- The first generation's `pageEntityUpdateAjax` and `pageEntityTrashAjax` (Crud.go:614-671) are the second generation's code line for line. `UpdateController.PageSave` and `TrashController.PageEntityTrashAjax` model both.
- Breadcrumbs and the built-in webpage shell's fixed markup (favicon, base CSS). Only its asset lists are modelled.
- A second-generation form tag names the field and its element id. The group it stands for is `CrudV2.TagGroup`, that is `FormWidgets.GroupFor` for that field and id.
- The create modal's form is built by the foreign `form` library, so `CreateController.Modal` records the fields it is built from.
- Nil callbacks that the source calls without a check (rows, create, update, fetch-update, trash) would panic. Each becomes a precondition stated only on the path that reaches the call.
- ManagerController.Page: requires that no row has more cells than there are column names when the rows callback succeeds, because the source indexes the column names by cell position and would panic.

## Findings

| source | as written | input that shows it | evidently intended | confidence | as-written member | corrected member |
|---|---|---|---|---|---|---|
| v2/entityCreateController.go:65 | The redirect after a successful create is `UrlEntityUpdate() + "?entity_id=" + id`, but `UrlEntityUpdate()` already holds a '?' | endpoint "/admin", new id "7": the redirect "/admin?path=entity-update?entity_id=7" has `path` = "entity-update?entity_id=7" and no `entity_id`, so it opens the manager page instead of the editor | "&entity_id=", as the manager page's edit links (v2/entityManagerController.go:99) and the detail page's edit button (v2/entityReadController.go:55) write it | not executed | CreateController.RedirectAsWrittenMisroutes | CreateController.ModalSaveCorrected |

`CreateController.ModalSave` keeps the as-written redirect and proves that it lands on the manager page. `CreateController.ModalSaveCorrected` is the same endpoint with the corrected redirect, `CreateController.RedirectUrl`, and proves that it lands on the edit page.
