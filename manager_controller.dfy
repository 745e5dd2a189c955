/**
 * The second-generation listing page (`v2/entityManagerController.go`): the column headers, the
 * cells with their raw-marker decision, the row actions the configured callbacks allow, and the
 * initial client model of the create form.
 */
module ManagerController {
  import opened Wrappers
  import opened GoStrings
  import opened UrlQuery
  import opened CrudTypes
  import opened RawMarkers
  import opened CrudV2
  import opened TrashController

  /** A row's action buttons: the view link, the edit link and the trash button with its row id. */
  datatype Action = View(href: string) | Edit(href: string) | Trash(entityId: string)

  /** The fixed order of the buttons in a row. */
  function Rank(action: Action): nat
  {
    match action
    case View(_) => 0
    case Edit(_) => 1
    case Trash(_) => 2
  }

  /**
   * The action cell of the row with id `rowId`. The view button is there exactly when a read
   * fetch callback is configured, the edit button exactly when an update fetch callback is (the
   * save callback plays no part), the trash button exactly when a trash callback is; they come in
   * that order, and the links are the read and update URLs followed by the row's id.
   */
  function Actions(crud: Crud, rowId: string): (actions: seq<Action>)
    ensures (exists k :: 0 <= k < |actions| && actions[k].View?) <==> crud.funcFetchReadData.Some?
    ensures (exists k :: 0 <= k < |actions| && actions[k].Edit?) <==> crud.funcFetchUpdateData.Some?
    ensures (exists k :: 0 <= k < |actions| && actions[k].Trash?) <==> crud.funcTrash.Some?
    ensures forall j, k :: 0 <= j < k < |actions| ==> Rank(actions[j]) < Rank(actions[k])
    ensures forall k :: 0 <= k < |actions| ==>
      actions[k] == View(EntityUrl(crud.endpoint, EntityRead, rowId))
      || actions[k] == Edit(EntityUrl(crud.endpoint, EntityUpdate, rowId))
      || actions[k] == Trash(rowId)
  {
    var view := if crud.funcFetchReadData.Some? then [View(EntityUrl(crud.endpoint, EntityRead, rowId))] else [];
    var edit := if crud.funcFetchUpdateData.Some? then [Edit(EntityUrl(crud.endpoint, EntityUpdate, rowId))] else [];
    var trash := if crud.funcTrash.Some? then [Trash(rowId)] else [];
    var actions := view + edit + trash;
    assert crud.funcFetchReadData.Some? ==> actions[0].View?;
    assert crud.funcFetchUpdateData.Some? ==> actions[|view|].Edit?;
    assert crud.funcTrash.Some? ==> actions[|view| + |edit|].Trash?;
    actions
  }

  /** Changing the save callback never shows or hides a button. */
  lemma ActionsIgnoreUpdateCallback(crud: Crud, update: Option<UpdateFunc>, rowId: string)
    ensures Actions(crud.(funcUpdate := update), rowId) == Actions(crud, rowId)
  {
  }

  /**
   * The view and edit links of a row lead back to the read and update pages and carry the row's
   * id, as long as the endpoint sets neither parameter and the id is plain.
   */
  lemma ActionLinksRoundTrip(crud: Crud, rowId: string, k: nat)
    requires '#' !in crud.endpoint
    requires "path" !in QueryParams(crud.endpoint) && "entity_id" !in QueryParams(crud.endpoint)
    requires PlainParam(rowId)
    requires k < |Actions(crud, rowId)| && !Actions(crud, rowId)[k].Trash?
    ensures var action := Actions(crud, rowId)[k];
      var params := QueryParams(action.href);
      Handler(params) == (if action.View? then EntityRead else EntityUpdate)
      && Req(params, "entity_id", "") == rowId
  {
    var action := Actions(crud, rowId)[k];
    if action.View? {
      EntityUrlRoundTrip(crud.endpoint, EntityRead, rowId);
    } else {
      EntityUrlRoundTrip(crud.endpoint, EntityUpdate, rowId);
    }
  }

  /**
   * The header row: each column name with both markers removed, as escaped text and untrimmed,
   * then the "Actions" heading.
   */
  function HeaderCells(columnNames: seq<string>): (header: seq<Cell>)
    ensures |header| == |columnNames| + 1
    ensures forall i :: 0 <= i < |columnNames| ==> header[i] == Text(StripMarkers(columnNames[i]))
    ensures header[|columnNames|] == Html("Actions")
  {
    seq(|columnNames|, i requires 0 <= i < |columnNames| => Text(StripMarkers(columnNames[i]))) + [Html("Actions")]
  }

  /** A column name without markers is shown exactly as written, surrounding white space included. */
  lemma HeaderKeepsPlainName(columnNames: seq<string>, i: nat)
    requires i < |columnNames|
    requires !Contains(columnNames[i], Open) && !Contains(columnNames[i], Close)
    ensures HeaderCells(columnNames)[i] == Text(columnNames[i])
  {
    UnmarkedOnlyTrimmed(columnNames[i], columnNames[i]);
  }

  /**
   * The cells of one row: cell i is rendered under column name i, so a row may not have more
   * cells than there are columns.
   */
  function RowCells(columnNames: seq<string>, data: seq<string>): (cells: seq<Cell>)
    requires |data| <= |columnNames|
    ensures |cells| == |data|
    ensures forall i :: 0 <= i < |data| ==> cells[i] == RenderCell(columnNames[i], data[i])
  {
    seq(|data|, i requires 0 <= i < |data| => RenderCell(columnNames[i], data[i]))
  }

  /**
   * Whether a cell is HTML is decided by its column name alone: two rows' cells in the same
   * column are both raw or both text, whatever markers the cells themselves carry, and the shown
   * text is the cell's with the markers removed and trimmed.
   */
  lemma CellRawnessByColumn(columnNames: seq<string>, d1: seq<string>, d2: seq<string>, i: nat)
    requires |d1| <= |columnNames| && |d2| <= |columnNames| && i < |d1| && i < |d2|
    ensures RowCells(columnNames, d1)[i].Html? <==> IsRaw(columnNames[i])
    ensures RowCells(columnNames, d1)[i].Html? == RowCells(columnNames, d2)[i].Html?
    ensures RowCells(columnNames, d1)[i].content == TrimSpace(StripMarkers(d1[i]))
  {
  }

  /** A table row: the cells and then the action buttons. */
  datatype TableRow = TableRow(cells: seq<Cell>, actions: seq<Action>)

  /** The listing: an alert when the rows could not be fetched, otherwise the table. */
  datatype Listing = Alert | Table(header: seq<Cell>, rows: seq<TableRow>)

  /** No row has more cells than there are column names. */
  predicate RowsFit(rows: seq<Row>, columnNames: seq<string>)
  {
    forall row :: row in rows ==> |row.data| <= |columnNames|
  }

  /**
   * The listing for the rows callback's result: an alert exactly when it failed, otherwise the
   * header and one table row per fetched row, in order.
   */
  function ListingFor(crud: Crud, rows: seq<Row>, err: GoError): (listing: Listing)
    requires err.Nil? ==> RowsFit(rows, crud.columnNames)
    ensures listing.Alert? <==> err.Err?
    ensures listing.Table? ==>
      listing.header == HeaderCells(crud.columnNames)
      && |listing.rows| == |rows|
      && forall i :: 0 <= i < |rows| ==>
           listing.rows[i] == TableRow(RowCells(crud.columnNames, rows[i].data), Actions(crud, rows[i].id))
  {
    if err.Err? then Alert
    else
      Table(HeaderCells(crud.columnNames),
            seq(|rows|, i requires 0 <= i < |rows| =>
              assert rows[i] in rows;
              TableRow(RowCells(crud.columnNames, rows[i].data), Actions(crud, rows[i].id))))
  }

  /** The create form's initial values, field by field; a later field with the same name wins. */
  function CreateModel(fields: seq<FormField>): map<string, string>
  {
    if fields == [] then map[]
    else CreateModel(fields[..|fields| - 1])[fields[|fields| - 1].name := fields[|fields| - 1].value]
  }

  /**
   * The model has a key for every field name and no other, and each name maps to the value of
   * the last field carrying it.
   */
  lemma {:induction false} CreateModelLastWins(fields: seq<FormField>, i: nat)
    requires i < |fields|
    requires forall j :: i < j < |fields| ==> fields[j].name != fields[i].name
    ensures fields[i].name in CreateModel(fields)
    ensures CreateModel(fields)[fields[i].name] == fields[i].value
    decreases |fields|
  {
    var n := |fields|;
    if i < n - 1 {
      var init := fields[..n - 1];
      assert init[i] == fields[i];
      forall j | i < j < |init|
        ensures init[j].name != init[i].name
      {
        assert init[j] == fields[j];
      }
      CreateModelLastWins(init, i);
    }
  }

  /** The model's keys are exactly the field names. */
  lemma {:induction false} CreateModelKeys(fields: seq<FormField>, name: string)
    ensures name in CreateModel(fields) <==> exists i :: 0 <= i < |fields| && fields[i].name == name
    decreases |fields|
  {
    if fields != [] {
      var n := |fields|;
      var init := fields[..n - 1];
      CreateModelKeys(init, name);
      if name in CreateModel(init) {
        var i :| 0 <= i < |init| && init[i].name == name;
        assert fields[i] == init[i];
      }
      if exists i :: 0 <= i < n && fields[i].name == name {
        var i :| 0 <= i < n && fields[i].name == name;
        if i < n - 1 {
          assert init[i] == fields[i];
        }
      }
    }
  }

  /** The `customAttrValues` loop: assign each create field's value under its name, in order. */
  method FillCreateModel(fields: seq<FormField>) returns (model: map<string, string>)
    ensures model == CreateModel(fields)
  {
    model := map[];
    var i := 0;
    while i < |fields|
      invariant 0 <= i <= |fields|
      invariant model == CreateModel(fields[..i])
    {
      assert fields[..i + 1][..i] == fields[..i];
      model := model[fields[i].name := fields[i].value];
      i := i + 1;
    }
    assert fields[..|fields|] == fields;
  }

  /**
   * What the listing page shows and hands to its script and layout: the title, the create
   * button's target, the trash dialog, the listing, the endpoints the script posts to, the create
   * form's initial model, and the page's own stylesheet, style and script. The status is always 200.
   */
  datatype ManagerPage = ManagerPage(
    status: int,
    title: string,
    createButtonTarget: string,
    trashModal: ConfirmDialog,
    listing: Listing,
    createAjaxUrl: string,
    updateUrl: string,
    trashAjaxUrl: string,
    createModel: map<string, string>,
    styleFiles: seq<Asset>,
    style: string,
    scriptFiles: seq<Asset>)

  /** The fetched rows fit the columns whenever the rows callback succeeds. */
  predicate RowsCallbackFits(crud: Crud)
    requires crud.funcRows.Some?
  {
    var result := crud.funcRows.value();
    result.1.Nil? ==> RowsFit(result.0, crud.columnNames)
  }

  /**
   * `page`: calls the rows callback once, shows an alert instead of the table when it fails, and
   * answers with status 200 either way.
   */
  method Page(crud: Crud) returns (page: ManagerPage)
    requires crud.funcRows.Some? && RowsCallbackFits(crud)
    ensures page.status == 200
    ensures page.title == crud.entityNameSingular + " Manager"
    ensures page.createButtonTarget == RouteUrl(crud.endpoint, EntityCreateModal)
    ensures page.trashModal == TrashModal
    ensures page.listing == ListingFor(crud, crud.funcRows.value().0, crud.funcRows.value().1)
    ensures page.listing.Alert? <==> crud.funcRows.value().1.Err?
    ensures page.createAjaxUrl == RouteUrl(crud.endpoint, EntityCreateAjax)
    ensures page.updateUrl == RouteUrl(crud.endpoint, EntityUpdate)
    ensures page.trashAjaxUrl == RouteUrl(crud.endpoint, EntityTrashAjax)
    ensures page.createModel == CreateModel(crud.createFields)
    ensures page.styleFiles == [Cdn(DataTablesCss)] && page.style == "html{width:100%;}"
    ensures page.scriptFiles == [Cdn(DataTablesJs)]
  {
    var result := crud.funcRows.value();
    var rows, errRows := result.0, result.1;
    var listing := ListingFor(crud, rows, errRows);
    var model := FillCreateModel(crud.createFields);
    page := ManagerPage(
      200,
      crud.entityNameSingular + " Manager",
      RouteUrl(crud.endpoint, EntityCreateModal),
      PageEntitiesEntityTrashModal(crud),
      listing,
      RouteUrl(crud.endpoint, EntityCreateAjax),
      RouteUrl(crud.endpoint, EntityUpdate),
      RouteUrl(crud.endpoint, EntityTrashAjax),
      model,
      [Cdn(DataTablesCss)],
      "html{width:100%;}",
      [Cdn(DataTablesJs)]);
  }
}
