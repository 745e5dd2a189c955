/**
 * The second-generation edit page and its save endpoint (`v2/entityUpdateController.go`); the
 * first generation's update endpoint is the same pipeline.
 */
module UpdateController {
  import opened Wrappers
  import opened GoStrings
  import opened CrudTypes
  import opened FormWidgets
  import opened Submission
  import opened CrudV2

  const MsgFetchFailed := "Fetch data failed"

  /** The edit page's stylesheets and scripts, handed to the layout after the framework's. */
  const EditStyleFiles := [Cdn(DataTablesCss), Cdn(TrumbowygCss)]
  const EditScriptFiles := [Cdn(DataTablesJs), Cdn(TrumbowygJs),
    Url("https://cdn.jsdelivr.net/npm/vue-trumbowyg@4"), Url("https://cdn.jsdelivr.net/npm/element-plus")]

  /**
   * What the edit page shows and hands to its script: title, the update form, the entity id and
   * the fetched values the client model starts from, the endpoints the script uses, and the
   * assets for the layout.
   */
  datatype EditPage = EditPage(
    status: int,
    title: string,
    form: seq<FormTag>,
    entityId: string,
    customValues: map<string, string>,
    managerUrl: string,
    updateAjaxUrl: string,
    trashAjaxUrl: string,
    styleFiles: seq<Asset>,
    scriptFiles: seq<Asset>)

  /** Either a JSON refusal or the rendered page. */
  datatype EditResponse = EditRefused(outcome: Outcome) | EditRendered(page: EditPage)

  /**
   * `page`: an empty id is refused before anything is fetched; a failed fetch is refused and no
   * form is built; otherwise the page shows the update fields' form and starts the client model
   * from the fetched values. The id is used as given, untrimmed. `randoms` are the suffixes drawn
   * for fields without an id.
   */
  function PageEntityUpdate(crud: Crud, request: Request, randoms: seq<string>): (response: EditResponse)
    requires Req(request, "entity_id", "") != "" ==> crud.funcFetchUpdateData.Some?
    requires |randoms| == |crud.updateFields|
    ensures Req(request, "entity_id", "") == "" ==> response == EditRefused(Error(MsgIdRequired))
    ensures response.EditRendered? <==>
      Req(request, "entity_id", "") != ""
      && crud.funcFetchUpdateData.value(Req(request, "entity_id", "")).1.Nil?
    ensures response.EditRefused? && Req(request, "entity_id", "") != ""
      ==> response == EditRefused(Error(MsgFetchFailed))
    ensures response.EditRendered? ==>
      var id := Req(request, "entity_id", "");
      var page := response.page;
      page.status == 200
      && page.title == "Edit " + crud.entityNameSingular
      && page.form == FormSpec(crud.updateFields, randoms)
      && page.entityId == id
      && page.customValues == crud.funcFetchUpdateData.value(id).0
      && page.managerUrl == crud.endpoint
      && page.updateAjaxUrl == RouteUrl(crud.endpoint, EntityUpdateAjax)
      && page.trashAjaxUrl == RouteUrl(crud.endpoint, EntityTrashAjax)
      && page.styleFiles == EditStyleFiles && page.scriptFiles == EditScriptFiles
  {
    var id := Req(request, "entity_id", "");
    if id == "" then EditRefused(Error(MsgIdRequired))
    else
      var fetched := crud.funcFetchUpdateData.value(id);
      if fetched.1.Err? then EditRefused(Error(MsgFetchFailed))
      else
        EditRendered(EditPage(
          200,
          "Edit " + crud.entityNameSingular,
          FormSpec(crud.updateFields, randoms),
          id,
          fetched.0,
          crud.endpoint,
          RouteUrl(crud.endpoint, EntityUpdateAjax),
          RouteUrl(crud.endpoint, EntityTrashAjax),
          EditStyleFiles,
          EditScriptFiles))
  }

  /** Without an id the edit page is refused whatever the configuration and its callbacks. */
  lemma EditIdGuardFirst(crud: Crud, other: Crud, request: Request, randoms: seq<string>)
    requires Req(request, "entity_id", "") != "" ==> crud.funcFetchUpdateData.Some?
    requires |randoms| == |crud.updateFields| && |randoms| == |other.updateFields|
    requires Req(request, "entity_id", "") == ""
    ensures PageEntityUpdate(crud, request, randoms) == PageEntityUpdate(other, request, randoms)
  {
  }

  /** A rendered edit page's form has one group per field plus one script per blockarea field. */
  lemma EditPageFormLength(crud: Crud, request: Request, randoms: seq<string>)
    requires Req(request, "entity_id", "") != "" ==> crud.funcFetchUpdateData.Some?
    requires |randoms| == |crud.updateFields|
    requires PageEntityUpdate(crud, request, randoms).EditRendered?
    ensures |PageEntityUpdate(crud, request, randoms).page.form|
      == |crud.updateFields| + BlockCount(crud.updateFields)
  {
    FormSpecLength(crud.updateFields, randoms);
  }

  /**
   * `pageSave`: trim the id of ASCII spaces and refuse an empty one, collect the update fields'
   * values, validate them fail-fast, and only then call the update callback with the trimmed id.
   */
  method PageSave(crud: Crud, request: Request) returns (out: Outcome)
    requires UpdateReachesCallback(crud.updateFields, request) ==> crud.funcUpdate.Some?
    ensures out == UpdateOutcome(crud.updateFields, crud.funcUpdate, request)
  {
    var fields, update := crud.updateFields, crud.funcUpdate;
    ghost var expected := UpdateOutcome(fields, update, request);
    var entityId := TrimBlanks(Req(request, "entity_id", ""));
    assert entityId == EntityId(request);
    if entityId == "" {
      assert expected == Error(MsgIdRequired);
      return Error(MsgIdRequired);
    }
    var names := ListNames(fields);
    var posts := CollectPosts(names, request);
    assert posts == SubmittedPosts(fields, request);
    var failure := CheckRequired(fields, posts);
    if failure.Some? {
      assert expected == Error(failure.value);
      return Error(failure.value);
    }
    assert UpdateReachesCallback(fields, request);
    var err := update.value(entityId, posts);
    assert expected == if err.Err? then Error(MsgSaveFailed + err.message) else Success(MsgSaved, entityId);
    if err.Err? {
      return Error(MsgSaveFailed + err.message);
    }
    return Success(MsgSaved, entityId);
  }
}
