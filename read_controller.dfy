/**
 * The second-generation detail page (`v2/entityReadController.go`): the id and callback guards,
 * and one table row per fetched key/value pair with each side's raw decision taken on its own.
 */
module ReadController {
  import opened Wrappers
  import opened CrudTypes
  import opened RawMarkers
  import opened GoStrings
  import opened Submission
  import opened CrudV2

  const MsgFetchReadRequired := "FuncFetchReadData is required"

  /** The details card's body: an alert when the fetch failed, otherwise the key/value rows. */
  datatype Details = DetailsAlert | DetailsTable(rows: seq<(Cell, Cell)>)

  /**
   * What the detail page shows: title and heading, the edit and back buttons' targets, the card's
   * heading and body, and the caller's extra fragments.
   */
  datatype ReadPage = ReadPage(
    status: int,
    title: string,
    editUrl: string,
    backUrl: string,
    detailsHeading: string,
    details: Details,
    extras: seq<Fragment>)

  /** Either a JSON refusal or the rendered page. */
  datatype ReadResponse = Refused(outcome: Outcome) | Rendered(page: ReadPage)

  /**
   * One row per fetched pair, in fetch order; the key is rendered raw when the key is wrapped in
   * the markers, the value when the value is.
   */
  function DetailRows(data: seq<(string, string)>): (rows: seq<(Cell, Cell)>)
    ensures |rows| == |data|
    ensures forall i :: 0 <= i < |data| ==>
      rows[i] == (RenderCell(data[i].0, data[i].0), RenderCell(data[i].1, data[i].1))
  {
    seq(|data|, i requires 0 <= i < |data| => (RenderCell(data[i].0, data[i].0), RenderCell(data[i].1, data[i].1)))
  }

  /**
   * The key's and the value's raw decisions are independent: each follows its own markers only,
   * and both sides are shown with the markers removed and trimmed.
   */
  lemma DetailRawness(data: seq<(string, string)>, i: nat)
    requires i < |data|
    ensures DetailRows(data)[i].0.Html? <==> IsRaw(data[i].0)
    ensures DetailRows(data)[i].1.Html? <==> IsRaw(data[i].1)
    ensures DetailRows(data)[i].0.content == TrimSpace(StripMarkers(data[i].0))
    ensures DetailRows(data)[i].1.content == TrimSpace(StripMarkers(data[i].1))
  {
  }

  /** The `entity_id` the page uses: taken as given, not trimmed. */
  function ReadId(request: Request): string
  {
    Req(request, "entity_id", "")
  }

  /**
   * `page`: an empty id is refused first, then a missing fetch callback; otherwise the page is
   * rendered with status 200, the details are an alert exactly when the fetch failed, and the
   * extras appear only when an extras callback is configured.
   */
  function PageEntityRead(crud: Crud, request: Request): (response: ReadResponse)
    ensures ReadId(request) == "" ==> response == Refused(Error(MsgIdRequired))
    ensures ReadId(request) != "" && crud.funcFetchReadData.None?
      ==> response == Refused(Error(MsgFetchReadRequired))
    ensures response.Rendered? <==> ReadId(request) != "" && crud.funcFetchReadData.Some?
    ensures response.Rendered? ==>
      var id := ReadId(request);
      var fetched := crud.funcFetchReadData.value(id);
      var page := response.page;
      page.status == 200
      && page.title == "View " + crud.entityNameSingular
      && page.editUrl == EntityUrl(crud.endpoint, EntityUpdate, id)
      && page.backUrl == RouteUrl(crud.endpoint, EntityManager)
      && page.detailsHeading == crud.entityNameSingular + " Details"
      && (page.details.DetailsAlert? <==> fetched.1.Err?)
      && (page.details.DetailsTable? ==> page.details.rows == DetailRows(fetched.0))
      && page.extras == (if crud.funcReadExtras.Some? then crud.funcReadExtras.value(id) else [])
  {
    var id := ReadId(request);
    if id == "" then Refused(Error(MsgIdRequired))
    else if crud.funcFetchReadData.None? then Refused(Error(MsgFetchReadRequired))
    else
      var fetched := crud.funcFetchReadData.value(id);
      var details := if fetched.1.Err? then DetailsAlert else DetailsTable(DetailRows(fetched.0));
      var extras := if crud.funcReadExtras.Some? then crud.funcReadExtras.value(id) else [];
      Rendered(ReadPage(
        200,
        "View " + crud.entityNameSingular,
        EntityUrl(crud.endpoint, EntityUpdate, id),
        RouteUrl(crud.endpoint, EntityManager),
        crud.entityNameSingular + " Details",
        details,
        extras))
  }

  /** Without an id the response is the same whatever the configured callbacks. */
  lemma ReadIdGuardFirst(crud: Crud, other: Crud, request: Request)
    requires ReadId(request) == ""
    ensures PageEntityRead(crud, request) == PageEntityRead(other, request)
  {
  }

  /**
   * Unlike the save and trash endpoints, the page does not trim the id: an id of spaces reaches
   * the fetch callback unchanged.
   */
  lemma ReadIdNotTrimmed(crud: Crud, request: Request)
    requires crud.funcFetchReadData.Some?
    requires ReadId(request) == " "
    ensures EntityId(request) == ""
    ensures PageEntityRead(crud, request).Rendered?
    ensures PageEntityRead(crud, request).page.editUrl == EntityUrl(crud.endpoint, EntityUpdate, " ")
  {
    TrimFuncEmpty(" ", IsBlank);
  }
}
