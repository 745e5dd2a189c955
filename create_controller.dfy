/**
 * The second-generation create modal and its save endpoint (`v2/entityCreateController.go`). The
 * save endpoint answers with a SweetAlert notice instead of JSON and, on success, sends the
 * browser on to a redirect URL. As written that URL holds a second '?' and opens the manager
 * page; `ModalSaveCorrected` is the endpoint with the redirect the other pages' edit links use.
 */
module CreateController {
  import opened Wrappers
  import opened GoStrings
  import opened UrlQuery
  import opened CrudTypes
  import opened Submission
  import opened CrudV2

  /** The notice `modalSave` answers with: an error, or a success that redirects. */
  datatype SwalResponse = SwalError(text: string) | SwalSuccess(text: string, redirectUrl: string)

  /** The redirect as the source builds it: the update page's URL, then "?entity_id=" and the id. */
  function RedirectUrlAsWritten(endpoint: string, entityId: string): string
  {
    RouteUrl(endpoint, EntityUpdate) + "?entity_id=" + entityId
  }

  /**
   * Because the update page's URL already has a query, the second '?' becomes part of the `path`
   * value: the request is dispatched to the manager page instead of the edit page, and carries no
   * `entity_id` unless the endpoint itself set one.
   */
  lemma RedirectAsWrittenMisroutes(endpoint: string, entityId: string)
    requires '#' !in endpoint
    requires "path" !in QueryParams(endpoint) && "entity_id" !in QueryParams(endpoint)
    requires PlainParam(entityId)
    ensures Req(QueryParams(RedirectUrlAsWritten(endpoint, entityId)), "path", "")
      == PathEntityUpdate + "?entity_id=" + entityId
    ensures Handler(QueryParams(RedirectUrlAsWritten(endpoint, entityId))) == EntityManager
    ensures "entity_id" !in QueryParams(RedirectUrlAsWritten(endpoint, entityId))
  {
    var value := PathEntityUpdate + "?entity_id=" + entityId;
    RedirectAsWrittenParams(endpoint, entityId);
    var q := QueryParams(RedirectUrlAsWritten(endpoint, entityId));
    assert q["path"] == value;
    UnknownKeyGoesHome(value);
  }

  /** The as-written redirect sets `path` to the key, the second '?' and the id parameter. */
  lemma RedirectAsWrittenParams(endpoint: string, entityId: string)
    requires '#' !in endpoint
    requires "path" !in QueryParams(endpoint)
    requires PlainParam(entityId)
    ensures QueryParams(RedirectUrlAsWritten(endpoint, entityId))
      == map["path" := PathEntityUpdate + "?entity_id=" + entityId] + QueryParams(endpoint)
  {
    QuerySafePlain("path");
    RedirectValuePlain(entityId);
    AppendParam(endpoint, "path", PathEntityUpdate + "?entity_id=" + entityId);
    RedirectAsWrittenShape(endpoint, entityId);
  }

  /** The misplaced `path` value holds no separator the query parser acts on. */
  lemma RedirectValuePlain(entityId: string)
    requires PlainParam(entityId)
    ensures PlainParam(PathEntityUpdate + "?entity_id=" + entityId)
  {
    var head := PathEntityUpdate + "?entity_id=";
    assert PlainParam(head);
    assert forall c :: c in head + entityId ==> c in head || c in entityId;
  }

  /** The as-written redirect is the endpoint and one `path` parameter holding the rest. */
  lemma RedirectAsWrittenShape(endpoint: string, entityId: string)
    ensures RedirectUrlAsWritten(endpoint, entityId)
      == endpoint + [if '?' in endpoint then '&' else '?'] + "path" + "=" + (PathEntityUpdate + "?entity_id=" + entityId)
  {
    RouteUrlForm(endpoint, EntityUpdate);
    var glue := "path=";
    assert glue == "path" + "=";
  }

  /** A key longer than every route key selects the manager page. */
  lemma UnknownKeyGoesHome(key: string)
    requires |key| > |PathEntityCreateModal|
    ensures GetRoute(key) == EntityManager
  {
  }

  /** The intended redirect: the update page's URL with "&entity_id=" and the id. */
  function RedirectUrl(endpoint: string, entityId: string): string
  {
    EntityUrl(endpoint, EntityUpdate, entityId)
  }

  /** The corrected redirect reaches the edit page with the new entity's id. */
  lemma RedirectUrlReachesEditPage(endpoint: string, entityId: string)
    requires '#' !in endpoint
    requires "path" !in QueryParams(endpoint) && "entity_id" !in QueryParams(endpoint)
    requires PlainParam(entityId)
    ensures Handler(QueryParams(RedirectUrl(endpoint, entityId))) == EntityUpdate
    ensures Req(QueryParams(RedirectUrl(endpoint, entityId)), "entity_id", "") == entityId
  {
    EntityUrlRoundTrip(endpoint, EntityUpdate, entityId);
  }

  /**
   * An endpoint the redirect lemmas apply to: no fragment, and no `path` or `entity_id`
   * parameter of its own.
   */
  predicate PlainEndpoint(endpoint: string)
  {
    '#' !in endpoint && "path" !in QueryParams(endpoint) && "entity_id" !in QueryParams(endpoint)
  }

  /**
   * `modalSave`: collect the create fields' values, validate them fail-fast, and only then call
   * the create callback. Every failure becomes an error notice with the submission's message; a
   * success notice redirects to the as-written URL, which opens the manager page.
   */
  method ModalSave(crud: Crud, request: Request) returns (response: SwalResponse)
    requires PassesValidation(crud.createFields, request) ==> crud.funcCreate.Some?
    ensures var out := CreateOutcome(crud.createFields, crud.funcCreate, request);
      (out.Error? ==> response == SwalError(out.message))
      && (out.Success? ==> response == SwalSuccess(MsgSaved, RedirectUrlAsWritten(crud.endpoint, out.entityId)))
    ensures var out := CreateOutcome(crud.createFields, crud.funcCreate, request);
      out.Success? && PlainEndpoint(crud.endpoint) && PlainParam(out.entityId)
      ==> Handler(QueryParams(response.redirectUrl)) == EntityManager
          && "entity_id" !in QueryParams(response.redirectUrl)
  {
    var names := ListNames(crud.createFields);
    var posts := CollectPosts(names, request);
    var failure := CheckRequired(crud.createFields, posts);
    if failure.Some? {
      return SwalError(failure.value);
    }
    var (entityId, err) := crud.funcCreate.value(posts);
    if err.Err? {
      return SwalError(MsgSaveFailed + err.message);
    }
    var redirectUrl := RedirectUrlAsWritten(crud.endpoint, entityId);
    if PlainEndpoint(crud.endpoint) && PlainParam(entityId) {
      RedirectAsWrittenMisroutes(crud.endpoint, entityId);
    }
    return SwalSuccess(MsgSaved, redirectUrl);
  }

  /**
   * `modalSave` with the redirect written as intended: the same notices, but a success redirects
   * to the new entity's edit page with its id.
   */
  method ModalSaveCorrected(crud: Crud, request: Request) returns (response: SwalResponse)
    requires PassesValidation(crud.createFields, request) ==> crud.funcCreate.Some?
    ensures var out := CreateOutcome(crud.createFields, crud.funcCreate, request);
      (out.Error? ==> response == SwalError(out.message))
      && (out.Success? ==> response == SwalSuccess(MsgSaved, RedirectUrl(crud.endpoint, out.entityId)))
    ensures var out := CreateOutcome(crud.createFields, crud.funcCreate, request);
      out.Success? && PlainEndpoint(crud.endpoint) && PlainParam(out.entityId)
      ==> Handler(QueryParams(response.redirectUrl)) == EntityUpdate
          && Req(QueryParams(response.redirectUrl), "entity_id", "") == out.entityId
  {
    response := ModalSave(crud, request);
    if response.SwalSuccess? {
      var entityId := CreateOutcome(crud.createFields, crud.funcCreate, request).entityId;
      response := SwalSuccess(MsgSaved, RedirectUrl(crud.endpoint, entityId));
      if PlainEndpoint(crud.endpoint) && PlainParam(entityId) {
        RedirectUrlReachesEditPage(crud.endpoint, entityId);
      }
    }
  }

  /** Whatever the create callback, a submission that fails validation gets the same notice. */
  lemma ModalSaveFailsFast(crud: Crud, request: Request, i: nat)
    requires FirstViolation(crud.createFields, SubmittedPosts(crud.createFields, request)) == Some(i)
    ensures CreateOutcome(crud.createFields, crud.funcCreate, request) == Error(RequiredMessage(crud.createFields[i]))
  {
    CreateFailsFast(crud.createFields, crud.funcCreate, None, request, i);
  }

  /**
   * The create modal `modalShow` writes: its element id, the heading, the create fields its form
   * is built from, the URL the submit button posts to, and the two buttons' labels.
   */
  datatype CreateModal = CreateModal(
    elementId: string,
    heading: string,
    fields: seq<FormField>,
    submitUrl: string,
    submitLabel: string,
    closeLabel: string)

  /** `modal`: the heading names the entity and the submit button posts to the create endpoint. */
  function Modal(crud: Crud): (modal: CreateModal)
    ensures modal.heading == "New " + crud.entityNameSingular
    ensures modal.fields == crud.createFields
    ensures HasPrefix(modal.submitUrl, crud.endpoint)
  {
    CreateModal("ModalEntityCreate", "New " + crud.entityNameSingular, crud.createFields,
                RouteUrl(crud.endpoint, EntityCreateAjax), "Create & Edit", "Close")
  }

  /** The modal's submission is dispatched to the create endpoint. */
  lemma ModalSubmitsToCreateAjax(crud: Crud)
    requires '#' !in crud.endpoint && "path" !in QueryParams(crud.endpoint)
    ensures Handler(QueryParams(Modal(crud).submitUrl)) == EntityCreateAjax
  {
    RouteUrlRoundTrip(crud.endpoint, EntityCreateAjax);
  }
}
