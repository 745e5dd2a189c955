/**
 * The first-generation handler (`Crud.go`): route resolution, URL builders, the page layout, the
 * form builder and the create submission. Its update and trash submissions are the same code as
 * the second generation's and are modelled once, in `UpdateController` and `TrashController`.
 */
module CrudV1 {
  import opened Wrappers
  import opened GoStrings
  import opened UrlQuery
  import opened CrudTypes
  import opened FormWidgets
  import opened Submission

  /** The route table; this generation has no create modal. */
  const Routes: map<string, Route> := map[
    PathHome := EntityManager,
    PathEntityCreateAjax := EntityCreateAjax,
    PathEntityManager := EntityManager,
    PathEntityRead := EntityRead,
    PathEntityUpdate := EntityUpdate,
    PathEntityUpdateAjax := EntityUpdateAjax,
    PathEntityTrashAjax := EntityTrashAjax]

  /**
   * `getRoute`: exact lookup, with every unknown key sent to the home handler. Only the listed
   * keys reach a handler other than the manager, each its own.
   */
  function GetRoute(key: string): (route: Route)
    ensures route != EntityCreateModal
    ensures route == EntityManager
      <==> key !in {PathEntityCreateAjax, PathEntityRead, PathEntityUpdate, PathEntityUpdateAjax, PathEntityTrashAjax}
    ensures route != EntityManager ==> key == PathOf(route)
  {
    if key in Routes then Routes[key] else Routes[PathHome]
  }

  /**
   * `Handler`: dispatch on the `path` parameter. A request without one, or with an empty one, gets
   * the manager page; any other handler is reached only when the parameter names it exactly.
   */
  function Handler(request: Request): (route: Route)
    ensures "path" !in request || request["path"] == "" ==> route == EntityManager
    ensures route != EntityManager ==> "path" in request && request["path"] == PathOf(route)
  {
    GetRoute(RouteKey(request))
  }

  /** The URL builders `UrlEntityManager` ... `UrlEntityUpdateAjax`: always a new '?'. */
  function RouteUrl(endpoint: string, route: Route): (url: string)
    requires route != EntityCreateModal
    ensures HasPrefix(url, endpoint)
    ensures Count(url, '?') == Count(endpoint, '?') + 1
  {
    var key := PathOf(route);
    PathOfQuerySafe(route);
    QueryUrlShape(endpoint, '?', key);
    assert endpoint + "?path=" + key == endpoint + ['?'] + "path=" + key;
    endpoint + "?path=" + key
  }

  /** `urlHome` */
  function UrlHome(crud: Crud): string
  {
    crud.homeUrl
  }

  /** Each builder's route key resolves back to its route. */
  lemma GetRoutePathOf(route: Route)
    requires route != EntityCreateModal
    ensures GetRoute(PathOf(route)) == route
  {
  }

  /**
   * For an endpoint without a query or fragment, each builder's URL carries exactly one
   * parameter, `path`, and the handler sends a request for it back to the route it was built for.
   */
  lemma RouteUrlRoundTrip(endpoint: string, route: Route)
    requires route != EntityCreateModal
    requires '?' !in endpoint && '#' !in endpoint
    ensures QueryParams(RouteUrl(endpoint, route)) == map["path" := PathOf(route)]
    ensures Handler(QueryParams(RouteUrl(endpoint, route))) == route
  {
    RouteUrlParams(endpoint, route);
    var q := QueryParams(RouteUrl(endpoint, route));
    assert "path" in q && q["path"] == PathOf(route);
    HandlerOfPath(q, route);
  }

  /** The only parameter of a builder's URL is `path`. */
  lemma RouteUrlParams(endpoint: string, route: Route)
    requires route != EntityCreateModal
    requires '?' !in endpoint && '#' !in endpoint
    ensures QueryParams(RouteUrl(endpoint, route)) == map["path" := PathOf(route)]
  {
    var key := PathOf(route);
    PathOfQuerySafe(route);
    QuerySafePlain(key);
    QuerySafePlain("path");
    RouteUrlForm(endpoint, route);
    AppendParam(endpoint, "path", key);
    NoQuery(endpoint);
    var none: map<string, string> := map[];
    assert map["path" := key] + none == map["path" := key];
  }

  /** The builders' URL spelled out: the endpoint, '?', then the `path` parameter. */
  lemma RouteUrlForm(endpoint: string, route: Route)
    requires route != EntityCreateModal
    ensures RouteUrl(endpoint, route) == endpoint + ['?'] + "path" + "=" + PathOf(route)
  {
    var glue := "?path=";
    assert glue == ['?'] + "path" + "=";
  }

  /** A request whose `path` is a route's key is dispatched to that route. */
  lemma HandlerOfPath(request: Request, route: Route)
    requires route != EntityCreateModal
    requires "path" in request && request["path"] == PathOf(route)
    ensures Handler(request) == route
  {
    PathOfQuerySafe(route);
    GetRoutePathOf(route);
  }

  // The assets `_layout` puts ahead of the caller's, and those of the built-in shell.
  const SweetAlertJs := Url("https://cdn.jsdelivr.net/npm/sweetalert2@9")
  const VueJs := Url("https://unpkg.com/vue@3/dist/vue.global.js")
  const ElementPlusJs := Url("//cdn.jsdelivr.net/npm/element-plus")
  const ElementPlusCss := Url("https://unpkg.com/element-plus/dist/index.css")
  const ShellStyles := [Url("https://cdn.jsdelivr.net/npm/bootstrap@5.0.0-beta3/dist/css/bootstrap.min.css")]
  const ShellScripts := [
    Url("https://cdn.jsdelivr.net/npm/bootstrap@5.0.0-beta3/dist/js/bootstrap.bundle.min.js"),
    Url("https://code.jquery.com/jquery-3.6.0.min.js"),
    VueJs,
    SweetAlertJs]

  /**
   * `_layout`: with a custom layout, prepend SweetAlert, Vue and Element Plus (in that order) to the
   * caller's scripts and the Element Plus stylesheet to its stylesheets, keeping the caller's order;
   * otherwise the built-in shell lists its own assets first.
   */
  method Layout(crud: Crud, title: string, content: string, styleFiles: seq<Asset>, style: string,
                jsFiles: seq<Asset>, js: string) returns (doc: Document)
    ensures crud.funcLayout.Some? ==> doc == Delegated(crud.funcLayout.value(title, content,
      [ElementPlusCss] + styleFiles, style, [SweetAlertJs, VueJs, ElementPlusJs] + jsFiles, js))
    ensures crud.funcLayout.None? ==> doc == Shell(title, ShellStyles + styleFiles, style,
      ShellScripts + jsFiles, js, content)
  {
    var styles := styleFiles;
    var scripts := jsFiles;
    if crud.funcLayout.Some? {
      scripts := [ElementPlusJs] + scripts;
      scripts := [VueJs] + scripts;
      scripts := [SweetAlertJs] + scripts;
      styles := [ElementPlusCss] + styles;
      assert scripts == [SweetAlertJs, VueJs, ElementPlusJs] + jsFiles;
      doc := Delegated(crud.funcLayout.value(title, content, styles, style, scripts, js));
    } else {
      doc := Shell(title, ShellStyles + styles, style, ShellScripts + scripts, js, content);
    }
  }

  /** The form groups `_form` builds: one per field, in order, without element ids. */
  function FormSpec(fields: seq<FormField>, fileManagerUrl: string): (groups: seq<FormGroup>)
    ensures |groups| == |fields|
    ensures forall i :: 0 <= i < |fields| ==> groups[i] == GroupFor(First, fields[i], fileManagerUrl, None)
  {
    seq(|fields|, i requires 0 <= i < |fields| => GroupFor(First, fields[i], fileManagerUrl, None))
  }

  /** `_form`: the loop that appends one group per field. */
  method Form(crud: Crud, fields: seq<FormField>) returns (groups: seq<FormGroup>)
    ensures groups == FormSpec(fields, crud.fileManagerUrl)
  {
    groups := [];
    var i := 0;
    while i < |fields|
      invariant 0 <= i <= |fields|
      invariant |groups| == i
      invariant forall j :: 0 <= j < i ==> groups[j] == GroupFor(First, fields[j], crud.fileManagerUrl, None)
    {
      groups := groups + [GroupFor(First, fields[i], crud.fileManagerUrl, None)];
      i := i + 1;
    }
  }

  /**
   * `pageEntityCreateAjax`: collect the create fields' values, validate them fail-fast, and only
   * then call the create callback; the JSON response is the submission's outcome.
   */
  method PageEntityCreateAjax(crud: Crud, request: Request) returns (out: Outcome)
    requires PassesValidation(crud.createFields, request) ==> crud.funcCreate.Some?
    ensures out == CreateOutcome(crud.createFields, crud.funcCreate, request)
  {
    var names := ListNames(crud.createFields);
    var posts := CollectPosts(names, request);
    var failure := CheckRequired(crud.createFields, posts);
    if failure.Some? {
      return Error(failure.value);
    }
    var (entityId, err) := crud.funcCreate.value(posts);
    if err.Err? {
      return Error(MsgSaveFailed + err.message);
    }
    return Success(MsgSaved, entityId);
  }
}
