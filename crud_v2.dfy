/**
 * The second-generation handler (`v2/Crud.go`): route resolution including the create modal, URL
 * builders that respect an endpoint's own query, the page layout and the form builder.
 */
module CrudV2 {
  import opened Wrappers
  import opened GoStrings
  import opened UrlQuery
  import opened CrudTypes
  import opened FormWidgets

  /** The route table. */
  const Routes: map<string, Route> := map[
    PathHome := EntityManager,
    PathEntityCreateAjax := EntityCreateAjax,
    PathEntityCreateModal := EntityCreateModal,
    PathEntityManager := EntityManager,
    PathEntityRead := EntityRead,
    PathEntityUpdate := EntityUpdate,
    PathEntityUpdateAjax := EntityUpdateAjax,
    PathEntityTrashAjax := EntityTrashAjax]

  /**
   * `getRoute`: exact lookup, with every unknown key sent to the home handler. Only the listed
   * keys reach a handler other than the manager, each its own.
   */
  function GetRoute(key: string): (route: Route)
    ensures route == EntityManager
      <==> key !in {PathEntityCreateAjax, PathEntityCreateModal, PathEntityRead, PathEntityUpdate,
                    PathEntityUpdateAjax, PathEntityTrashAjax}
    ensures route != EntityManager ==> key == PathOf(route)
  {
    if key in Routes then Routes[key] else Routes[PathHome]
  }

  /** Every route's key resolves back to it. */
  lemma GetRoutePathOf(route: Route)
    ensures GetRoute(PathOf(route)) == route
  {
  }

  /**
   * `Handler`: dispatch on the `path` parameter. A request without one, or with an empty one, gets
   * the manager page; any other handler is reached only when the parameter names it exactly.
   */
  function Handler(request: Request): (route: Route)
    ensures "path" !in request || request["path"] == "" ==> route == EntityManager
    ensures route != EntityManager ==> "path" in request && request["path"] == PathOf(route)
  {
    GetRoute(RouteKey(request))
  }

  /** The separator the builders put before `path=`: '&' when the endpoint already has a query. */
  function Separator(endpoint: string): char
  {
    if '?' in endpoint then '&' else '?'
  }

  /**
   * The URL builders `UrlEntityManager` ... `UrlEntityUpdateAjax`: the result starts with the
   * endpoint and holds exactly one '?' unless the endpoint already had more.
   */
  function RouteUrl(endpoint: string, route: Route): (url: string)
    ensures HasPrefix(url, endpoint)
    ensures Count(url, '?') == if '?' in endpoint then Count(endpoint, '?') else 1
  {
    var key := PathOf(route);
    var q := if '?' in endpoint then "&" else "?";
    PathOfQuerySafe(route);
    QueryUrlShape(endpoint, Separator(endpoint), key);
    CountZero(endpoint, '?');
    assert endpoint + q + "path=" + key == endpoint + [Separator(endpoint)] + "path=" + key;
    endpoint + q + "path=" + key
  }


  /** `urlHome` */
  function UrlHome(crud: Crud): string
  {
    crud.homeUrl
  }

  /**
   * Whatever query the endpoint has, a builder's URL adds `path` without disturbing the endpoint's
   * own parameters, and when the endpoint does not set `path` itself the handler sends a request
   * for the URL back to the route it was built for.
   */
  lemma RouteUrlRoundTrip(endpoint: string, route: Route)
    requires '#' !in endpoint
    requires "path" !in QueryParams(endpoint)
    ensures QueryParams(RouteUrl(endpoint, route)) == map["path" := PathOf(route)] + QueryParams(endpoint)
    ensures Handler(QueryParams(RouteUrl(endpoint, route))) == route
  {
    RouteUrlParams(endpoint, route);
    var q := QueryParams(RouteUrl(endpoint, route));
    assert "path" in q && q["path"] == PathOf(route);
    HandlerOfPath(q, route);
  }

  /** The parameters of a builder's URL: `path` is added to the endpoint's own parameters. */
  lemma RouteUrlParams(endpoint: string, route: Route)
    requires '#' !in endpoint
    ensures QueryParams(RouteUrl(endpoint, route)) == map["path" := PathOf(route)] + QueryParams(endpoint)
  {
    var key := PathOf(route);
    PathOfQuerySafe(route);
    QuerySafePlain(key);
    QuerySafePlain("path");
    RouteUrlForm(endpoint, route);
    PathGlue(endpoint, if '?' in endpoint then '&' else '?', key);
    AppendParam(endpoint, "path", key);
  }

  /**
   * The literal "path=" is the parameter name followed by '='. A helper that keeps literal-string
   * reasoning out of the URL proofs, where it is costly for the solver.
   */
  lemma PathGlue(endpoint: string, c: char, key: string)
    ensures endpoint + [c] + "path=" + key == endpoint + [c] + "path" + "=" + key
  {
    assert "path=" == "path" + "=";
  }

  /**
   * A builder's URL for `route` followed by "&entity_id=" and an id: the form of the view, edit and
   * breadcrumb links the pages build.
   */
  function EntityUrl(endpoint: string, route: Route, id: string): string
  {
    RouteUrl(endpoint, route) + "&entity_id=" + id
  }

  /**
   * Because a builder's URL always holds a '?', the appended "&entity_id=" lands in the query: a
   * request for the link reaches `route` and carries the id, provided the endpoint sets neither
   * parameter itself and the id cannot end the parameter early.
   */
  lemma EntityUrlRoundTrip(endpoint: string, route: Route, id: string)
    requires '#' !in endpoint
    requires "path" !in QueryParams(endpoint) && "entity_id" !in QueryParams(endpoint)
    requires PlainParam(id)
    ensures QueryParams(EntityUrl(endpoint, route, id))
      == map["entity_id" := id] + (map["path" := PathOf(route)] + QueryParams(endpoint))
    ensures Handler(QueryParams(EntityUrl(endpoint, route, id))) == route
    ensures Req(QueryParams(EntityUrl(endpoint, route, id)), "entity_id", "") == id
  {
    EntityUrlParams(endpoint, route, id);
    var q := QueryParams(EntityUrl(endpoint, route, id));
    var inner := map["path" := PathOf(route)] + QueryParams(endpoint);
    assert "path" in inner && inner["path"] == PathOf(route);
    assert "path"[0] != "entity_id"[0];
    assert "path" in q && q["path"] == PathOf(route);
    HandlerOfPath(q, route);
    assert "entity_id" in q && q["entity_id"] == id;
  }

  /** The parameters of an entity link: the id, the route key, then the endpoint's own. */
  lemma EntityUrlParams(endpoint: string, route: Route, id: string)
    requires '#' !in endpoint
    requires "path" !in QueryParams(endpoint)
    requires PlainParam(id)
    ensures QueryParams(EntityUrl(endpoint, route, id))
      == map["entity_id" := id] + (map["path" := PathOf(route)] + QueryParams(endpoint))
  {
    RouteUrlMarks(endpoint, route);
    RouteUrlParams(endpoint, route);
    EntityParam(RouteUrl(endpoint, route), id);
  }

  /** Appending "&entity_id=" and an id to a URL that has a query adds that one parameter. */
  lemma EntityParam(url: string, id: string)
    requires '?' in url && '#' !in url
    requires PlainParam(id)
    ensures QueryParams(url + "&entity_id=" + id) == map["entity_id" := id] + QueryParams(url)
  {
    EntityIdKey();
    AppendToQuery(url, "entity_id", id);
    ParamGlue(url, "entity_id", id);
  }

  /**
   * The `entity_id` name is a plain parameter name, and "&entity_id=" is '&', the name and '='.
   * A helper that keeps literal-string reasoning out of the URL proofs, where it is costly for the solver.
   */
  lemma EntityIdKey()
    ensures "entity_id" != "" && '=' !in "entity_id" && PlainParam("entity_id")
    ensures "&" + "entity_id" + "=" == "&entity_id="
  {
  }

  /**
   * Regroups the separator, a key and '=' into one piece. A helper that keeps re-association out
   * of the URL proofs, where it is costly for the solver.
   */
  lemma ParamGlue(url: string, key: string, value: string)
    ensures url + "&" + key + "=" + value == url + ("&" + key + "=") + value
  {
  }

  /** The builders' URL spelled out with the separator. */
  lemma RouteUrlForm(endpoint: string, route: Route)
    ensures RouteUrl(endpoint, route) == endpoint + [if '?' in endpoint then '&' else '?'] + "path=" + PathOf(route)
  {
  }

  /** A builder's URL has a query and no fragment when the endpoint has no fragment. */
  lemma RouteUrlMarks(endpoint: string, route: Route)
    requires '#' !in endpoint
    ensures '?' in RouteUrl(endpoint, route) && '#' !in RouteUrl(endpoint, route)
  {
    var key := PathOf(route);
    var url := RouteUrl(endpoint, route);
    PathOfQuerySafe(route);
    QuerySafePlain(key);
    assert url == endpoint + [Separator(endpoint)] + "path=" + key;
    CountZero(url, '?');
  }

  /** A request whose `path` is a route's key is dispatched to that route. */
  lemma HandlerOfPath(request: Request, route: Route)
    requires "path" in request && request["path"] == PathOf(route)
    ensures Handler(request) == route
  {
    PathOfQuerySafe(route);
    GetRoutePathOf(route);
  }

  // The assets `layout` puts ahead of the caller's, and those of the built-in shell.
  const FrameworkScripts := [Cdn(Htmx_2_0_0), Cdn(Sweetalert2_11), Cdn(VueJs_3), Cdn(VueElementPlusJs_2_3_8)]
  const FrameworkStyles := [Cdn(VueElementPlusCss_2_3_8)]
  const ShellStyles := [Cdn(BootstrapCss_5_3_3)]
  const ShellScripts := [Cdn(BootstrapJs_5_3_3), Cdn(Jquery_3_7_1), Cdn(VueJs_3), Cdn(Sweetalert2_11)]

  /**
   * `layout`: with a custom layout, prepend htmx, SweetAlert, Vue and Element Plus (in that order)
   * to the caller's scripts and the Element Plus stylesheet to its stylesheets, keeping the caller's
   * order; otherwise the built-in shell lists its own assets first.
   */
  method Layout(crud: Crud, title: string, content: string, styleFiles: seq<Asset>, style: string,
                jsFiles: seq<Asset>, js: string) returns (doc: Document)
    ensures crud.funcLayout.Some? ==> doc == Delegated(crud.funcLayout.value(title, content,
      FrameworkStyles + styleFiles, style, FrameworkScripts + jsFiles, js))
    ensures crud.funcLayout.None? ==> doc == Shell(title, ShellStyles + styleFiles, style,
      ShellScripts + jsFiles, js, content)
  {
    var styles := styleFiles;
    var scripts := jsFiles;
    if crud.funcLayout.Some? {
      scripts := [Cdn(VueElementPlusJs_2_3_8)] + scripts;
      scripts := [Cdn(VueJs_3)] + scripts;
      scripts := [Cdn(Sweetalert2_11)] + scripts;
      scripts := [Cdn(Htmx_2_0_0)] + scripts;
      styles := [Cdn(VueElementPlusCss_2_3_8)] + styles;
      assert scripts == FrameworkScripts + jsFiles;
      doc := Delegated(crud.funcLayout.value(title, content, styles, style, scripts, js));
    } else {
      doc := Shell(title, ShellStyles + styles, style, ShellScripts + scripts, js, content);
    }
  }

  /** The layout's framework prefix can be split off again, leaving the caller's lists as given. */
  lemma FrameworkPrefixSplits(styleFiles: seq<Asset>, jsFiles: seq<Asset>)
    ensures (FrameworkScripts + jsFiles)[|FrameworkScripts|..] == jsFiles
    ensures (FrameworkStyles + styleFiles)[|FrameworkStyles|..] == styleFiles
  {
  }

  /**
   * What `form` emits: the form group of `field` with input id `inputId` (its markup is
   * `TagGroup`), or the start-up script of the block editor with element id `fieldId`.
   */
  datatype FormTag = Group(field: FormField, inputId: string) | BlockAreaScript(fieldId: string)

  /** The form group a `Group` tag stands for. */
  function TagGroup(tag: FormTag, fileManagerUrl: string): FormGroup
    requires tag.Group?
  {
    GroupFor(Second, tag.field, fileManagerUrl, Some(tag.inputId))
  }

  /** The element id of a field's input: its own, or "id_" followed by a random suffix. */
  function FieldId(field: FormField, random: string): (id: string)
    ensures field.id != "" ==> id == field.id
    ensures field.id == "" ==> id == "id_" + random && HasPrefix(id, "id_")
  {
    if field.id == "" then "id_" + random else field.id
  }

  /** The tags for one field: its group, then for a blockarea field the editor's script. */
  function FieldTags(field: FormField, random: string): seq<FormTag>
  {
    var id := FieldId(field, random);
    [Group(field, id)]
      + (if field.fieldType == TypeBlockarea then [BlockAreaScript(id)] else [])
  }

  /** The number of blockarea fields. */
  function BlockCount(fields: seq<FormField>): nat
  {
    if fields == [] then 0
    else BlockCount(fields[..|fields| - 1]) + (if fields[|fields| - 1].fieldType == TypeBlockarea then 1 else 0)
  }

  /** The tags `form` builds, field by field; `randoms[i]` is the suffix drawn for field i. */
  function FormSpec(fields: seq<FormField>, randoms: seq<string>): seq<FormTag>
    requires |randoms| == |fields|
  {
    if fields == [] then []
    else
      FormSpec(fields[..|fields| - 1], randoms[..|randoms| - 1])
      + FieldTags(fields[|fields| - 1], randoms[|randoms| - 1])
  }

  /** `form`: the loop that appends each field's group and, for a blockarea field, its script. */
  method Form(fields: seq<FormField>, randoms: seq<string>) returns (tags: seq<FormTag>)
    requires |randoms| == |fields|
    ensures tags == FormSpec(fields, randoms)
  {
    tags := [];
    var i := 0;
    while i < |fields|
      invariant 0 <= i <= |fields|
      invariant tags == FormSpec(fields[..i], randoms[..i])
    {
      var field := fields[i];
      var id := FieldId(field, randoms[i]);
      tags := tags + [Group(field, id)];
      if field.fieldType == TypeBlockarea {
        tags := tags + [BlockAreaScript(id)];
      }
      assert fields[..i + 1][..i] == fields[..i];
      assert randoms[..i + 1][..i] == randoms[..i];
      i := i + 1;
    }
    assert fields[..|fields|] == fields;
    assert randoms[..|randoms|] == randoms;
  }

  /** One tag per field plus one per blockarea field. */
  lemma {:induction false} FormSpecLength(fields: seq<FormField>, randoms: seq<string>)
    requires |randoms| == |fields|
    ensures |FormSpec(fields, randoms)| == |fields| + BlockCount(fields)
    decreases |fields|
  {
    if fields != [] {
      FormSpecLength(fields[..|fields| - 1], randoms[..|randoms| - 1]);
    }
  }

  /**
   * Field i's group sits at position i plus the number of blockarea fields before it, and a
   * blockarea field's script follows its group immediately.
   */
  lemma {:induction false} FormSpecAt(fields: seq<FormField>, randoms: seq<string>, i: nat)
    requires |randoms| == |fields| && i < |fields|
    ensures var tags, p, id := FormSpec(fields, randoms), i + BlockCount(fields[..i]), FieldId(fields[i], randoms[i]);
      p < |tags| && tags[p] == Group(fields[i], id)
      && (fields[i].fieldType == TypeBlockarea ==> p + 1 < |tags| && tags[p + 1] == BlockAreaScript(id))
    decreases |fields|
  {
    var n := |fields|;
    var init := FormSpec(fields[..n - 1], randoms[..n - 1]);
    var last := FieldTags(fields[n - 1], randoms[n - 1]);
    assert FormSpec(fields, randoms) == init + last;
    if i == n - 1 {
      FormSpecLength(fields[..n - 1], randoms[..n - 1]);
    } else {
      assert fields[..n - 1][..i] == fields[..i];
      assert fields[..n - 1][i] == fields[i];
      assert randoms[..n - 1][i] == randoms[i];
      FormSpecAt(fields[..n - 1], randoms[..n - 1], i);
    }
  }
}
