/**
 * The data the scaffold works on: field schemas, listing rows, requests and responses,
 * the caller's callbacks, the configuration record and the handler it is copied into.
 */
module CrudTypes {
  import opened Wrappers
  import opened GoStrings
  import opened UrlQuery

  // Route keys, read from the `path` request parameter.
  const PathHome := "home"
  const PathEntityCreateAjax := "entity-create-ajax"
  const PathEntityCreateModal := "entity-create-modal"
  const PathEntityManager := "entity-manager"
  const PathEntityRead := "entity-read"
  const PathEntityUpdate := "entity-update"
  const PathEntityUpdateAjax := "entity-update-ajax"
  const PathEntityTrashAjax := "entity-trash-ajax"

  // Field type tags. The last three exist only in the second generation.
  const TypeNumber := "number"
  const TypeString := "string"
  const TypeTextarea := "textarea"
  const TypeSelect := "select"
  const TypeImage := "image"
  const TypeHtmlarea := "htmlarea"
  const TypeDatetime := "datetime"
  const TypePassword := "password"
  const TypeImageInline := "image_inline"
  const TypeBlockarea := "blockarea"
  const TypeRaw := "raw"

  datatype FormFieldOption = FormFieldOption(key: string, value: string)

  /** One field of a create, update or read form. `optionsF` lists options computed on demand. */
  datatype FormField = FormField(
    id: string,
    fieldType: string,
    name: string,
    value: string,
    labelText: string,
    help: string,
    options: seq<FormFieldOption>,
    optionsF: Option<() -> seq<FormFieldOption>>,
    required: bool)

  /** One listing row: the entity id and the cell texts, one per column. */
  datatype Row = Row(id: string, data: seq<string>)

  /** Go's `error`: nil, or a value with a message. */
  datatype GoError = Nil | Err(message: string)

  /** The request parameters a handler reads. */
  type Request = map<string, string>

  /** The submitted values handed to the create and update callbacks. */
  type Posts = map<string, string>

  /** `utils.Req`: the parameter's value, or `default` when the request does not carry it. */
  function Req(request: Request, key: string, default: string): (v: string)
    ensures key in request ==> v == request[key]
    ensures key !in request ==> v == default
  {
    if key in request then request[key] else default
  }

  /** A JSON API response: an error message, or a success message with the entity id. */
  datatype Outcome = Error(message: string) | Success(message: string, entityId: string)

  /** Markup the caller supplies (extra read-page content). */
  datatype Fragment = Fragment(html: string)

  /** The CDN resources the page shells and layouts reference by name. */
  datatype CdnResource =
    | BootstrapCss_5_3_3 | BootstrapJs_5_3_3 | Jquery_3_7_1 | VueJs_3 | Sweetalert2_11
    | Htmx_2_0_0 | VueElementPlusJs_2_3_8 | VueElementPlusCss_2_3_8
    | DataTablesCss | DataTablesJs | TrumbowygCss | TrumbowygJs

  /** A stylesheet or script reference: a literal URL or a named CDN resource. */
  datatype Asset = Url(url: string) | Cdn(resource: CdnResource)

  type RowsFunc = () -> (seq<Row>, GoError)
  type CreateFunc = Posts -> (string, GoError)
  type FetchReadFunc = string -> (seq<(string, string)>, GoError)
  type FetchUpdateFunc = string -> (map<string, string>, GoError)
  /** title, content, style files, style, script files, script -> document */
  type LayoutFunc = (string, string, seq<Asset>, string, seq<Asset>, string) -> string
  type TrashFunc = string -> GoError
  type UpdateFunc = (string, Posts) -> GoError
  type ReadExtrasFunc = string -> seq<Fragment>

  /**
   * The caller's configuration. Only `updateFields` distinguishes a nil slice (`None`) from
   * an empty one, because construction rejects only the former.
   */
  datatype CrudConfig = CrudConfig(
    columnNames: seq<string>,
    createFields: seq<FormField>,
    endpoint: string,
    entityNamePlural: string,
    entityNameSingular: string,
    fileManagerUrl: string,
    funcCreate: Option<CreateFunc>,
    funcFetchReadData: Option<FetchReadFunc>,
    funcFetchUpdateData: Option<FetchUpdateFunc>,
    funcLayout: Option<LayoutFunc>,
    funcRows: Option<RowsFunc>,
    funcTrash: Option<TrashFunc>,
    funcUpdate: Option<UpdateFunc>,
    homeUrl: string,
    readFields: seq<FormField>,
    updateFields: Option<seq<FormField>>,
    funcReadExtras: Option<ReadExtrasFunc>)

  /** The handler's own copy of the configuration. */
  datatype Crud = Crud(
    columnNames: seq<string>,
    createFields: seq<FormField>,
    endpoint: string,
    entityNamePlural: string,
    entityNameSingular: string,
    fileManagerUrl: string,
    funcCreate: Option<CreateFunc>,
    funcReadExtras: Option<ReadExtrasFunc>,
    funcFetchReadData: Option<FetchReadFunc>,
    funcFetchUpdateData: Option<FetchUpdateFunc>,
    funcLayout: Option<LayoutFunc>,
    funcRows: Option<RowsFunc>,
    funcTrash: Option<TrashFunc>,
    funcUpdate: Option<UpdateFunc>,
    homeUrl: string,
    readFields: seq<FormField>,
    updateFields: seq<FormField>)

  /** The page and endpoint handlers a request can be dispatched to. */
  datatype Route =
    | EntityManager | EntityCreateAjax | EntityCreateModal | EntityRead
    | EntityUpdate | EntityUpdateAjax | EntityTrashAjax

  /** The route key that names each handler in the URLs the builders produce. */
  function PathOf(route: Route): string
  {
    match route
    case EntityManager => PathEntityManager
    case EntityCreateAjax => PathEntityCreateAjax
    case EntityCreateModal => PathEntityCreateModal
    case EntityRead => PathEntityRead
    case EntityUpdate => PathEntityUpdate
    case EntityUpdateAjax => PathEntityUpdateAjax
    case EntityTrashAjax => PathEntityTrashAjax
  }

  /** Every route key is a non-empty, query-safe word. */
  lemma PathOfQuerySafe(route: Route)
    ensures PathOf(route) != "" && QuerySafe(PathOf(route))
  {
  }

  /**
   * A URL that appends `path=key` to the endpoint after `sep` starts with the endpoint and adds
   * one `sep`. Both generations' URL builders rely on it.
   */
  lemma QueryUrlShape(endpoint: string, sep: char, key: string)
    requires sep == '?' || sep == '&'
    requires QuerySafe(key)
    ensures HasPrefix(endpoint + [sep] + "path=" + key, endpoint)
    ensures Count(endpoint + [sep] + "path=" + key, '?') == Count(endpoint, '?') + if sep == '?' then 1 else 0
  {
    var query := "path=" + key;
    var url := endpoint + [sep] + query;
    assert endpoint + [sep] + "path=" + key == url;
    assert url == endpoint + ([sep] + query);
    assert url[..|endpoint|] == endpoint;
    forall i | 0 <= i < |query|
      ensures query[i] != '?'
    {
      if i >= 5 {
        assert query[i] == key[i - 5];
        assert key[i - 5] in key;
      }
    }
    CountAppend(endpoint, [sep] + query, '?');
    assert ([sep] + query)[1..] == query;
    CountZero(query, '?');
  }

  /**
   * The route key `Handler` dispatches on: the `path` parameter, with a missing or empty one
   * read as "home".
   */
  function RouteKey(request: Request): (key: string)
    ensures key != ""
    ensures "path" in request && request["path"] != "" ==> key == request["path"]
    ensures "path" !in request || request["path"] == "" ==> key == PathHome
  {
    var path := Req(request, "path", PathHome);
    if path == "" then PathHome else path
  }

  /**
   * A rendered page: the caller's layout's output, or the built-in page shell with its title,
   * stylesheet and script references, the page's own style and script, and the body. The shell's
   * favicon and base CSS are fixed markup.
   */
  datatype Document =
    | Delegated(html: string)
    | Shell(title: string, styleUrls: seq<Asset>, style: string, scriptUrls: seq<Asset>, script: string, body: string)
}
