/**
 * The United Storage collection actions: for every action its HTTP method,
 * the path built from its arguments and the request parameters (body, query
 * and headers) built from its arguments.
 */
module Collections {
  import opened Js

  const CollectionsPathPrefix := "/v1/collections"
  const CollectionContentPathPrefix := "/v1/collection-content"
  const CollectionMoveListPathPrefix := "/v1/move-collections"
  const CollectionDeleteListPathPrefix := "/v1/delete-collections"
  const RootCollectionPermissionsPathPrefix := "/v1/root-collection-permissions"

  datatype HttpMethod = GET | POST | DELETE

  datatype Action =
    | GetRootCollectionPermissions
    | CreateCollection
    | GetCollection
    | GetCollectionContent
    | GetCollectionBreadcrumbs
    | DeleteCollection
    | UpdateCollection
    | MoveCollection
    | MoveCollections
    | DeleteCollections

  /** The arguments object of an action, destructured by its lambdas. */
  type Args = map<string, Value>
  type Headers = map<string, string>

  /** What a `params` lambda returns: `body` and `query` are present only
      for the actions whose lambda writes them. */
  datatype RequestParams = RequestParams(body: Option<Args>, query: Option<Args>, headers: Headers)

  /** A destructured argument: a missing one is undefined. */
  function Arg(args: Args, key: string): Value
  {
    if key in args then args[key] else Undefined
  }

  /** The object holding exactly the named arguments, as `{a, b}` does. */
  function Pick(args: Args, keys: set<string>): (r: Args)
    ensures r.Keys == keys
    ensures forall k :: k in keys ==> r[k] == Arg(args, k)
  {
    map k | k in keys :: Arg(args, k)
  }

  /** The `method` of each action: the four reads are GET, the two
      deletes DELETE and the create, update and both moves POST. */
  function MethodOf(a: Action): (r: HttpMethod)
    ensures r == GET <==>
              a in {GetRootCollectionPermissions, GetCollection, GetCollectionContent, GetCollectionBreadcrumbs}
    ensures r == DELETE <==> a in {DeleteCollection, DeleteCollections}
    ensures r == POST <==> a in {CreateCollection, UpdateCollection, MoveCollection, MoveCollections}
  {
    match a
    case GetRootCollectionPermissions => GET
    case CreateCollection => POST
    case GetCollection => GET
    case GetCollectionContent => GET
    case GetCollectionBreadcrumbs => GET
    case DeleteCollection => DELETE
    case UpdateCollection => POST
    case MoveCollection => POST
    case MoveCollections => POST
    case DeleteCollections => DELETE
  }

  /** `${COLLECTIONS_PATH_PREFIX}/${collectionId}` */
  function CollectionPath(args: Args): string
  {
    CollectionsPathPrefix + "/" + ToStr(Arg(args, "collectionId"))
  }

  function Path(a: Action, args: Args): (p: string)
    ensures a == GetCollection || a == DeleteCollection ==> p == CollectionPath(args)
    ensures a == GetCollectionBreadcrumbs ==> p == CollectionPath(args) + "/breadcrumbs"
    ensures a == UpdateCollection ==> p == CollectionPath(args) + "/update"
    ensures a == MoveCollection ==> p == CollectionPath(args) + "/move"
  {
    match a
    case GetRootCollectionPermissions => RootCollectionPermissionsPathPrefix
    case CreateCollection => CollectionsPathPrefix
    case GetCollection => CollectionsPathPrefix + "/" + ToStr(Arg(args, "collectionId"))
    case GetCollectionContent => CollectionContentPathPrefix
    case GetCollectionBreadcrumbs =>
      CollectionsPathPrefix + "/" + ToStr(Arg(args, "collectionId")) + "/breadcrumbs"
    case DeleteCollection => CollectionsPathPrefix + "/" + ToStr(Arg(args, "collectionId"))
    case UpdateCollection =>
      CollectionsPathPrefix + "/" + ToStr(Arg(args, "collectionId")) + "/update"
    case MoveCollection =>
      CollectionsPathPrefix + "/" + ToStr(Arg(args, "collectionId")) + "/move"
    case MoveCollections => CollectionMoveListPathPrefix
    case DeleteCollections => CollectionDeleteListPathPrefix
  }

  /** A page number coming from query parameters may be null; it is sent as
      the text 'null'. */
  function PageQueryValue(page: Value): (r: Value)
    ensures page == Null ==> r == Str("null")
    ensures page != Null ==> r == page
  {
    if page == Null then Str("null") else page
  }

  /** The arguments `getCollectionContent` sends in its query. */
  const ContentQueryKeys: set<string> :=
    {"collectionId", "includePermissionsInfo", "filterString", "collectionsPage", "workbooksPage",
     "pageSize", "orderField", "orderDirection", "onlyMy", "mode"}

  /** The request parameters of an action: the headers as given, a body
      only for the writing actions and a query only for the reading ones,
      each holding exactly its named arguments; a null page of a content
      query is sent as 'null'. */
  function Params(a: Action, args: Args, headers: Headers): (r: RequestParams)
    ensures r.headers == headers
    ensures r.body.Some? <==>
      a in {CreateCollection, UpdateCollection, MoveCollection, MoveCollections, DeleteCollections}
    ensures r.query.Some? <==> a in {GetCollection, GetCollectionContent, GetCollectionBreadcrumbs}
    ensures r.body.Some? ==> forall k :: k in r.body.value ==> r.body.value[k] == Arg(args, k)
    ensures a == UpdateCollection ==> r.body.value.Keys == {"title", "project", "description"}
    ensures a == MoveCollection ==> r.body.value.Keys == {"parentId", "title"}
    ensures a == MoveCollections ==> r.body.value.Keys == {"collectionIds", "parentId"}
    ensures a == DeleteCollections ==> r.body.value.Keys == {"collectionIds"}
    ensures a == GetCollection || a == GetCollectionBreadcrumbs ==>
      r.query.value == map["includePermissionsInfo" := Arg(args, "includePermissionsInfo")]
    ensures a == GetCollectionContent ==>
      r.query.value.Keys == ContentQueryKeys
      && r.query.value["collectionsPage"] == PageQueryValue(Arg(args, "collectionsPage"))
      && r.query.value["workbooksPage"] == PageQueryValue(Arg(args, "workbooksPage"))
      && r.query.value["collectionsPage"] != Null && r.query.value["workbooksPage"] != Null
      && forall k :: k in ContentQueryKeys - {"collectionsPage", "workbooksPage"} ==> r.query.value[k] == Arg(args, k)
  {
    match a
    case GetRootCollectionPermissions => RequestParams(None, None, headers)
    case CreateCollection =>
      RequestParams(Some(Pick(args, {"title", "project", "description", "parentId"})), None, headers)
    case GetCollection => RequestParams(None, Some(Pick(args, {"includePermissionsInfo"})), headers)
    case GetCollectionContent =>
      var query := Pick(args, {"collectionId", "includePermissionsInfo", "filterString",
                               "pageSize", "orderField", "orderDirection", "onlyMy", "mode"});
      RequestParams(None, Some(query["collectionsPage" := PageQueryValue(Arg(args, "collectionsPage"))]
                                    ["workbooksPage" := PageQueryValue(Arg(args, "workbooksPage"))]),
                    headers)
    case GetCollectionBreadcrumbs =>
      RequestParams(None, Some(Pick(args, {"includePermissionsInfo"})), headers)
    case DeleteCollection => RequestParams(None, None, headers)
    case UpdateCollection =>
      RequestParams(Some(Pick(args, {"title", "project", "description"})), None, headers)
    case MoveCollection => RequestParams(Some(Pick(args, {"parentId", "title"})), None, headers)
    case MoveCollections => RequestParams(Some(Pick(args, {"collectionIds", "parentId"})), None, headers)
    case DeleteCollections => RequestParams(Some(Pick(args, {"collectionIds"})), None, headers)
  }

  // ---------------------------------------------------------------------------
  // Properties

  /** A GET request never carries a body and a POST request always does;
      of the two deletes only the bulk one sends a body. */
  lemma BodyFollowsMethod(a: Action, args: Args, headers: Headers)
    ensures MethodOf(a) == GET ==> Params(a, args, headers).body.None?
    ensures MethodOf(a) == POST ==> Params(a, args, headers).body.Some?
    ensures MethodOf(a) == DELETE ==> (Params(a, args, headers).body.Some? <==> a == DeleteCollections)
  {
  }

  /** The collection id read back from a single-collection path. */
  function ParseCollectionPath(p: string): (r: Option<string>)
    ensures r.Some? ==> p == CollectionsPathPrefix + "/" + r.value
  {
    var prefix := CollectionsPathPrefix + "/";
    if StartsWith(p, prefix) && !Contains(p[|prefix|..], "/") then Some(p[|prefix|..]) else None
  }

  /** Reading the id back from the get/delete path gives the id's text,
      whenever that text is free of '/'. */
  lemma CollectionPathRoundTrip(args: Args)
    requires !Contains(ToStr(Arg(args, "collectionId")), "/")
    ensures ParseCollectionPath(Path(GetCollection, args)) == Some(ToStr(Arg(args, "collectionId")))
    ensures ParseCollectionPath(Path(DeleteCollection, args)) == Some(ToStr(Arg(args, "collectionId")))
  {
    var id := ToStr(Arg(args, "collectionId"));
    var p := CollectionsPathPrefix + "/" + id;
    assert StartsWith(p, CollectionsPathPrefix + "/");
    assert p[|CollectionsPathPrefix + "/"|..] == id;
  }

  /** Two collections with different id texts are addressed by different
      paths, for every path that names one collection. */
  lemma CollectionPathsDistinguishIds(a: Action, args1: Args, args2: Args)
    requires a in {GetCollection, DeleteCollection, GetCollectionBreadcrumbs, UpdateCollection, MoveCollection}
    requires ToStr(Arg(args1, "collectionId")) != ToStr(Arg(args2, "collectionId"))
    ensures Path(a, args1) != Path(a, args2)
  {
    var id1, id2 := ToStr(Arg(args1, "collectionId")), ToStr(Arg(args2, "collectionId"));
    var n := |CollectionsPathPrefix + "/"|;
    var suffix := Path(a, args1)[n + |id1|..];
    assert Path(a, args1) == CollectionsPathPrefix + "/" + id1 + suffix;
    assert Path(a, args2) == CollectionsPathPrefix + "/" + id2 + suffix;
    IdDetermined(id1, id2, suffix);
  }

  /** Equal paths with the same suffix have the same id text. */
  lemma IdDetermined(id1: string, id2: string, suffix: string)
    ensures CollectionsPathPrefix + "/" + id1 + suffix == CollectionsPathPrefix + "/" + id2 + suffix ==> id1 == id2
  {
    var n := |CollectionsPathPrefix + "/"|;
    var s1 := CollectionsPathPrefix + "/" + id1 + suffix;
    var s2 := CollectionsPathPrefix + "/" + id2 + suffix;
    if s1 == s2 {
      assert id1 == s1[n..n + |id1|];
      assert id2 == s2[n..n + |id2|];
    }
  }

  /** The body of a create request holds exactly the four documented fields,
      whatever else the arguments carry. */
  lemma CreateBodyFields(args: Args, headers: Headers)
    ensures Params(CreateCollection, args, headers).body.Some?
    ensures Params(CreateCollection, args, headers).body.value.Keys == {"title", "project", "description", "parentId"}
    ensures Params(CreateCollection, args, headers).query.None?
  {
  }

  /** The bulk actions' paths never depend on the arguments. */
  lemma BulkPathsFixed(args1: Args, args2: Args)
    ensures Path(MoveCollections, args1) == Path(MoveCollections, args2) == "/v1/move-collections"
    ensures Path(DeleteCollections, args1) == Path(DeleteCollections, args2) == "/v1/delete-collections"
  {
  }
}
