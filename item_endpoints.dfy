/** The item and collection endpoints: each builds the request the client is
    given (verb, path, and the query or body map, assembled key by key from
    the optional arguments), after validating its arguments. */
module ItemEndpoints {
  import opened Wrappers
  import Json
  import opened HttpErrors
  import Decimal
  import NuclinoClient

  /** What an endpoint hands to the client: `get`/`delete` with an optional
      query map, `post`/`put` with a body map. */
  datatype Call = Call(verb: NuclinoClient.Verb, path: string, payload: Option<map<string, string>>)

  const ItemsPath: string := "/items"
  const NeitherScopeMessage: string := "Must specify either team_id or workspace_id"
  const BothScopesMessage: string := "Cannot specify both team_id and workspace_id"

  /** The path of one item or collection. */
  function ItemPath(itemId: string): (r: string)
    ensures |r| == |ItemsPath| + 1 + |itemId|
    ensures r[..|ItemsPath| + 1] == "/items/"
    ensures r[|ItemsPath| + 1..] == itemId
  {
    ItemsPath + "/" + itemId
  }

  /** Different ids address different paths. */
  lemma ItemPathInjective(a: string, b: string)
    ensures ItemPath(a) == ItemPath(b) ==> a == b
  {
    if ItemPath(a) == ItemPath(b) {
      assert a == ItemPath(a)[|ItemsPath| + 1..];
      assert b == ItemPath(b)[|ItemsPath| + 1..];
    }
  }

  /** With the default base URL, an id that does not end in a slash is
      requested at the base URL followed by `/items/` and the id. */
  lemma ItemUrl(itemId: string)
    requires itemId != [] && itemId[0] != '/' && itemId[|itemId| - 1] != '/'
    ensures NuclinoClient.JoinUrl(NuclinoClient.BaseUrl, ItemPath(itemId))
      == NuclinoClient.BaseUrl + "/items/" + itemId
  {
    var base, rest := NuclinoClient.BaseUrl, "items/" + itemId;
    assert rest[0] == 'i';
    assert rest[|rest| - 1] == itemId[|itemId| - 1];
    assert ItemPath(itemId)[1..|rest| + 1] == rest;
    assert base[|base|..] == [];
    assert base + "/" + rest == base + "/items/" + itemId;
    NuclinoClient.JoinUrlExample(base, base, ItemPath(itemId), rest, base + "/" + rest);
  }

  /** `str(n)` of an optional integer. */
  function OptDecimal(n: Option<int>): Option<string> {
    if n.Some? then Some(Decimal.IntToDecimal(n.value)) else None
  }

  /** `key` is in `m` exactly when the argument was given, with its value. */
  predicate HasOptional(m: map<string, string>, key: string, arg: Option<string>) {
    && (key in m <==> arg.Some?)
    && (arg.Some? ==> m[key] == arg.value)
  }

  /** The query `get_items` sends. */
  predicate IsItemsQuery(q: map<string, string>, teamId: Option<string>, workspaceId: Option<string>,
                         limit: Option<int>, after: Option<string>) {
    && HasOptional(q, "teamId", teamId)
    && HasOptional(q, "workspaceId", workspaceId)
    && HasOptional(q, "limit", OptDecimal(limit))
    && HasOptional(q, "after", after)
    && q.Keys <= {"teamId", "workspaceId", "limit", "after"}
  }

  /** `get_items`: exactly one of the team and the workspace must be given,
      and the check comes before any request is built; the query then holds
      that scope, the limit as a decimal string and `after`, each only when
      given, and nothing else. */
  method GetItems(teamId: Option<string>, workspaceId: Option<string>,
                  limit: Option<int>, after: Option<string>)
    returns (r: Result<Call, HttpException>)
    ensures r.Success? <==> (teamId.Some? != workspaceId.Some?)
    ensures teamId.None? && workspaceId.None? ==>
      r == Failure(NewException(ValidationError, 400, NeitherScopeMessage, Json.JNull))
    ensures teamId.Some? && workspaceId.Some? ==>
      r == Failure(NewException(ValidationError, 400, BothScopesMessage, Json.JNull))
    ensures r.Success? ==>
      && r.value.verb == NuclinoClient.GET
      && r.value.path == ItemsPath
      && r.value.payload.Some?
      && IsItemsQuery(r.value.payload.value, teamId, workspaceId, limit, after)
  {
    var params: map<string, string> := map[];
    if teamId.None? && workspaceId.None? {
      return Failure(NewException(ValidationError, 400, NeitherScopeMessage, Json.JNull));
    }
    if teamId.Some? && workspaceId.Some? {
      return Failure(NewException(ValidationError, 400, BothScopesMessage, Json.JNull));
    }
    if teamId.Some? {
      params := params["teamId" := teamId.value];
    }
    if workspaceId.Some? {
      params := params["workspaceId" := workspaceId.value];
    }
    if limit.Some? {
      params := params["limit" := Decimal.IntToDecimal(limit.value)];
    }
    if after.Some? {
      params := params["after" := after.value];
    }
    return Success(Call(NuclinoClient.GET, ItemsPath, Some(params)));
  }

  /** A query that satisfies IsItemsQuery holds exactly one scope key, and
      its `limit` reads back as the given number. */
  lemma ItemsQueryScope(q: map<string, string>, teamId: Option<string>, workspaceId: Option<string>,
                        limit: Option<int>, after: Option<string>)
    requires teamId.Some? != workspaceId.Some?
    requires IsItemsQuery(q, teamId, workspaceId, limit, after)
    ensures ("teamId" in q) != ("workspaceId" in q)
    ensures limit.Some? ==> Decimal.IsDecimal(q["limit"]) && Decimal.ParseInt(q["limit"]) == limit.value
  {
    if limit.Some? {
      Decimal.ParseIntToDecimal(limit.value);
    }
  }

  /** The query predicate determines the map: any two queries that satisfy
      it for the same arguments are equal. */
  lemma ItemsQueryUnique(q1: map<string, string>, q2: map<string, string>, teamId: Option<string>,
                         workspaceId: Option<string>, limit: Option<int>, after: Option<string>)
    requires IsItemsQuery(q1, teamId, workspaceId, limit, after)
    requires IsItemsQuery(q2, teamId, workspaceId, limit, after)
    ensures q1 == q2
  {
    assert q1.Keys == q2.Keys;
  }

  /** `get_item(item_id)`. */
  method GetItem(itemId: string) returns (c: Call)
    ensures c == Call(NuclinoClient.GET, ItemPath(itemId), None)
  {
    c := Call(NuclinoClient.GET, ItemPath(itemId), None);
  }

  /** The body `create_item` sends. */
  predicate IsItemBody(b: map<string, string>, tag: string, workspaceId: Option<string>,
                       parentId: Option<string>, title: Option<string>, content: Option<string>,
                       index: Option<int>) {
    && "object" in b && b["object"] == tag
    && HasOptional(b, "workspaceId", workspaceId)
    && HasOptional(b, "parentId", parentId)
    && HasOptional(b, "title", title)
    && HasOptional(b, "content", content)
    && HasOptional(b, "index", OptDecimal(index))
    && b.Keys <= {"object", "workspaceId", "parentId", "title", "content", "index"}
  }

  /** The body predicate determines the map. */
  lemma ItemBodyUnique(b1: map<string, string>, b2: map<string, string>, tag: string,
                       workspaceId: Option<string>, parentId: Option<string>, title: Option<string>,
                       content: Option<string>, index: Option<int>)
    requires IsItemBody(b1, tag, workspaceId, parentId, title, content, index)
    requires IsItemBody(b2, tag, workspaceId, parentId, title, content, index)
    ensures b1 == b2
  {
    assert b1.Keys == b2.Keys;
  }

  /** `create_item`: the body always has `object` (the item kind, `item`
      by default) and each optional field only when it is given, with the
      index as a decimal string. */
  method CreateItem(workspaceId: Option<string>, parentId: Option<string>, tag: string := "item",
                    title: Option<string>, content: Option<string>, index: Option<int>)
    returns (c: Call)
    ensures c.verb == NuclinoClient.POST && c.path == ItemsPath && c.payload.Some?
    ensures IsItemBody(c.payload.value, tag, workspaceId, parentId, title, content, index)
  {
    var data: map<string, string> := map["object" := tag];
    if workspaceId.Some? {
      data := data["workspaceId" := workspaceId.value];
    }
    if parentId.Some? {
      data := data["parentId" := parentId.value];
    }
    if title.Some? {
      data := data["title" := title.value];
    }
    if content.Some? {
      data := data["content" := content.value];
    }
    if index.Some? {
      data := data["index" := Decimal.IntToDecimal(index.value)];
    }
    c := Call(NuclinoClient.POST, ItemsPath, Some(data));
  }

  /** The body `update_item` sends. */
  predicate IsUpdateBody(b: map<string, string>, title: Option<string>, content: Option<string>) {
    && HasOptional(b, "title", title)
    && HasOptional(b, "content", content)
    && b.Keys <= {"title", "content"}
  }

  /** The update body predicate determines the map, which is empty when
      neither field is given. */
  lemma UpdateBodyUnique(b1: map<string, string>, b2: map<string, string>,
                         title: Option<string>, content: Option<string>)
    requires IsUpdateBody(b1, title, content) && IsUpdateBody(b2, title, content)
    ensures b1 == b2
    ensures title.None? && content.None? ==> b1 == map[]
  {
    assert b1.Keys == b2.Keys;
  }

  /** `update_item`: the body holds only the fields given. */
  method UpdateItem(itemId: string, title: Option<string>, content: Option<string>)
    returns (c: Call)
    ensures c.verb == NuclinoClient.PUT && c.path == ItemPath(itemId) && c.payload.Some?
    ensures IsUpdateBody(c.payload.value, title, content)
  {
    var data: map<string, string> := map[];
    if title.Some? {
      data := data["title" := title.value];
    }
    if content.Some? {
      data := data["content" := content.value];
    }
    c := Call(NuclinoClient.PUT, ItemPath(itemId), Some(data));
  }

  /** `delete_item(item_id)`. */
  method DeleteItem(itemId: string) returns (c: Call)
    ensures c == Call(NuclinoClient.DELETE, ItemPath(itemId), None)
  {
    c := Call(NuclinoClient.DELETE, ItemPath(itemId), None);
  }

  /** `get_collection`: the same request as `get_item`. */
  method GetCollection(collectionId: string) returns (c: Call)
    ensures c == Call(NuclinoClient.GET, ItemPath(collectionId), None)
  {
    c := GetItem(collectionId);
  }

  /** `create_collection`: `create_item` with kind `collection` and no
      content, so the body never has a `content` key. */
  method CreateCollection(workspaceId: Option<string>, parentId: Option<string>,
                          title: Option<string>, index: Option<int>)
    returns (c: Call)
    ensures c.verb == NuclinoClient.POST && c.path == ItemsPath && c.payload.Some?
    ensures IsItemBody(c.payload.value, "collection", workspaceId, parentId, title, None, index)
    ensures c.payload.value["object"] == "collection" && "content" !in c.payload.value
  {
    c := CreateItem(workspaceId, parentId, "collection", title, None, index);
  }

  /** `update_collection`: `update_item` without content. */
  method UpdateCollection(collectionId: string, title: Option<string>) returns (c: Call)
    ensures c.verb == NuclinoClient.PUT && c.path == ItemPath(collectionId) && c.payload.Some?
    ensures IsUpdateBody(c.payload.value, title, None)
    ensures "content" !in c.payload.value
  {
    c := UpdateItem(collectionId, title, None);
  }

  /** `delete_collection`: the same request as `delete_item`. */
  method DeleteCollection(collectionId: string) returns (c: Call)
    ensures c == Call(NuclinoClient.DELETE, ItemPath(collectionId), None)
  {
    c := DeleteItem(collectionId);
  }
}
