/** The client core: URL joining, the configuration checks made when a client
    is constructed, the recursive dispatch of a response payload into domain
    objects, and the fixed order of checks that turns a transport response
    into a result or a classified exception. */
module NuclinoClient {
  import opened Wrappers
  import opened Json
  import opened HttpErrors
  import opened Models

  const BaseUrl: string := "https://api.nuclino.com/v0"
  const DefaultRequestsPerMinute: int := 140

  predicate AllSlashes(s: string) {
    forall i :: 0 <= i < |s| ==> s[i] == '/'
  }

  /** `s` with every leading `/` removed. */
  function TrimLeft(s: string): (r: string)
    ensures |r| <= |s|
    ensures r == [] || r[0] != '/'
    decreases |s|
  {
    if |s| > 0 && s[0] == '/' then TrimLeft(s[1..]) else s
  }

  /** TrimLeft drops a prefix only: what it keeps is a suffix of its input,
      and what it drops is all slashes. */
  lemma {:induction false} TrimLeftSuffix(s: string)
    ensures TrimLeft(s) == s[|s| - |TrimLeft(s)|..]
    ensures AllSlashes(s[..|s| - |TrimLeft(s)|])
    decreases |s|
  {
    if |s| > 0 && s[0] == '/' {
      TrimLeftSuffix(s[1..]);
      var k := |s| - |TrimLeft(s)|;
      assert s[1..][k - 1..] == s[k..];
      assert s[..k] == [s[0]] + s[1..][..k - 1];
    }
  }

  /** `s` with every trailing `/` removed. */
  function TrimRight(s: string): (r: string)
    ensures |r| <= |s| && r == s[..|r|]
    ensures r == [] || r[|r| - 1] != '/'
    decreases |s|
  {
    if |s| > 0 && s[|s| - 1] == '/' then TrimRight(s[..|s| - 1]) else s
  }

  /** Python's `s.strip('/')`. */
  function Strip(s: string): (r: string)
    ensures |r| <= |s|
    ensures r == [] || (r[0] != '/' && r[|r| - 1] != '/')
  {
    TrimRight(TrimLeft(s))
  }

  /** Leading slashes make no difference to what TrimLeft keeps. */
  lemma {:induction false} TrimLeftSkipsSlashes(a: string, t: string)
    requires AllSlashes(a)
    ensures TrimLeft(a + t) == TrimLeft(t)
    decreases |a|
  {
    if a != [] {
      assert (a + t)[0] == a[0] == '/';
      assert (a + t)[1..] == a[1..] + t;
      TrimLeftSkipsSlashes(a[1..], t);
    } else {
      assert a + t == t;
    }
  }

  /** Trailing slashes make no difference to what TrimRight keeps. */
  lemma {:induction false} TrimRightSkipsSlashes(t: string, c: string)
    requires AllSlashes(c)
    ensures TrimRight(t + c) == TrimRight(t)
    decreases |c|
  {
    if c != [] {
      assert (t + c)[|t + c| - 1] == c[|c| - 1] == '/';
      assert (t + c)[..|t + c| - 1] == t + c[..|c| - 1];
      TrimRightSkipsSlashes(t, c[..|c| - 1]);
    } else {
      assert t + c == t;
    }
  }

  /** Strip removes exactly the surrounding runs of slashes: whatever part
      neither starts nor ends with `/` is what remains of it, interior
      slashes included. */
  lemma StripUnique(a: string, m: string, c: string)
    requires AllSlashes(a) && AllSlashes(c)
    requires m == [] || (m[0] != '/' && m[|m| - 1] != '/')
    ensures Strip(a + m + c) == m
  {
    assert a + m + c == a + (m + c);
    TrimLeftSkipsSlashes(a, m + c);
    if m == [] {
      assert m + c == c + [];
      TrimLeftSkipsSlashes(c, []);
    } else {
      TrimRightSkipsSlashes(m, c);
    }
  }

  /** Stripping twice is stripping once. */
  lemma StripIdempotent(s: string)
    ensures Strip(Strip(s)) == Strip(s)
  {
    StripUnique("", Strip(s), "");
    assert "" + Strip(s) + "" == Strip(s);
  }

  /** `join_url(base_url, path)`: both parts stripped of their surrounding
      slashes, joined by one `/`. */
  function JoinUrl(baseUrl: string, path: string): (r: string)
    ensures |r| == |Strip(baseUrl)| + 1 + |Strip(path)|
    ensures r[|Strip(baseUrl)|] == '/'
    ensures Strip(baseUrl) != [] ==> r[0] != '/'
    ensures Strip(path) != [] ==> r[|r| - 1] != '/'
  {
    Strip(baseUrl) + "/" + Strip(path)
  }

  /** The joined URL has exactly one slash at the seam: none of either
      part's surrounding slashes survive, and pre-stripped parts join alike. */
  lemma JoinUrlSeam(baseUrl: string, path: string)
    ensures var b, p := Strip(baseUrl), Strip(path);
      && JoinUrl(baseUrl, path)[|b|] == '/'
      && (b != [] ==> JoinUrl(baseUrl, path)[|b| - 1] != '/')
      && (p != [] ==> JoinUrl(baseUrl, path)[|b| + 1] != '/')
      && JoinUrl(baseUrl, path)[..|b|] == b
      && JoinUrl(baseUrl, path)[|b| + 1..] == p
    ensures JoinUrl(Strip(baseUrl), Strip(path)) == JoinUrl(baseUrl, path)
  {
    StripIdempotent(baseUrl);
    StripIdempotent(path);
  }

  /** Slashes around the seam do not matter: a base URL with or without a
      trailing slash, joined to a path with or without surrounding slashes,
      gives the base, one slash, and the path. */
  lemma JoinUrlSlashInsensitive(base: string, path: string, a: string, b: string, c: string, d: string)
    requires base == [] || (base[0] != '/' && base[|base| - 1] != '/')
    requires path == [] || (path[0] != '/' && path[|path| - 1] != '/')
    requires AllSlashes(a) && AllSlashes(b) && AllSlashes(c) && AllSlashes(d)
    ensures JoinUrl(a + base + b, c + path + d) == base + "/" + path
  {
    StripUnique(a, base, b);
    StripUnique(c, path, d);
  }

  /** The documented joins: with a slash on one side of the seam or on both,
      the URL is the same. */
  lemma JoinUrlExamples()
    ensures JoinUrl("https://api.nuclino.com/v0", "/workspaces") == "https://api.nuclino.com/v0/workspaces"
    ensures JoinUrl("https://api.nuclino.com/v0/", "/workspaces/") == "https://api.nuclino.com/v0/workspaces"
  {
    JoinUrlExample("https://api.nuclino.com/v0", "https://api.nuclino.com/v0", "/workspaces", "workspaces", "https://api.nuclino.com/v0/workspaces");
    JoinUrlExample("https://api.nuclino.com/v0/", "https://api.nuclino.com/v0", "/workspaces/", "workspaces", "https://api.nuclino.com/v0/workspaces");
  }

  /** One join whose parts are a slash-free core with slashes around it. */
  lemma JoinUrlExample(baseArg: string, base: string, pathArg: string, path: string, url: string)
    requires base != [] && base[0] != '/' && base[|base| - 1] != '/'
    requires path != [] && path[0] != '/' && path[|path| - 1] != '/'
    requires |baseArg| >= |base| && baseArg[..|base|] == base && AllSlashes(baseArg[|base|..])
    requires |pathArg| >= |path| + 1 && pathArg[0] == '/' && pathArg[1..|path| + 1] == path && AllSlashes(pathArg[|path| + 1..])
    requires url == base + "/" + path
    ensures JoinUrl(baseArg, pathArg) == url
  {
    assert baseArg == "" + base + baseArg[|base|..];
    assert pathArg == [pathArg[0]] + path + pathArg[|path| + 1..];
    JoinUrlSlashInsensitive(base, path, "", baseArg[|base|..], [pathArg[0]], pathArg[|path| + 1..]);
  }

  /** The `ValueError` construction raises, if any: the key is checked first. */
  function ConfigError(apiKey: string, requestsPerMinute: int): (r: Option<string>)
    ensures r.None? <==> apiKey != [] && requestsPerMinute >= 1
    ensures apiKey == [] ==> r == Some("API key cannot be empty")
    ensures apiKey != [] && requestsPerMinute < 1 ==> r == Some("requests_per_minute must be at least 1")
  {
    if apiKey == [] then Some("API key cannot be empty")
    else if requestsPerMinute < 1 then Some("requests_per_minute must be at least 1")
    else None
  }

  /** What a payload resolves to: a domain object, a list of resolved
      elements, or the payload itself, unchanged. */
  datatype Parsed =
    | Object(obj: NuclinoObject<Client>)
    | Many(items: seq<Parsed>)
    | Passthrough(value: Json)

  /** What a request can fail with: a classified HTTP exception, or the
      Python error an ill-shaped payload provokes. */
  datatype ClientError = Http(exc: HttpException) | Python(err: PyError)

  datatype Verb = GET | POST | PUT | DELETE

  /** What the transport is asked to send. */
  datatype Request = Request(
    verb: Verb,
    url: string,
    headers: map<string, string>,
    params: map<string, string>,
    body: Option<map<string, Json>>)

  /** What the transport hands back: the status, the decoded body or `None`
      when the body is not valid JSON, and the raw text. */
  datatype Response = Response(statusCode: int, json: Option<Json>, text: string)

  const InvalidJsonMessage: string := "Invalid JSON response from API"
  const MissingDataMessage: string := "API response missing 'data' field"
  const UnknownErrorMessage: string := "Unknown error"

  /** The message an error body's `message` value gives. */
  function MessageText(m: Json): string {
    if m.JStr? then m.s else UnknownErrorMessage
  }

  class Client {
    const apiKey: string
    const baseUrl: string
    const requestsPerMinute: int

    constructor (apiKey: string, baseUrl: string, requestsPerMinute: int)
      requires ConfigError(apiKey, requestsPerMinute).None?
      ensures this.apiKey == apiKey && this.baseUrl == baseUrl
      ensures this.requestsPerMinute == requestsPerMinute
    {
      this.apiKey := apiKey;
      this.baseUrl := baseUrl;
      this.requestsPerMinute := requestsPerMinute;
    }

    /** `Client(api_key, base_url, requests_per_minute)`: fails with the
        configuration error when there is one, else a new client. */
    static method Create(apiKey: string, baseUrl: string := BaseUrl,
                         requestsPerMinute: int := DefaultRequestsPerMinute)
      returns (r: Result<Client, string>)
      ensures r.Failure? <==> ConfigError(apiKey, requestsPerMinute).Some?
      ensures r.Failure? ==> r.error == ConfigError(apiKey, requestsPerMinute).value
      ensures r.Success? ==>
        && fresh(r.value)
        && r.value.apiKey == apiKey
        && r.value.baseUrl == baseUrl
        && r.value.requestsPerMinute == requestsPerMinute
    {
      var err := ConfigError(apiKey, requestsPerMinute);
      if err.Some? {
        return Failure(err.value);
      }
      var c := new Client(apiKey, baseUrl, requestsPerMinute);
      return Success(c);
    }

    /** What a resolved payload promises: every domain object in it refers
        back to this client and carries the tag of its own class, and a
        payload is passed through only when it is untagged or is a list
        envelope whose `results` is not a list. */
    predicate Resolved(p: Parsed)
      decreases p
    {
      match p
      case Object(o) =>
        o.nuclino == this && "object" in o.data && o.data["object"] == JStr(KindTag(o.kind))
      case Many(items) =>
        forall k :: 0 <= k < |items| ==> Resolved(items[k])
      case Passthrough(v) =>
        !(v.JObj? && "object" in v.fields)
        || (v.fields["object"] == JStr("list") && "results" in v.fields && !v.fields["results"].JArr?)
    }

    /** `parse(source)`: an untagged payload is returned unchanged; a tagged
        mapping is handed to the loader its tag selects; the elements of a
        list envelope are parsed one by one, left to right. */
    function Parse(source: Json): (r: Result<Parsed, PyError>)
      ensures r.Success? ==> Resolved(r.value)
      decreases source, 0
    {
      match Contains(source, "object")
      case Failure(e) => Failure(e)
      case Success(tagged) =>
        if !tagged then Success(Passthrough(source))
        else
          match GetItem(source, "object")
          case Failure(e) => Failure(e)
          case Success(tag) =>
            match GetLoader(tag)
            case Failure(e) => Failure(e)
            case Success(loader) =>
              match ApplyLoader(loader, source.fields, this)
              case Loaded(o) => Success(Object(o))
              case Value(v) =>
                if !v.JArr? then Success(Passthrough(source))
                // the loader's default `[]` is not part of `source`, so the
                // recursion below is taken only for a stored `results`
                else if v.items == [] then Success(Many([]))
                else
                  match ParseAll(v.items, 0)
                  case Failure(e) => Failure(e)
                  case Success(ps) => Success(Many(ps))
    }

    /** The elements of `xs` from index `i` on, each parsed; the first
        element that fails decides the error. */
    function ParseAll(xs: seq<Json>, i: nat): (r: Result<seq<Parsed>, PyError>)
      requires i <= |xs|
      ensures r.Success? ==> |r.value| == |xs| - i
      ensures r.Success? ==> forall k :: 0 <= k < |r.value| ==> Resolved(r.value[k])
      decreases JArr(xs), |xs| - i
    {
      if i == |xs| then Success([])
      else
        match Parse(xs[i])
        case Failure(e) => Failure(e)
        case Success(p) =>
          match ParseAll(xs, i + 1)
          case Failure(e) => Failure(e)
          case Success(ps) => Success([p] + ps)
    }

    /** `parse` of a mapping without an `object` key is that mapping. */
    lemma ParseUntagged(m: map<string, Json>)
      requires "object" !in m
      ensures Parse(JObj(m)) == Success(Passthrough(JObj(m)))
    {
    }

    /** `parse` of a mapping tagged with a class's tag is an object of that
        class whose data is the whole mapping, referring back to this client. */
    lemma ParseObject(m: map<string, Json>, k: Kind)
      requires "object" in m && m["object"] == JStr(KindTag(k))
      ensures Parse(JObj(m)) == Success(Object(NuclinoObject(k, m, this)))
    {
      GetLoaderOfTag(ObjectLoader(k), m["object"]);
    }

    /** A tag outside the table is a hard failure: the lookup error of the
        table, never a pass-through. */
    lemma ParseUnknownTag(m: map<string, Json>)
      requires "object" in m && GetLoader(m["object"]).Failure?
      ensures Parse(JObj(m)) == Failure(GetLoader(m["object"]).error)
      ensures m["object"].JStr? ==> Parse(JObj(m)) == Failure(KeyError(m["object"]))
    {
    }

    /** A list envelope without `results` is the empty list. */
    lemma ParseListWithoutResults(m: map<string, Json>)
      requires "object" in m && m["object"] == JStr("list") && "results" !in m
      ensures Parse(JObj(m)) == Success(Many([]))
    {
    }

    /** A list envelope whose `results` is not a list is returned unchanged. */
    lemma ParseListOfNonList(m: map<string, Json>)
      requires "object" in m && m["object"] == JStr("list")
      requires "results" in m && !m["results"].JArr?
      ensures Parse(JObj(m)) == Success(Passthrough(JObj(m)))
    {
    }

    /** Parsing the elements from `i` on succeeds exactly when every element
        parses, and then yields their results in the same order. */
    lemma {:induction false} ParseAllPointwise(xs: seq<Json>, i: nat)
      requires i <= |xs|
      ensures ParseAll(xs, i).Success? <==> forall j :: i <= j < |xs| ==> Parse(xs[j]).Success?
      ensures ParseAll(xs, i).Success? ==>
        forall j :: i <= j < |xs| ==> ParseAll(xs, i).value[j - i] == Parse(xs[j]).value
      decreases |xs| - i
    {
      if i < |xs| {
        ParseAllPointwise(xs, i + 1);
        if Parse(xs[i]).Success? && ParseAll(xs, i + 1).Success? {
          var p, ps := Parse(xs[i]).value, ParseAll(xs, i + 1).value;
          assert ParseAll(xs, i) == Success([p] + ps);
          forall j | i < j < |xs| ensures ([p] + ps)[j - i] == Parse(xs[j]).value {
            assert ([p] + ps)[j - i] == ps[j - (i + 1)];
          }
        }
      }
    }

    /** When some element fails, the error is that of the first one that does. */
    lemma {:induction false} ParseAllFirstError(xs: seq<Json>, i: nat, j: nat)
      requires i <= j < |xs|
      requires Parse(xs[j]).Failure?
      requires forall k :: i <= k < j ==> Parse(xs[k]).Success?
      ensures ParseAll(xs, i) == Failure(Parse(xs[j]).error)
      decreases j - i
    {
      if i < j {
        ParseAllFirstError(xs, i + 1, j);
      }
    }

    /** A list envelope resolves to one result per element of `results`, in
        order, each element parsed on its own (so elements of different
        classes may be mixed); it fails exactly when an element fails, with
        the error of the first failing element. */
    lemma ParseList(m: map<string, Json>, xs: seq<Json>)
      requires "object" in m && m["object"] == JStr("list")
      requires "results" in m && m["results"] == JArr(xs)
      ensures Parse(JObj(m)).Success? <==> forall j :: 0 <= j < |xs| ==> Parse(xs[j]).Success?
      ensures Parse(JObj(m)).Success? ==>
        && Parse(JObj(m)).value.Many?
        && |Parse(JObj(m)).value.items| == |xs|
        && forall j :: 0 <= j < |xs| ==> Parse(JObj(m)).value.items[j] == Parse(xs[j]).value
      ensures forall j ::
        (0 <= j < |xs| && Parse(xs[j]).Failure? && forall k :: 0 <= k < j ==> Parse(xs[k]).Success?)
        ==> Parse(JObj(m)) == Failure(Parse(xs[j]).error)
    {
      ParseAllPointwise(xs, 0);
      forall j | 0 <= j < |xs| && Parse(xs[j]).Failure? && (forall k :: 0 <= k < j ==> Parse(xs[k]).Success?)
        ensures Parse(JObj(m)) == Failure(Parse(xs[j]).error)
      {
        ParseAllFirstError(xs, 0, j);
      }
    }

    /** A list or string payload is passed through unless it contains the
        string `object` (as an element or as a substring), in which case
        subscripting it with `"object"` is a TypeError; any other scalar
        payload is a TypeError outright. */
    lemma ParseNonMapping(source: Json)
      requires !source.JObj?
      ensures Parse(source).Success? <==> Contains(source, "object") == Success(false)
      ensures Parse(source).Success? ==> Parse(source).value == Passthrough(source)
      ensures Parse(source).Failure? ==> Parse(source).error == TypeError
    {
    }

    /** The user example: the user-tagged mapping yields a User whose `id`
        is the mapping's. */
    lemma ParseUserExample()
      ensures var m := map["object" := JStr("user"), "id" := JStr("u1")];
        && Parse(JObj(m)) == Success(Object(NuclinoObject(User, m, this)))
        && Parse(JObj(m)).value.obj.GetItem("id") == Success(JStr("u1"))
    {
      var m := map["object" := JStr("user"), "id" := JStr("u1")];
      ParseObject(m, User);
    }

    /** The documented example: a workspace-tagged mapping yields a
        Workspace holding the whole mapping. */
    lemma ParseWorkspaceExample()
      ensures var m := map["object" := JStr("workspace"), "id" := JStr("123"), "name" := JStr("My Workspace")];
        && Parse(JObj(m)) == Success(Object(NuclinoObject(Workspace, m, this)))
        && Parse(JObj(m)).value.obj.GetItem("name") == Success(JStr("My Workspace"))
    {
      var m := map["object" := JStr("workspace"), "id" := JStr("123"), "name" := JStr("My Workspace")];
      ParseObject(m, Workspace);
    }

    /** The mixed-list example: an item and a collection in one envelope
        resolve to an Item and a Collection, in that order. */
    lemma ParseMixedListExample()
      ensures
        var item := map["object" := JStr("item"), "id" := JStr("i1")];
        var coll := map["object" := JStr("collection"), "id" := JStr("c1")];
        var env := map["object" := JStr("list"), "results" := JArr([JObj(item), JObj(coll)])];
        Parse(JObj(env)) == Success(Many([
          Object(NuclinoObject(Item, item, this)),
          Object(NuclinoObject(Collection, coll, this))]))
    {
      var item := map["object" := JStr("item"), "id" := JStr("i1")];
      var coll := map["object" := JStr("collection"), "id" := JStr("c1")];
      var env := map["object" := JStr("list"), "results" := JArr([JObj(item), JObj(coll)])];
      ParseObject(item, Item);
      ParseObject(coll, Collection);
      ParsePair(env, JObj(item), JObj(coll));
    }

    /** A list envelope of two elements that both parse gives their results
        in order. */
    lemma ParsePair(m: map<string, Json>, a: Json, b: Json)
      requires "object" in m && m["object"] == JStr("list")
      requires "results" in m && m["results"] == JArr([a, b])
      requires Parse(a).Success? && Parse(b).Success?
      ensures Parse(JObj(m)) == Success(Many([Parse(a).value, Parse(b).value]))
    {
      var xs := [a, b];
      ParseList(m, xs);
      assert Parse(xs[0]) == Parse(a) && Parse(xs[1]) == Parse(b);
      assert Parse(JObj(m)).value.items == [Parse(a).value, Parse(b).value];
    }

    /** `_handle_response`: invalid JSON is classified by the transport
        status; a non-200 status by its status, with the body's message; a
        200 body without `data` is a synthesized 500; otherwise `data` is
        parsed. A success means a 200 whose `data` parsed, and every
        classified error carries the transport status except the synthesized
        server error. */
    function HandleResponse(resp: Response): (r: Result<Parsed, ClientError>)
      ensures r.Success? ==>
        && resp.statusCode == 200
        && resp.json.Some? && resp.json.value.JObj?
        && "data" in resp.json.value.fields
        && Parse(resp.json.value.fields["data"]) == Success(r.value)
      ensures r.Failure? && r.error.Http? ==>
        || r.error.exc.statusCode == resp.statusCode
        || (&& resp.statusCode == 200
            && r.error.exc.statusCode == 500
            && r.error.exc.cls == ServerError
            && r.error.exc.message == MissingDataMessage)
    {
      match resp.json
      case None =>
        Failure(Http(RaiseForStatusCode(resp.statusCode, InvalidJsonMessage,
                                        JObj(map["raw_content" := JStr(resp.text)]))))
      case Some(content) =>
        if resp.statusCode != 200 then
          match PyGet(content, "message", JStr(UnknownErrorMessage))
          case Failure(e) => Failure(Python(e))
          case Success(message) =>
            Failure(Http(RaiseForStatusCode(resp.statusCode, MessageText(message), content)))
        else
          match Contains(content, "data")
          case Failure(e) => Failure(Python(e))
          case Success(hasData) =>
            if !hasData then
              Failure(Http(RaiseForStatusCode(500, MissingDataMessage, content)))
            else
              match GetItem(content, "data")
              case Failure(e) => Failure(Python(e))
              case Success(data) =>
                match Parse(data)
                case Failure(e) => Failure(Python(e))
                case Success(p) => Success(p)
    }

    /** A body that is not JSON is classified by the transport status, with
        the raw text attached; so a 200 with such a body is the base HTTP
        exception carrying status 200. */
    lemma HandleInvalidJson(status: int, text: string)
      ensures var r := HandleResponse(Response(status, None, text));
        && r.Failure? && r.error.Http?
        && r.error.exc.cls == ClassFor(status)
        && r.error.exc.statusCode == status
        && r.error.exc.message == InvalidJsonMessage
        && r.error.exc.responseData == JObj(map["raw_content" := JStr(text)])
      ensures HandleResponse(Response(200, None, text)).error.exc.cls == HTTPException
    {
    }

    /** A non-200 mapping body is classified by its status, with the body's
        message (or "Unknown error") and the body as response data. */
    lemma HandleErrorStatus(status: int, body: map<string, Json>, text: string)
      requires status != 200
      ensures var r := HandleResponse(Response(status, Some(JObj(body)), text));
        && r.Failure? && r.error.Http?
        && r.error.exc.cls == ClassFor(status)
        && r.error.exc.statusCode == status
        && r.error.exc.message ==
             (if "message" in body then MessageText(body["message"]) else UnknownErrorMessage)
        && r.error.exc.responseData == JObj(body)
    {
    }

    /** A 200 mapping body without `data` is a server error with status 500,
        never an unclassified failure. */
    lemma HandleMissingData(body: map<string, Json>, text: string)
      requires "data" !in body
      ensures var r := HandleResponse(Response(200, Some(JObj(body)), text));
        && r.Failure? && r.error.Http?
        && r.error.exc.cls == ServerError
        && r.error.exc.statusCode == 500
        && r.error.exc.message == MissingDataMessage
        && r.error.exc.responseData == JObj(body)
    {
    }

    /** A 200 mapping body with `data` gives what parsing `data` gives. */
    lemma HandleData(body: map<string, Json>, text: string)
      requires "data" in body
      ensures var r := HandleResponse(Response(200, Some(JObj(body)), text));
        && (r.Success? <==> Parse(body["data"]).Success?)
        && (r.Success? ==> r.value == Parse(body["data"]).value)
        && (r.Failure? ==> r.error == Python(Parse(body["data"]).error))
    {
    }

    /** A decoded body that is not a mapping is not guarded against. On a
        non-200 status, reading its `message` is an AttributeError naming its
        type. On a 200, a scalar body cannot be searched for `data` (a
        TypeError), a list or string that holds `data` cannot be subscripted
        by it (a TypeError), and one that does not is the missing-data
        server error. */
    lemma HandleNonMappingBody(status: int, body: Json, text: string)
      requires !body.JObj?
      ensures var r := HandleResponse(Response(status, Some(body), text));
        && (status != 200 ==>
              r == Failure(Python(AttributeError("'" + TypeName(body) + "' object has no attribute 'get'"))))
        && (status == 200 && !body.JArr? && !body.JStr? ==> r == Failure(Python(TypeError)))
        && (status == 200 && Contains(body, "data") == Success(true) ==> r == Failure(Python(TypeError)))
        && (status == 200 && Contains(body, "data") == Success(false) ==>
              && r.Failure? && r.error.Http?
              && r.error.exc.cls == ServerError
              && r.error.exc.statusCode == 500
              && r.error.exc.message == MissingDataMessage
              && r.error.exc.responseData == (if Truthy(body) then body else JObj(map[])))
    {
    }

    /** The headers of every request: the API key as `Authorization`, and a
        JSON content type when a body is sent. */
    function Headers(withBody: bool): (h: map<string, string>)
      ensures "Authorization" in h && h["Authorization"] == apiKey
      ensures "Content-Type" in h <==> withBody
      ensures withBody ==> h["Content-Type"] == "application/json"
      ensures h.Keys <= {"Authorization", "Content-Type"}
    {
      if withBody then map["Authorization" := apiKey, "Content-Type" := "application/json"]
      else map["Authorization" := apiKey]
    }

    /** `get(path, params)`: one request to the joined URL with the given
        query (none is the empty one), its response handled. The rate gate
        that precedes it is not modelled. */
    method Get(path: string, params: Option<map<string, string>>, transport: Request -> Response)
      returns (sent: Request, r: Result<Parsed, ClientError>)
      ensures sent == Request(GET, JoinUrl(baseUrl, path), Headers(false), params.GetOr(map[]), None)
      ensures r == HandleResponse(transport(sent))
    {
      sent := Request(GET, JoinUrl(baseUrl, path), Headers(false), params.GetOr(map[]), None);
      r := HandleResponse(transport(sent));
    }

    /** `delete(path)`. */
    method Delete(path: string, transport: Request -> Response)
      returns (sent: Request, r: Result<Parsed, ClientError>)
      ensures sent == Request(DELETE, JoinUrl(baseUrl, path), Headers(false), map[], None)
      ensures r == HandleResponse(transport(sent))
    {
      sent := Request(DELETE, JoinUrl(baseUrl, path), Headers(false), map[], None);
      r := HandleResponse(transport(sent));
    }

    /** `post(path, data)`: the data goes as the JSON body. */
    method Post(path: string, data: map<string, Json>, transport: Request -> Response)
      returns (sent: Request, r: Result<Parsed, ClientError>)
      ensures sent == Request(POST, JoinUrl(baseUrl, path), Headers(true), map[], Some(data))
      ensures r == HandleResponse(transport(sent))
    {
      sent := Request(POST, JoinUrl(baseUrl, path), Headers(true), map[], Some(data));
      r := HandleResponse(transport(sent));
    }

    /** `put(path, data)`: the data goes as the JSON body. */
    method Put(path: string, data: map<string, Json>, transport: Request -> Response)
      returns (sent: Request, r: Result<Parsed, ClientError>)
      ensures sent == Request(PUT, JoinUrl(baseUrl, path), Headers(true), map[], Some(data))
      ensures r == HandleResponse(transport(sent))
    {
      sent := Request(PUT, JoinUrl(baseUrl, path), Headers(true), map[], Some(data));
      r := HandleResponse(transport(sent));
    }
  }
}
