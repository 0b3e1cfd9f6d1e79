# Nuclino API client: response dispatch, error taxonomy, URL joining, item requests

A Dafny model of the rule-bearing core of a Python client library for the
Nuclino document API (teams, workspaces, items, collections, files, users).
The library turns authenticated HTTP calls into typed domain objects and maps
failed responses onto a taxonomy of exceptions. The model covers:

- **Error taxonomy** (`http_errors.dfy`, module `HttpErrors`): the seven
  exception classes, the fields each exception carries (`status_code`,
  `message`, `response_data`, and `retry_after` on a rate-limit error), the
  classification `raise_for_status_code` of a status into a class, and the
  string form `"<status>: <message>"`, shown decodable.
- **Domain objects and the loader table** (`shared.dfy`, module `Models`): an
  object is an immutable copy of a property map plus a back-reference to its
  client, with keyed lookup, defaulted lookup and attribute lookup; the tag
  table has exactly seven entries and an unknown tag is a lookup failure.
- **Client core** (`client.dfy`, module `NuclinoClient`): `join_url`; the
  configuration checks of client construction; the recursive `parse` of a
  payload into objects, lists of parsed elements, or the payload unchanged;
  the fixed order of checks in `_handle_response` (invalid JSON, then a
  non-200 status, then a missing `data` field, then dispatch); and the four
  request primitives, which take the transport as a function from request to
  response.
- **Item endpoints** (`item_endpoints.dfy`, module `ItemEndpoints`): the
  scope validation of `get_items`, the query and body maps built key by key
  from optional arguments, the item paths, and the collection conveniences.
  Each endpoint returns the call (verb, path, map) it would give the client.
- Supporting modules: `Json` (`json.dfy`) holds decoded JSON values and
  Python's `in`, `[]` and `.get` on them; `Decimal` (`decimal.dfy`) holds
  Python's `str` of an integer and its inverse; `Wrappers` (`wrappers.dfy`)
  holds `Option` and `Result`.

Python's `None` is modelled as JSON `null`. Python exceptions are failure
values: `HttpException` values for the library's own exceptions, and
`PyError` (KeyError, TypeError, AttributeError) for the errors Python raises
when a payload does not have the shape the code expects. Those shapes are
modelled as the code handles them. A list payload is passed through unless
it has the string `object` as an element. A string payload is passed through
unless `object` occurs in it. In both of those cases `source['object']` is a
TypeError, and so is any scalar payload.

An invalid JSON body is classified by the transport's own status code. A 200
response with an unreadable body is therefore the base `NuclinoHTTPException`
with status 200, not a server error. The docstring of `_handle_response`
announces a `ValueError` for invalid or incomplete bodies, but the code raises
the classified exceptions, and the model follows the code.

## Model

| member | source | states |
|---|---|---|
| `Json.Contains` | nuclino/api/client.py:165 | `key in value`: the key test on a dict, the element test on a list, on a string true exactly when the key stands at some index, and TypeError on any other value |
| `Json.OccursAt` | nuclino/api/client.py:165 | the recursive substring test holds exactly when the key stands at some index of the string |
| `Json.GetItem` | nuclino/api/client.py:167 | `value[key]` succeeds exactly on a dict holding the key, with its value; KeyError on a missing key, TypeError on a non-dict |
| `Json.PyGet` | nuclino/api/client.py:134 | `value.get(key, default)` is the stored value or the default on a dict, and an AttributeError naming the type otherwise |
| `Json.ContainsAgreesWithGetItem` | nuclino/api/client.py:137-144 | on a dict, membership, subscription and `get` agree |
| `Decimal.NatToDecimal` | nuclino/api/endpoints/item.py:45 | a natural number renders as a non-empty digit string without leading zero |
| `Decimal.IntToDecimal` | nuclino/api/endpoints/item.py:45 | `str(i)` starts with `-` exactly for negative `i`, followed by at least one digit and no leading zero (only `0` itself starts with `0`) |
| `Decimal.ParseNatToDecimal` | nuclino/api/endpoints/item.py:45 | reading the digits of `n` back gives `n` |
| `Decimal.ParseIntToDecimal` | nuclino/api/endpoints/item.py:91 | `int(str(i)) == i` for every integer |
| `Decimal.IntToDecimalInjective` | nuclino/api/endpoints/item.py:91 | distinct integers render differently |
| `HttpErrors.NewException` | nuclino/api/exceptions/http.py:28-31 | an exception stores status and message as given, data as given or `{}` when none or empty, and has `retry_after` exactly when it is a rate-limit error |
| `HttpErrors.RebuildWellFormed` | nuclino/api/exceptions/http.py:28-31 | re-constructing a well-formed exception from its own fields gives it back |
| `HttpErrors.ClassFor` | nuclino/api/exceptions/http.py:198-211 | 400, 401, 403, 404 and 429 select their five classes, exactly [500, 600) selects the server error, and every other status the base class |
| `HttpErrors.RaiseForStatusCode` | nuclino/api/exceptions/http.py:170-211 | the raised exception has the class of the status, the given status and message, and the given data or `{}` |
| `HttpErrors.ClassDependsOnlyOnStatus` | nuclino/api/exceptions/http.py:206-211 | the class raised does not depend on the message or the data |
| `HttpErrors.RetryAfter` | nuclino/api/exceptions/http.py:130 | `retry_after` is the data's `retry_after` entry when the data is a dict holding one, and `None` otherwise |
| `HttpErrors.RateLimitRetryAfter` | nuclino/api/exceptions/http.py:128-130 | a 429 carries the body's `retry_after`, or `None` when absent |
| `HttpErrors.Str` | nuclino/api/exceptions/http.py:32 | the string form is `str(status_code)`, then `: `, then the message, and can be read back into the status and the message |
| `Models.NuclinoObject.GetItem` | nuclino/models/shared.py:24-25 | `obj[key]` is the stored value when the key is present, a KeyError naming the key otherwise |
| `Models.NuclinoObject.GetAttr` | nuclino/models/shared.py:27-31 | a missing attribute is an AttributeError naming the class and the attribute |
| `Models.NuclinoObject.Get` | nuclino/models/shared.py:33-41 | `obj.get(key, default)` is what `obj[key]` gives where that succeeds, and the default where it fails |
| `Models.LookupsAgree` | nuclino/models/shared.py:24-41 | `get` returns `obj[key]` or the default and never fails; attribute access succeeds on the same keys with the same values |
| `Models.Load` | nuclino/models/shared.py:12-14 | the loaded object has the given class and client, and `obj[key]` succeeds exactly on the keys of the props, with their values |
| `Models.LoadRoundTrip` | nuclino/models/shared.py:12-22 | a loaded object keeps the client reference and answers every key of the props with its value, and no other key |
| `Models.GetLoader` | nuclino/models/shared.py:54-63 | the table is defined for exactly the seven tags; any other hashable name is a KeyError, a list or dict a TypeError |
| `Models.GetLoaderOfTag` | nuclino/models/shared.py:56-62 | each loader is found under its own tag and under no other |
| `Models.ApplyLoader` | nuclino/models/shared.py:55-61 | the `list` loader yields `results` or an empty list; the others build an object of their class from the props |
| `NuclinoClient.TrimLeft` | nuclino/api/client.py:33 | the result does not start with `/` |
| `NuclinoClient.TrimLeftSuffix` | nuclino/api/client.py:33 | what TrimLeft keeps is a suffix of the input, and what it drops is all slashes |
| `NuclinoClient.TrimRight` | nuclino/api/client.py:33 | the result is a prefix of the input that does not end with `/` |
| `NuclinoClient.Strip` | nuclino/api/client.py:33 | `s.strip('/')` neither starts nor ends with `/` |
| `NuclinoClient.TrimLeftSkipsSlashes` | nuclino/api/client.py:33 | leading slashes do not change what remains |
| `NuclinoClient.TrimRightSkipsSlashes` | nuclino/api/client.py:33 | trailing slashes do not change what remains |
| `NuclinoClient.StripUnique` | nuclino/api/client.py:33 | stripping removes exactly the surrounding runs of `/` and keeps interior ones |
| `NuclinoClient.StripIdempotent` | nuclino/api/client.py:33 | stripping twice is stripping once |
| `NuclinoClient.JoinUrl` | nuclino/api/client.py:16-33 | the joined URL is one character longer than the two stripped parts, has a `/` at the seam, and neither starts nor ends with `/` when the part on that side is non-empty |
| `NuclinoClient.JoinUrlSeam` | nuclino/api/client.py:16-33 | the joined URL is the stripped base, one `/`, the stripped path, with no slash doubled at the seam |
| `NuclinoClient.JoinUrlSlashInsensitive` | nuclino/api/client.py:16-33 | any slashes around either part give the same URL |
| `NuclinoClient.JoinUrlExample` | nuclino/api/client.py:16-33 | a base with trailing slashes joined to a path with a leading slash and trailing slashes gives the bare base, one `/`, and the bare path |
| `NuclinoClient.JoinUrlExamples` | nuclino/api/client.py:27-31 | both documented joins give `https://api.nuclino.com/v0/workspaces` |
| `NuclinoClient.ConfigError` | nuclino/api/client.py:75-78 | construction fails exactly for an empty key or fewer than one request per minute, the key being checked first |
| `NuclinoClient.Client.Create` | nuclino/api/client.py:56-86 | a new client holding the key, base URL and rate exactly when the configuration is valid, the configuration error otherwise |
| `NuclinoClient.Client.constructor` | nuclino/api/client.py:84-86 | the client stores its key, base URL and rate |
| `NuclinoClient.Client.Parse` | nuclino/api/client.py:146-174 | every object in a parse result refers back to this client and carries its own class's tag; only untagged values or list envelopes without a list of results pass through |
| `NuclinoClient.Client.ParseAll` | nuclino/api/client.py:171-172 | parsing the elements yields one result per element |
| `NuclinoClient.Client.ParseUntagged` | nuclino/api/client.py:165-166 | a mapping without `object` is returned unchanged |
| `NuclinoClient.Client.ParseObject` | nuclino/api/client.py:167-170 | a mapping tagged with a class's tag becomes an object of that class whose data is the whole mapping |
| `NuclinoClient.Client.ParseUnknownTag` | nuclino/api/client.py:167 | a tag outside the table fails with the table's lookup error |
| `NuclinoClient.Client.ParseListWithoutResults` | nuclino/models/shared.py:55 | a list envelope without `results` is the empty list |
| `NuclinoClient.Client.ParseListOfNonList` | nuclino/api/client.py:173-174 | a list envelope whose `results` is not a list is returned unchanged |
| `NuclinoClient.Client.ParseAllPointwise` | nuclino/api/client.py:172 | the elements parse exactly when each does, giving their results in order |
| `NuclinoClient.Client.ParseAllFirstError` | nuclino/api/client.py:172 | a failing element list fails with the first failing element's error |
| `NuclinoClient.Client.ParseList` | nuclino/api/client.py:171-172 | a list envelope gives one result per element of `results`, in order, each parsed on its own, or the first element's error |
| `NuclinoClient.Client.ParseNonMapping` | nuclino/api/client.py:165-167 | a list or string without `object` passes through, any other non-mapping is a TypeError |
| `NuclinoClient.Client.ParseUserExample` | nuclino/api/client.py:167-170 | a user-tagged mapping becomes a User whose `id` lookup returns the mapping's id |
| `NuclinoClient.Client.ParseWorkspaceExample` | nuclino/api/client.py:159-163 | the documented workspace-tagged mapping becomes a Workspace holding the whole mapping, whose `name` lookup gives `My Workspace` |
| `NuclinoClient.Client.ParsePair` | nuclino/api/client.py:171-172 | a list envelope of two elements that both parse gives their two results, in order |
| `NuclinoClient.Client.ParseMixedListExample` | nuclino/api/client.py:171-172 | an envelope holding an item and a collection gives an Item then a Collection |
| `NuclinoClient.Client.HandleResponse` | nuclino/api/client.py:100-144 | a success implies status 200 and a body whose `data` parsed to it; every classified error carries the transport status, except the synthesized 500 for missing `data` |
| `NuclinoClient.Client.HandleInvalidJson` | nuclino/api/client.py:124-131 | an unreadable body is classified by the transport status with the raw text attached, so a 200 gives the base class with status 200 |
| `NuclinoClient.Client.HandleErrorStatus` | nuclino/api/client.py:133-135 | a non-200 mapping body is classified by its status with its message or "Unknown error", and the body as data |
| `NuclinoClient.Client.HandleMissingData` | nuclino/api/client.py:137-142 | a 200 mapping body without `data` is a ServerError with status 500 and its fixed message |
| `NuclinoClient.Client.HandleData` | nuclino/api/client.py:144 | otherwise the result is that of parsing `data` |
| `NuclinoClient.Client.HandleNonMappingBody` | nuclino/api/client.py:133-144 | a body that is not a mapping escapes as a Python error: an AttributeError naming its type on a non-200 status; on a 200, a TypeError for a scalar or for a list or string holding `data`, and otherwise the missing-data server error |
| `NuclinoClient.Client.Headers` | nuclino/api/client.py:84 | every request carries the API key as `Authorization`, `Content-Type: application/json` exactly when it has a body, and no other header |
| `NuclinoClient.Client.Get` | nuclino/api/client.py:176-193 | a GET of the joined URL with the given query or none, its response handled |
| `NuclinoClient.Client.Delete` | nuclino/api/client.py:195-211 | a DELETE of the joined URL, its response handled |
| `NuclinoClient.Client.Post` | nuclino/api/client.py:213-235 | a POST of the data as JSON body to the joined URL, its response handled |
| `NuclinoClient.Client.Put` | nuclino/api/client.py:237-259 | a PUT of the data as JSON body to the joined URL, its response handled |
| `ItemEndpoints.ItemPath` | nuclino/api/endpoints/item.py:57 | the path is `/items/` followed by the id, which can be read back from it |
| `ItemEndpoints.ItemPathInjective` | nuclino/api/endpoints/item.py:57 | different ids give different `/items/<id>` paths |
| `ItemEndpoints.ItemUrl` | nuclino/api/endpoints/item.py:123 | a non-empty id without surrounding slashes is requested at the base URL, `/items/`, and the id; an empty id is not, since stripping removes the trailing slash of `/items/` |
| `ItemEndpoints.GetItems` | nuclino/api/endpoints/item.py:15-48 | a call is built exactly when one of team and workspace is given, else a 400 validation error with the matching message and no call; the query holds that scope, `limit` as decimal and `after` only when given, and no other key |
| `ItemEndpoints.ItemsQueryScope` | nuclino/api/endpoints/item.py:40-47 | a built query has exactly one scope key and its `limit` reads back as the number given |
| `ItemEndpoints.ItemsQueryUnique` | nuclino/api/endpoints/item.py:40-47 | the query is determined by the arguments |
| `ItemEndpoints.GetItem` | nuclino/api/endpoints/item.py:50-58 | a GET of `/items/<id>` without query |
| `ItemEndpoints.ItemBodyUnique` | nuclino/api/endpoints/item.py:81-91 | the create body is determined by the arguments |
| `ItemEndpoints.CreateItem` | nuclino/api/endpoints/item.py:60-92 | a POST to `/items` whose body always has `object` and each optional field only when given, `index` as decimal |
| `ItemEndpoints.UpdateBodyUnique` | nuclino/api/endpoints/item.py:109-113 | the update body is determined by the arguments, and empty when neither field is given |
| `ItemEndpoints.UpdateItem` | nuclino/api/endpoints/item.py:94-114 | a PUT of `/items/<id>` whose body holds exactly the title and content given |
| `ItemEndpoints.DeleteItem` | nuclino/api/endpoints/item.py:116-124 | a DELETE of `/items/<id>` |
| `ItemEndpoints.GetCollection` | nuclino/api/endpoints/item.py:127-134 | the same call as `get_item` |
| `ItemEndpoints.CreateCollection` | nuclino/api/endpoints/item.py:136-159 | the body `create_item` builds for kind `collection` and no content |
| `ItemEndpoints.UpdateCollection` | nuclino/api/endpoints/item.py:161-173 | the body `update_item` builds without content |
| `ItemEndpoints.DeleteCollection` | nuclino/api/endpoints/item.py:175-182 | the same call as `delete_item` |

## Left out

- Rate limiting: the `ratelimit` decorator is an external library, and the sleep-and-retry wrapper (nuclino/api/utils.py) is an unbounded wall-clock wait that swallows every exception. The gate is taken to admit every request, so the request primitives do not model it.
- HTTP transport: the `requests` session, its close and the context-manager methods are not modelled. The transport is a function parameter of `Get`, `Delete`, `Post` and `Put`, and a response is reduced to its status, its decoded body (or none when it is not JSON) and its raw text.
- The unused `timer` field of the client is not modelled.
- JSON numbers are integers in the model; fractional numbers are not modelled. A body or an `object` tag that is a float cannot be expressed, so the errors Python raises for one (an AttributeError naming `float` on a non-200 body, a KeyError carrying the float as a tag) are not modelled.
- `NuclinoClient.Client.HandleResponse`: when a non-200 body has a `message` that is not a JSON string, Python puts that raw value in the exception; the model's exception messages are strings, so it uses "Unknown error" then.
- `HttpErrors.RaiseForStatusCode`: requires that a 429 given truthy data be given a dict, because Python would fail with an AttributeError reading `retry_after` from anything else; every call in the client meets this.
- Object identity: two parses of the same payload give equal values in the model, whereas Python builds two distinct objects.
- `NuclinoObject.__str__` and `__repr__` render Python dict syntax and are not modelled, nor are the navigation methods and `__repr__` of the model classes (models/item.py, workspace.py, team.py, file.py, user.py).
- `NuclinoTimeoutError` is never raised by the code and is not modelled.
- nuclino/api/nuclino.py only delegates to the endpoint objects; the team, workspace, user and file endpoints follow the item pattern without validation; the type declarations and re-export modules declare nothing to model.
- `HttpErrors.Str`: nuclino/api/exceptions/base.py, which defines `NuclinoBaseException`, is not part of this model. The model assumes that base class keeps the string passed to it at nuclino/api/exceptions/http.py:32 as the exception's string form. nuclino/api/exceptions/APIException.py, a separate hierarchy that the HTTP exceptions do not derive from, is not part of this model either.
- Attribute access is modelled as keyed lookup only, without Python's attribute resolution on the class.
