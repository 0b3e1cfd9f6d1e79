/** Decoded JSON values as the client receives them from a response body, and
    the three Python container operations the client applies to them with a
    string key: membership (`key in c`), subscription (`c[key]`) and
    `c.get(key, default)`. Python's `None` is the JSON `null`. */
module Json {
  import opened Wrappers

  /** A decoded JSON value. Numbers are integers here (see README). */
  datatype Json =
    | JNull
    | JBool(b: bool)
    | JNum(n: int)
    | JStr(s: string)
    | JArr(items: seq<Json>)
    | JObj(fields: map<string, Json>)

  /** The Python exceptions that container operations on JSON values raise. */
  datatype PyError =
    | KeyError(key: Json)
    | TypeError
    | AttributeError(message: string)

  /** Python truthiness of a decoded value: `None`, `False`, `0` and empty
      strings, lists and dicts are false. */
  predicate Truthy(j: Json) {
    match j
    case JNull => false
    case JBool(b) => b
    case JNum(n) => n != 0
    case JStr(s) => s != []
    case JArr(xs) => xs != []
    case JObj(m) => m != map[]
  }

  /** The name of the Python type a decoded value has. */
  function TypeName(j: Json): string {
    match j
    case JNull => "NoneType"
    case JBool(_) => "bool"
    case JNum(_) => "int"
    case JStr(_) => "str"
    case JArr(_) => "list"
    case JObj(_) => "dict"
  }

  /** Python's substring test `key in s`. */
  function Occurs(key: string, s: string): bool
    decreases |s|
  {
    |key| <= |s| && (s[..|key|] == key || Occurs(key, s[1..]))
  }

  /** `key` stands in `s` starting at index `i`. */
  predicate OccursAtIndex(key: string, s: string, i: int) {
    0 <= i <= |s| - |key| && s[i..i + |key|] == key
  }

  /** The recursive substring test agrees with its direct definition: `key`
      occurs in `s` exactly when it stands at some index of `s`. */
  lemma {:induction false} OccursAt(key: string, s: string)
    ensures Occurs(key, s) <==> exists i :: OccursAtIndex(key, s, i)
    decreases |s|
  {
    if |key| <= |s| {
      if s[..|key|] == key {
        assert OccursAtIndex(key, s, 0);
      } else {
        OccursAt(key, s[1..]);
        if Occurs(key, s[1..]) {
          var i :| OccursAtIndex(key, s[1..], i);
          assert s[1..][i..i + |key|] == s[i + 1..i + 1 + |key|];
          assert OccursAtIndex(key, s, i + 1);
        } else {
          forall i | OccursAtIndex(key, s, i)
            ensures OccursAtIndex(key, s[1..], i - 1)
          {
            assert s[1..][i - 1..i - 1 + |key|] == s[i..i + |key|];
          }
        }
      }
    }
  }

  /** `key in container`: key membership for a dict, element equality for a
      list, substring test for a string, and a TypeError for every other
      value, which is not iterable. */
  function Contains(container: Json, key: string): (r: Result<bool, PyError>)
    ensures r.Failure? <==> !(container.JObj? || container.JArr? || container.JStr?)
    ensures r.Failure? ==> r.error == TypeError
    ensures container.JObj? ==> r == Success(key in container.fields)
    ensures container.JArr? ==> r == Success(JStr(key) in container.items)
    ensures container.JStr? ==> (r == Success(true) <==> exists i :: OccursAtIndex(key, container.s, i))
  {
    match container
    case JObj(m) => Success(key in m)
    case JArr(xs) => Success(JStr(key) in xs)
    case JStr(s) => OccursAt(key, s); Success(Occurs(key, s))
    case _ => Failure(TypeError)
  }

  /** `container[key]`: only a dict can be subscripted by a string; a missing
      key is a KeyError, and a list, string or scalar is a TypeError. */
  function GetItem(container: Json, key: string): (r: Result<Json, PyError>)
    ensures r.Success? <==> container.JObj? && key in container.fields
    ensures r.Success? ==> r.value == container.fields[key]
    ensures container.JObj? && key !in container.fields ==> r == Failure(KeyError(JStr(key)))
    ensures !container.JObj? ==> r == Failure(TypeError)
  {
    match container
    case JObj(m) => if key in m then Success(m[key]) else Failure(KeyError(JStr(key)))
    case _ => Failure(TypeError)
  }

  /** `container.get(key, default)`: only a dict has a `get` method. */
  function PyGet(container: Json, key: string, default: Json): (r: Result<Json, PyError>)
    ensures r.Success? <==> container.JObj?
    ensures container.JObj? ==>
      r.value == (if key in container.fields then container.fields[key] else default)
    ensures !container.JObj? ==>
      r == Failure(AttributeError("'" + TypeName(container) + "' object has no attribute 'get'"))
  {
    match container
    case JObj(m) => Success(if key in m then m[key] else default)
    case _ => Failure(AttributeError("'" + TypeName(container) + "' object has no attribute 'get'"))
  }

  /** On a dict, membership and subscription agree: `key in d` exactly when
      `d[key]` succeeds, and `d.get(key, x)` is `d[key]` when that succeeds. */
  lemma ContainsAgreesWithGetItem(m: map<string, Json>, key: string, default: Json)
    ensures Contains(JObj(m), key) == Success(GetItem(JObj(m), key).Success?)
    ensures GetItem(JObj(m), key).Success? ==> PyGet(JObj(m), key, default) == GetItem(JObj(m), key)
    ensures GetItem(JObj(m), key).Failure? ==> PyGet(JObj(m), key, default) == Success(default)
  {
  }
}
