/** Domain objects: an immutable copy of a tagged property mapping plus a
    back-reference to the client that produced it, and the closed table of
    loaders that the response dispatcher selects from by tag. The client type
    is a parameter `C`, so that this module does not depend on the client. */
module Models {
  import opened Wrappers
  import opened Json

  /** The six domain object classes. */
  datatype Kind = User | Team | Workspace | Item | Collection | File

  /** The `object` tag each class is loaded from (its `_object`). */
  function KindTag(k: Kind): string {
    match k
    case User => "user"
    case Team => "team"
    case Workspace => "workspace"
    case Item => "item"
    case Collection => "collection"
    case File => "file"
  }

  /** The Python class name, used in attribute-error messages. */
  function ClassName(k: Kind): string {
    match k
    case User => "User"
    case Team => "Team"
    case Workspace => "Workspace"
    case Item => "Item"
    case Collection => "Collection"
    case File => "File"
  }

  /** A domain object: its class, the copy of the property mapping it was
      built from, and the client it navigates through. */
  datatype NuclinoObject<C> = NuclinoObject(kind: Kind, data: map<string, Json>, nuclino: C) {

    /** `obj[key]`: the stored property, or a KeyError naming the key. */
    function GetItem(key: string): (r: Result<Json, PyError>)
      ensures r.Success? <==> key in data
      ensures r.Success? ==> r.value == data[key]
      ensures r.Failure? ==> r.error == KeyError(JStr(key))
    {
      if key in data then Success(data[key]) else Failure(KeyError(JStr(key)))
    }

    /** `obj.get(key, default)`: never fails. */
    function Get(key: string, default: Json := JNull): (r: Json)
      ensures GetItem(key).Success? ==> r == GetItem(key).value
      ensures GetItem(key).Failure? ==> r == default
    {
      if key in data then data[key] else default
    }

    /** `obj.name`: keyed lookup of the same name, with an AttributeError
        naming the class and the attribute when it is absent. */
    function GetAttr(name: string): (r: Result<Json, PyError>)
      ensures r.Failure? ==>
        r.error == AttributeError("'" + ClassName(kind) + "' object has no attribute '" + name + "'")
    {
      match GetItem(name)
      case Success(v) => Success(v)
      case Failure(_) => Failure(AttributeError("'" + ClassName(kind) + "' object has no attribute '" + name + "'"))
    }
  }

  /** `cls.load(props, nuclino)`: the same as constructing the object. */
  function Load<C>(kind: Kind, props: map<string, Json>, nuclino: C): (r: NuclinoObject<C>)
    ensures r.kind == kind && r.nuclino == nuclino
    ensures forall key :: r.GetItem(key).Success? <==> key in props
    ensures forall key :: key in props ==> r.GetItem(key).value == props[key]
  {
    NuclinoObject(kind, props, nuclino)
  }

  /** A loaded object keeps the client reference and answers every keyed
      lookup with the value of the mapping it was loaded from, and fails on
      exactly the keys that mapping lacks: no key is renamed or added. */
  lemma LoadRoundTrip<C>(kind: Kind, props: map<string, Json>, nuclino: C, key: string)
    ensures Load(kind, props, nuclino).nuclino == nuclino
    ensures Load(kind, props, nuclino).kind == kind
    ensures key in props ==> Load(kind, props, nuclino).GetItem(key) == Success(props[key])
    ensures key !in props ==> Load(kind, props, nuclino).GetItem(key).Failure?
  {
  }

  /** The three lookups agree: `get` returns what `obj[key]` returns or the
      default where that fails, and attribute access succeeds on exactly the
      same keys with the same values. */
  lemma LookupsAgree<C>(o: NuclinoObject<C>, key: string, default: Json)
    ensures o.GetItem(key).Success? ==> o.Get(key, default) == o.GetItem(key).value
    ensures o.GetItem(key).Failure? ==> o.Get(key, default) == default
    ensures o.GetAttr(key).Success? <==> o.GetItem(key).Success?
    ensures o.GetAttr(key).Success? ==> o.GetAttr(key) == o.GetItem(key)
  {
  }

  /** The entries of the loader table. */
  datatype Loader = ListLoader | ObjectLoader(kind: Kind)

  /** The tag each loader is registered under. */
  function LoaderTag(l: Loader): string {
    match l
    case ListLoader => "list"
    case ObjectLoader(k) => KindTag(k)
  }

  /** The seven tags of the table. */
  const Tags: set<string> := {"list", "user", "team", "workspace", "item", "collection", "file"}

  /** `get_loader(name)`: the loader registered under a tag. A name that is
      not one of the seven tags is a KeyError; a list or dict cannot even be
      looked up (it is unhashable), which is a TypeError. */
  function GetLoader(name: Json): (r: Result<Loader, PyError>)
    ensures r.Success? <==> name.JStr? && name.s in Tags
    ensures r.Success? ==> LoaderTag(r.value) == name.s
    ensures r.Failure? && (name.JArr? || name.JObj?) ==> r.error == TypeError
    ensures r.Failure? && !(name.JArr? || name.JObj?) ==> r.error == KeyError(name)
  {
    match name
    case JStr(s) =>
      if s == "list" then Success(ListLoader)
      else if s == "user" then Success(ObjectLoader(User))
      else if s == "team" then Success(ObjectLoader(Team))
      else if s == "workspace" then Success(ObjectLoader(Workspace))
      else if s == "item" then Success(ObjectLoader(Item))
      else if s == "collection" then Success(ObjectLoader(Collection))
      else if s == "file" then Success(ObjectLoader(File))
      else Failure(KeyError(name))
    case JArr(_) => Failure(TypeError)
    case JObj(_) => Failure(TypeError)
    case _ => Failure(KeyError(name))
  }

  /** The table is a bijection between the seven tags and the loaders: each
      loader is found under its own tag and under no other. */
  lemma {:induction false} GetLoaderOfTag(l: Loader, name: Json)
    ensures GetLoader(JStr(LoaderTag(l))) == Success(l)
    ensures GetLoader(name) == Success(l) ==> name == JStr(LoaderTag(l))
  {
    match l
    case ListLoader =>
    case ObjectLoader(k) =>
      match k
      case User =>
      case Team =>
      case Workspace =>
      case Item =>
      case Collection =>
      case File =>
  }

  /** What a loader returns: a domain object, or (for `list`) a value that
      the dispatcher inspects further. */
  datatype Loaded<C> = Loaded(obj: NuclinoObject<C>) | Value(value: Json)

  /** Calling a loader on a tagged mapping. The `list` loader returns the
      `results` value, or an empty list when there is none. */
  function ApplyLoader<C>(l: Loader, props: map<string, Json>, nuclino: C): (r: Loaded<C>)
    ensures l.ListLoader? ==> r == Value(if "results" in props then props["results"] else JArr([]))
    ensures l.ObjectLoader? ==> r == Loaded(Load(l.kind, props, nuclino))
  {
    match l
    case ListLoader => Value(PyGet(JObj(props), "results", JArr([])).value)
    case ObjectLoader(k) => Loaded(Load(k, props, nuclino))
  }
}
