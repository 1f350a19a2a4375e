/** The mapped classes of tests/models.py: their schema (columns, to-many relations,
    other attributes, allow-lists) and their permission hooks, each decorated with
    crudad's require_user. This is the schema registry the resolvers consult in place
    of SQLAlchemy's class_mapper introspection. */
module Models {
  import opened Values

  datatype TypeName = Thing | ChildThing | SyncUser

  /** __class__.__name__ */
  function ClassName(t: TypeName): string {
    match t
    case Thing => "Thing"
    case ChildThing => "ChildThing"
    case SyncUser => "SyncUser"
  }

  /** The column properties of each mapped class. */
  function Columns(t: TypeName): seq<string> {
    match t
    case Thing => ["id", "user_id", "description"]
    case ChildThing => ["id", "description", "parent_id"]
    case SyncUser => ["id", "username", "email"]
  }

  /** The list-valued relations of each mapped class, with their target class. */
  function ListRelations(t: TypeName): map<string, TypeName> {
    match t
    case Thing => map["children" := ChildThing]
    case ChildThing => map[]
    case SyncUser => map["things" := Thing]
  }

  /** Attributes every mapped instance answers: those of a Python 2 new-style object
      and of a user-defined class, and those db.Model and the declarative base add.
      None of them is a list. The set is closed: any other name counts as missing. */
  const InstanceAttributes: set<string> :=
    {"__class__", "__delattr__", "__dict__", "__doc__", "__format__", "__getattribute__",
     "__hash__", "__init__", "__module__", "__new__", "__reduce__", "__reduce_ex__",
     "__repr__", "__setattr__", "__sizeof__", "__str__", "__subclasshook__", "__weakref__",
     "__table__", "__mapper__", "__tablename__", "_sa_class_manager", "_sa_instance_state",
     "_decl_class_registry", "query", "query_class", "metadata"}

  /** The attributes an instance answers getattr with something other than a column
      value or a list: the scalar `parent` backref, the hooks declared in models.py,
      and the attributes every instance has. */
  function OtherAttributes(t: TypeName): (r: set<string>)
    ensures "permit_update" in r && "permit_delete" !in r
    ensures "permit_create" in r <==> t != SyncUser
  {
    var hooks: set<string> :=
      match t
      case Thing => {"permit_create", "permit_update"}
      case ChildThing =>
        {"parent", "permit_create", "permit_update", "permit_associate", "permit_disassociate"}
      case SyncUser => {"permit_update"};
    assert "permit_delete" !in InstanceAttributes && "permit_create" !in InstanceAttributes;
    InstanceAttributes + hooks
  }

  /** An element of a list-valued class attribute: a string, or a mapped class. */
  datatype ClassItem = Name(s: string) | Class(c: TypeName)

  function Names(s: seq<string>): (r: seq<ClassItem>)
    ensures |r| == |s| && forall i :: 0 <= i < |s| ==> r[i] == Name(s[i])
  {
    seq(|s|, i requires 0 <= i < |s| => Name(s[i]))
  }

  function Classes(s: seq<TypeName>): (r: seq<ClassItem>)
    ensures |r| == |s| && forall i :: 0 <= i < |s| ==> r[i] == Class(s[i])
  {
    seq(|s|, i requires 0 <= i < |s| => Class(s[i]))
  }

  /** The class attributes whose value is a Python list, element by element: each
      class's __allow_update__, Thing's __public__, and ChildThing's
      __allow_associate__ (of classes) and __allow_disassociate__ (of names). */
  function ClassLists(t: TypeName): map<string, seq<ClassItem>> {
    var common := map["__allow_update__" := Names(AllowUpdate(t))];
    match t
    case Thing => common["__public__" := Names(["id"])]
    case ChildThing =>
      common["__allow_associate__" := Classes(AllowAssociate(t))]["__allow_disassociate__" := Names(AllowDisassociate(t))]
    case SyncUser => common
  }

  /** hasattr(instance, name). Every class answers the attributes every instance has and
      its permit_update hook; only Thing and ChildThing have permit_create, only
      ChildThing has `parent`, and no class has permit_delete. */
  predicate IsAttribute(t: TypeName, name: string): (b: bool)
    ensures (name in {"__class__", "__dict__", "__doc__", "__module__", "__table__", "__mapper__",
                      "_sa_instance_state", "query_class", "permit_update"}) ==> b
    ensures name == "permit_create" ==> (b <==> t != SyncUser)
    ensures name == "parent" ==> (b <==> t == ChildThing)
    ensures name == "permit_delete" ==> !b
  {
    name in Columns(t) || name in ListRelations(t) || name in ClassLists(t) || name in OtherAttributes(t)
  }

  /** Relations point from SyncUser to Thing to ChildThing: the rank strictly falls
      along every to-many relation, so no instance is reachable from itself. */
  function Rank(t: TypeName): nat {
    match t
    case SyncUser => 2
    case Thing => 1
    case ChildThing => 0
  }

  lemma RelationsDescend(t: TypeName, name: string)
    requires name in ListRelations(t)
    ensures Rank(ListRelations(t)[name]) < Rank(t)
  {
  }

  /** No relation shares its name with a column or a list-valued class attribute, and
      every relation is an attribute. */
  lemma ListsAreNotColumns(t: TypeName, name: string)
    requires name in ListRelations(t)
    ensures name !in Columns(t) && name !in ClassLists(t) && IsAttribute(t, name)
  {
  }

  /** __allow_update__: it never names the id column, and names only columns and
      to-many relations of its class. */
  function AllowUpdate(t: TypeName): (r: seq<string>)
    ensures "id" !in r
    ensures forall f :: f in r ==> f in Columns(t) || f in ListRelations(t)
  {
    match t
    case Thing => ["description", "children", "user_id"]
    case ChildThing => ["description", "parent_id"]
    case SyncUser => ["things"]
  }

  /** __allow_associate__; only ChildThing declares one. */
  function AllowAssociate(t: TypeName): seq<TypeName> {
    if t == ChildThing then [Thing] else []
  }

  /** __allow_disassociate__ (class names); only ChildThing declares one. */
  function AllowDisassociate(t: TypeName): seq<string> {
    if t == ChildThing then ["Thing"] else []
  }

  /** A column value read from an instance; an unset column reads as None. */
  function ColumnOf(cols: map<string, Doc>, name: string): Doc {
    if name in cols then cols[name] else Scalar(VNone)
  }

  /** `if not hook(...): raise denial`, as both generations guard their hooks: a hook's own exception propagates, a falsy
      answer raises denial. */
  function Check(p: Result<bool>, denial: Error): (r: Result<()>)
    ensures r.Ok? <==> p == Ok(true)
    ensures p.Err? ==> r == Err(p.error)
    ensures p == Ok(false) ==> r == Err(denial)
  {
    match p
    case Err(e) => Err(e)
    case Ok(b) => if b then Ok(()) else Err(denial)
  }

  /** crudad.require_user: a hook called without a (truthy) user raises
      PermissionError; otherwise the wrapped hook runs with the user's id. */
  function RequireUser(user: Principal, hook: Value -> Result<bool>): (r: Result<bool>)
    ensures user.None? ==> r == Err(PermissionError)
    ensures user.Some? ==> r == hook(user.value)
  {
    match user
    case None => Err(PermissionError)
    case Some(uid) => hook(uid)
  }

  /** The static permit_create(obj_dict, user) hook; SyncUser has none (AttributeError). */
  function PermitCreate(t: TypeName, doc: seq<(string, Doc)>, user: Principal): (r: Result<bool>)
    ensures r.Err? <==> t == SyncUser || user.None? || (t == Thing && "user_id" !in Keys(doc))
    ensures r.Err? ==> r.error == if t == SyncUser then AttributeError else if user.None? then PermissionError else KeyError
  {
    match t
    case Thing =>
      RequireUser(user, uid =>
        match Get(doc, "user_id")
        case None => Err(KeyError)
        case Some(v) => Ok(v == Scalar(uid)))
    case ChildThing => RequireUser(user, uid => Ok(true))
    case SyncUser => Err(AttributeError)
  }

  /** self.permit_update(obj_dict, user) on an instance of t with columns cols;
      the truthiness of the returned value. */
  function PermitUpdate(t: TypeName, cols: map<string, Doc>, doc: seq<(string, Doc)>, user: Principal): (r: Result<bool>)
    ensures r.Err? <==> user.None?
    ensures r.Err? ==> r.error == PermissionError
  {
    match t
    case Thing =>
      RequireUser(user, uid =>
        Ok(Scalar(uid) == ColumnOf(cols, "user_id") || Truthy(GetOrNone(doc, "user_id"))))
    case ChildThing => RequireUser(user, uid => Ok(true))
    case SyncUser => RequireUser(user, uid => Ok(Scalar(uid) == ColumnOf(cols, "id")))
  }

  /** hasattr(instance, 'permit_associate') */
  predicate HasPermitAssociate(t: TypeName) {
    t == ChildThing
  }

  /** self.permit_associate(parent, obj_dict, user) on an instance of t, for a parent of class p. */
  function PermitAssociate(t: TypeName, p: TypeName, doc: Doc, user: Principal): (r: Result<bool>)
    ensures r.Err? <==> t != ChildThing || user.None?
    ensures r.Err? ==> r.error == if t != ChildThing then AttributeError else PermissionError
    ensures r.Ok? ==> (r.value <==> p == Thing)
  {
    if t == ChildThing then RequireUser(user, uid => Ok(p in AllowAssociate(t)))
    else Err(AttributeError)
  }

  /** hasattr(instance, 'permit_disassociate') */
  predicate HasPermitDisassociate(t: TypeName) {
    t == ChildThing
  }

  /** self.permit_disassociate(parent, user) on an instance of t, for a `parent` argument
      of class p with columns pcols. The hook reads parent.user_id unconditionally, so
      an argument without that attribute raises AttributeError. */
  function PermitDisassociate(t: TypeName, p: TypeName, pcols: map<string, Doc>, user: Principal): (r: Result<bool>)
    ensures r.Err? <==> t != ChildThing || user.None? || p != Thing
    ensures r.Err? ==> r.error == if t == ChildThing && user.None? then PermissionError else AttributeError
    ensures r.Ok? ==> (r.value <==> user.Some? && ColumnOf(pcols, "user_id") == Scalar(user.value))
  {
    if t == ChildThing then
      RequireUser(user, uid =>
        var allowed := ClassName(p) in AllowDisassociate(t);
        if "user_id" !in Columns(p) then Err(AttributeError)
        else Ok(allowed && Scalar(uid) == ColumnOf(pcols, "user_id")))
    else Err(AttributeError)
  }

  /** existing_record.permit_delete(...): no model class defines it. */
  function PermitDelete(t: TypeName, cols: map<string, Doc>, doc: seq<(string, Doc)>, user: Principal): (r: Result<bool>)
    ensures r == Err(AttributeError)
  {
    Err(AttributeError)
  }

  // ---- what the hooks promise ----

  /** Every decorated hook called without a user raises PermissionError, and its body
      is never evaluated: Thing.permit_create would otherwise raise KeyError on a
      document without user_id. */
  lemma AnonymousDenied(t: TypeName, p: TypeName, cols: map<string, Doc>, doc: seq<(string, Doc)>, d: Doc)
    ensures t != SyncUser ==> PermitCreate(t, doc, None) == Err(PermissionError)
    ensures PermitUpdate(t, cols, doc, None) == Err(PermissionError)
    ensures HasPermitAssociate(t) ==> PermitAssociate(t, p, d, None) == Err(PermissionError)
    ensures HasPermitDisassociate(t) ==> PermitDisassociate(t, p, cols, None) == Err(PermissionError)
    ensures PermitCreate(Thing, [], None) == Err(PermissionError)
    ensures PermitCreate(Thing, [], Some(VInt(1))) == Err(KeyError)
  {
  }

  /** Thing.permit_create holds iff the document's user_id is the principal's id;
      it raises KeyError when the document has no user_id. */
  lemma ThingCreateIff(doc: seq<(string, Doc)>, uid: Value)
    ensures PermitCreate(Thing, doc, Some(uid)).Ok? <==> "user_id" in Keys(doc)
    ensures PermitCreate(Thing, doc, Some(uid)) == Ok(true) <==> Get(doc, "user_id") == Some(Scalar(uid))
  {
  }

  /** Thing.permit_update is truthy iff the principal owns the Thing or the document
      carries a truthy user_id. */
  lemma ThingUpdateIff(cols: map<string, Doc>, doc: seq<(string, Doc)>, uid: Value)
    ensures PermitUpdate(Thing, cols, doc, Some(uid)) == Ok(true)
        <==> ColumnOf(cols, "user_id") == Scalar(uid) || Truthy(GetOrNone(doc, "user_id"))
    ensures PermitUpdate(Thing, cols, doc, Some(uid)).Ok?
  {
  }

  /** ChildThing create and update are always permitted once a user is present, and
      its permit_associate holds iff the parent is a Thing. */
  lemma ChildThingPermits(cols: map<string, Doc>, doc: seq<(string, Doc)>, p: TypeName, d: Doc, uid: Value)
    ensures PermitCreate(ChildThing, doc, Some(uid)) == Ok(true)
    ensures PermitUpdate(ChildThing, cols, doc, Some(uid)) == Ok(true)
    ensures PermitAssociate(ChildThing, p, d, Some(uid)) == Ok(p == Thing)
  {
  }

  /** ChildThing.permit_disassociate holds iff the parent's class name is 'Thing' and the
      parent's user_id is the principal's id; a parent without user_id raises. */
  lemma ChildThingDisassociateIff(p: TypeName, pcols: map<string, Doc>, uid: Value)
    ensures PermitDisassociate(ChildThing, p, pcols, Some(uid)) == Ok(true)
        <==> ClassName(p) == "Thing" && ColumnOf(pcols, "user_id") == Scalar(uid)
    ensures PermitDisassociate(ChildThing, p, pcols, Some(uid)).Err? <==> p != Thing
  {
  }

  /** SyncUser.permit_update holds iff the principal is that user; SyncUser has no
      permit_create, so creating one raises AttributeError. */
  lemma SyncUserPermits(cols: map<string, Doc>, doc: seq<(string, Doc)>, user: Principal)
    ensures user.Some? ==> (PermitUpdate(SyncUser, cols, doc, user) == Ok(true) <==> ColumnOf(cols, "id") == Scalar(user.value))
    ensures PermitCreate(SyncUser, doc, user) == Err(AttributeError)
  {
  }

  /** The updatable fields of each class. */
  lemma UpdatableFields(f: string)
    ensures f in AllowUpdate(Thing) <==> f in {"description", "children", "user_id"}
    ensures f in AllowUpdate(ChildThing) <==> f in {"description", "parent_id"}
    ensures f in AllowUpdate(SyncUser) <==> f == "things"
    ensures "id" !in AllowUpdate(Thing) + AllowUpdate(ChildThing) + AllowUpdate(SyncUser)
  {
  }

  /** Every list-valued class attribute is an attribute that is neither a column nor a
      relation, and the only element of one that is a mapped class (and so has an id
      attribute) is the Thing in ChildThing.__allow_associate__. */
  lemma ClassListsShape(t: TypeName, name: string, p: int)
    requires name in ClassLists(t)
    ensures IsAttribute(t, name) && name !in Columns(t) && name !in ListRelations(t)
    ensures 0 <= p < |ClassLists(t)[name]| ==>
      (ClassLists(t)[name][p].Class? <==> t == ChildThing && name == "__allow_associate__" && p == 0)
    ensures t == ChildThing && name == "__allow_associate__" ==> ClassLists(t)[name] == [Class(Thing)]
  {
  }
}
