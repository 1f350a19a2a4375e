/** The abstract in-memory store that stands in for the SQLAlchemy session and
    query machinery: a heap of mapped instances addressed by handles, an index from
    (class, primary key) to the persisted instance that `query.get` returns, and the
    session's unit of work as a log of staged operations. */
module Store {
  import opened Values
  import opened Models

  type Handle = nat

  /** A mapped instance: its class, its column values and its to-many lists. */
  datatype Entity = Entity(ty: TypeName, cols: map<string, Doc>, lists: map<string, seq<Handle>>)

  /** What the code does to db.session, in order. */
  datatype SessionOp = Staged(h: Handle) | Removed(h: Handle) | Flushed | Committed

  datatype World = World(
    heap: map<Handle, Entity>,
    index: map<(TypeName, int), Handle>,
    ops: seq<SessionOp>,
    next: Handle)

  /** getattr(instance, name) for a to-many relation. */
  function ListOf(e: Entity, name: string): seq<Handle> {
    if name in e.lists then e.lists[name] else []
  }

  /** mapper_class(): every column None, every list empty. */
  function NewEntity(t: TypeName): (e: Entity)
    ensures e.ty == t && e.lists.Keys == ListRelations(t).Keys
    ensures forall n :: n in e.lists ==> e.lists[n] == []
    ensures forall c :: c in Columns(t) <==> c in e.cols
    ensures forall c :: c in e.cols ==> e.cols[c] == Scalar(VNone)
  {
    match t
    case Thing =>
      Entity(t, map["id" := Scalar(VNone), "user_id" := Scalar(VNone), "description" := Scalar(VNone)],
             map["children" := []])
    case ChildThing =>
      Entity(t, map["id" := Scalar(VNone), "description" := Scalar(VNone), "parent_id" := Scalar(VNone)], map[])
    case SyncUser =>
      Entity(t, map["id" := Scalar(VNone), "username" := Scalar(VNone), "email" := Scalar(VNone)],
             map["things" := []])
  }

  /** List members exist, belong to a declared relation and have its target class. */
  predicate ListsTyped(w: World) {
    forall h, n :: h in w.heap && n in w.heap[h].lists ==>
      n in ListRelations(w.heap[h].ty) &&
      forall i :: 0 <= i < |w.heap[h].lists[n]| ==>
        w.heap[h].lists[n][i] in w.heap &&
        w.heap[w.heap[h].lists[n][i]].ty == ListRelations(w.heap[h].ty)[n]
  }

  ghost predicate WellFormed(w: World) {
    (forall h :: h in w.heap ==> h < w.next) &&
    (forall k :: k in w.index ==> w.index[k] in w.heap && w.heap[w.index[k]].ty == k.0) &&
    ListsTyped(w)
  }

  /** w' is w after resolution steps: no instance disappears or changes class, and the
      persisted index is untouched. */
  ghost predicate Extends(w: World, w': World) {
    w.next <= w'.next &&
    w'.index == w.index &&
    (forall h :: h in w.heap ==> h in w'.heap && w'.heap[h].ty == w.heap[h].ty)
  }

  lemma ExtendsTrans(w1: World, w2: World, w3: World)
    requires Extends(w1, w2) && Extends(w2, w3)
    ensures Extends(w1, w3)
  {
  }

  /** mapper_class.query.get(id): the persisted instance of class t whose primary key
      is id, if any. */
  function Lookup(w: World, t: TypeName, id: Doc): (r: Option<Handle>)
    requires WellFormed(w)
    ensures r.Some? ==> r.value in w.heap && w.heap[r.value].ty == t
    ensures r.Some? <==> id.Scalar? && id.v.VInt? && (t, id.v.i) in w.index
  {
    if id.Scalar? && id.v.VInt? && (t, id.v.i) in w.index then Some(w.index[(t, id.v.i)]) else None
  }

  /** query.get finds the same instance in every later store, since resolution never
      touches the persisted index. */
  lemma LookupStable(w: World, w': World, t: TypeName, id: Doc)
    requires WellFormed(w) && WellFormed(w') && Extends(w, w')
    ensures Lookup(w', t, id) == Lookup(w, t, id)
  {
  }

  /** mapper_class(): a new, transient instance under a fresh handle. */
  function Allocate(w: World, t: TypeName): (r: (Handle, World))
    requires WellFormed(w)
    ensures WellFormed(r.1) && Extends(w, r.1)
    ensures r.0 == w.next && r.0 !in w.heap
    ensures r.1 == w.(heap := w.heap[r.0 := NewEntity(t)], next := w.next + 1)
  {
    var h := w.next;
    var w' := w.(heap := w.heap[h := NewEntity(t)], next := w.next + 1);
    assert ListsTyped(w') by {
      forall g, n | g in w'.heap && n in w'.heap[g].lists
        ensures n in ListRelations(w'.heap[g].ty) &&
          forall i :: 0 <= i < |w'.heap[g].lists[n]| ==>
            w'.heap[g].lists[n][i] in w'.heap &&
            w'.heap[w'.heap[g].lists[n][i]].ty == ListRelations(w'.heap[g].ty)[n]
      {
        if g != h {
          forall i | 0 <= i < |w'.heap[g].lists[n]| ensures w'.heap[g].lists[n][i] != h {
            assert w.heap[g].lists[n][i] in w.heap;
          }
        }
      }
    }
    (h, w')
  }

  /** setattr(instance, name, v) on a column. */
  function SetColumn(w: World, h: Handle, name: string, v: Doc): (w': World)
    requires WellFormed(w) && h in w.heap
    ensures WellFormed(w') && Extends(w, w') && w'.ops == w.ops
    ensures w' == w.(heap := w.heap[h := w.heap[h].(cols := w.heap[h].cols[name := v])])
  {
    var w' := w.(heap := w.heap[h := w.heap[h].(cols := w.heap[h].cols[name := v])]);
    assert ListsTyped(w') by {
      forall g, n | g in w'.heap && n in w'.heap[g].lists
        ensures n in ListRelations(w'.heap[g].ty) &&
          forall i :: 0 <= i < |w'.heap[g].lists[n]| ==>
            w'.heap[g].lists[n][i] in w'.heap &&
            w'.heap[w'.heap[g].lists[n][i]].ty == ListRelations(w'.heap[g].ty)[n]
      {
        assert w'.heap[g].lists == w.heap[g].lists;
      }
    }
    w'
  }

  /** Whether c may be appended to relation name of h without breaking WellFormed. */
  ghost predicate CanAppend(w: World, h: Handle, name: string, c: Handle) {
    h in w.heap && c in w.heap && name in ListRelations(w.heap[h].ty) &&
    w.heap[c].ty == ListRelations(w.heap[h].ty)[name]
  }

  /** getattr(instance, name).append(c) on a to-many relation. */
  function AppendTo(w: World, h: Handle, name: string, c: Handle): (w': World)
    requires WellFormed(w) && CanAppend(w, h, name, c)
    ensures WellFormed(w') && Extends(w, w') && w'.ops == w.ops
    ensures w' == w.(heap := w.heap[h := w.heap[h].(lists := w.heap[h].lists[name := ListOf(w.heap[h], name) + [c]])])
  {
    var e := w.heap[h];
    var w' := w.(heap := w.heap[h := e.(lists := e.lists[name := ListOf(e, name) + [c]])]);
    assert ListsTyped(w') by {
      forall g, n | g in w'.heap && n in w'.heap[g].lists
        ensures n in ListRelations(w'.heap[g].ty) &&
          forall i :: 0 <= i < |w'.heap[g].lists[n]| ==>
            w'.heap[g].lists[n][i] in w'.heap &&
            w'.heap[w'.heap[g].lists[n][i]].ty == ListRelations(w'.heap[g].ty)[n]
      {
        if g == h && n == name {
          forall i | 0 <= i < |w'.heap[g].lists[n]|
            ensures w'.heap[g].lists[n][i] in w'.heap &&
              w'.heap[w'.heap[g].lists[n][i]].ty == ListRelations(w'.heap[g].ty)[n]
          {
            if i < |ListOf(e, name)| { assert w'.heap[g].lists[n][i] == e.lists[name][i]; }
          }
        } else {
          assert w'.heap[g].lists[n] == w.heap[g].lists[n];
        }
      }
    }
    w'
  }

  /** Session calls (add, delete, flush, commit) appended to the unit of work. */
  function Log(w: World, ops: seq<SessionOp>): (w': World)
    ensures w' == w.(ops := w.ops + ops)
    ensures WellFormed(w) ==> WellFormed(w') && Extends(w, w')
  {
    var w' := w.(ops := w.ops + ops);
    assert WellFormed(w) ==> WellFormed(w') by {
      assert w'.heap == w.heap;
    }
    w'
  }

  /** db.session.commit() when commit is set. */
  function CommitOps(commit: bool): seq<SessionOp> {
    if commit then [Committed] else []
  }

  /** Flask-SQLAlchemy's `db`: the instances in memory, the persisted rows query.get
      finds, and db.session. */
  class Db {
    var heap: map<Handle, Entity>
    var index: map<(TypeName, int), Handle>
    var ops: seq<SessionOp>
    var next: Handle

    function State(): World
      reads this
    {
      World(heap, index, ops, next)
    }

    ghost predicate Valid()
      reads this
    {
      WellFormed(State())
    }

    constructor (w: World)
      requires WellFormed(w)
      ensures State() == w && Valid()
    {
      heap, index, ops, next := w.heap, w.index, w.ops, w.next;
    }

    /** mapper_class.query.get(id) */
    method Get(t: TypeName, id: Doc) returns (r: Option<Handle>)
      requires Valid()
      ensures r == Lookup(State(), t, id)
    {
      if id.Scalar? && id.v.VInt? && (t, id.v.i) in index {
        r := Some(index[(t, id.v.i)]);
      } else {
        r := None;
      }
    }

    /** mapper_class() */
    method Instantiate(t: TypeName) returns (h: Handle)
      requires Valid()
      modifies this
      ensures Valid()
      ensures (h, State()) == Allocate(old(State()), t)
    {
      ghost var r := Allocate(State(), t);
      h := next;
      heap := heap[h := NewEntity(t)];
      next := next + 1;
    }

    /** setattr(instance, name, v) */
    method SetAttr(h: Handle, name: string, v: Doc)
      requires Valid() && h in heap
      modifies this
      ensures Valid()
      ensures State() == SetColumn(old(State()), h, name, v)
    {
      ghost var w' := SetColumn(State(), h, name, v);
      heap := heap[h := heap[h].(cols := heap[h].cols[name := v])];
    }

    /** getattr(instance, name).append(c) */
    method Append(h: Handle, name: string, c: Handle)
      requires Valid() && CanAppend(State(), h, name, c)
      modifies this
      ensures Valid()
      ensures State() == AppendTo(old(State()), h, name, c)
    {
      ghost var w' := AppendTo(State(), h, name, c);
      heap := heap[h := heap[h].(lists := heap[h].lists[name := ListOf(heap[h], name) + [c]])];
    }

    /** db.session.add(h), db.session.delete(h), flush(), commit() */
    method Record(op: SessionOp)
      requires Valid()
      modifies this
      ensures Valid()
      ensures State() == Log(old(State()), [op])
    {
      ops := ops + [op];
    }

    /** db.session.flush(), then db.session.commit() if commit is set. */
    method FlushAndCommit(commit: bool)
      requires Valid()
      modifies this
      ensures Valid()
      ensures State() == Log(old(State()), [Flushed] + CommitOps(commit))
    {
      ops := ops + [Flushed] + CommitOps(commit);
    }
  }
}
