/** The situations of tests/test.py on the fixtures of tests/fixtures.py: Things 1 and 2
    owned by user 1 and Thing 3 owned by user 2, the logged-in principal being user 1.
    Each lemma states what sync_object does with a test's payload. */
module Scenarios {
  import opened Values
  import opened Models
  import opened Store
  import opened Unflatten
  import opened Minisync

  function ThingRow(id: int, owner: int, description: string): Entity {
    Entity(Thing, map["id" := Scalar(VInt(id)), "user_id" := Scalar(VInt(owner)),
                      "description" := Scalar(VStr(description))],
           map["children" := []])
  }

  /** The installed Things, under handles 0 to 2, with an empty session. */
  function Fixtures(): (w: World)
    ensures WellFormed(w)
  {
    var w := World(
      map[0 := ThingRow(1, 1, "Foo"), 1 := ThingRow(2, 1, "Bar"), 2 := ThingRow(3, 2, "Baz")],
      map[(Thing, 1) := 0, (Thing, 2) := 1, (Thing, 3) := 2],
      [], 3);
    assert w.heap[0].lists == w.heap[1].lists == w.heap[2].lists == map["children" := []];
    ThingsOnly(w);
    w
  }

  /** A store holding only Things with no children, indexed as Things, is well formed. */
  lemma ThingsOnly(w: World)
    requires forall h | h in w.heap :: h < w.next && w.heap[h].ty == Thing && w.heap[h].lists == map["children" := []]
    requires forall k | k in w.index :: k.0 == Thing && w.index[k] in w.heap
    ensures WellFormed(w)
  {
    assert ListsTyped(w) by {
      forall h, n | h in w.heap && n in w.heap[h].lists
        ensures n in ListRelations(w.heap[h].ty) && w.heap[h].lists[n] == []
      {
      }
    }
  }

  function Int(i: int): Doc { Scalar(VInt(i)) }
  function Str(s: string): Doc { Scalar(VStr(s)) }

  // ---- one key of the resolver loop at a time ----

  /** A key naming a column other than the id is written, and the loop goes on. */
  lemma ColumnStep(w: World, h: Handle, d: Doc, i: nat)
    requires WellFormed(w) && h in w.heap && d.Dict? && i < |d.entries|
    requires d.entries[i].0 != IdCol && d.entries[i].0 in Columns(w.heap[h].ty)
    ensures ResolveEntriesOutcome(w, h, d, i) == ResolveEntriesOutcome(SetColumn(w, h, d.entries[i].0, d.entries[i].1), h, d, i + 1)
  {
  }

  /** The id key is passed over. */
  lemma IdStep(w: World, h: Handle, d: Doc, i: nat)
    requires WellFormed(w) && h in w.heap && d.Dict? && i < |d.entries| && d.entries[i].0 == IdCol
    ensures ResolveEntriesOutcome(w, h, d, i) == ResolveEntriesOutcome(w, h, d, i + 1)
  {
    IdNeverWritten(w, h, d.entries[i].1);
  }

  /** The loop ends after the last key. */
  lemma EndStep(w: World, h: Handle, d: Doc)
    requires WellFormed(w) && h in w.heap && d.Dict?
    ensures ResolveEntriesOutcome(w, h, d, |d.entries|) == (Ok(()), w)
  {
  }

  /** Two column keys in a row set both columns and nothing else. */
  lemma TwoColumns(w: World, h: Handle, d: Doc, i: nat)
    requires WellFormed(w) && h in w.heap && d.Dict? && i + 2 == |d.entries|
    requires d.entries[i].0 != IdCol && d.entries[i].0 in Columns(w.heap[h].ty)
    requires d.entries[i + 1].0 != IdCol && d.entries[i + 1].0 in Columns(w.heap[h].ty)
    requires d.entries[i].0 != d.entries[i + 1].0
    ensures var o := ResolveEntriesOutcome(w, h, d, i);
      o.0 == Ok(()) && o.1.ops == w.ops && h in o.1.heap && o.1.heap[h].ty == w.heap[h].ty &&
      ColumnOf(o.1.heap[h].cols, d.entries[i].0) == d.entries[i].1 &&
      ColumnOf(o.1.heap[h].cols, d.entries[i + 1].0) == d.entries[i + 1].1
  {
    var w1 := SetColumn(w, h, d.entries[i].0, d.entries[i].1);
    ColumnStep(w, h, d, i);
    ColumnStep(w1, h, d, i + 1);
  }

  /** Two distinct keys without a dot come out of unflatten unchanged. */
  lemma Dotless2(k1: string, v1: Doc, k2: string, v2: Doc)
    requires '.' !in k1 && '.' !in k2 && k1 != k2
    ensures Unflattened([(k1, v1), (k2, v2)]) == Ok([(k1, v1), (k2, v2)])
  {
    UnflattenDotless([(k1, v1), (k2, v2)]);
  }

  /** Three distinct keys without a dot come out of unflatten unchanged. */
  lemma Dotless3(k1: string, v1: Doc, k2: string, v2: Doc, k3: string, v3: Doc)
    requires '.' !in k1 && '.' !in k2 && '.' !in k3 && k1 != k2 && k1 != k3 && k2 != k3
    ensures Unflattened([(k1, v1), (k2, v2), (k3, v3)]) == Ok([(k1, v1), (k2, v2), (k3, v3)])
  {
    UnflattenDotless([(k1, v1), (k2, v2), (k3, v3)]);
  }

  /** A key named by neither of two entries is absent. */
  lemma Absent2(k1: string, v1: Doc, k2: string, v2: Doc, k: string)
    requires k != k1 && k != k2
    ensures GetOrNone([(k1, v1), (k2, v2)], k) == Scalar(VNone)
  {
    assert k !in Keys([(k1, v1), (k2, v2)]);
  }

  /** A key named by none of three entries is absent. */
  lemma Absent3(k1: string, v1: Doc, k2: string, v2: Doc, k3: string, v3: Doc, k: string)
    requires k != k1 && k != k2 && k != k3
    ensures GetOrNone([(k1, v1), (k2, v2), (k3, v3)], k) == Scalar(VNone)
  {
    assert k !in Keys([(k1, v1), (k2, v2), (k3, v3)]);
  }

  /** The second of three entries is found by its key when the first has another. */
  lemma Second3(k1: string, v1: Doc, k2: string, v2: Doc, k3: string, v3: Doc)
    requires k1 != k2
    ensures Get([(k1, v1), (k2, v2), (k3, v3)], k2) == Some(v2)
  {
    assert [(k1, v1), (k2, v2), (k3, v3)][1..] == [(k2, v2), (k3, v3)];
    assert Find([(k2, v2), (k3, v3)], k2) == Some(0);
    assert Find([(k1, v1), (k2, v2), (k3, v3)], k2) == Some(1);
  }

  lemma CommitTrue(ops: seq<SessionOp>, x: SessionOp)
    ensures ops + [x, Flushed] + CommitOps(true) == ops + [x, Flushed, Committed]
  {
  }

  // ---- the paths of sync_object the tests take, for any document of their shape ----

  /** A create whose document is two distinct non-id columns: the next handle, added,
      flushed and committed, with both columns set. */
  lemma CreateWithColumns(w: World, t: TypeName, es: seq<(string, Doc)>, user: Principal)
    requires WellFormed(w) && |es| == 2 && Unflattened(es) == Ok(es) && ExistingRecord(w, t, es, "id").None?
    requires PermitCreate(t, es, user) == Ok(true)
    requires es[0].0 != IdCol && es[0].0 in Columns(t) && es[1].0 != IdCol && es[1].0 in Columns(t) && es[0].0 != es[1].0
    ensures var o := SyncOutcome(w, t, es, false, "id", true, user);
      o.0 == Ok(Record(w.next)) && o.1.ops == w.ops + [Staged(w.next), Flushed, Committed] &&
      w.next in o.1.heap && o.1.heap[w.next].ty == t &&
      ColumnOf(o.1.heap[w.next].cols, es[0].0) == es[0].1 && ColumnOf(o.1.heap[w.next].cols, es[1].0) == es[1].1
  {
    var (h, w1) := Allocate(w, t);
    var w2 := Log(w1, [Staged(h)]);
    TwoColumns(w2, h, Dict(es), 0);
    CommitTrue(w.ops, Staged(w.next));
  }

  /** A create that permit_create answers with False: PermissionException, nothing changed. */
  lemma CreateDenied(w: World, t: TypeName, es: seq<(string, Doc)>, user: Principal)
    requires WellFormed(w) && Unflattened(es) == Ok(es) && ExistingRecord(w, t, es, "id").None?
    requires PermitCreate(t, es, user) == Ok(false)
    ensures SyncOutcome(w, t, es, false, "id", true, user) == (Err(PermissionException), w)
  {
  }

  /** A permitted create whose first key names a to-many relation with a value that is not
      a dict: AttributeError, once the new instance has been added to the session. */
  lemma CreateWithListFails(w: World, t: TypeName, es: seq<(string, Doc)>, user: Principal)
    requires WellFormed(w) && es != [] && Unflattened(es) == Ok(es) && ExistingRecord(w, t, es, "id").None?
    requires PermitCreate(t, es, user) == Ok(true)
    requires es[0].0 in ListRelations(t) && !es[0].1.Dict?
    ensures var o := SyncOutcome(w, t, es, false, "id", true, user);
      o.0 == Err(AttributeError) && o.1.ops == w.ops + [Staged(w.next)]
  {
    var (h, w1) := Allocate(w, t);
    var w2 := Log(w1, [Staged(h)]);
    ResolveListRejects(w2, h, es[0].0, es[0].1);
    assert ResolveEntriesOutcome(w2, h, Dict(es), 0) == (Err(AttributeError), w2);
  }

  /** The update path of a document that unflattens to itself: permitted, its keys are
      resolved on the record, then flush and commit. */
  lemma UpdateRoute(w: World, t: TypeName, es: seq<(string, Doc)>, user: Principal, h: Handle)
    requires WellFormed(w) && Unflattened(es) == Ok(es) && ExistingRecord(w, t, es, "id") == Some(h)
    requires PermitUpdate(t, w.heap[h].cols, es, user) == Ok(true)
    ensures var (r, w') := ResolveEntriesOutcome(w, h, Dict(es), 0);
      SyncOutcome(w, t, es, false, "id", true, user) ==
        if r.Err? then (Err(r.error), w') else (Ok(Record(h)), Log(w', [Flushed, Committed]))
  {
  }

  /** A permitted update whose first key names a to-many relation with a value that is
      not a dict: AttributeError before anything is written, flushed or committed. */
  lemma UpdateWithListFails(w: World, t: TypeName, es: seq<(string, Doc)>, user: Principal, h: Handle)
    requires WellFormed(w) && es != [] && Unflattened(es) == Ok(es) && ExistingRecord(w, t, es, "id") == Some(h)
    requires PermitUpdate(t, w.heap[h].cols, es, user) == Ok(true)
    requires es[0].0 in ListRelations(t) && !es[0].1.Dict?
    ensures SyncOutcome(w, t, es, false, "id", true, user) == (Err(AttributeError), w)
  {
    UpdateRoute(w, t, es, user, h);
    ResolveListRejects(w, h, es[0].0, es[0].1);
    assert ResolveEntriesOutcome(w, h, Dict(es), 0) == (Err(AttributeError), w);
  }

  /** One non-id column, then the id: only the column is written. */
  lemma ColumnThenId(w: World, h: Handle, es: seq<(string, Doc)>)
    requires WellFormed(w) && h in w.heap && |es| == 2
    requires es[0].0 != IdCol && es[0].0 in Columns(w.heap[h].ty) && es[1].0 == IdCol
    ensures ResolveEntriesOutcome(w, h, Dict(es), 0) == (Ok(()), SetColumn(w, h, es[0].0, es[0].1))
  {
    var d := Dict(es);
    var w1 := SetColumn(w, h, es[0].0, es[0].1);
    ColumnStep(w, h, d, 0);
    IdStep(w1, h, d, 1);
    EndStep(w1, h, d);
  }

  /** Two non-id columns, then the id: only the columns are written, in order. */
  lemma ColumnsThenId(w: World, h: Handle, es: seq<(string, Doc)>)
    requires WellFormed(w) && h in w.heap && |es| == 3 && es[2].0 == IdCol
    requires es[0].0 != IdCol && es[0].0 in Columns(w.heap[h].ty)
    requires es[1].0 != IdCol && es[1].0 in Columns(w.heap[h].ty)
    ensures ResolveEntriesOutcome(w, h, Dict(es), 0) ==
      (Ok(()), SetColumn(SetColumn(w, h, es[0].0, es[0].1), h, es[1].0, es[1].1))
  {
    var d := Dict(es);
    var w1 := SetColumn(w, h, es[0].0, es[0].1);
    var w2 := SetColumn(w1, h, es[1].0, es[1].1);
    ColumnStep(w, h, d, 0);
    ColumnStep(w1, h, d, 1);
    IdStep(w2, h, d, 2);
    EndStep(w2, h, d);
  }

  /** An update whose document is one non-id column and the id: that column is set,
      nothing else of the record, then flushed and committed. */
  lemma UpdateOneColumn(w: World, t: TypeName, es: seq<(string, Doc)>, user: Principal, h: Handle)
    requires WellFormed(w) && |es| == 2 && Unflattened(es) == Ok(es) && ExistingRecord(w, t, es, "id") == Some(h)
    requires PermitUpdate(t, w.heap[h].cols, es, user) == Ok(true)
    requires es[0].0 != IdCol && es[0].0 in Columns(t) && es[1].0 == IdCol
    ensures var o := SyncOutcome(w, t, es, false, "id", true, user);
      o.0 == Ok(Record(h)) && o.1.ops == w.ops + [Flushed, Committed] && h in o.1.heap &&
      o.1.heap[h].cols == w.heap[h].cols[es[0].0 := es[0].1]
  {
    UpdateRoute(w, t, es, user, h);
    ColumnThenId(w, h, es);
  }

  /** An update whose document is two distinct non-id columns and the id: both are set
      in order, nothing else of the record, then flushed and committed. */
  lemma UpdateTwoColumns(w: World, t: TypeName, es: seq<(string, Doc)>, user: Principal, h: Handle)
    requires WellFormed(w) && |es| == 3 && Unflattened(es) == Ok(es) && ExistingRecord(w, t, es, "id") == Some(h)
    requires PermitUpdate(t, w.heap[h].cols, es, user) == Ok(true)
    requires es[0].0 != IdCol && es[0].0 in Columns(t) && es[1].0 != IdCol && es[1].0 in Columns(t)
    requires es[2].0 == IdCol
    ensures var o := SyncOutcome(w, t, es, false, "id", true, user);
      o.0 == Ok(Record(h)) && o.1.ops == w.ops + [Flushed, Committed] && h in o.1.heap &&
      o.1.heap[h].cols == w.heap[h].cols[es[0].0 := es[0].1][es[1].0 := es[1].1]
  {
    UpdateRoute(w, t, es, user, h);
    ColumnsThenId(w, h, es);
  }

  /** Thing id is stored and belongs to user owner. */
  ghost predicate OwnedThing(w: World, id: int, owner: int) {
    WellFormed(w) && (Thing, id) in w.index && ColumnOf(w.heap[w.index[(Thing, id)]].cols, "user_id") == Int(owner)
  }

  /** In the fixtures Things 1 and 2 belong to user 1 and Thing 3 to user 2. */
  lemma FixtureOwners()
    ensures OwnedThing(Fixtures(), 1, 1) && OwnedThing(Fixtures(), 2, 1) && OwnedThing(Fixtures(), 3, 2)
    ensures Fixtures().index[(Thing, 1)] == 0 && Fixtures().index[(Thing, 3)] == 2 && Fixtures().ops == []
  {
  }

  // ---- the tests ----
  // For each test, a ...Doc lemma gives the shape of its document and a ...Permit lemma
  // what the permission hook answers; the test's lemma combines them with a path above.

  lemma CreateDoc(w: World, uid: int, owner: int, desc: string)
    requires WellFormed(w)
    ensures var es := [("user_id", Int(owner)), ("description", Str(desc))];
      |es| == 2 && Unflattened(es) == Ok(es) && ExistingRecord(w, Thing, es, "id").None? &&
      es[0].0 != IdCol && es[0].0 in Columns(Thing) && es[1].0 != IdCol && es[1].0 in Columns(Thing) && es[0].0 != es[1].0
  {
    Dotless2("user_id", Int(owner), "description", Str(desc));
    Absent2("user_id", Int(owner), "description", Str(desc), "id");
  }

  lemma CreatePermit(w: World, uid: int, owner: int, desc: string)
    requires WellFormed(w)
    ensures var es := [("user_id", Int(owner)), ("description", Str(desc))];
      PermitCreate(Thing, es, Some(VInt(uid))) == Ok(uid == owner)
  {
  }

  /** test_create: a user creates a Thing of their own; it is added, flushed and
      committed under the next handle with the columns given. */
  lemma CreateOwnThing(w: World, uid: int, desc: string)
    requires WellFormed(w)
    ensures var o := SyncOutcome(w, Thing, [("user_id", Int(uid)), ("description", Str(desc))], false, "id", true,
      Some(VInt(uid)));
      o.0 == Ok(Record(w.next)) && o.1.ops == w.ops + [Staged(w.next), Flushed, Committed] &&
      w.next in o.1.heap && o.1.heap[w.next].ty == Thing && ColumnOf(o.1.heap[w.next].cols, "user_id") == Int(uid) &&
      ColumnOf(o.1.heap[w.next].cols, "description") == Str(desc)
  {
    CreateDoc(w, uid, uid, desc);
    CreatePermit(w, uid, uid, desc);
    CreateWithColumns(w, Thing, [("user_id", Int(uid)), ("description", Str(desc))], Some(VInt(uid)));
  }

  /** test_create_permission: a Thing for another user is refused by permit_create's
      False, which sync_object raises as PermissionException, before anything changes. */
  lemma CreateForOtherUserDenied(w: World, uid: int, other: int, desc: string)
    requires WellFormed(w) && other != uid
    ensures SyncOutcome(w, Thing, [("user_id", Int(other)), ("description", Str(desc))], false, "id", true,
      Some(VInt(uid))) == (Err(PermissionException), w)
  {
    CreateDoc(w, uid, other, desc);
    CreateDenied(w, Thing, [("user_id", Int(other)), ("description", Str(desc))], Some(VInt(uid)));
  }

  lemma UpdateDoc(w: World, id: int, uid: int, desc: string)
    requires WellFormed(w) && id != 0 && OwnedThing(w, id, uid)
    ensures var es := [("description", Str(desc)), ("id", Int(id))];
      var h := w.index[(Thing, id)];
      |es| == 2 && Unflattened(es) == Ok(es) && ExistingRecord(w, Thing, es, "id") == Some(h) &&
      es[0].0 != IdCol && es[0].0 in Columns(Thing) && es[1].0 == IdCol
  {
    Dotless2("description", Str(desc), "id", Int(id));
  }

  lemma UpdatePermit(w: World, id: int, uid: int, desc: string)
    requires WellFormed(w) && id != 0 && OwnedThing(w, id, uid)
    ensures var es := [("description", Str(desc)), ("id", Int(id))];
      var h := w.index[(Thing, id)];
      PermitUpdate(Thing, w.heap[h].cols, es, Some(VInt(uid))) == Ok(true)
  {
  }

  /** test_update: the owner rewrites the description of a Thing; the update is flushed
      and committed and the owner is unchanged. */
  lemma UpdateByOwner(w: World, id: int, uid: int, desc: string)
    requires WellFormed(w) && id != 0 && OwnedThing(w, id, uid)
    ensures var o := SyncOutcome(w, Thing, [("description", Str(desc)), ("id", Int(id))], false, "id", true,
      Some(VInt(uid)));
      var h := w.index[(Thing, id)];
      o.0 == Ok(Record(h)) && o.1.ops == w.ops + [Flushed, Committed] && h in o.1.heap &&
      o.1.heap[h].cols == w.heap[h].cols["description" := Str(desc)]
  {
    UpdateDoc(w, id, uid, desc);
    UpdatePermit(w, id, uid, desc);
    UpdateOneColumn(w, Thing, [("description", Str(desc)), ("id", Int(id))], Some(VInt(uid)), w.index[(Thing, id)]);
  }

  lemma ReassignDoc(w: World, id: int, uid: int, other: int, desc: string)
    requires WellFormed(w) && id != 0 && OwnedThing(w, id, uid)
    ensures var es := [("user_id", Int(other)), ("description", Str(desc)), ("id", Int(id))];
      var h := w.index[(Thing, id)];
      |es| == 3 && Unflattened(es) == Ok(es) && ExistingRecord(w, Thing, es, "id") == Some(h) &&
      es[0].0 != IdCol && es[0].0 in Columns(Thing) && es[1].0 != IdCol && es[1].0 in Columns(Thing) &&
      es[2].0 == IdCol
  {
    Dotless3("user_id", Int(other), "description", Str(desc), "id", Int(id));
  }

  lemma ReassignPermit(w: World, id: int, uid: int, other: int, desc: string)
    requires WellFormed(w) && id != 0 && OwnedThing(w, id, uid)
    ensures var es := [("user_id", Int(other)), ("description", Str(desc)), ("id", Int(id))];
      var h := w.index[(Thing, id)];
      PermitUpdate(Thing, w.heap[h].cols, es, Some(VInt(uid))) == Ok(true)
  {
  }

  /** test_update_permission: a document that hands the owner's Thing to another user is
      not refused: the owner is permitted, and user_id is an ordinary column, so the
      Thing changes hands. */
  lemma UpdateReassignsOwner(w: World, id: int, uid: int, other: int, desc: string)
    requires WellFormed(w) && id != 0 && OwnedThing(w, id, uid)
    ensures var o := SyncOutcome(w, Thing, [("user_id", Int(other)), ("description", Str(desc)), ("id", Int(id))],
      false, "id", true, Some(VInt(uid)));
      var h := w.index[(Thing, id)];
      o.0 == Ok(Record(h)) && h in o.1.heap &&
      o.1.heap[h].cols == w.heap[h].cols["user_id" := Int(other)]["description" := Str(desc)]
  {
    ReassignDoc(w, id, uid, other, desc);
    ReassignPermit(w, id, uid, other, desc);
    UpdateTwoColumns(w, Thing, [("user_id", Int(other)), ("description", Str(desc)), ("id", Int(id))],
      Some(VInt(uid)), w.index[(Thing, id)]);
  }

  lemma TakeOverDoc(w: World, id: int, owner: int, uid: int)
    requires WellFormed(w) && id != 0 && uid != 0 && OwnedThing(w, id, owner)
    ensures var es := [("user_id", Int(uid)), ("id", Int(id))];
      var h := w.index[(Thing, id)];
      |es| == 2 && Unflattened(es) == Ok(es) && ExistingRecord(w, Thing, es, "id") == Some(h) &&
      es[0].0 != IdCol && es[0].0 in Columns(Thing) && es[1].0 == IdCol
  {
    Dotless2("user_id", Int(uid), "id", Int(id));
  }

  lemma TakeOverPermit(w: World, id: int, owner: int, uid: int)
    requires WellFormed(w) && id != 0 && uid != 0 && OwnedThing(w, id, owner)
    ensures var es := [("user_id", Int(uid)), ("id", Int(id))];
      var h := w.index[(Thing, id)];
      PermitUpdate(Thing, w.heap[h].cols, es, Some(VInt(uid))) == Ok(true)
  {
  }

  /** Any user may take over a Thing of another: permit_update also accepts any document
      with a truthy user_id. */
  lemma TakeOverByDocument(w: World, id: int, owner: int, uid: int)
    requires WellFormed(w) && id != 0 && uid != 0 && OwnedThing(w, id, owner)
    ensures var o := SyncOutcome(w, Thing, [("user_id", Int(uid)), ("id", Int(id))], false, "id", true, Some(VInt(uid)));
      var h := w.index[(Thing, id)];
      o.0 == Ok(Record(h)) && h in o.1.heap && o.1.heap[h].cols == w.heap[h].cols["user_id" := Int(uid)]
  {
    TakeOverDoc(w, id, owner, uid);
    TakeOverPermit(w, id, owner, uid);
    UpdateOneColumn(w, Thing, [("user_id", Int(uid)), ("id", Int(id))], Some(VInt(uid)), w.index[(Thing, id)]);
  }

  lemma ParentDoc(w: World, uid: int, kids: seq<Doc>, desc: string)
    requires WellFormed(w)
    ensures var es := [("children", List(kids)), ("user_id", Int(uid)), ("description", Str(desc))];
      es != [] && Unflattened(es) == Ok(es) && ExistingRecord(w, Thing, es, "id").None? &&
      es[0].0 in ListRelations(Thing) && !es[0].1.Dict?
  {
    Dotless3("children", List(kids), "user_id", Int(uid), "description", Str(desc));
    Absent3("children", List(kids), "user_id", Int(uid), "description", Str(desc), "id");
  }

  lemma ParentPermit(w: World, uid: int, kids: seq<Doc>, desc: string)
    requires WellFormed(w)
    ensures var es := [("children", List(kids)), ("user_id", Int(uid)), ("description", Str(desc))];
      PermitCreate(Thing, es, Some(VInt(uid))) == Ok(true)
  {
    Second3("children", List(kids), "user_id", Int(uid), "description", Str(desc));
  }

  /** test_parent_create: minisync takes a to-many relation as a dict of indices, so a
      list of children raises AttributeError (a list has no keys()); the new Thing has
      been added to the session, but nothing is flushed. */
  lemma ParentCreateWithListFails(w: World, uid: int, kids: seq<Doc>, desc: string)
    requires WellFormed(w)
    ensures var o := SyncOutcome(w, Thing, [("children", List(kids)), ("user_id", Int(uid)), ("description", Str(desc))],
      false, "id", true, Some(VInt(uid)));
      o.0 == Err(AttributeError) && o.1.ops == w.ops + [Staged(w.next)]
  {
    ParentDoc(w, uid, kids, desc);
    ParentPermit(w, uid, kids, desc);
    CreateWithListFails(w, Thing, [("children", List(kids)), ("user_id", Int(uid)), ("description", Str(desc))],
      Some(VInt(uid)));
  }

  lemma ChildDoc(w: World, uid: int, parent: int, desc: string)
    requires WellFormed(w)
    ensures var es := [("description", Str(desc)), ("parent_id", Int(parent))];
      |es| == 2 && Unflattened(es) == Ok(es) && ExistingRecord(w, ChildThing, es, "id").None? &&
      es[0].0 != IdCol && es[0].0 in Columns(ChildThing) && es[1].0 != IdCol && es[1].0 in Columns(ChildThing) &&
      es[0].0 != es[1].0
  {
    Dotless2("description", Str(desc), "parent_id", Int(parent));
    Absent2("description", Str(desc), "parent_id", Int(parent), "id");
  }

  lemma ChildPermit(w: World, uid: int, parent: int, desc: string)
    requires WellFormed(w)
    ensures var es := [("description", Str(desc)), ("parent_id", Int(parent))];
      PermitCreate(ChildThing, es, Some(VInt(uid))) == Ok(true)
  {
  }

  /** test_bad_association: a ChildThing pointing through parent_id at a Thing of another
      user is created: ChildThing.permit_create always holds and the foreign key is an
      ordinary column. */
  lemma ForeignKeyNotChecked(w: World, uid: int, parent: int, desc: string)
    requires WellFormed(w)
    ensures var o := SyncOutcome(w, ChildThing, [("description", Str(desc)), ("parent_id", Int(parent))],
      false, "id", true, Some(VInt(uid)));
      o.0 == Ok(Record(w.next)) && w.next in o.1.heap && o.1.heap[w.next].ty == ChildThing &&
      ColumnOf(o.1.heap[w.next].cols, "parent_id") == Int(parent)
  {
    ChildDoc(w, uid, parent, desc);
    ChildPermit(w, uid, parent, desc);
    CreateWithColumns(w, ChildThing, [("description", Str(desc)), ("parent_id", Int(parent))], Some(VInt(uid)));
  }

  lemma ChildrenDoc(w: World, id: int, uid: int, kids: seq<Doc>)
    requires WellFormed(w) && id != 0 && OwnedThing(w, id, uid)
    ensures var es := [("children", List(kids)), ("id", Int(id))];
      es != [] && Unflattened(es) == Ok(es) && ExistingRecord(w, Thing, es, "id") == Some(w.index[(Thing, id)]) &&
      es[0].0 in ListRelations(Thing) && !es[0].1.Dict?
  {
    Dotless2("children", List(kids), "id", Int(id));
  }

  lemma ChildrenPermit(w: World, id: int, uid: int, kids: seq<Doc>)
    requires WellFormed(w) && id != 0 && OwnedThing(w, id, uid)
    ensures var es := [("children", List(kids)), ("id", Int(id))];
      PermitUpdate(Thing, w.heap[w.index[(Thing, id)]].cols, es, Some(VInt(uid))) == Ok(true)
  {
  }

  /** test_associate_existing and the second call of test_parent_update: children given
      to an existing Thing as a list raise AttributeError, and the store, the Thing's
      children and the session are left as they were. */
  lemma UpdateChildrenListFails(w: World, id: int, uid: int, kids: seq<Doc>)
    requires WellFormed(w) && id != 0 && OwnedThing(w, id, uid)
    ensures SyncOutcome(w, Thing, [("children", List(kids)), ("id", Int(id))], false, "id", true, Some(VInt(uid)))
      == (Err(AttributeError), w)
  {
    ChildrenDoc(w, id, uid, kids);
    ChildrenPermit(w, id, uid, kids);
    UpdateWithListFails(w, Thing, [("children", List(kids)), ("id", Int(id))], Some(VInt(uid)), w.index[(Thing, id)]);
  }
}
