/** The newer generation, crudad.Crudad: resolves a change document field by field
    against the root instance (get-or-create, terminal updates gated by permit_update
    and __allow_update__, idempotent association of list items), then flushes and,
    when asked, commits.

    Each operation is given twice: a function on World that says what it does (the
    `...Outcome` functions, which return the result together with the store after the
    call, since a failure leaves earlier mutations in place), and the method of class
    Crudad that does it through db, proved to agree with that function. */
module Crudad {
  import opened Values
  import opened Models
  import opened Store

  /** Between ops and ops' only db.session.add calls were made. */
  ghost predicate OnlyStaged(ops: seq<SessionOp>, ops': seq<SessionOp>) {
    |ops| <= |ops'| && ops'[..|ops|] == ops &&
    forall i :: |ops| <= i < |ops'| ==> ops'[i].Staged?
  }

  lemma NoOps(ops: seq<SessionOp>)
    ensures OnlyStaged(ops, ops)
  {
    assert ops[..|ops|] == ops;
  }

  lemma OnlyStagedTrans(a: seq<SessionOp>, b: seq<SessionOp>, c: seq<SessionOp>)
    requires OnlyStaged(a, b) && OnlyStaged(b, c)
    ensures OnlyStaged(a, c)
  {
    assert c[..|a|] == c[..|b|][..|a|];
  }

  predicate NoDup(s: seq<Handle>) {
    forall i, j :: 0 <= i < j < |s| ==> s[i] != s[j]
  }

  predicate IsPrefix(a: seq<Handle>, b: seq<Handle>) {
    |a| <= |b| && b[..|a|] == a
  }

  /** Only h changed among the instances of w, and what was instantiated since is bare. */
  ghost predicate Framed(w: World, w': World, h: Handle) {
    (forall g :: g in w.heap && g != h ==> g in w'.heap && w'.heap[g] == w.heap[g]) &&
    (forall g :: g in w'.heap && g !in w.heap ==> w'.heap[g] == NewEntity(w'.heap[g].ty))
  }

  /** Every list of h only grew at its end, without gaining a duplicate. */
  ghost predicate ListsGrow(w: World, w': World, h: Handle)
    requires h in w.heap && h in w'.heap
  {
    forall n ::
      IsPrefix(ListOf(w.heap[h], n), ListOf(w'.heap[h], n)) &&
      (NoDup(ListOf(w.heap[h], n)) ==> NoDup(ListOf(w'.heap[h], n)))
  }

  lemma StepTrans(w1: World, w2: World, w3: World, h: Handle)
    requires Extends(w1, w2) && Extends(w2, w3) && h in w1.heap
    requires Framed(w1, w2, h) && Framed(w2, w3, h)
    requires ListsGrow(w1, w2, h) && ListsGrow(w2, w3, h)
    ensures Extends(w1, w3) && Framed(w1, w3, h) && ListsGrow(w1, w3, h)
  {
    forall n ensures IsPrefix(ListOf(w1.heap[h], n), ListOf(w3.heap[h], n)) {
      var a, b, c := ListOf(w1.heap[h], n), ListOf(w2.heap[h], n), ListOf(w3.heap[h], n);
      assert c[..|a|] == c[..|b|][..|a|];
    }
  }

  // ---- _create ----

  /** _create: permit_create must hold; then one new instance is staged. */
  function CreateOutcome(w: World, t: TypeName, doc: seq<(string, Doc)>, user: Principal): (o: (Result<Handle>, World))
    requires WellFormed(w)
    ensures WellFormed(o.1) && Extends(w, o.1)
    ensures o.0.Ok? <==> PermitCreate(t, doc, user) == Ok(true)
    ensures o.0.Err? ==> o.1 == w && o.0.error == Check(PermitCreate(t, doc, user), PermissionError).error
    ensures o.0.Ok? ==> (o.0.value == w.next && o.0.value !in w.heap &&
      o.1 == w.(heap := w.heap[w.next := NewEntity(t)], ops := w.ops + [Staged(w.next)], next := w.next + 1))
  {
    match Check(PermitCreate(t, doc, user), PermissionError)
    case Err(e) => (Err(e), w)
    case Ok(_) =>
      var (h, w1) := Allocate(w, t);
      (Ok(h), Log(w1, [Staged(h)]))
  }

  // ---- _getOrCreateMapperObj ----

  /** The instance a document names: with the id key present, the stored instance for
      a truthy known id and None otherwise, never creating; without it, a new staged
      instance once permit_create holds. */
  function GetOrCreateOutcome(w: World, t: TypeName, doc: Doc, user: Principal, idCol: string)
    : (o: (Result<Option<Handle>>, World))
    requires WellFormed(w)
    ensures WellFormed(o.1) && Extends(w, o.1) && Framed(w, o.1, w.next) && OnlyStaged(w.ops, o.1.ops)
    ensures o.0.Ok? && o.0.value.Some? ==> o.0.value.value in o.1.heap && o.1.heap[o.0.value.value].ty == t
    ensures !doc.Dict? ==> o == (Err(AttributeError), w)
    ensures doc.Dict? && idCol in Keys(doc.entries) ==>
      o.1 == w &&
      o.0 == Ok(if Truthy(GetOrNone(doc.entries, idCol)) then Lookup(w, t, GetOrNone(doc.entries, idCol)) else None)
    ensures doc.Dict? && idCol !in Keys(doc.entries) ==>
      if PermitCreate(t, doc.entries, user) == Ok(true) then
        o.0 == Ok(Some(w.next)) && w.next !in w.heap &&
        o.1 == w.(heap := w.heap[w.next := NewEntity(t)], ops := w.ops + [Staged(w.next)], next := w.next + 1)
      else
        o.1 == w && o.0 == Err(Check(PermitCreate(t, doc.entries, user), PermissionError).error)
  {
    if !doc.Dict? then (Err(AttributeError), w)
    else if idCol in Keys(doc.entries) then
      var existingId := GetOrNone(doc.entries, idCol);
      (Ok(if Truthy(existingId) then Lookup(w, t, existingId) else None), w)
    else
      match Check(PermitCreate(t, doc.entries, user), PermissionError)
      case Err(e) => (Err(e), w)
      case Ok(_) =>
        var (r, w1) := CreateOutcome(w, t, doc.entries, user);
        assert w1.ops == w.ops + [Staged(w.next)];
        (Ok(Some(r.value)), w1)
  }

  // ---- _update ----

  /** _update: the field changes, and nothing else, exactly when permit_update({field: val})
      holds and the field is in __allow_update__; otherwise PermissionError (or the
      hook's own exception), and nothing changes. */
  function UpdateOutcome(w: World, h: Handle, field: string, val: Doc, user: Principal): (o: (Result<()>, World))
    requires WellFormed(w) && h in w.heap
    ensures WellFormed(o.1) && Extends(w, o.1) && o.1.ops == w.ops
    ensures o.0.Ok? <==>
      PermitUpdate(w.heap[h].ty, w.heap[h].cols, [(field, val)], user) == Ok(true) &&
      field in AllowUpdate(w.heap[h].ty)
    ensures o.0.Ok? ==> o.1.heap == w.heap[h := w.heap[h].(cols := w.heap[h].cols[field := val])]
    ensures o.0.Err? ==> o.1 == w
    ensures o.0.Err? && PermitUpdate(w.heap[h].ty, w.heap[h].cols, [(field, val)], user).Err? ==>
      o.0.error == PermitUpdate(w.heap[h].ty, w.heap[h].cols, [(field, val)], user).error
    ensures o.0.Err? && PermitUpdate(w.heap[h].ty, w.heap[h].cols, [(field, val)], user).Ok? ==>
      o.0.error == PermissionError
  {
    var e := w.heap[h];
    match Check(PermitUpdate(e.ty, e.cols, [(field, val)], user), PermissionError)
    case Err(err) => (Err(err), w)
    case Ok(_) =>
      if field !in AllowUpdate(e.ty) then (Err(PermissionError), w)
      else (Ok(()), SetColumn(w, h, field, val))
  }

  // ---- _associate ----

  /** Whether child may be passed to _associate for relation name of parent. */
  ghost predicate AssociateArgs(w: World, parent: Handle, name: string, child: Option<Handle>) {
    parent in w.heap && name in ListRelations(w.heap[parent].ty) &&
    (child.Some? ==> child.value in w.heap && w.heap[child.value].ty == ListRelations(w.heap[parent].ty)[name])
  }

  /** _associate: PermissionError unless the child exists, has permit_associate and that
      check holds; then the child is appended and staged, unless already a member. */
  function AssociateOutcome(w: World, parent: Handle, name: string, child: Option<Handle>, doc: Doc, user: Principal)
    : (o: (Result<()>, World))
    requires WellFormed(w) && AssociateArgs(w, parent, name, child)
    ensures WellFormed(o.1) && Extends(w, o.1)
    ensures o.0.Ok? <==>
      child.Some? && HasPermitAssociate(w.heap[child.value].ty) &&
      PermitAssociate(w.heap[child.value].ty, w.heap[parent].ty, doc, user) == Ok(true)
    ensures o.0.Err? ==> o.1 == w
    ensures child.None? || !HasPermitAssociate(w.heap[child.value].ty) ==> o.0 == Err(PermissionError)
    ensures o.0.Ok? && child.value in ListOf(w.heap[parent], name) ==> o.1 == w
    ensures o.0.Ok? && child.value !in ListOf(w.heap[parent], name) ==>
      o.1 == Log(AppendTo(w, parent, name, child.value), [Staged(child.value)])
  {
    if child.None? || !HasPermitAssociate(w.heap[child.value].ty) then (Err(PermissionError), w)
    else
      var c := child.value;
      match Check(PermitAssociate(w.heap[c].ty, w.heap[parent].ty, doc, user), PermissionError)
      case Err(e) => (Err(e), w)
      case Ok(_) =>
        if c in ListOf(w.heap[parent], name) then (Ok(()), w)
        else (Ok(()), Log(AppendTo(w, parent, name, c), [Staged(c)]))
  }

  /** Associating a child twice leaves the list and the session as the first time did. */
  lemma AssociateIdempotent(w: World, parent: Handle, name: string, child: Option<Handle>, doc: Doc, user: Principal)
    requires WellFormed(w) && AssociateArgs(w, parent, name, child)
    requires AssociateOutcome(w, parent, name, child, doc, user).0.Ok?
    ensures var w1 := AssociateOutcome(w, parent, name, child, doc, user).1;
      AssociateArgs(w1, parent, name, child) &&
      AssociateOutcome(w1, parent, name, child, doc, user) == (Ok(()), w1)
  {
    var w1 := AssociateOutcome(w, parent, name, child, doc, user).1;
    assert child.value in ListOf(w1.heap[parent], name);
  }

  /** A successful association keeps the old list as a prefix and adds at most the
      child, so a list without duplicates keeps none. */
  lemma AssociateGrows(w: World, parent: Handle, name: string, child: Option<Handle>, doc: Doc, user: Principal)
    requires WellFormed(w) && AssociateArgs(w, parent, name, child)
    ensures var o := AssociateOutcome(w, parent, name, child, doc, user);
      parent in o.1.heap && Framed(w, o.1, parent) && ListsGrow(w, o.1, parent) &&
      o.1.heap[parent].cols == w.heap[parent].cols && OnlyStaged(w.ops, o.1.ops)
  {
    var o := AssociateOutcome(w, parent, name, child, doc, user);
    if o.1 == w {
      SameListsGrow(w, w, parent);
    } else {
      AppendGrows(w, parent, name, child.value);
    }
  }

  /** Appending a non-member c to one list of h and staging it. */
  lemma AppendGrows(w: World, h: Handle, name: string, c: Handle)
    requires WellFormed(w) && CanAppend(w, h, name, c) && c !in ListOf(w.heap[h], name)
    ensures var w' := Log(AppendTo(w, h, name, c), [Staged(c)]);
      Framed(w, w', h) && ListsGrow(w, w', h) && w'.heap[h].cols == w.heap[h].cols && OnlyStaged(w.ops, w'.ops)
  {
    var w' := Log(AppendTo(w, h, name, c), [Staged(c)]);
    var old_ := ListOf(w.heap[h], name);
    assert ListOf(w'.heap[h], name) == old_ + [c];
    assert (old_ + [c])[..|old_|] == old_;
    forall n ensures IsPrefix(ListOf(w.heap[h], n), ListOf(w'.heap[h], n)) &&
        (NoDup(ListOf(w.heap[h], n)) ==> NoDup(ListOf(w'.heap[h], n)))
    {
      if n == name {
        assert forall i :: 0 <= i < |old_| ==> old_[i] != c;
      } else {
        assert ListOf(w'.heap[h], n) == ListOf(w.heap[h], n);
        SamePrefix(ListOf(w.heap[h], n));
      }
    }
  }

  lemma SamePrefix(a: seq<Handle>)
    ensures IsPrefix(a, a)
  {
    assert a[..|a|] == a;
  }

  /** Lists that did not change grew trivially. */
  lemma SameListsGrow(w: World, w': World, h: Handle)
    requires h in w.heap && h in w'.heap && w'.heap[h].lists == w.heap[h].lists
    ensures ListsGrow(w, w', h)
  {
    forall n ensures IsPrefix(ListOf(w.heap[h], n), ListOf(w'.heap[h], n)) {
      SamePrefix(ListOf(w.heap[h], n));
    }
  }

  // ---- _disassociate ----

  /** _disassociate as written: it tests hasattr on the child but calls the hook on the
      parent, passing the child as the hook's `parent`. It never changes membership. */
  function DisassociateAsWritten(w: World, parent: Handle, child: Option<Handle>, user: Principal): (r: Result<()>)
    requires WellFormed(w) && parent in w.heap && (child.Some? ==> child.value in w.heap)
    ensures child.None? ==> r == Err(PermissionError)
    ensures child.Some? && w.heap[child.value].ty == ChildThing && w.heap[parent].ty == Thing ==> r == Err(AttributeError)
  {
    if child.None? || !HasPermitDisassociate(w.heap[child.value].ty) then Err(PermissionError)
    else
      var p, c := w.heap[parent], w.heap[child.value];
      Check(PermitDisassociate(p.ty, c.ty, c.cols, user), PermissionError)
  }

  /** With the hooks of the model classes, _disassociate as written never succeeds. */
  lemma DisassociateAsWrittenNeverSucceeds(w: World, parent: Handle, child: Option<Handle>, user: Principal)
    requires WellFormed(w) && parent in w.heap && (child.Some? ==> child.value in w.heap)
    ensures DisassociateAsWritten(w, parent, child, user).Err?
  {
  }

  /** A Thing owned by user 1 and a ChildThing: the child's own hook allows the
      disassociation, yet _disassociate as written raises AttributeError. */
  lemma DisassociateCounterexample()
    ensures var w := World(map[0 := Entity(Thing, map["id" := Scalar(VInt(1)), "user_id" := Scalar(VInt(1))], map["children" := [1]]),
                               1 := Entity(ChildThing, map["id" := Scalar(VInt(1))], map[])],
                           map[], [], 2);
      WellFormed(w) &&
      PermitDisassociate(ChildThing, Thing, w.heap[0].cols, Some(VInt(1))) == Ok(true) &&
      DisassociateAsWritten(w, 0, Some(1), Some(VInt(1))) == Err(AttributeError) &&
      DisassociateOutcome(w, 0, Some(1), Some(VInt(1))) == Ok(())
  {
    var w := World(map[0 := Entity(Thing, map["id" := Scalar(VInt(1)), "user_id" := Scalar(VInt(1))], map["children" := [1]]),
                       1 := Entity(ChildThing, map["id" := Scalar(VInt(1))], map[])],
                   map[], [], 2);
    assert ListsTyped(w) by {
      forall h, n | h in w.heap && n in w.heap[h].lists
        ensures n in ListRelations(w.heap[h].ty) &&
          forall i :: 0 <= i < |w.heap[h].lists[n]| ==>
            w.heap[h].lists[n][i] in w.heap &&
            w.heap[w.heap[h].lists[n][i]].ty == ListRelations(w.heap[h].ty)[n]
      {
        assert h == 0 && n == "children";
      }
    }
  }

  /** _disassociate as intended: the child's permit_disassociate judges the parent. It
      only checks permission; membership never changes (the removal is a TODO). */
  function DisassociateOutcome(w: World, parent: Handle, child: Option<Handle>, user: Principal): (r: Result<()>)
    requires WellFormed(w) && parent in w.heap && (child.Some? ==> child.value in w.heap)
    ensures child.None? || !HasPermitDisassociate(w.heap[child.value].ty) ==> r == Err(PermissionError)
    ensures r.Ok? <==>
      child.Some? && HasPermitDisassociate(w.heap[child.value].ty) &&
      PermitDisassociate(w.heap[child.value].ty, w.heap[parent].ty, w.heap[parent].cols, user) == Ok(true)
  {
    if child.None? || !HasPermitDisassociate(w.heap[child.value].ty) then Err(PermissionError)
    else
      var p, c := w.heap[parent], w.heap[child.value];
      Check(PermitDisassociate(c.ty, p.ty, p.cols, user), PermissionError)
  }

  /** A ChildThing may be disassociated from a Thing iff the principal owns the Thing. */
  lemma DisassociateOwnedThing(w: World, parent: Handle, child: Handle, uid: Value)
    requires WellFormed(w) && parent in w.heap && child in w.heap
    requires w.heap[parent].ty == Thing && w.heap[child].ty == ChildThing
    ensures DisassociateOutcome(w, parent, Some(child), Some(uid)).Ok? <==>
      ColumnOf(w.heap[parent].cols, "user_id") == Scalar(uid)
  {
  }

  // ---- _resolveAndSet ----

  /** _getOrCreateMapperObj changes no instance that existed before it. */
  lemma GetOrCreateKeeps(w: World, t: TypeName, doc: Doc, user: Principal, idCol: string, h: Handle)
    requires WellFormed(w) && h in w.heap
    ensures var w1 := GetOrCreateOutcome(w, t, doc, user, idCol).1;
      h in w1.heap && Framed(w, w1, h) && ListsGrow(w, w1, h) && w1.heap[h] == w.heap[h]
  {
    var w1 := GetOrCreateOutcome(w, t, doc, user, idCol).1;
    SameListsGrow(w, w1, h);
  }

  /** `for item in attr_val`: acquire each item, then associate it, in document order;
      the item's own fields are not applied. */
  function AssociateAll(w: World, h: Handle, name: string, items: seq<Doc>, user: Principal, idCol: string)
    : (o: (Result<()>, World))
    requires WellFormed(w) && h in w.heap && name in ListRelations(w.heap[h].ty)
    ensures WellFormed(o.1) && Extends(w, o.1)
    decreases |items|
  {
    if items == [] then (Ok(()), w)
    else
      var (r1, w1) := GetOrCreateOutcome(w, ListRelations(w.heap[h].ty)[name], items[0], user, idCol);
      if r1.Err? then (Err(r1.error), w1)
      else
        var (r2, w2) := AssociateOutcome(w1, h, name, r1.value, items[0], user);
        if r2.Err? then (Err(r2.error), w2)
        else AssociateAll(w2, h, name, items[1..], user, idCol)
  }

  /** Associating the items of a list only appends to the lists of h, without adding a
      duplicate, and only stages: h's columns, every other instance that existed and
      the session's earlier calls stay as they were, and the items it creates are bare. */
  lemma {:induction false} AssociateAllFrame(w: World, h: Handle, name: string, items: seq<Doc>, user: Principal, idCol: string)
    requires WellFormed(w) && h in w.heap && name in ListRelations(w.heap[h].ty)
    ensures var w' := AssociateAll(w, h, name, items, user, idCol).1;
      OnlyStaged(w.ops, w'.ops) && Framed(w, w', h) && ListsGrow(w, w', h) && w'.heap[h].cols == w.heap[h].cols
    decreases |items|, 1
  {
    if items == [] {
      SameListsGrow(w, w, h);
    } else {
      var (r1, w1) := GetOrCreateOutcome(w, ListRelations(w.heap[h].ty)[name], items[0], user, idCol);
      GetOrCreateKeeps(w, ListRelations(w.heap[h].ty)[name], items[0], user, idCol, h);
      if r1.Ok? {
        var (r2, w2) := AssociateOutcome(w1, h, name, r1.value, items[0], user);
        AssociateGrows(w1, h, name, r1.value, items[0], user);
        StepTrans(w, w1, w2, h);
        OnlyStagedTrans(w.ops, w1.ops, w2.ops);
        if r2.Ok? {
          AssociateAllFrameStep(w, w2, h, name, items, user, idCol);
        }
      }
    }
  }

  /** AssociateAllFrame once the first item has been acquired and associated, giving w2. */
  lemma {:induction false} AssociateAllFrameStep(w: World, w2: World, h: Handle, name: string, items: seq<Doc>,
                                                 user: Principal, idCol: string)
    requires WellFormed(w) && h in w.heap && name in ListRelations(w.heap[h].ty) && items != []
    requires WellFormed(w2) && Extends(w, w2)
    requires AssociateAll(w, h, name, items, user, idCol) == AssociateAll(w2, h, name, items[1..], user, idCol)
    requires OnlyStaged(w.ops, w2.ops) && Framed(w, w2, h) && ListsGrow(w, w2, h)
    requires w2.heap[h].cols == w.heap[h].cols
    ensures var w' := AssociateAll(w, h, name, items, user, idCol).1;
      OnlyStaged(w.ops, w'.ops) && Framed(w, w', h) && ListsGrow(w, w', h) && w'.heap[h].cols == w.heap[h].cols
    decreases |items|, 0
  {
    var w3 := AssociateAll(w2, h, name, items[1..], user, idCol).1;
    AssociateAllFrame(w2, h, name, items[1..], user, idCol);
    StepTrans(w, w2, w3, h);
    OnlyStagedTrans(w.ops, w2.ops, w3.ops);
  }

  /** The stored record an item names: what query.get finds for a truthy id under the
      id key. */
  function ItemRecord(w: World, t: TypeName, item: Doc, idCol: string): (r: Option<Handle>)
    requires WellFormed(w)
    ensures r.Some? ==> item.Dict? && idCol in Keys(item.entries) && r == Lookup(w, t, GetOrNone(item.entries, idCol))
  {
    if item.Dict? && idCol in Keys(item.entries) && Truthy(GetOrNone(item.entries, idCol))
    then Lookup(w, t, GetOrNone(item.entries, idCol)) else None
  }

  lemma PrefixMember(a: seq<Handle>, b: seq<Handle>, x: Handle)
    requires IsPrefix(a, b) && x in a
    ensures x in b
  {
    var i :| 0 <= i < |a| && a[i] == x;
    assert b[i] == x;
  }

  /** Whether an item is created rather than looked up: a dict without the id key. */
  predicate CreatesItem(item: Doc, idCol: string) {
    item.Dict? && idCol !in Keys(item.entries)
  }

  /** How many of the first i items are created. The association loop creates
      instances under consecutive fresh handles, so the item i, when it is created,
      gets the handle w.next + Created(items, idCol, i). */
  function Created(items: seq<Doc>, idCol: string, i: nat): (n: nat)
    requires i <= |items|
    ensures n <= i
    decreases i
  {
    if i == 0 then 0
    else (if CreatesItem(items[0], idCol) then 1 else 0) + Created(items[1..], idCol, i - 1)
  }

  /** Every item that is created got the handle w.next + Created(items, idCol, i),
      fresh to w, and that instance is in L'. */
  ghost predicate CreatedIn(w: World, items: seq<Doc>, idCol: string, L': seq<Handle>) {
    forall i :: 0 <= i < |items| && CreatesItem(items[i], idCol) ==>
      w.next + Created(items, idCol, i) !in w.heap && w.next + Created(items, idCol, i) in L'
  }

  /** CreatedIn for items, from CreatedIn for the later items in the store w2 that
      followed the first item's turn, which created c iff that item is created. */
  lemma CreatedInCons(w: World, w2: World, items: seq<Doc>, idCol: string, c: Handle, L': seq<Handle>)
    requires WellFormed(w) && items != [] && w.next <= w2.next
    requires w2.next == w.next + (if CreatesItem(items[0], idCol) then 1 else 0)
    requires CreatesItem(items[0], idCol) ==> c == w.next && c in L'
    requires CreatedIn(w2, items[1..], idCol, L')
    ensures CreatedIn(w, items, idCol, L')
  {
    forall i | 0 <= i < |items| && CreatesItem(items[i], idCol)
      ensures w.next + Created(items, idCol, i) !in w.heap && w.next + Created(items, idCol, i) in L'
    {
      if i > 0 {
        assert items[i] == items[1..][i - 1];
        assert w.next + Created(items, idCol, i) == w2.next + Created(items[1..], idCol, i - 1);
      }
    }
  }

  /** What the association loop over items promises when it succeeds, from list L to
      L': every item that carries the id key names a stored record, and that record is
      in L'; every item that is created gets the next fresh handle in item order, and
      that instance is in L'; everything else L' gained is either a stored record some
      item names or an instance fresh to w. */
  ghost predicate Members(w: World, t: TypeName, items: seq<Doc>, idCol: string, L: seq<Handle>, L': seq<Handle>, ok: bool)
    requires WellFormed(w)
  {
    ok ==>
      (forall i :: 0 <= i < |items| && items[i].Dict? && idCol in Keys(items[i].entries) ==>
         ItemRecord(w, t, items[i], idCol).Some? && ItemRecord(w, t, items[i], idCol).value in L') &&
      CreatedIn(w, items, idCol, L') &&
      (forall x :: x in L' && x !in L ==>
         x !in w.heap || exists i :: 0 <= i < |items| && ItemRecord(w, t, items[i], idCol) == Some(x))
  }

  /** On success, every item that carries the id key names a stored record, and that
      record is in the list; everything else the list gained is either such a record
      or an instance created on the way. */
  lemma {:induction false} AssociateAllMembers(w: World, h: Handle, name: string, items: seq<Doc>, user: Principal,
                                               idCol: string)
    requires WellFormed(w) && h in w.heap && name in ListRelations(w.heap[h].ty)
    ensures var o := AssociateAll(w, h, name, items, user, idCol);
      Members(w, ListRelations(w.heap[h].ty)[name], items, idCol, ListOf(w.heap[h], name), ListOf(o.1.heap[h], name), o.0.Ok?)
    decreases |items|
  {
    if items != [] {
      var t := ListRelations(w.heap[h].ty)[name];
      var (r1, w1) := GetOrCreateOutcome(w, t, items[0], user, idCol);
      GetOrCreateKeeps(w, t, items[0], user, idCol, h);
      if r1.Ok? {
        var (r2, w2) := AssociateOutcome(w1, h, name, r1.value, items[0], user);
        if r2.Ok? {
          AssociateOne(w, h, name, items[0], user, idCol);
          var c := r1.value.value;
          var o := AssociateAll(w, h, name, items, user, idCol);
          assert o == AssociateAll(w2, h, name, items[1..], user, idCol);
          AssociateAllMembers(w2, h, name, items[1..], user, idCol);
          AssociateAllFrame(w2, h, name, items[1..], user, idCol);
          var L, L2, L' := ListOf(w.heap[h], name), ListOf(w2.heap[h], name), ListOf(o.1.heap[h], name);
          MembersCons(w, w2, t, items, idCol, c, L, L2, L', o.0.Ok?);
        }
      }
    }
  }

  /** One turn of the association loop that succeeds acquires an instance c and leaves
      it in the list, which gains nothing else: for an item with the id key c is the
      record it names, otherwise a created instance. */
  lemma AssociateOne(w: World, h: Handle, name: string, item: Doc, user: Principal, idCol: string)
    requires WellFormed(w) && h in w.heap && name in ListRelations(w.heap[h].ty)
    ensures var t := ListRelations(w.heap[h].ty)[name];
      var (r1, w1) := GetOrCreateOutcome(w, t, item, user, idCol);
      r1.Ok? && AssociateOutcome(w1, h, name, r1.value, item, user).0.Ok? ==>
        var w2 := AssociateOutcome(w1, h, name, r1.value, item, user).1;
        var c, L, L2 := r1.value.value, ListOf(w.heap[h], name), ListOf(w2.heap[h], name);
        c in L2 && (forall x :: x in L2 && x !in L ==> x == c) &&
        w2.next == w.next + (if CreatesItem(item, idCol) then 1 else 0) &&
        (CreatesItem(item, idCol) ==> c == w.next) &&
        if item.Dict? && idCol in Keys(item.entries) then ItemRecord(w, t, item, idCol) == Some(c) else c !in w.heap
  {
    var t := ListRelations(w.heap[h].ty)[name];
    var (r1, w1) := GetOrCreateOutcome(w, t, item, user, idCol);
    GetOrCreateKeeps(w, t, item, user, idCol, h);
    if r1.Ok? && AssociateOutcome(w1, h, name, r1.value, item, user).0.Ok? {
      var c := r1.value.value;
      var w2 := AssociateOutcome(w1, h, name, r1.value, item, user).1;
      if c !in ListOf(w1.heap[h], name) {
        assert ListOf(w2.heap[h], name) == ListOf(w1.heap[h], name) + [c];
      }
    }
  }

  /** Members for items, from the first item's record c, which L2 holds and is all L2
      gained over L, and Members for the other items from L2 in the later store w2. */
  lemma MembersCons(w: World, w2: World, t: TypeName, items: seq<Doc>, idCol: string, c: Handle,
                    L: seq<Handle>, L2: seq<Handle>, L': seq<Handle>, ok: bool)
    requires WellFormed(w) && WellFormed(w2) && Extends(w, w2) && items != []
    requires c in L2 && (forall x :: x in L2 && x !in L ==> x == c) && IsPrefix(L2, L')
    requires if items[0].Dict? && idCol in Keys(items[0].entries) then ItemRecord(w, t, items[0], idCol) == Some(c)
             else c !in w.heap
    requires w2.next == w.next + (if CreatesItem(items[0], idCol) then 1 else 0)
    requires CreatesItem(items[0], idCol) ==> c == w.next
    requires Members(w2, t, items[1..], idCol, L2, L', ok)
    ensures Members(w, t, items, idCol, L, L', ok)
  {
    forall j | 0 <= j < |items| ensures ItemRecord(w2, t, items[j], idCol) == ItemRecord(w, t, items[j], idCol) {
      if items[j].Dict? {
        LookupStable(w, w2, t, GetOrNone(items[j].entries, idCol));
      }
    }
    if ok {
      PrefixMember(L2, L', c);
      forall i | 0 <= i < |items| && items[i].Dict? && idCol in Keys(items[i].entries)
        ensures ItemRecord(w, t, items[i], idCol).Some? && ItemRecord(w, t, items[i], idCol).value in L'
      {
        if i > 0 { assert items[i] == items[1..][i - 1]; }
      }
      CreatedInCons(w, w2, items, idCol, c, L');
      forall x | x in L' && x !in L
        ensures x !in w.heap || exists i :: 0 <= i < |items| && ItemRecord(w, t, items[i], idCol) == Some(x)
      {
        if x in L2 {
          assert x == c;
        } else if x in w2.heap {
          var j :| 0 <= j < |items[1..]| && ItemRecord(w2, t, items[1..][j], idCol) == Some(x);
          assert items[1..][j] == items[j + 1];
        }
      }
    }
  }

  /** The value of a to-many key, iterated: a list yields its items, an empty dict or
      string yields nothing, a non-empty dict or string yields strings (which have no
      keys(), AttributeError), and None or an int cannot be iterated (TypeError). */
  function AssociateValue(w: World, h: Handle, name: string, v: Doc, user: Principal, idCol: string)
    : (o: (Result<()>, World))
    requires WellFormed(w) && h in w.heap && name in ListRelations(w.heap[h].ty)
    ensures WellFormed(o.1) && Extends(w, o.1)
    ensures !v.List? ==> o.1 == w
    ensures v.Scalar? && !v.v.VStr? ==> o.0 == Err(TypeError)
    ensures (v.Dict? && v.entries != []) || (v.Scalar? && v.v.VStr? && v.v.s != "") ==> o.0 == Err(AttributeError)
    ensures (v.Dict? && v.entries == []) || v == Scalar(VStr("")) ==> o.0 == Ok(())
  {
    match v
    case List(items) => AssociateAll(w, h, name, items, user, idCol)
    case Dict(es) => if es == [] then (Ok(()), w) else (Err(AttributeError), w)
    case Scalar(VStr(s)) => if s == "" then (Ok(()), w) else (Err(AttributeError), w)
    case Scalar(_) => (Err(TypeError), w)
  }

  /** One key of the document: a column other than the id key goes to _update; a key
      that is no attribute raises AttributeError; a to-many relation associates its
      items; a list-valued class attribute (an allow-list, __public__) passes the list
      test but has no `.property`, so AttributeError; anything else (the id key, the
      scalar backref, hooks and the other attributes of an instance) is ignored. */
  function ApplyField(w: World, h: Handle, k: string, v: Doc, user: Principal, idCol: string)
    : (o: (Result<()>, World))
    requires WellFormed(w) && h in w.heap
    ensures WellFormed(o.1) && Extends(w, o.1)
    ensures !IsAttribute(w.heap[h].ty, k) ==> o == (Err(AttributeError), w)
    ensures k in ClassLists(w.heap[h].ty) ==> o == (Err(AttributeError), w)
    ensures (k in OtherAttributes(w.heap[h].ty) && !(k != idCol && k in Columns(w.heap[h].ty)) &&
      k !in ListRelations(w.heap[h].ty) && k !in ClassLists(w.heap[h].ty)) ==> o == (Ok(()), w)
    ensures (k == idCol && IsAttribute(w.heap[h].ty, k) && k !in ListRelations(w.heap[h].ty) &&
      k !in ClassLists(w.heap[h].ty)) ==> o == (Ok(()), w)
  {
    var t := w.heap[h].ty;
    assert k in ClassLists(t) ==> k !in Columns(t) && k !in ListRelations(t) by {
      if k in ClassLists(t) { ClassListsShape(t, k, 0); }
    }
    if k != idCol && k in Columns(t) then UpdateOutcome(w, h, k, v, user)
    else if !IsAttribute(t, k) then (Err(AttributeError), w)
    else if k in ListRelations(t) then AssociateValue(w, h, k, v, user, idCol)
    else if k in ClassLists(t) then (Err(AttributeError), w)
    else (Ok(()), w)
  }

  /** One key only appends to h's lists and stages; every other instance that existed
      stays as it was. */
  lemma ApplyFieldFrame(w: World, h: Handle, k: string, v: Doc, user: Principal, idCol: string)
    requires WellFormed(w) && h in w.heap
    ensures var w' := ApplyField(w, h, k, v, user, idCol).1;
      OnlyStaged(w.ops, w'.ops) && Framed(w, w', h) && ListsGrow(w, w', h)
  {
    var t := w.heap[h].ty;
    var w' := ApplyField(w, h, k, v, user, idCol).1;
    if k != idCol && k in Columns(t) {
      assert w'.heap[h].lists == w.heap[h].lists;
      assert w'.ops == w.ops;
      SameListsGrow(w, w', h);
      NoOps(w.ops);
    } else if IsAttribute(t, k) && k in ListRelations(t) && v.List? {
      AssociateAllFrame(w, h, k, v.items, user, idCol);
    } else {
      assert w' == w;
      SameListsGrow(w, w, h);
      NoOps(w.ops);
    }
  }

  /** One key changes at most column k of h, and only when k is updatable; on success
      a column key other than the id key holds the given value. */
  lemma ApplyFieldColumns(w: World, h: Handle, k: string, v: Doc, user: Principal, idCol: string)
    requires WellFormed(w) && h in w.heap
    ensures var o := ApplyField(w, h, k, v, user, idCol);
      (forall c :: c != k || c == idCol || c !in AllowUpdate(w.heap[h].ty) ==>
         ColumnOf(o.1.heap[h].cols, c) == ColumnOf(w.heap[h].cols, c)) &&
      (o.0.Ok? && k != idCol && k in Columns(w.heap[h].ty) ==> ColumnOf(o.1.heap[h].cols, k) == v)
  {
    var t := w.heap[h].ty;
    if k in ListRelations(t) && !(k != idCol && k in Columns(t)) && v.List? {
      AssociateAllFrame(w, h, k, v.items, user, idCol);
    }
  }

  /** `for attr_name, attr_val in attr_dict.iteritems()`, stopping at the first exception. */
  function ApplyFields(w: World, h: Handle, es: seq<(string, Doc)>, user: Principal, idCol: string)
    : (o: (Result<()>, World))
    requires WellFormed(w) && h in w.heap
    ensures WellFormed(o.1) && Extends(w, o.1)
    decreases |es|
  {
    if es == [] then (Ok(()), w)
    else
      var (r1, w1) := ApplyField(w, h, es[0].0, es[0].1, user, idCol);
      if r1.Err? then (r1, w1)
      else ApplyFields(w1, h, es[1..], user, idCol)
  }

  lemma KeysOfTail(es: seq<(string, Doc)>)
    requires es != []
    ensures Keys(es) == {es[0].0} + Keys(es[1..])
    ensures UniqueKeys(es) ==> UniqueKeys(es[1..]) && es[0].0 !in Keys(es[1..])
    ensures forall k :: k in Keys(es[1..]) && k != es[0].0 ==> GetOrNone(es, k) == GetOrNone(es[1..], k)
    ensures GetOrNone(es, es[0].0) == es[0].1
  {
    assert forall i :: 0 < i < |es| ==> es[i] == es[1..][i - 1];
  }

  /** The fields of a document only append to h's lists and stage. */
  lemma {:induction false} ApplyFieldsFrame(w: World, h: Handle, es: seq<(string, Doc)>, user: Principal, idCol: string)
    requires WellFormed(w) && h in w.heap
    ensures var w' := ApplyFields(w, h, es, user, idCol).1;
      OnlyStaged(w.ops, w'.ops) && Framed(w, w', h) && ListsGrow(w, w', h)
    decreases |es|, 1
  {
    if es == [] {
      SameListsGrow(w, w, h);
    } else {
      var (r1, w1) := ApplyField(w, h, es[0].0, es[0].1, user, idCol);
      ApplyFieldFrame(w, h, es[0].0, es[0].1, user, idCol);
      if r1.Ok? {
        ApplyFieldsFrameStep(w, h, es, user, idCol);
      }
    }
  }

  /** ApplyFieldsFrame once the first key has succeeded. */
  lemma {:induction false} ApplyFieldsFrameStep(w: World, h: Handle, es: seq<(string, Doc)>, user: Principal, idCol: string)
    requires WellFormed(w) && h in w.heap && es != []
    requires ApplyField(w, h, es[0].0, es[0].1, user, idCol).0.Ok?
    requires var w1 := ApplyField(w, h, es[0].0, es[0].1, user, idCol).1;
      OnlyStaged(w.ops, w1.ops) && Framed(w, w1, h) && ListsGrow(w, w1, h)
    ensures var w' := ApplyFields(w, h, es, user, idCol).1;
      OnlyStaged(w.ops, w'.ops) && Framed(w, w', h) && ListsGrow(w, w', h)
    decreases |es|, 0
  {
    var w1 := ApplyField(w, h, es[0].0, es[0].1, user, idCol).1;
    var w2 := ApplyFields(w1, h, es[1..], user, idCol).1;
    assert ApplyFields(w, h, es, user, idCol).1 == w2;
    ApplyFieldsFrame(w1, h, es[1..], user, idCol);
    StepTrans(w, w1, w2, h);
    OnlyStagedTrans(w.ops, w1.ops, w2.ops);
  }

  /** The fields of a document change only the columns it names with an updatable key
      other than the id key; on success, with distinct keys, each such column holds the
      document's value. */
  lemma {:induction false} ApplyFieldsColumns(w: World, h: Handle, es: seq<(string, Doc)>, user: Principal, idCol: string)
    requires WellFormed(w) && h in w.heap
    ensures var o := ApplyFields(w, h, es, user, idCol);
      (forall c :: c !in Keys(es) || c == idCol || c !in AllowUpdate(w.heap[h].ty) ==>
         ColumnOf(o.1.heap[h].cols, c) == ColumnOf(w.heap[h].cols, c)) &&
      (o.0.Ok? && UniqueKeys(es) ==> forall k :: k in Keys(es) && k != idCol && k in Columns(w.heap[h].ty) ==>
         ColumnOf(o.1.heap[h].cols, k) == GetOrNone(es, k))
    decreases |es|
  {
    if es != [] {
      var (r1, w1) := ApplyField(w, h, es[0].0, es[0].1, user, idCol);
      ApplyFieldColumns(w, h, es[0].0, es[0].1, user, idCol);
      KeysOfTail(es);
      if r1.Ok? {
        ApplyFieldsColumns(w1, h, es[1..], user, idCol);
      }
    }
  }

  /** _resolveAndSet(mapper_class, attr_dict) as __call__ invokes it: acquire the root,
      then apply its fields. A root whose id is falsy or unknown reaches the field loop
      as None, and the first key processed raises (getattr(None, id) for the id key,
      class_mapper(NoneType) for any other). */
  function ResolveOutcome(w: World, t: TypeName, doc: Doc, user: Principal, idCol: string)
    : (o: (Result<Handle>, World))
    requires WellFormed(w)
    ensures WellFormed(o.1) && Extends(w, o.1)
    ensures o.0.Ok? ==> o.0.value in o.1.heap && o.1.heap[o.0.value].ty == t
  {
    var (r1, w1) := GetOrCreateOutcome(w, t, doc, user, idCol);
    if r1.Err? then (Err(r1.error), w1)
    else if r1.value.None? then
      assert doc.entries != [] by { assert idCol in Keys(doc.entries); }
      (Err(if doc.entries[0].0 == idCol then AttributeError else UnmappedClassError), w1)
    else
      var h := r1.value.value;
      var (r2, w2) := ApplyFields(w1, h, doc.entries, user, idCol);
      (if r2.Err? then Err(r2.error) else Ok(h), w2)
  }

  /** Resolution only stages, also when it fails. */
  lemma ResolveOnlyStaged(w: World, t: TypeName, doc: Doc, user: Principal, idCol: string)
    requires WellFormed(w)
    ensures OnlyStaged(w.ops, ResolveOutcome(w, t, doc, user, idCol).1.ops)
  {
    var (r1, w1) := GetOrCreateOutcome(w, t, doc, user, idCol);
    if r1.Ok? && r1.value.Some? {
      var h := r1.value.value;
      var w2 := ApplyFields(w1, h, doc.entries, user, idCol).1;
      ApplyFieldsFrame(w1, h, doc.entries, user, idCol);
      OnlyStagedTrans(w.ops, w1.ops, w2.ops);
    }
  }

  /** A successful resolution leaves every other instance that existed before untouched
      (so the fields of a list item are never applied) and the items it creates bare. */
  lemma ResolveTouchesOnlyRoot(w: World, t: TypeName, doc: Doc, user: Principal, idCol: string)
    requires WellFormed(w) && ResolveOutcome(w, t, doc, user, idCol).0.Ok?
    ensures var (r, w') := ResolveOutcome(w, t, doc, user, idCol);
      (forall g :: g in w.heap && g != r.value ==> w'.heap[g] == w.heap[g]) &&
      (forall g :: g in w'.heap && g !in w.heap && g != r.value ==> w'.heap[g] == NewEntity(w'.heap[g].ty))
  {
    var (r1, w1) := GetOrCreateOutcome(w, t, doc, user, idCol);
    ApplyFieldsFrame(w1, r1.value.value, doc.entries, user, idCol);
  }

  /** On success, every column key of a document with distinct keys, other than the id
      key, holds the document's value; a column the document does not name with an
      updatable key keeps the value it had once acquired. */
  lemma ResolveSetsColumns(w: World, t: TypeName, doc: Doc, user: Principal, idCol: string)
    requires WellFormed(w) && ResolveOutcome(w, t, doc, user, idCol).0.Ok?
    ensures var (r, w') := ResolveOutcome(w, t, doc, user, idCol);
      var before := GetOrCreateOutcome(w, t, doc, user, idCol).1.heap[r.value];
      (forall c :: c !in Keys(doc.entries) || c == idCol || c !in AllowUpdate(t) ==>
         ColumnOf(w'.heap[r.value].cols, c) == ColumnOf(before.cols, c)) &&
      (UniqueKeys(doc.entries) ==> forall k :: k in Keys(doc.entries) && k != idCol && k in Columns(t) ==>
         ColumnOf(w'.heap[r.value].cols, k) == GetOrNone(doc.entries, k))
  {
    var (r1, w1) := GetOrCreateOutcome(w, t, doc, user, idCol);
    ApplyFieldsColumns(w1, r1.value.value, doc.entries, user, idCol);
  }

  // ---- __call__ ----

  /** __call__: resolve, then flush, then commit only when asked. */
  function CallOutcome(w: World, t: TypeName, doc: Doc, idCol: string, commit: bool, user: Principal)
    : (o: (Result<Handle>, World))
    requires WellFormed(w)
    ensures WellFormed(o.1) && Extends(w, o.1)
  {
    var o := ResolveOutcome(w, t, doc, user, idCol);
    if o.0.Err? then o
    else (o.0, Log(o.1, [Flushed] + CommitOps(commit)))
  }

  /** If resolution raises, neither flush nor commit happens (only the adds staged so far
      remain); on success the session is flushed once and committed iff commit is set. */
  lemma CallFlushesThenCommits(w: World, t: TypeName, doc: Doc, idCol: string, commit: bool, user: Principal)
    requires WellFormed(w)
    ensures var o := CallOutcome(w, t, doc, idCol, commit, user);
      var w1 := ResolveOutcome(w, t, doc, user, idCol).1;
      OnlyStaged(w.ops, w1.ops) &&
      (o.0.Err? ==> o.1 == w1 && Flushed !in o.1.ops[|w.ops|..] && Committed !in o.1.ops[|w.ops|..]) &&
      (o.0.Ok? ==> o.1.ops == w1.ops + [Flushed] + CommitOps(commit))
  {
    var w1 := ResolveOutcome(w, t, doc, user, idCol).1;
    ResolveOnlyStaged(w, t, doc, user, idCol);
    NothingFlushed(w.ops, w1.ops);
  }

  lemma NothingFlushed(ops: seq<SessionOp>, ops': seq<SessionOp>)
    requires OnlyStaged(ops, ops')
    ensures Flushed !in ops'[|ops|..] && Committed !in ops'[|ops|..]
  {
    var tail := ops'[|ops|..];
    assert forall i :: 0 <= i < |tail| ==> tail[i] == ops'[|ops| + i];
  }

  /** Crudad(db): the operations work on db. */
  class Crudad {
    const db: Db

    constructor (db: Db)
      ensures this.db == db
    {
      this.db := db;
    }

    /** __call__ */
    method Call(t: TypeName, doc: Doc, idCol: string, commit: bool, user: Principal) returns (r: Result<Handle>)
      requires db.Valid()
      modifies db
      ensures db.Valid()
      ensures (r, db.State()) == CallOutcome(old(db.State()), t, doc, idCol, commit, user)
    {
      r := ResolveAndSet(t, doc, user, idCol);
      if r.Err? { return; }
      db.FlushAndCommit(commit);
    }

    /** _create */
    method Create(t: TypeName, doc: seq<(string, Doc)>, user: Principal) returns (r: Result<Handle>)
      requires db.Valid()
      modifies db
      ensures db.Valid()
      ensures (r, db.State()) == CreateOutcome(old(db.State()), t, doc, user)
    {
      var allowed := Check(PermitCreate(t, doc, user), PermissionError);
      if allowed.Err? {
        return Err(allowed.error);
      }
      var h := db.Instantiate(t);
      db.Record(Staged(h));
      r := Ok(h);
    }

    /** _getOrCreateMapperObj */
    method GetOrCreateMapperObj(t: TypeName, doc: Doc, user: Principal, idCol: string) returns (r: Result<Option<Handle>>)
      requires db.Valid()
      modifies db
      ensures db.Valid()
      ensures (r, db.State()) == GetOrCreateOutcome(old(db.State()), t, doc, user, idCol)
    {
      if !doc.Dict? {
        return Err(AttributeError);
      }
      if Find(doc.entries, idCol).Some? {
        var existingId := GetOrNone(doc.entries, idCol);
        if Truthy(existingId) {
          var found := db.Get(t, existingId);
          return Ok(found);
        }
        return Ok(None);
      }
      var allowed := Check(PermitCreate(t, doc.entries, user), PermissionError);
      if allowed.Err? {
        return Err(allowed.error);
      }
      var created := Create(t, doc.entries, user);
      r := Ok(Some(created.value));
    }

    /** _update */
    method Update(h: Handle, field: string, val: Doc, user: Principal) returns (r: Result<()>)
      requires db.Valid() && h in db.heap
      modifies db
      ensures db.Valid()
      ensures (r, db.State()) == UpdateOutcome(old(db.State()), h, field, val, user)
    {
      var e := db.heap[h];
      var allowed := Check(PermitUpdate(e.ty, e.cols, [(field, val)], user), PermissionError);
      if allowed.Err? {
        return Err(allowed.error);
      }
      if field !in AllowUpdate(e.ty) {
        return Err(PermissionError);
      }
      db.SetAttr(h, field, val);
      r := Ok(());
    }

    /** _associate */
    method Associate(parent: Handle, name: string, child: Option<Handle>, doc: Doc, user: Principal) returns (r: Result<()>)
      requires db.Valid() && AssociateArgs(db.State(), parent, name, child)
      modifies db
      ensures db.Valid()
      ensures (r, db.State()) == AssociateOutcome(old(db.State()), parent, name, child, doc, user)
    {
      if child.None? || !HasPermitAssociate(db.heap[child.value].ty) {
        return Err(PermissionError);
      }
      var c := child.value;
      var allowed := Check(PermitAssociate(db.heap[c].ty, db.heap[parent].ty, doc, user), PermissionError);
      if allowed.Err? {
        return Err(allowed.error);
      }
      if c !in ListOf(db.heap[parent], name) {
        db.Append(parent, name, c);
        db.Record(Staged(c));
      }
      r := Ok(());
    }

    /** _disassociate, with the hook called on the child (see DisassociateAsWritten). */
    method Disassociate(parent: Handle, child: Option<Handle>, user: Principal) returns (r: Result<()>)
      requires db.Valid() && parent in db.heap && (child.Some? ==> child.value in db.heap)
      ensures r == DisassociateOutcome(db.State(), parent, child, user)
    {
      if child.None? || !HasPermitDisassociate(db.heap[child.value].ty) {
        return Err(PermissionError);
      }
      var p, c := db.heap[parent], db.heap[child.value];
      r := Check(PermitDisassociate(c.ty, p.ty, p.cols, user), PermissionError);
    }

    /** The body of the field loop of _resolveAndSet for one key. */
    method SetField(h: Handle, k: string, v: Doc, user: Principal, idCol: string) returns (r: Result<()>)
      requires db.Valid() && h in db.heap
      modifies db
      ensures db.Valid()
      ensures (r, db.State()) == ApplyField(old(db.State()), h, k, v, user, idCol)
    {
      var ty := db.heap[h].ty;
      if k != idCol && k in Columns(ty) {
        r := Update(h, k, v, user);
      } else if !IsAttribute(ty, k) {
        r := Err(AttributeError);
      } else if k in ListRelations(ty) {
        r := AssociateItems(h, k, v, user, idCol);
      } else if k in ClassLists(ty) {
        r := Err(AttributeError);
      } else {
        r := Ok(());
      }
    }

    /** The `for item in attr_val` loop of _resolveAndSet. */
    method AssociateItems(h: Handle, name: string, v: Doc, user: Principal, idCol: string) returns (r: Result<()>)
      requires db.Valid() && h in db.heap && name in ListRelations(db.heap[h].ty)
      modifies db
      ensures db.Valid()
      ensures (r, db.State()) == AssociateValue(old(db.State()), h, name, v, user, idCol)
    {
      match v
      case List(items) =>
        var ty := db.heap[h].ty;
        var itemClass := ListRelations(ty)[name];
        var j := 0;
        while j < |items|
          invariant 0 <= j <= |items|
          invariant db.Valid() && h in db.heap && db.heap[h].ty == ty
          invariant AssociateAll(old(db.State()), h, name, items, user, idCol) ==
                    AssociateAll(db.State(), h, name, items[j..], user, idCol)
        {
          assert items[j..][0] == items[j] && items[j..][1..] == items[j + 1..];
          var item := GetOrCreateMapperObj(itemClass, items[j], user, idCol);
          if item.Err? {
            return Err(item.error);
          }
          var a := Associate(h, name, item.value, items[j], user);
          if a.Err? {
            return Err(a.error);
          }
          j := j + 1;
        }
        r := Ok(());
      case Dict(d) =>
        r := if d == [] then Ok(()) else Err(AttributeError);
      case Scalar(VStr(s)) =>
        r := if s == "" then Ok(()) else Err(AttributeError);
      case Scalar(_) =>
        r := Err(TypeError);
    }

    /** _resolveAndSet, non-delete path, for a root given no instance. */
    method ResolveAndSet(t: TypeName, doc: Doc, user: Principal, idCol: string) returns (r: Result<Handle>)
      requires db.Valid()
      modifies db
      ensures db.Valid()
      ensures (r, db.State()) == ResolveOutcome(old(db.State()), t, doc, user, idCol)
    {
      var acquired := GetOrCreateMapperObj(t, doc, user, idCol);
      if acquired.Err? {
        return Err(acquired.error);
      }
      if acquired.value.None? {
        assert doc.entries != [] by { assert idCol in Keys(doc.entries); }
        return Err(if doc.entries[0].0 == idCol then AttributeError else UnmappedClassError);
      }
      var h := acquired.value.value;
      var f := SetFields(h, doc.entries, user, idCol);
      r := if f.Err? then Err(f.error) else Ok(h);
    }

    /** The field loop of _resolveAndSet: `for attr_name, attr_val in attr_dict.iteritems()`. */
    method SetFields(h: Handle, es: seq<(string, Doc)>, user: Principal, idCol: string) returns (r: Result<()>)
      requires db.Valid() && h in db.heap
      modifies db
      ensures db.Valid()
      ensures (r, db.State()) == ApplyFields(old(db.State()), h, es, user, idCol)
    {
      var i := 0;
      while i < |es|
        invariant 0 <= i <= |es|
        invariant db.Valid() && h in db.heap
        invariant ApplyFields(old(db.State()), h, es, user, idCol) == ApplyFields(db.State(), h, es[i..], user, idCol)
      {
        assert es[i..][0] == es[i] && es[i..][1..] == es[i + 1..];
        var (attrName, attrVal) := es[i];
        var f := SetField(h, attrName, attrVal, user, idCol);
        if f.Err? {
          return f;
        }
        i := i + 1;
      }
      r := Ok(());
    }
  }
}
