/** The older generation, minisync: sync_object unflattens the change document, picks
    delete, update or create from the root id, checks one permission hook on the whole
    document, and hands every key to __resolveAndSetAttribute, which writes columns,
    updates the positions of a to-many list that a dict of string indices names, and
    appends the other entries as looked-up or fresh records.

    As for crudad, each operation is a function on World (`...Outcome`) and a method
    on db proved to agree with it. */
module Minisync {
  import opened Values
  import opened Models
  import opened Store
  import opened Unflatten

  /** sync_object does not pass its id_col_name on, so the resolver always tests
      against its default 'id'. */
  const IdCol := "id"

  /** minisync.require_user: without a (truthy) user the call raises
      PermissionException; otherwise the wrapped function runs. */
  function RequireUserOrRaise(user: Principal, f: Value -> Result<bool>): (r: Result<bool>)
    ensures user.None? ==> r == Err(PermissionException)
    ensures user.Some? ==> r == f(user.value)
  {
    match user
    case None => Err(PermissionException)
    case Some(uid) => f(uid)
  }

  /** The wrapped function is never evaluated without a user: any two give the same. */
  lemma RequireUserIgnoresHook(f: Value -> Result<bool>, g: Value -> Result<bool>)
    ensures RequireUserOrRaise(None, f) == RequireUserOrRaise(None, g) == Err(PermissionException)
  {
  }

  /** map(int, attr_val.keys()): the index of every key, or None when one is not a
      numeral (ValueError). */
  function ParseKeys(es: seq<(string, Doc)>): (r: Option<seq<int>>)
    ensures r.Some? ==> |r.value| == |es| && forall i :: 0 <= i < |es| ==> ParseInt(es[i].0) == Some(r.value[i])
    ensures r.None? <==> exists i :: 0 <= i < |es| && ParseInt(es[i].0).None?
  {
    if es == [] then Some([])
    else match (ParseInt(es[0].0), ParseKeys(es[1..]))
      case (Some(x), Some(xs)) =>
        assert forall i :: 1 <= i < |es| ==> es[i] == es[1..][i - 1];
        Some([x] + xs)
      case (None, _) => None
      case (_, None) =>
        assert forall i :: 0 <= i < |es| - 1 ==> es[1..][i] == es[i + 1];
        None
  }

  /** The errors __resolveAndSetAttribute can raise: it calls no permission hook. */
  predicate ResolveError(e: Error) {
    e == AttributeError || e == ValueError || e == UnmappedClassError
  }

  /** Instances of rank at least r are unchanged. */
  ghost predicate KeepsFrom(w: World, w': World, r: nat) {
    forall x :: x in w.heap && Rank(w.heap[x].ty) >= r ==> x in w'.heap && w'.heap[x] == w.heap[x]
  }

  /** Every instance other than h whose rank is at least h's is unchanged. */
  ghost predicate KeepsOthers(w: World, w': World, h: Handle)
    requires h in w.heap
  {
    forall x :: x in w.heap && x != h && Rank(w.heap[x].ty) >= Rank(w.heap[h].ty) ==> x in w'.heap && w'.heap[x] == w.heap[x]
  }

  /** Every element of L is an instance of class t. */
  ghost predicate AllOfType(w: World, L: seq<Handle>, t: TypeName) {
    forall p :: 0 <= p < |L| ==> L[p] in w.heap && w.heap[L[p]].ty == t
  }

  /** How many entries from i on name no position below n: the ones the second loop appends. */
  function Appended(idx: seq<int>, n: nat, i: nat): nat
    requires i <= |idx|
    decreases |idx| - i
  {
    if i == |idx| then 0
    else (if 0 <= idx[i] < n then 0 else 1) + Appended(idx, n, i + 1)
  }

  /** The error `for k, v in d.iteritems(): __resolveAndSetAttribute(None, k, v)` raises
      at its first key: getattr(None, 'id') for the id key, class_mapper(NoneType) for
      any other. */
  function NoneTargetError(d: Doc): (e: Error)
    requires d.Dict? && d.entries != []
    ensures ResolveError(e)
  {
    if d.entries[0].0 == IdCol then AttributeError else UnmappedClassError
  }

  /** `item_to_add.get(id_col_name, None)` and what it selects: the stored record of
      the item class for a truthy id (None when unknown), a fresh instance otherwise.
      An item that is not a dict has no get (AttributeError). */
  function AcquireOutcome(w: World, t: TypeName, item: Doc): (o: (Result<Option<Handle>>, World))
    requires WellFormed(w)
    ensures WellFormed(o.1) && Extends(w, o.1) && o.1.ops == w.ops && KeepsFrom(w, o.1, 0)
    ensures o.0.Err? ==> o.0.error == AttributeError
    ensures o.0.Ok? && o.0.value.Some? ==> o.0.value.value in o.1.heap && o.1.heap[o.0.value.value].ty == t
    ensures !item.Dict? ==> o == (Err(AttributeError), w)
    ensures item.Dict? && Truthy(GetOrNone(item.entries, IdCol)) ==>
      o == (Ok(Lookup(w, t, GetOrNone(item.entries, IdCol))), w)
    ensures item.Dict? && !Truthy(GetOrNone(item.entries, IdCol)) ==>
      o.0 == Ok(Some(w.next)) && w.next !in w.heap && o.1 == Allocate(w, t).1
    ensures o.0.Ok? && o.0.value.None? ==> item.Dict? && item.entries != []
  {
    if !item.Dict? then (Err(AttributeError), w)
    else
      var existingId := GetOrNone(item.entries, IdCol);
      if Truthy(existingId) then
        (Ok(Lookup(w, t, existingId)), w)
      else
        var (h, w1) := Allocate(w, t);
        (Ok(Some(h)), w1)
  }

  /** __resolveAndSetAttribute(h, k, v). A column other than the id column is written,
      with no check; a name that is no attribute raises AttributeError; a to-many
      relation takes a dict of string indices, and so, to no effect on the store, does a
      list-valued class attribute; any other attribute is left alone. */
  function ResolveAttrOutcome(w: World, h: Handle, k: string, v: Doc): (o: (Result<()>, World))
    requires WellFormed(w) && h in w.heap
    ensures WellFormed(o.1) && Extends(w, o.1) && o.1.ops == w.ops
    ensures KeepsFrom(w, o.1, Rank(w.heap[h].ty) + 1) && KeepsOthers(w, o.1, h)
    ensures o.0.Err? ==> ResolveError(o.0.error)
    decreases v, 3
  {
    var t := w.heap[h].ty;
    if k != IdCol && k in Columns(t) then (Ok(()), SetColumn(w, h, k, v))
    else if !IsAttribute(t, k) then (Err(AttributeError), w)
    else if k in ClassLists(t) then (ClassListOutcome(ClassLists(t)[k], v), w)
    else if k !in ListRelations(t) then (Ok(()), w)
    else if !v.Dict? then (Err(AttributeError), w)
    else match ParseKeys(v.entries)
      case None => (Err(ValueError), w)
      case Some(idx) => ResolveListOutcome(w, h, k, v, idx)
  }

  // ---- the list branch on a class attribute ----

  /** Whether the first loop visits position p of a list-valued class attribute: some
      key names p, and the element there has an id attribute, which of the elements
      only a mapped class has (a string has none). */
  predicate ClassUpdated(items: seq<ClassItem>, idx: seq<int>, p: int) {
    0 <= p < |items| && items[p].Class? && p in idx
  }

  /** The first loop's turn for position p when the element there is a mapped class
      cls: `attr_val.get(str(p))` (None when absent, which has no iteritems), then
      __resolveAndSetAttribute(cls, k, v) for each of its keys. On the id key that
      reads the class's column attribute, which is no list; on any other key it reaches
      class_mapper(type(cls)), and the metaclass is not mapped. */
  function ClassItemOutcome(v: Doc, p: int): (r: Result<()>)
    requires v.Dict?
    ensures r.Err? ==> ResolveError(r.error)
    ensures r.Ok? <==> (Get(v.entries, ShowInt(p)).Some? && Get(v.entries, ShowInt(p)).value.Dict? &&
      forall e :: e in Get(v.entries, ShowInt(p)).value.entries ==> e.0 == IdCol)
  {
    match Find(v.entries, ShowInt(p))
    case None => Err(AttributeError)
    case Some(j) =>
      var item := v.entries[j].1;
      if !item.Dict? then Err(AttributeError)
      else if forall e :: e in item.entries ==> e.0 == IdCol then Ok(())
      else Err(UnmappedClassError)
  }

  /** The first loop over a list-valued class attribute, from position p on. */
  function ClassUpdates(items: seq<ClassItem>, v: Doc, idx: seq<int>, p: nat): (r: Result<()>)
    requires v.Dict? && p <= |items|
    ensures r.Err? ==> ResolveError(r.error)
    ensures r.Ok? <==> forall q :: p <= q && ClassUpdated(items, idx, q) ==> ClassItemOutcome(v, q).Ok?
    decreases |items| - p
  {
    if p == |items| then Ok(())
    else if !ClassUpdated(items, idx, p) then ClassUpdates(items, v, idx, p + 1)
    else match ClassItemOutcome(v, p)
      case Err(e) => Err(e)
      case Ok(_) => ClassUpdates(items, v, idx, p + 1)
  }

  /** The list branch when getattr(h, k) is a list-valued class attribute: the keys are
      parsed, the first loop visits the positions that hold a mapped class, and the
      first entry left for the second loop raises AttributeError at
      `getattr(h.__class__, k).property`, before anything is appended. No instance is
      touched on any path. */
  function ClassListOutcome(items: seq<ClassItem>, v: Doc): (r: Result<()>)
    ensures r.Err? ==> ResolveError(r.error)
    ensures !v.Dict? ==> r == Err(AttributeError)
    ensures v.Dict? && ParseKeys(v.entries).None? ==> r == Err(ValueError)
    ensures r.Ok? <==> (v.Dict? && ParseKeys(v.entries).Some? &&
      (forall i :: 0 <= i < |v.entries| ==> ClassUpdated(items, ParseKeys(v.entries).value, ParseKeys(v.entries).value[i])) &&
      (forall q :: ClassUpdated(items, ParseKeys(v.entries).value, q) ==> ClassItemOutcome(v, q).Ok?))
  {
    if !v.Dict? then Err(AttributeError)
    else match ParseKeys(v.entries)
      case None => Err(ValueError)
      case Some(idx) =>
        var r := ClassUpdates(items, v, idx, 0);
        if r.Err? then r
        else if exists i :: 0 <= i < |idx| && !ClassUpdated(items, idx, idx[i]) then Err(AttributeError)
        else Ok(())
  }

  /** On a class attribute that lists only strings, nothing is updated, so the branch
      succeeds only on an empty dict, and a dict of numerals with a key raises
      AttributeError. */
  lemma {:induction false} NameListRaises(items: seq<ClassItem>, v: Doc)
    requires forall p :: 0 <= p < |items| ==> items[p].Name?
    ensures ClassListOutcome(items, v).Ok? <==> v == Dict([])
    ensures v.Dict? && v.entries != [] && ParseKeys(v.entries).Some? ==> ClassListOutcome(items, v) == Err(AttributeError)
  {
    if v.Dict? && ParseKeys(v.entries).Some? {
      var idx := ParseKeys(v.entries).value;
      assert forall q :: !ClassUpdated(items, idx, q);
      if v.entries != [] {
        assert !ClassUpdated(items, idx, idx[0]);
      }
    }
  }

  /** On ChildThing.__allow_associate__, [Thing]: the branch succeeds iff every key is
      "0" and the item there has no key but the id key. */
  lemma AllowAssociateOutcome(v: Doc)
    ensures var r := ClassListOutcome(ClassLists(ChildThing)["__allow_associate__"], v);
      r.Ok? <==> (v.Dict? && (forall i :: 0 <= i < |v.entries| ==> v.entries[i].0 == "0") &&
        (v.entries != [] ==> ClassItemOutcome(v, 0).Ok?))
  {
    var items := ClassLists(ChildThing)["__allow_associate__"];
    ClassListsShape(ChildThing, "__allow_associate__", 0);
    assert ShowInt(0) == "0";
    if v.Dict? {
      forall i | 0 <= i < |v.entries| && ParseInt(v.entries[i].0) == Some(0)
        ensures v.entries[i].0 == "0"
      {
        ShowParse(v.entries[i].0);
      }
      forall i | 0 <= i < |v.entries| && v.entries[i].0 == "0"
        ensures ParseInt(v.entries[i].0) == Some(0)
      {
        ParseShow(0);
      }
      if ParseKeys(v.entries).Some? {
        var idx := ParseKeys(v.entries).value;
        if v.entries != [] && forall i :: 0 <= i < |v.entries| ==> ClassUpdated(items, idx, idx[i]) {
          assert ClassUpdated(items, idx, 0) by { assert idx[0] == 0; }
        }
      }
    }
  }

  /** The to-many branch, once the keys have been parsed into idx: the first loop over
      a snapshot of the list, then the second. */
  function ResolveListOutcome(w: World, h: Handle, k: string, v: Doc, idx: seq<int>): (o: (Result<()>, World))
    requires WellFormed(w) && h in w.heap && k in ListRelations(w.heap[h].ty)
    requires v.Dict? && |idx| == |v.entries|
    ensures WellFormed(o.1) && Extends(w, o.1) && o.1.ops == w.ops
    ensures KeepsFrom(w, o.1, Rank(w.heap[h].ty) + 1) && KeepsOthers(w, o.1, h)
    ensures o.0.Err? ==> ResolveError(o.0.error)
    decreases v, 3, 0
  {
    var L := ListOf(w.heap[h], k);
    var target := ListRelations(w.heap[h].ty)[k];
    RelationsDescend(w.heap[h].ty, k);
    var (r1, w1) := UpdateItemsOutcome(w, target, L, v, idx, 0);
    if r1.Err? then (r1, w1)
    else AddItemsOutcome(w1, h, k, v, idx, |L|, 0)
  }

  /** The first loop: each position p of the snapshot L, in order, that some key names
      gets the fields of the item at key str(p), in place. */
  function UpdateItemsOutcome(w: World, t: TypeName, L: seq<Handle>, v: Doc, idx: seq<int>, p: nat)
    : (o: (Result<()>, World))
    requires WellFormed(w) && v.Dict? && p <= |L| && AllOfType(w, L, t)
    ensures WellFormed(o.1) && Extends(w, o.1) && o.1.ops == w.ops
    ensures KeepsFrom(w, o.1, Rank(t) + 1)
    ensures o.0.Err? ==> ResolveError(o.0.error)
    decreases v, 1, |L| - p
  {
    if p == |L| then (Ok(()), w)
    else if p !in idx then UpdateItemsOutcome(w, t, L, v, idx, p + 1)
    else match Find(v.entries, ShowInt(p))
      case None => (Err(AttributeError), w)
      case Some(j) =>
        var item := v.entries[j].1;
        if !item.Dict? then (Err(AttributeError), w)
        else
          var (r1, w1) := ResolveEntriesOutcome(w, L[p], item, 0);
          if r1.Err? then (r1, w1) else UpdateItemsOutcome(w1, t, L, v, idx, p + 1)
  }

  /** The second loop: every entry from i on whose index is no position below n, in
      document order, is acquired, given its own fields, then appended. There is no
      membership test. */
  function AddItemsOutcome(w: World, h: Handle, k: string, v: Doc, idx: seq<int>, n: nat, i: nat)
    : (o: (Result<()>, World))
    requires WellFormed(w) && h in w.heap && k in ListRelations(w.heap[h].ty)
    requires v.Dict? && |idx| == |v.entries| && i <= |v.entries|
    ensures WellFormed(o.1) && Extends(w, o.1) && o.1.ops == w.ops
    ensures KeepsFrom(w, o.1, Rank(w.heap[h].ty) + 1) && KeepsOthers(w, o.1, h)
    ensures o.0.Err? ==> ResolveError(o.0.error)
    decreases v, 2, |v.entries| - i, 2
  {
    if i == |v.entries| then (Ok(()), w)
    else if 0 <= idx[i] < n then AddItemsOutcome(w, h, k, v, idx, n, i + 1)
    else
      var (r1, w1) := AddOneOutcome(w, h, k, v, i);
      if r1.Err? then (r1, w1) else AddItemsOutcome(w1, h, k, v, idx, n, i + 1)
  }

  /** One turn of the second loop, for the item of entry i: it is acquired and its own
      fields resolved, then it is appended to list k of h. Only list k of h grows, by
      exactly that item on success. */
  function AddOneOutcome(w: World, h: Handle, k: string, v: Doc, i: nat): (o: (Result<()>, World))
    requires WellFormed(w) && h in w.heap && k in ListRelations(w.heap[h].ty)
    requires v.Dict? && i < |v.entries|
    ensures WellFormed(o.1) && Extends(w, o.1) && o.1.ops == w.ops
    ensures KeepsFrom(w, o.1, Rank(w.heap[h].ty) + 1) && KeepsOthers(w, o.1, h)
    ensures o.0.Err? ==> ResolveError(o.0.error)
    ensures OnlyAppends(w.heap[h], o.1.heap[h], k)
    ensures o.0.Ok? ==> (v.entries[i].1.Dict? &&
      var L, L' := ListOf(w.heap[h], k), ListOf(o.1.heap[h], k);
      var id := GetOrNone(v.entries[i].1.entries, IdCol);
      |L'| == |L| + 1 && L' == L + [L'[|L|]] &&
      if Truthy(id) then Lookup(w, ListRelations(w.heap[h].ty)[k], id) == Some(L'[|L|])
      else L'[|L|] == w.next && w.next !in w.heap)
    decreases v, 2, |v.entries| - i, 1
  {
    var t := ListRelations(w.heap[h].ty)[k];
    RelationsDescend(w.heap[h].ty, k);
    var (r1, w1) := AcquireItemOutcome(w, t, v, i);
    assert KeepsFrom(w, w1, Rank(w.heap[h].ty));
    assert w1.heap[h] == w.heap[h];
    if r1.Err? then (Err(r1.error), w1)
    else
      var w2 := AppendTo(w1, h, k, r1.value);
      AppendOnlyAppends(w1, h, k, r1.value);
      AppendKeeps(w, w1, h, k, r1.value);
      (Ok(()), w2)
  }

  /** After a step that kept every instance of h's rank or above, appending to a list
      of h keeps everything above h's rank and every other instance of its rank. */
  lemma AppendKeeps(w: World, w1: World, h: Handle, k: string, c: Handle)
    requires WellFormed(w1) && CanAppend(w1, h, k, c) && h in w.heap
    requires KeepsFrom(w, w1, Rank(w.heap[h].ty))
    ensures KeepsFrom(w, AppendTo(w1, h, k, c), Rank(w.heap[h].ty) + 1)
    ensures KeepsOthers(w, AppendTo(w1, h, k, c), h)
  {
  }

  /** append(c) on list k of h adds c at its end and touches nothing else of h. */
  lemma AppendOnlyAppends(w: World, h: Handle, k: string, c: Handle)
    requires WellFormed(w) && CanAppend(w, h, k, c)
    ensures OnlyAppends(w.heap[h], AppendTo(w, h, k, c).heap[h], k)
    ensures ListOf(AppendTo(w, h, k, c).heap[h], k) == ListOf(w.heap[h], k) + [c]
  {
  }

  /** The part of one turn of the second loop before the append: the item of entry i
      is acquired (looked up or instantiated as class t), and its own fields are
      resolved on it. A looked-up id that is unknown leaves nothing to resolve on. */
  function AcquireItemOutcome(w: World, t: TypeName, v: Doc, i: nat): (o: (Result<Handle>, World))
    requires WellFormed(w) && v.Dict? && i < |v.entries|
    ensures WellFormed(o.1) && Extends(w, o.1) && o.1.ops == w.ops
    ensures KeepsFrom(w, o.1, Rank(t) + 1)
    ensures o.0.Err? ==> ResolveError(o.0.error)
    ensures o.0.Ok? ==> o.0.value in o.1.heap && o.1.heap[o.0.value].ty == t
    ensures o.0.Ok? ==> (v.entries[i].1.Dict? &&
      var id := GetOrNone(v.entries[i].1.entries, IdCol);
      if Truthy(id) then Lookup(w, t, id) == Some(o.0.value) else o.0.value == w.next && w.next !in w.heap)
    decreases v, 2, |v.entries| - i, 0
  {
    var item := v.entries[i].1;
    var (r1, w1) := AcquireOutcome(w, t, item);
    if r1.Err? then (Err(r1.error), w1)
    else if r1.value.None? then (Err(NoneTargetError(item)), w1)
    else
      var c := r1.value.value;
      var (r2, w2) := ResolveEntriesOutcome(w1, c, item, 0);
      if r2.Err? then (Err(r2.error), w2) else (Ok(c), w2)
  }

  /** `for k, v in d.iteritems(): __resolveAndSetAttribute(h, k, v)`, from entry i on,
      stopping at the first exception. */
  function ResolveEntriesOutcome(w: World, h: Handle, d: Doc, i: nat): (o: (Result<()>, World))
    requires WellFormed(w) && h in w.heap && d.Dict? && i <= |d.entries|
    ensures WellFormed(o.1) && Extends(w, o.1) && o.1.ops == w.ops
    ensures KeepsFrom(w, o.1, Rank(w.heap[h].ty) + 1) && KeepsOthers(w, o.1, h)
    ensures o.0.Err? ==> ResolveError(o.0.error)
    decreases d, 0, |d.entries| - i
  {
    if i == |d.entries| then (Ok(()), w)
    else
      var (r1, w1) := ResolveAttrOutcome(w, h, d.entries[i].0, d.entries[i].1);
      if r1.Err? then (r1, w1) else ResolveEntriesOutcome(w1, h, d, i + 1)
  }

  /** e' is e with elements appended to list k only. */
  ghost predicate OnlyAppends(e: Entity, e': Entity, k: string) {
    e'.ty == e.ty && e'.cols == e.cols &&
    (forall m :: m != k ==> ListOf(e', m) == ListOf(e, m)) &&
    ListOf(e, k) <= ListOf(e', k)
  }

  /** e' is e with list k grown by exactly extra elements when ok holds. */
  ghost predicate Grew(e: Entity, e': Entity, k: string, ok: bool, extra: nat) {
    OnlyAppends(e, e', k) && (ok ==> |ListOf(e', k)| == |ListOf(e, k)| + extra)
  }

  lemma GrewTrans(e1: Entity, e2: Entity, e3: Entity, k: string, ok: bool, m: nat, n: nat)
    requires Grew(e1, e2, k, true, m) && Grew(e2, e3, k, ok, n)
    ensures Grew(e1, e3, k, ok, m + n)
  {
  }

  lemma OnlyAppendsTrans(e1: Entity, e2: Entity, e3: Entity, k: string)
    requires OnlyAppends(e1, e2, k) && OnlyAppends(e2, e3, k)
    ensures OnlyAppends(e1, e3, k)
  {
  }

  /** A turn of the second loop that appends and succeeds hands on to the next entry. */
  lemma AddItemsStep(w: World, h: Handle, k: string, v: Doc, idx: seq<int>, n: nat, i: nat)
    requires WellFormed(w) && h in w.heap && k in ListRelations(w.heap[h].ty)
    requires v.Dict? && |idx| == |v.entries| && i < |v.entries| && !(0 <= idx[i] < n)
    requires AddOneOutcome(w, h, k, v, i).0.Ok?
    ensures AddItemsOutcome(w, h, k, v, idx, n, i) == AddItemsOutcome(AddOneOutcome(w, h, k, v, i).1, h, k, v, idx, n, i + 1)
  {
  }

  /** The second loop changes h only by appending to list k: its columns and other
      lists stay, the old elements keep their positions, and on success exactly one
      element is added per entry that names no existing position. */
  lemma {:induction false} AddItemsGrows(w: World, h: Handle, k: string, v: Doc, idx: seq<int>, n: nat, i: nat)
    requires WellFormed(w) && h in w.heap && k in ListRelations(w.heap[h].ty)
    requires v.Dict? && |idx| == |v.entries| && i <= |v.entries|
    ensures var o := AddItemsOutcome(w, h, k, v, idx, n, i);
      Grew(w.heap[h], o.1.heap[h], k, o.0.Ok?, Appended(idx, n, i))
    decreases |v.entries| - i, 1
  {
    if i < |v.entries| {
      if 0 <= idx[i] < n {
        assert AddItemsOutcome(w, h, k, v, idx, n, i) == AddItemsOutcome(w, h, k, v, idx, n, i + 1);
        AddItemsGrows(w, h, k, v, idx, n, i + 1);
      } else {
        AddOneGrows(w, h, k, v, idx, n, i);
      }
    }
  }

  /** AddItemsGrows for an entry that appends. */
  lemma {:induction false} AddOneGrows(w: World, h: Handle, k: string, v: Doc, idx: seq<int>, n: nat, i: nat)
    requires WellFormed(w) && h in w.heap && k in ListRelations(w.heap[h].ty)
    requires v.Dict? && |idx| == |v.entries| && i < |v.entries| && !(0 <= idx[i] < n)
    ensures var o := AddItemsOutcome(w, h, k, v, idx, n, i);
      Grew(w.heap[h], o.1.heap[h], k, o.0.Ok?, Appended(idx, n, i))
    decreases |v.entries| - i, 0
  {
    var (r1, w1) := AddOneOutcome(w, h, k, v, i);
    if r1.Ok? {
      AddItemsStep(w, h, k, v, idx, n, i);
      AddItemsGrows(w1, h, k, v, idx, n, i + 1);
      var o := AddItemsOutcome(w1, h, k, v, idx, n, i + 1);
      GrewTrans(w.heap[h], w1.heap[h], o.1.heap[h], k, o.0.Ok?, 1, Appended(idx, n, i + 1));
    } else {
      AddItemsStop(w, h, k, v, idx, n, i);
    }
  }

  /** Where the second loop puts entry i's item, counting from entry i0: after the
      m elements of the old list and one element for each earlier appending entry. */
  function Slot(idx: seq<int>, n: nat, i0: nat, i: nat, m: nat): int
    requires i0 <= i <= |idx|
  {
    m + Appended(idx, n, i0) - Appended(idx, n, i)
  }

  /** After the second loop from entry i0 on gives L' with success ok: each entry from
      i0 on that names no position below n put, at its slot after the m elements of
      the old list, the record it acquired in w: the stored record for a truthy id,
      otherwise an instance fresh to w. */
  ghost predicate Placed(w: World, t: TypeName, v: Doc, idx: seq<int>, n: nat, i0: nat, m: nat, L': seq<Handle>, ok: bool)
    requires WellFormed(w) && v.Dict? && |idx| == |v.entries| && i0 <= |v.entries|
  {
    ok ==> forall i :: i0 <= i < |v.entries| && !(0 <= idx[i] < n) ==>
      v.entries[i].1.Dict? && 0 <= Slot(idx, n, i0, i, m) < |L'| &&
      var id := GetOrNone(v.entries[i].1.entries, IdCol);
      if Truthy(id) then Lookup(w, t, id) == Some(L'[Slot(idx, n, i0, i, m)])
      else L'[Slot(idx, n, i0, i, m)] !in w.heap
  }

  /** The second loop appends, for each entry from i0 on that names no position below
      n, the record it acquires, in document order: the stored record for a truthy id,
      otherwise a fresh instance. */
  lemma {:induction false} AddItemsPlaces(w: World, h: Handle, k: string, v: Doc, idx: seq<int>, n: nat, i0: nat)
    requires WellFormed(w) && h in w.heap && k in ListRelations(w.heap[h].ty)
    requires v.Dict? && |idx| == |v.entries| && i0 <= |v.entries|
    ensures var o := AddItemsOutcome(w, h, k, v, idx, n, i0);
      Placed(w, ListRelations(w.heap[h].ty)[k], v, idx, n, i0, |ListOf(w.heap[h], k)|, ListOf(o.1.heap[h], k), o.0.Ok?)
    decreases |v.entries| - i0, 1
  {
    if i0 < |v.entries| {
      if 0 <= idx[i0] < n {
        AddItemsSkip(w, h, k, v, idx, n, i0);
        AddItemsPlaces(w, h, k, v, idx, n, i0 + 1);
        var o := AddItemsOutcome(w, h, k, v, idx, n, i0);
        PlacedSkip(w, ListRelations(w.heap[h].ty)[k], v, idx, n, i0, |ListOf(w.heap[h], k)|, ListOf(o.1.heap[h], k), o.0.Ok?);
      } else {
        AddOnePlaces(w, h, k, v, idx, n, i0);
      }
    }
  }

  /** AddItemsPlaces for an entry that appends. */
  lemma {:induction false} AddOnePlaces(w: World, h: Handle, k: string, v: Doc, idx: seq<int>, n: nat, i0: nat)
    requires WellFormed(w) && h in w.heap && k in ListRelations(w.heap[h].ty)
    requires v.Dict? && |idx| == |v.entries| && i0 < |v.entries| && !(0 <= idx[i0] < n)
    ensures var o := AddItemsOutcome(w, h, k, v, idx, n, i0);
      Placed(w, ListRelations(w.heap[h].ty)[k], v, idx, n, i0, |ListOf(w.heap[h], k)|, ListOf(o.1.heap[h], k), o.0.Ok?)
    decreases |v.entries| - i0, 0
  {
    var (r1, w1) := AddOneOutcome(w, h, k, v, i0);
    if r1.Ok? {
      AddItemsStep(w, h, k, v, idx, n, i0);
      AddItemsPlaces(w1, h, k, v, idx, n, i0 + 1);
      AddItemsGrows(w1, h, k, v, idx, n, i0 + 1);
      var o := AddItemsOutcome(w1, h, k, v, idx, n, i0 + 1);
      PlacedStep(w, w1, ListRelations(w.heap[h].ty)[k], v, idx, n, i0, |ListOf(w.heap[h], k)|,
                 ListOf(w1.heap[h], k), ListOf(o.1.heap[h], k), o.0.Ok?);
    } else {
      AddItemsStop(w, h, k, v, idx, n, i0);
    }
  }

  /** An entry that names a position below n is passed over by the second loop. */
  lemma AddItemsSkip(w: World, h: Handle, k: string, v: Doc, idx: seq<int>, n: nat, i: nat)
    requires WellFormed(w) && h in w.heap && k in ListRelations(w.heap[h].ty)
    requires v.Dict? && |idx| == |v.entries| && i < |v.entries| && 0 <= idx[i] < n
    ensures AddItemsOutcome(w, h, k, v, idx, n, i) == AddItemsOutcome(w, h, k, v, idx, n, i + 1)
  {
  }

  lemma PlacedSkip(w: World, t: TypeName, v: Doc, idx: seq<int>, n: nat, i0: nat, m: nat, L': seq<Handle>, ok: bool)
    requires WellFormed(w) && v.Dict? && |idx| == |v.entries| && i0 < |v.entries| && 0 <= idx[i0] < n
    requires Placed(w, t, v, idx, n, i0 + 1, m, L', ok)
    ensures Placed(w, t, v, idx, n, i0, m, L', ok)
  {
    assert forall i :: i0 < i <= |idx| ==> Slot(idx, n, i0, i, m) == Slot(idx, n, i0 + 1, i, m);
  }

  /** Placed from entry i0, which appended L1[m] (acquired in w), given Placed from
      i0 + 1 in the store w1 that followed, whose list L1 is a prefix of L'. */
  lemma PlacedStep(w: World, w1: World, t: TypeName, v: Doc, idx: seq<int>, n: nat, i0: nat, m: nat,
                   L1: seq<Handle>, L': seq<Handle>, ok: bool)
    requires WellFormed(w) && WellFormed(w1) && Extends(w, w1)
    requires v.Dict? && |idx| == |v.entries| && i0 < |v.entries| && !(0 <= idx[i0] < n)
    requires |L1| == m + 1 && (ok ==> L1 <= L')
    requires v.entries[i0].1.Dict? &&
      var id := GetOrNone(v.entries[i0].1.entries, IdCol);
      if Truthy(id) then Lookup(w, t, id) == Some(L1[m]) else L1[m] !in w.heap
    requires Placed(w1, t, v, idx, n, i0 + 1, m + 1, L', ok)
    ensures Placed(w, t, v, idx, n, i0, m, L', ok)
  {
    if ok {
      forall i | i0 <= i < |v.entries| && !(0 <= idx[i] < n)
        ensures v.entries[i].1.Dict? && 0 <= Slot(idx, n, i0, i, m) < |L'| &&
          var id := GetOrNone(v.entries[i].1.entries, IdCol);
          if Truthy(id) then Lookup(w, t, id) == Some(L'[Slot(idx, n, i0, i, m)])
          else L'[Slot(idx, n, i0, i, m)] !in w.heap
      {
        var id := GetOrNone(v.entries[i].1.entries, IdCol);
        if i == i0 {
          assert Slot(idx, n, i0, i, m) == m;
          assert L'[m] == L1[m];
        } else {
          assert Slot(idx, n, i0, i, m) == Slot(idx, n, i0 + 1, i, m + 1);
          LookupStable(w, w1, t, id);
        }
      }
    }
  }

  /** A turn of the second loop that fails ends it. */
  lemma AddItemsStop(w: World, h: Handle, k: string, v: Doc, idx: seq<int>, n: nat, i: nat)
    requires WellFormed(w) && h in w.heap && k in ListRelations(w.heap[h].ty)
    requires v.Dict? && |idx| == |v.entries| && i < |v.entries| && !(0 <= idx[i] < n)
    requires AddOneOutcome(w, h, k, v, i).0.Err?
    ensures AddItemsOutcome(w, h, k, v, idx, n, i) == AddOneOutcome(w, h, k, v, i)
  {
  }

  // ---- __resolveAndSetAttribute on db ----

  /** `item_class.query.get(existing_id)` or `item_class()`. */
  method Acquire(db: Db, t: TypeName, item: Doc) returns (r: Result<Option<Handle>>)
    requires db.Valid()
    modifies db
    ensures db.Valid()
    ensures (r, db.State()) == AcquireOutcome(old(db.State()), t, item)
  {
    if !item.Dict? {
      r := Err(AttributeError);
    } else {
      var existingId := GetOrNone(item.entries, IdCol);
      if Truthy(existingId) {
        var found := db.Get(t, existingId);
        r := Ok(found);
      } else {
        var h := db.Instantiate(t);
        r := Ok(Some(h));
      }
    }
  }

  method ResolveAndSetAttribute(db: Db, h: Handle, k: string, v: Doc) returns (r: Result<()>)
    requires db.Valid() && h in db.heap
    modifies db
    ensures db.Valid()
    ensures (r, db.State()) == ResolveAttrOutcome(old(db.State()), h, k, v)
    decreases v, 3
  {
    var t := db.heap[h].ty;
    if k != IdCol && k in Columns(t) {
      db.SetAttr(h, k, v);
      r := Ok(());
    } else if !IsAttribute(t, k) {
      r := Err(AttributeError);
    } else if k in ClassLists(t) {
      r := ClassListOutcome(ClassLists(t)[k], v);
    } else if k !in ListRelations(t) {
      r := Ok(());
    } else if !v.Dict? {
      r := Err(AttributeError);
    } else {
      var keys := ParseKeys(v.entries);
      if keys.None? {
        r := Err(ValueError);
      } else {
        r := ResolveList(db, h, k, v, keys.value);
      }
    }
  }

  method ResolveList(db: Db, h: Handle, k: string, v: Doc, idx: seq<int>) returns (r: Result<()>)
    requires db.Valid() && h in db.heap && k in ListRelations(db.heap[h].ty)
    requires v.Dict? && |idx| == |v.entries|
    modifies db
    ensures db.Valid()
    ensures (r, db.State()) == ResolveListOutcome(old(db.State()), h, k, v, idx)
    decreases v, 3, 0
  {
    var L := ListOf(db.heap[h], k);
    RelationsDescend(db.heap[h].ty, k);
    r := UpdateItems(db, ListRelations(db.heap[h].ty)[k], L, v, idx);
    if r.Ok? {
      r := AddItems(db, h, k, v, idx, |L|);
    }
  }

  /** The first loop, over the snapshot L of the list. */
  method UpdateItems(db: Db, t: TypeName, L: seq<Handle>, v: Doc, idx: seq<int>) returns (r: Result<()>)
    requires db.Valid() && v.Dict? && AllOfType(db.State(), L, t)
    modifies db
    ensures db.Valid()
    ensures (r, db.State()) == UpdateItemsOutcome(old(db.State()), t, L, v, idx, 0)
    decreases v, 1
  {
    var p := 0;
    while p < |L|
      invariant p <= |L| && db.Valid() && AllOfType(db.State(), L, t)
      invariant UpdateItemsOutcome(old(db.State()), t, L, v, idx, 0) == UpdateItemsOutcome(db.State(), t, L, v, idx, p)
      decreases |L| - p
    {
      if p in idx {
        var j := Find(v.entries, ShowInt(p));
        if j.None? {
          return Err(AttributeError);
        }
        var item := v.entries[j.value].1;
        if !item.Dict? {
          return Err(AttributeError);
        }
        var r1 := ResolveEntries(db, L[p], item);
        if r1.Err? {
          return r1;
        }
      }
      p := p + 1;
    }
    r := Ok(());
  }

  /** The second loop: every entry that names no position below n appends one item. */
  method AddItems(db: Db, h: Handle, k: string, v: Doc, idx: seq<int>, n: nat) returns (r: Result<()>)
    requires db.Valid() && h in db.heap && k in ListRelations(db.heap[h].ty)
    requires v.Dict? && |idx| == |v.entries|
    modifies db
    ensures db.Valid()
    ensures (r, db.State()) == AddItemsOutcome(old(db.State()), h, k, v, idx, n, 0)
    decreases v, 2, 2
  {
    var i := 0;
    while i < |v.entries|
      invariant i <= |v.entries| && db.Valid() && h in db.heap && db.heap[h].ty == old(db.heap[h].ty)
      invariant AddItemsOutcome(old(db.State()), h, k, v, idx, n, 0) == AddItemsOutcome(db.State(), h, k, v, idx, n, i)
      decreases |v.entries| - i
    {
      if !(0 <= idx[i] < n) {
        ghost var s := db.State();
        var r1 := AddOne(db, h, k, v, i);
        if r1.Err? {
          return r1;
        }
        AddItemsStep(s, h, k, v, idx, n, i);
      }
      i := i + 1;
    }
    r := Ok(());
  }

  method AddOne(db: Db, h: Handle, k: string, v: Doc, i: nat) returns (r: Result<()>)
    requires db.Valid() && h in db.heap && k in ListRelations(db.heap[h].ty)
    requires v.Dict? && i < |v.entries|
    modifies db
    ensures db.Valid()
    ensures (r, db.State()) == AddOneOutcome(old(db.State()), h, k, v, i)
    decreases v, 2, 1
  {
    RelationsDescend(db.heap[h].ty, k);
    var c := AcquireItem(db, ListRelations(db.heap[h].ty)[k], v, i);
    if c.Err? {
      return Err(c.error);
    }
    db.Append(h, k, c.value);
    r := Ok(());
  }

  method AcquireItem(db: Db, t: TypeName, v: Doc, i: nat) returns (r: Result<Handle>)
    requires db.Valid() && v.Dict? && i < |v.entries|
    modifies db
    ensures db.Valid()
    ensures (r, db.State()) == AcquireItemOutcome(old(db.State()), t, v, i)
    decreases v, 2, 0
  {
    var item := v.entries[i].1;
    var found := Acquire(db, t, item);
    if found.Err? {
      return Err(found.error);
    }
    if found.value.None? {
      return Err(NoneTargetError(item));
    }
    var c := found.value.value;
    var r2 := ResolveEntries(db, c, item);
    if r2.Err? {
      return Err(r2.error);
    }
    r := Ok(c);
  }

  method ResolveEntries(db: Db, h: Handle, d: Doc) returns (r: Result<()>)
    requires db.Valid() && h in db.heap && d.Dict?
    modifies db
    ensures db.Valid()
    ensures (r, db.State()) == ResolveEntriesOutcome(old(db.State()), h, d, 0)
    decreases d, 0
  {
    var i := 0;
    while i < |d.entries|
      invariant i <= |d.entries| && db.Valid() && h in db.heap && db.heap[h].ty == old(db.heap[h].ty)
      invariant ResolveEntriesOutcome(old(db.State()), h, d, 0) == ResolveEntriesOutcome(db.State(), h, d, i)
      decreases |d.entries| - i
    {
      var r1 := ResolveAndSetAttribute(db, h, d.entries[i].0, d.entries[i].1);
      if r1.Err? {
        return r1;
      }
      i := i + 1;
    }
    r := Ok(());
  }

  // ---- sync_object ----

  /** What sync_object returns: True after a delete, otherwise the record. */
  datatype Synced = Deleted | Record(h: Handle)

  /** The delete branch, given what existing_record.permit_delete(...) returned. */
  function DeleteOutcome(w: World, h: Handle, permit: Result<bool>, commit: bool): (o: (Result<Synced>, World))
    requires WellFormed(w)
    ensures WellFormed(o.1) && Extends(w, o.1)
    ensures o.0.Ok? <==> permit == Ok(true)
    ensures o.0.Ok? ==> o.0 == Ok(Deleted) && o.1 == w.(ops := w.ops + [Removed(h), Flushed] + CommitOps(commit))
    ensures o.0.Err? ==> o.1 == w && (permit.Err? ==> o.0.error == permit.error) && (permit == Ok(false) ==> o.0.error == PermissionException)
  {
    match Check(permit, PermissionException)
    case Err(e) => (Err(e), w)
    case Ok(_) => (Ok(Deleted), Log(w, [Removed(h), Flushed] + CommitOps(commit)))
  }

  /** The update branch: permit_update once on the whole document, every key resolved on
      the record, then flush and commit whatever the commit flag says. */
  function UpdateRecordOutcome(w: World, h: Handle, es: seq<(string, Doc)>, user: Principal): (o: (Result<Synced>, World))
    requires WellFormed(w) && h in w.heap
    ensures WellFormed(o.1) && Extends(w, o.1)
    ensures var permit := PermitUpdate(w.heap[h].ty, w.heap[h].cols, es, user);
      permit != Ok(true) ==> o == (Err(Check(permit, PermissionException).error), w)
    ensures o.0.Ok? ==> o.0 == Ok(Record(h)) && o.1.ops == w.ops + [Flushed, Committed]
    ensures o.0.Err? ==> o.1.ops == w.ops
    ensures o.0.Err? && PermitUpdate(w.heap[h].ty, w.heap[h].cols, es, user) == Ok(true) ==> ResolveError(o.0.error)
  {
    match Check(PermitUpdate(w.heap[h].ty, w.heap[h].cols, es, user), PermissionException)
    case Err(e) => (Err(e), w)
    case Ok(_) =>
      var (r, w1) := ResolveEntriesOutcome(w, h, Dict(es), 0);
      if r.Err? then (Err(r.error), w1) else (Ok(Record(h)), Log(w1, [Flushed, Committed]))
  }

  /** The create branch: permit_create on the whole document, then the fresh instance is
      added to the session, every key resolved on it, flushed, and committed if asked. */
  function CreateRecordOutcome(w: World, t: TypeName, es: seq<(string, Doc)>, commit: bool, user: Principal)
    : (o: (Result<Synced>, World))
    requires WellFormed(w)
    ensures WellFormed(o.1) && Extends(w, o.1)
    ensures var permit := PermitCreate(t, es, user);
      permit != Ok(true) ==> o == (Err(Check(permit, PermissionException).error), w)
    ensures PermitCreate(t, es, user) == Ok(true) ==> o == NewRecordOutcome(w, t, es, commit)
  {
    match Check(PermitCreate(t, es, user), PermissionException)
    case Err(e) => (Err(e), w)
    case Ok(_) => NewRecordOutcome(w, t, es, commit)
  }

  /** The create branch once permitted: mapper_class(), db.session.add, the keys
      resolved on it, flush, and commit if asked. */
  function NewRecordOutcome(w: World, t: TypeName, es: seq<(string, Doc)>, commit: bool): (o: (Result<Synced>, World))
    requires WellFormed(w)
    ensures WellFormed(o.1) && Extends(w, o.1) && w.next !in w.heap
    ensures o.0.Ok? ==> (o.0 == Ok(Record(w.next)) && w.next in o.1.heap &&
      o.1.heap[w.next].ty == t && o.1.ops == w.ops + [Staged(w.next), Flushed] + CommitOps(commit))
    ensures o.0.Err? ==> o.1.ops == w.ops + [Staged(w.next)] && ResolveError(o.0.error)
  {
    var (h, w1) := Allocate(w, t);
    var w2 := Log(w1, [Staged(h)]);
    var (r, w3) := ResolveEntriesOutcome(w2, h, Dict(es), 0);
    if r.Err? then (Err(r.error), w3) else (Ok(Record(h)), Log(w3, [Flushed] + CommitOps(commit)))
  }

  /** The record sync_object updates or deletes: query.get of a truthy root id. */
  function ExistingRecord(w: World, t: TypeName, es: seq<(string, Doc)>, idCol: string): (r: Option<Handle>)
    requires WellFormed(w)
    ensures r.Some? ==> r.value in w.heap && w.heap[r.value].ty == t
    ensures r.Some? ==> Truthy(GetOrNone(es, idCol)) && r == Lookup(w, t, GetOrNone(es, idCol))
  {
    var existingId := GetOrNone(es, idCol);
    if Truthy(existingId) then Lookup(w, t, existingId) else None
  }

  /** sync_object(db, t, dict, delete, id_col_name, commit, user). */
  function SyncOutcome(w: World, t: TypeName, dict: seq<(string, Doc)>, delete: bool, idCol: string, commit: bool,
                       user: Principal): (o: (Result<Synced>, World))
    requires WellFormed(w)
    ensures WellFormed(o.1) && Extends(w, o.1)
    ensures Unflattened(dict).Err? ==> o == (Err(TypeError), w)
  {
    match Unflattened(dict)
    case Err(e) => (Err(e), w)
    case Ok(es) =>
      match ExistingRecord(w, t, es, idCol)
      case Some(h) =>
        if delete then DeleteOutcome(w, h, PermitDelete(t, w.heap[h].cols, es, user), commit)
        else UpdateRecordOutcome(w, h, es, user)
      case None => CreateRecordOutcome(w, t, es, commit, user)
  }

  method Delete(db: Db, h: Handle, permit: Result<bool>, commit: bool) returns (r: Result<Synced>)
    requires db.Valid()
    modifies db
    ensures db.Valid()
    ensures (r, db.State()) == DeleteOutcome(old(db.State()), h, permit, commit)
  {
    var c := Check(permit, PermissionException);
    if c.Err? {
      return Err(c.error);
    }
    db.Record(Removed(h));
    db.FlushAndCommit(commit);
    assert db.ops == old(db.ops) + ([Removed(h), Flushed] + CommitOps(commit));
    r := Ok(Deleted);
  }

  method UpdateRecord(db: Db, h: Handle, es: seq<(string, Doc)>, user: Principal) returns (r: Result<Synced>)
    requires db.Valid() && h in db.heap
    modifies db
    ensures db.Valid()
    ensures (r, db.State()) == UpdateRecordOutcome(old(db.State()), h, es, user)
  {
    var c := Check(PermitUpdate(db.heap[h].ty, db.heap[h].cols, es, user), PermissionException);
    if c.Err? {
      return Err(c.error);
    }
    var r1 := ResolveEntries(db, h, Dict(es));
    if r1.Err? {
      return Err(r1.error);
    }
    db.FlushAndCommit(true);
    assert [Flushed] + CommitOps(true) == [Flushed, Committed];
    r := Ok(Record(h));
  }

  method CreateRecord(db: Db, t: TypeName, es: seq<(string, Doc)>, commit: bool, user: Principal) returns (r: Result<Synced>)
    requires db.Valid()
    modifies db
    ensures db.Valid()
    ensures (r, db.State()) == CreateRecordOutcome(old(db.State()), t, es, commit, user)
  {
    var c := Check(PermitCreate(t, es, user), PermissionException);
    if c.Err? {
      return Err(c.error);
    }
    r := NewRecord(db, t, es, commit);
  }

  method NewRecord(db: Db, t: TypeName, es: seq<(string, Doc)>, commit: bool) returns (r: Result<Synced>)
    requires db.Valid()
    modifies db
    ensures db.Valid()
    ensures (r, db.State()) == NewRecordOutcome(old(db.State()), t, es, commit)
  {
    var h := db.Instantiate(t);
    db.Record(Staged(h));
    var r1 := ResolveEntries(db, h, Dict(es));
    if r1.Err? {
      return Err(r1.error);
    }
    db.FlushAndCommit(commit);
    r := Ok(Record(h));
  }

  method SyncObject(db: Db, t: TypeName, dict: seq<(string, Doc)>, delete: bool, idCol: string, commit: bool,
                    user: Principal) returns (r: Result<Synced>)
    requires db.Valid()
    modifies db
    ensures db.Valid()
    ensures (r, db.State()) == SyncOutcome(old(db.State()), t, dict, delete, idCol, commit, user)
  {
    var u := Unflatten.Unflatten(dict);
    if u.Err? {
      return Err(u.error);
    }
    var es := u.value;
    var existingId := GetOrNone(es, idCol);
    var existing: Option<Handle> := None;
    if Truthy(existingId) {
      existing := db.Get(t, existingId);
    }
    if existing.Some? {
      if delete {
        r := Delete(db, existing.value, PermitDelete(t, db.heap[existing.value].cols, es, user), commit);
      } else {
        r := UpdateRecord(db, existing.value, es, user);
      }
    } else {
      r := CreateRecord(db, t, es, commit, user);
    }
  }

  // ---- what __resolveAndSetAttribute and sync_object promise ----

  /** A column other than the id column is set to the value given, and nothing else in
      the store changes. */
  lemma ResolveColumnExact(w: World, h: Handle, k: string, v: Doc)
    requires WellFormed(w) && h in w.heap && k != IdCol && k in Columns(w.heap[h].ty)
    ensures var o := ResolveAttrOutcome(w, h, k, v);
      o.0 == Ok(()) && o.1.heap.Keys == w.heap.Keys && o.1.index == w.index && o.1.ops == w.ops &&
      o.1.heap[h].cols == w.heap[h].cols[k := v] && o.1.heap[h].lists == w.heap[h].lists &&
      forall x :: x in w.heap && x != h ==> o.1.heap[x] == w.heap[x]
  {
  }

  /** The id key is never written: __resolveAndSetAttribute on it changes nothing. */
  lemma IdNeverWritten(w: World, h: Handle, v: Doc)
    requires WellFormed(w) && h in w.heap
    ensures ResolveAttrOutcome(w, h, IdCol, v) == (Ok(()), w)
  {
  }

  /** A list-valued class attribute takes the list branch and changes nothing; unless
      it is ChildThing.__allow_associate__ (which lists a class), it succeeds only on an
      empty dict. */
  lemma ResolveClassAttribute(w: World, h: Handle, k: string, v: Doc)
    requires WellFormed(w) && h in w.heap && k in ClassLists(w.heap[h].ty)
    ensures ResolveAttrOutcome(w, h, k, v) == (ClassListOutcome(ClassLists(w.heap[h].ty)[k], v), w)
    ensures !(w.heap[h].ty == ChildThing && k == "__allow_associate__") ==>
      (ResolveAttrOutcome(w, h, k, v).0.Ok? <==> v == Dict([]))
  {
    var t := w.heap[h].ty;
    var items := ClassLists(t)[k];
    ClassListsShape(t, k, 0);
    assert ResolveAttrOutcome(w, h, k, v) == (ClassListOutcome(items, v), w);
    if !(t == ChildThing && k == "__allow_associate__") {
      forall p | 0 <= p < |items| ensures items[p].Name? {
        ClassListsShape(t, k, p);
      }
      NameListRaises(items, v);
    }
  }

  /** Any other attribute that is neither a column (other than the id column), a
      relation nor a list, such as the scalar backref, a hook or `__class__`, is left
      alone. */
  lemma ResolveIgnoresOthers(w: World, h: Handle, k: string, v: Doc)
    requires WellFormed(w) && h in w.heap
    requires k in OtherAttributes(w.heap[h].ty) && !(k != IdCol && k in Columns(w.heap[h].ty))
    requires k !in ListRelations(w.heap[h].ty) && k !in ClassLists(w.heap[h].ty)
    ensures ResolveAttrOutcome(w, h, k, v) == (Ok(()), w)
  {
  }

  /** After o, h differs from w only by appends to list k, and on success by exactly
      one element for each entry of idx that names no position of the old list. */
  ghost predicate ListGrew(w: World, o: (Result<()>, World), h: Handle, k: string, idx: seq<int>)
    requires h in w.heap && h in o.1.heap
  {
    Grew(w.heap[h], o.1.heap[h], k, o.0.Ok?, Appended(idx, |ListOf(w.heap[h], k)|, 0))
  }

  /** For a to-many relation given as a dict of indices: the positions updated in place
      and the appends leave the columns and every other relation of h alone, every
      existing element keeps its position, and on success the list grows by exactly
      the number of keys that name no existing position. */
  lemma ResolveListGrows(w: World, h: Handle, k: string, v: Doc, idx: seq<int>)
    requires WellFormed(w) && h in w.heap && k in ListRelations(w.heap[h].ty)
    requires v.Dict? && ParseKeys(v.entries) == Some(idx)
    ensures ListGrew(w, ResolveAttrOutcome(w, h, k, v), h, k, idx)
  {
    ResolveAttrList(w, h, k, v, idx);
    ListGrows(w, h, k, v, idx);
  }

  /** A key naming a to-many relation, with a dict of numerals, takes the list branch. */
  lemma ResolveAttrList(w: World, h: Handle, k: string, v: Doc, idx: seq<int>)
    requires WellFormed(w) && h in w.heap && k in ListRelations(w.heap[h].ty)
    requires v.Dict? && ParseKeys(v.entries) == Some(idx)
    ensures ResolveAttrOutcome(w, h, k, v) == ResolveListOutcome(w, h, k, v, idx)
  {
    ListsAreNotColumns(w.heap[h].ty, k);
  }

  lemma ListGrows(w: World, h: Handle, k: string, v: Doc, idx: seq<int>)
    requires WellFormed(w) && h in w.heap && k in ListRelations(w.heap[h].ty)
    requires v.Dict? && |idx| == |v.entries|
    ensures ListGrew(w, ResolveListOutcome(w, h, k, v, idx), h, k, idx)
  {
    var t := w.heap[h].ty;
    var L := ListOf(w.heap[h], k);
    RelationsDescend(t, k);
    var (r1, w1) := UpdateItemsOutcome(w, ListRelations(t)[k], L, v, idx, 0);
    assert w1.heap[h] == w.heap[h];
    if r1.Ok? {
      AddItemsGrows(w1, h, k, v, idx, |L|, 0);
    }
  }

  /** One key changes h's columns only by writing column k, when it is not the id
      column: a to-many list and any other attribute leave them alone. */
  lemma ResolveAttrCols(w: World, h: Handle, k: string, v: Doc)
    requires WellFormed(w) && h in w.heap
    ensures var o := ResolveAttrOutcome(w, h, k, v);
      o.1.heap[h].cols == if k != IdCol && k in Columns(w.heap[h].ty) then w.heap[h].cols[k := v] else w.heap[h].cols
  {
    var t := w.heap[h].ty;
    if k != IdCol && k in Columns(t) {
      ResolveColumnExact(w, h, k, v);
    } else if k in ListRelations(t) && v.Dict? && ParseKeys(v.entries).Some? {
      ListsAreNotColumns(t, k);
      ResolveListGrows(w, h, k, v, ParseKeys(v.entries).value);
    } else {
      assert ResolveAttrOutcome(w, h, k, v).1 == w;
    }
  }

  /** No later entry than j has entry j's key: j is the last write of that key. */
  predicate LastKey(es: seq<(string, Doc)>, j: int)
    requires 0 <= j < |es|
  {
    forall j' :: j < j' < |es| ==> es[j'].0 != es[j].0
  }

  /** One turn of the entry loop: a key that raises ends it, otherwise the loop goes on
      from the next entry. */
  lemma ResolveEntriesStep(w: World, h: Handle, d: Doc, i: nat)
    requires WellFormed(w) && h in w.heap && d.Dict? && i < |d.entries|
    ensures var (r1, w1) := ResolveAttrOutcome(w, h, d.entries[i].0, d.entries[i].1);
      ResolveEntriesOutcome(w, h, d, i) == if r1.Err? then (r1, w1) else ResolveEntriesOutcome(w1, h, d, i + 1)
  {
  }

  /** What the entries from i on promise about the columns, from c (before) to c'
      (after); ok says whether they all succeeded. */
  ghost predicate EntriesColumns(es: seq<(string, Doc)>, i: nat, t: TypeName, c: map<string, Doc>, c': map<string, Doc>,
                                 ok: bool)
  {
    (forall n :: (forall j :: i <= j < |es| ==> es[j].0 != n) ==> ColumnOf(c', n) == ColumnOf(c, n)) &&
    (ok ==> forall j :: (i <= j < |es| && es[j].0 != IdCol && es[j].0 in Columns(t) && LastKey(es, j)) ==>
       ColumnOf(c', es[j].0) == es[j].1)
  }

  /** EntriesColumns from entry i, given the effect of entry i and EntriesColumns from i + 1. */
  lemma EntriesColumnsStep(es: seq<(string, Doc)>, i: nat, t: TypeName, c0: map<string, Doc>, c1: map<string, Doc>,
                           c2: map<string, Doc>, ok: bool)
    requires i < |es|
    requires c1 == if es[i].0 != IdCol && es[i].0 in Columns(t) then c0[es[i].0 := es[i].1] else c0
    requires EntriesColumns(es, i + 1, t, c1, c2, ok)
    ensures EntriesColumns(es, i, t, c0, c2, ok)
  {
    var k := es[i].0;
    forall n | (forall j :: i <= j < |es| ==> es[j].0 != n)
      ensures ColumnOf(c2, n) == ColumnOf(c0, n)
    {
      assert k != n;
      assert forall j :: i + 1 <= j < |es| ==> es[j].0 != n;
    }
    if ok {
      forall j | i <= j < |es| && es[j].0 != IdCol && es[j].0 in Columns(t) && LastKey(es, j)
        ensures ColumnOf(c2, es[j].0) == es[j].1
      {
        if j == i {
          assert forall j' :: i + 1 <= j' < |es| ==> es[j'].0 != k;
        }
      }
    }
  }

  /** Columns that do not change meet EntriesColumns when nothing more is promised. */
  lemma EntriesColumnsSame(es: seq<(string, Doc)>, i: nat, t: TypeName, c: map<string, Doc>, ok: bool)
    requires !ok || i >= |es|
    ensures EntriesColumns(es, i, t, c, c, ok)
  {
  }

  /** The entries of d from i on change only the columns of h they name, and on success
      each column key other than the id column holds the value of its last entry. */
  lemma {:induction false} ResolveEntriesColumns(w: World, h: Handle, d: Doc, i: nat)
    requires WellFormed(w) && h in w.heap && d.Dict? && i <= |d.entries|
    ensures var o := ResolveEntriesOutcome(w, h, d, i);
      EntriesColumns(d.entries, i, w.heap[h].ty, w.heap[h].cols, o.1.heap[h].cols, o.0.Ok?)
    decreases |d.entries| - i
  {
    var o := ResolveEntriesOutcome(w, h, d, i);
    if i == |d.entries| {
      assert o == (Ok(()), w);
      EntriesColumnsSame(d.entries, i, w.heap[h].ty, w.heap[h].cols, true);
    } else {
      var k, v := d.entries[i].0, d.entries[i].1;
      var (r1, w1) := ResolveAttrOutcome(w, h, k, v);
      ResolveAttrCols(w, h, k, v);
      ResolveEntriesStep(w, h, d, i);
      if r1.Err? {
        assert o == (r1, w1);
        EntriesColumnsSame(d.entries, i + 1, w.heap[h].ty, w1.heap[h].cols, false);
        EntriesColumnsStep(d.entries, i, w.heap[h].ty, w.heap[h].cols, w1.heap[h].cols, w1.heap[h].cols, false);
      } else {
        assert o == ResolveEntriesOutcome(w1, h, d, i + 1);
        ResolveEntriesColumns(w1, h, d, i + 1);
        EntriesColumnsStep(d.entries, i, w.heap[h].ty, w.heap[h].cols, w1.heap[h].cols, o.1.heap[h].cols, o.0.Ok?);
      }
    }
  }

  /** The first loop leaves alone any instance g of the list's class that no position
      from p on which some key names holds. */
  lemma {:induction false} UpdateItemsLater(w: World, t: TypeName, L: seq<Handle>, v: Doc, idx: seq<int>, p: nat,
                                            g: Handle)
    requires WellFormed(w) && v.Dict? && p <= |L| && AllOfType(w, L, t)
    requires g in w.heap && w.heap[g].ty == t
    requires forall q :: p <= q < |L| && q in idx ==> L[q] != g
    ensures var o := UpdateItemsOutcome(w, t, L, v, idx, p); g in o.1.heap && o.1.heap[g] == w.heap[g]
    decreases |L| - p
  {
    if p < |L| {
      if p !in idx {
        UpdateItemsLater(w, t, L, v, idx, p + 1, g);
      } else if Find(v.entries, ShowInt(p)).Some? && v.entries[Find(v.entries, ShowInt(p)).value].1.Dict? {
        var item := v.entries[Find(v.entries, ShowInt(p)).value].1;
        var (r1, w1) := ResolveEntriesOutcome(w, L[p], item, 0);
        if r1.Ok? {
          assert AllOfType(w1, L, t);
          UpdateItemsLater(w1, t, L, v, idx, p + 1, g);
        }
      }
    }
  }

  /** One turn of the first loop at a named position whose item is a dict. */
  lemma UpdateItemsTurn(w: World, t: TypeName, L: seq<Handle>, v: Doc, idx: seq<int>, p: nat, item: Doc)
    requires WellFormed(w) && v.Dict? && p < |L| && AllOfType(w, L, t) && p in idx
    requires Get(v.entries, ShowInt(p)) == Some(item) && item.Dict?
    ensures var (r1, w1) := ResolveEntriesOutcome(w, L[p], item, 0);
      AllOfType(w1, L, t) &&
      UpdateItemsOutcome(w, t, L, v, idx, p) == if r1.Err? then (r1, w1) else UpdateItemsOutcome(w1, t, L, v, idx, p + 1)
  {
  }

  /** The first loop skips a position no key names, and stops at a named one whose
      item is missing or no dict. */
  lemma UpdateItemsPass(w: World, t: TypeName, L: seq<Handle>, v: Doc, idx: seq<int>, p: nat)
    requires WellFormed(w) && v.Dict? && p < |L| && AllOfType(w, L, t)
    ensures p !in idx ==> UpdateItemsOutcome(w, t, L, v, idx, p) == UpdateItemsOutcome(w, t, L, v, idx, p + 1)
    ensures p in idx && !(Get(v.entries, ShowInt(p)).Some? && Get(v.entries, ShowInt(p)).value.Dict?) ==>
      UpdateItemsOutcome(w, t, L, v, idx, p).0.Err?
  {
  }

  /** The first loop gives position p, when some key names it, the fields of the item
      under key str(p): once the loop succeeds, each column key of the item other than
      the id column holds its value, as long as no other named position holds the
      same instance. The instance's other columns keep the values they had. */
  lemma {:induction false} UpdateItemsSetsColumns(w: World, t: TypeName, L: seq<Handle>, v: Doc, idx: seq<int>, p: nat,
                                                  p0: nat)
    requires WellFormed(w) && v.Dict? && AllOfType(w, L, t)
    requires p0 <= p < |L| && p in idx
    requires forall q :: p0 <= q < |L| && q != p && q in idx ==> L[q] != L[p]
    ensures var o := UpdateItemsOutcome(w, t, L, v, idx, p0);
      o.0.Ok? ==> (Get(v.entries, ShowInt(p)).Some? && Get(v.entries, ShowInt(p)).value.Dict? &&
        EntriesColumns(Get(v.entries, ShowInt(p)).value.entries, 0, t, w.heap[L[p]].cols, o.1.heap[L[p]].cols, true))
    decreases |L| - p0
  {
    UpdateItemsPass(w, t, L, v, idx, p0);
    if p0 !in idx {
      UpdateItemsSetsColumns(w, t, L, v, idx, p, p0 + 1);
    } else if Get(v.entries, ShowInt(p0)).Some? && Get(v.entries, ShowInt(p0)).value.Dict? {
      var item := Get(v.entries, ShowInt(p0)).value;
      var (r1, w1) := ResolveEntriesOutcome(w, L[p0], item, 0);
      UpdateItemsTurn(w, t, L, v, idx, p0, item);
      if r1.Ok? {
        if p0 == p {
          UpdateItemsNamed(w, t, L, v, idx, p, item);
        } else {
          assert w1.heap[L[p]] == w.heap[L[p]];
          UpdateItemsSetsColumns(w1, t, L, v, idx, p, p0 + 1);
        }
      }
    }
  }

  /** UpdateItemsSetsColumns at position p itself. */
  lemma UpdateItemsNamed(w: World, t: TypeName, L: seq<Handle>, v: Doc, idx: seq<int>, p: nat, item: Doc)
    requires WellFormed(w) && v.Dict? && AllOfType(w, L, t) && p < |L| && p in idx
    requires forall q :: p <= q < |L| && q != p && q in idx ==> L[q] != L[p]
    requires Get(v.entries, ShowInt(p)) == Some(item) && item.Dict?
    requires ResolveEntriesOutcome(w, L[p], item, 0).0.Ok?
    ensures var o := UpdateItemsOutcome(w, t, L, v, idx, p);
      EntriesColumns(item.entries, 0, t, w.heap[L[p]].cols, o.1.heap[L[p]].cols, true)
  {
    var w1 := ResolveEntriesOutcome(w, L[p], item, 0).1;
    UpdateItemsTurn(w, t, L, v, idx, p, item);
    ResolveEntriesColumns(w, L[p], item, 0);
    UpdateItemsLater(w1, t, L, v, idx, p + 1, L[p]);
  }

  /** Placed in a later store holds in an earlier one: query.get finds the same, and
      an instance fresh to the later store is fresh to the earlier. */
  lemma PlacedEarlier(w: World, w1: World, t: TypeName, v: Doc, idx: seq<int>, n: nat, i0: nat, m: nat,
                      L': seq<Handle>, ok: bool)
    requires WellFormed(w) && WellFormed(w1) && Extends(w, w1)
    requires v.Dict? && |idx| == |v.entries| && i0 <= |v.entries|
    requires Placed(w1, t, v, idx, n, i0, m, L', ok)
    ensures Placed(w, t, v, idx, n, i0, m, L', ok)
  {
    forall id: Doc ensures Lookup(w1, t, id) == Lookup(w, t, id) {
      LookupStable(w, w1, t, id);
    }
  }

  /** On success, the to-many branch leaves the old list L of h as a prefix and puts
      after it, in document order, one record per entry that names no position of L:
      the stored record for a truthy id, otherwise a fresh instance. */
  lemma ListPlaces(w: World, h: Handle, k: string, v: Doc, idx: seq<int>)
    requires WellFormed(w) && h in w.heap && k in ListRelations(w.heap[h].ty)
    requires v.Dict? && ParseKeys(v.entries) == Some(idx)
    ensures var o := ResolveAttrOutcome(w, h, k, v);
      var L, L' := ListOf(w.heap[h], k), ListOf(o.1.heap[h], k);
      L <= L' && Placed(w, ListRelations(w.heap[h].ty)[k], v, idx, |L|, 0, |L|, L', o.0.Ok?)
  {
    ResolveAttrList(w, h, k, v, idx);
    ListGrows(w, h, k, v, idx);
    var t := w.heap[h].ty;
    var L := ListOf(w.heap[h], k);
    RelationsDescend(t, k);
    var (r1, w1) := UpdateItemsOutcome(w, ListRelations(t)[k], L, v, idx, 0);
    assert w1.heap[h] == w.heap[h];
    if r1.Ok? {
      AddItemsPlaces(w1, h, k, v, idx, |L|, 0);
      var o := AddItemsOutcome(w1, h, k, v, idx, |L|, 0);
      PlacedEarlier(w, w1, ListRelations(t)[k], v, idx, |L|, 0, |L|, ListOf(o.1.heap[h], k), o.0.Ok?);
    }
  }

  /** A relation given as anything but a dict raises AttributeError, and a key that is
      not a numeral raises ValueError, before anything changes. */
  lemma ResolveListRejects(w: World, h: Handle, k: string, v: Doc)
    requires WellFormed(w) && h in w.heap && k in ListRelations(w.heap[h].ty)
    ensures !v.Dict? ==> ResolveAttrOutcome(w, h, k, v) == (Err(AttributeError), w)
    ensures v.Dict? && ParseKeys(v.entries).None? ==> ResolveAttrOutcome(w, h, k, v) == (Err(ValueError), w)
  {
  }

  /** A root id that is absent, falsy or unknown takes the create path, whatever the
      delete flag says. */
  lemma SyncCreatesWithoutRecord(w: World, t: TypeName, dict: seq<(string, Doc)>, delete: bool, idCol: string,
                                 commit: bool, user: Principal)
    requires WellFormed(w) && Unflattened(dict).Ok?
    requires ExistingRecord(w, t, Unflattened(dict).value, idCol).None?
    ensures SyncOutcome(w, t, dict, delete, idCol, commit, user) == SyncOutcome(w, t, dict, !delete, idCol, commit, user)
    ensures SyncOutcome(w, t, dict, delete, idCol, commit, user) == CreateRecordOutcome(w, t, Unflattened(dict).value, commit, user)
  {
  }

  /** No model class defines permit_delete, so deleting an existing record always raises
      AttributeError and changes nothing. */
  lemma SyncDeleteRaises(w: World, t: TypeName, dict: seq<(string, Doc)>, idCol: string, commit: bool, user: Principal)
    requires WellFormed(w) && Unflattened(dict).Ok?
    requires ExistingRecord(w, t, Unflattened(dict).value, idCol).Some?
    ensures SyncOutcome(w, t, dict, true, idCol, commit, user) == (Err(AttributeError), w)
  {
  }

  /** The update path commits whatever the commit flag says. */
  lemma SyncUpdateIgnoresCommit(w: World, t: TypeName, dict: seq<(string, Doc)>, idCol: string, user: Principal)
    requires WellFormed(w) && Unflattened(dict).Ok?
    requires ExistingRecord(w, t, Unflattened(dict).value, idCol).Some?
    ensures SyncOutcome(w, t, dict, false, idCol, true, user) == SyncOutcome(w, t, dict, false, idCol, false, user)
    ensures var o := SyncOutcome(w, t, dict, false, idCol, false, user);
      o.0.Ok? ==> o.1.ops == w.ops + [Flushed, Committed]
  {
  }

  /** Permission is checked once, on the whole document: once two principals are both
      granted, the update (or create) they cause is the same. */
  lemma SyncChecksOnce(w: World, t: TypeName, dict: seq<(string, Doc)>, delete: bool, idCol: string, commit: bool,
                       u1: Principal, u2: Principal)
    requires WellFormed(w) && Unflattened(dict).Ok?
    requires var es := Unflattened(dict).value;
      match ExistingRecord(w, t, es, idCol)
      case Some(h) => !delete &&
        PermitUpdate(t, w.heap[h].cols, es, u1) == Ok(true) && PermitUpdate(t, w.heap[h].cols, es, u2) == Ok(true)
      case None => PermitCreate(t, es, u1) == Ok(true) && PermitCreate(t, es, u2) == Ok(true)
    ensures SyncOutcome(w, t, dict, delete, idCol, commit, u1) == SyncOutcome(w, t, dict, delete, idCol, commit, u2)
  {
  }

  /** The session calls each outcome makes: a failure has flushed and committed nothing
      (a create may have staged its instance); an update ends with flush and commit; a
      create stages one fresh instance, flushes, and commits iff commit is set. */
  lemma SyncSession(w: World, t: TypeName, dict: seq<(string, Doc)>, delete: bool, idCol: string, commit: bool,
                    user: Principal)
    requires WellFormed(w)
    ensures var o := SyncOutcome(w, t, dict, delete, idCol, commit, user);
      (o.0.Err? ==> o.1.ops == w.ops || o.1.ops == w.ops + [Staged(w.next)]) &&
      (o.0.Ok? && o.0.value.Record? && o.0.value.h in w.heap ==> o.1.ops == w.ops + [Flushed, Committed]) &&
      (o.0.Ok? && o.0.value.Record? && o.0.value.h !in w.heap ==>
        o.0.value.h == w.next && o.1.ops == w.ops + [Staged(w.next), Flushed] + CommitOps(commit))
  {
  }

  /** Errors that do not come from __resolveAndSetAttribute (a malformed document, a
      denied or raising permission hook) are raised before anything changes. */
  lemma SyncDenialChangesNothing(w: World, t: TypeName, dict: seq<(string, Doc)>, delete: bool, idCol: string,
                                 commit: bool, user: Principal)
    requires WellFormed(w)
    ensures var o := SyncOutcome(w, t, dict, delete, idCol, commit, user);
      o.0.Err? && !ResolveError(o.0.error) ==> o.1 == w
    ensures var o := SyncOutcome(w, t, dict, delete, idCol, commit, user);
      o.0 == Err(PermissionException) || o.0 == Err(PermissionError) ==> o.1 == w
  {
    var o := SyncOutcome(w, t, dict, delete, idCol, commit, user);
    if Unflattened(dict).Ok? {
      var es := Unflattened(dict).value;
      var rec := ExistingRecord(w, t, es, idCol);
      if rec.Some? && !delete {
        assert o == UpdateRecordOutcome(w, rec.value, es, user);
      } else if rec.None? {
        assert o == CreateRecordOutcome(w, t, es, commit, user);
      }
    }
  }
}
