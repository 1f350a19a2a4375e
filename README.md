# minisync and crudad, modelled in Dafny

minisync syncs a client-supplied change document into an SQLAlchemy object graph. It
ships two generations of the algorithm:

- `crudad.Crudad`, the newer one, resolves the document field by field against a root
  instance:
  - the root and every list item come from a get-or-create;
  - a column is written only when `permit_update` and `__allow_update__` allow it;
  - list items are associated idempotently;
  - the session is flushed, then committed when asked.
- `minisync`, the older one:
  - `unflatten` turns dotted keys into nested dicts;
  - `sync_object` picks delete, update or create from the root id and checks one
    permission hook on the whole document;
  - `__resolveAndSetAttribute` writes columns, updates list positions named by a dict of
    string indices, and appends the other entries as looked-up or fresh records.

The mapped classes of `tests/models.py` (`Thing`, `ChildThing`, `SyncUser`) supply the
concrete schema, allow-lists and permission hooks.

## Modules

- `values.dfy`, module `Values`:
  - scalar values, documents as insertion-ordered entry lists, and the Python exceptions raised;
  - `dict.get`, `d[k] = v`, and `int()`/`str()` on index keys.
- `models.dfy`, module `Models`:
  - the schema registry that replaces `class_mapper` introspection;
  - the allow-lists;
  - the permission hooks wrapped in crudad's `require_user`.
- `store.dfy`, module `Store`: the in-memory store that stands in for SQLAlchemy.
  - A `World` is a heap of instances under handles, an index from (class, primary key)
    to persisted instances, and the unit of work as a log of session calls.
  - The class `Db` holds these as fields. Its methods (`Get`, `Instantiate`, `SetAttr`,
    `Append`, `Record`, `FlushAndCommit`) change them in place.
- `unflatten.dfy`, module `Unflatten`: `unflatten` and what it guarantees about paths and keys.
- `crudad.dfy`, module `Crudad`: the class `Crudad` and its operations.
- `minisync.dfy`, module `Minisync`: `require_user`, `__resolveAndSetAttribute` and `sync_object`.
- `scenarios.dfy`, module `Scenarios`: the situations of `tests/test.py` on the data of
  `tests/fixtures.py`, each stated as a lemma about `sync_object`.

Each operation appears twice:

- An `...Outcome` function on `World` says what the operation does. It returns the result
  together with the store after the call, because nothing is rolled back when the code
  raises part-way.
- An imperative method does the same through `Db`, in the loops and recursion of the
  source. Its `ensures` ties the result and the new state to that function.

The properties are lemmas about the functions.

## Model

| member | source | states |
|---|---|---|
| Values.Put | minisync/__init__.py:16-18 | `d[k] = v` makes `k` map to `v` and leaves every other key, the key set (plus `k`) and key uniqueness unchanged; a new key goes at the end, an existing one is replaced in place |
| Values.Truthy | minisync/__init__.py:67 | Python truthiness, as `if existing_id:` tests it: exactly None, 0, the empty string, `{}` and `[]` are false |
| Values.ShowInt | minisync/__init__.py:60 | `str(i)` is never empty and starts with a minus sign exactly when `i` is negative |
| Values.ParseInt | minisync/__init__.py:51 | `int(s)` on an index key: a key it accepts reads as a negative number iff it starts with a minus sign, and as zero iff it is "0"; a key it rejects is where `int()` raises ValueError |
| Values.ParseNegative | minisync/__init__.py:51 | `int("-" + u)` is `-int(u)` for a numeral `u` without a leading zero |
| Values.ParseShow | minisync/__init__.py:51-60 | `int(str(i)) == i` for every integer index |
| Values.ShowParse | minisync/__init__.py:51-60 | for every key `int()` accepts here, `str(int(s)) == s`, so `attr_val.get(str(i))` finds the entry whose key named position `i` |
| Models.RelationsDescend | tests/models.py:21-22 | every to-many relation points to a class of lower rank (SyncUser, then Thing, then ChildThing), so no instance reaches itself through lists |
| Models.ListsAreNotColumns | tests/models.py:18-22 | no to-many relation shares its name with a column, and every relation is an attribute |
| Models.IsAttribute | minisync/__init__.py:44 | `hasattr`/`getattr` on an instance: the attributes every instance has (`__class__`, `__dict__`, `__doc__`, `__module__`, `__table__`, `__mapper__`, `_sa_instance_state`, `query_class`) and `permit_update` exist on every class; `permit_create` exists iff the class is not SyncUser; `parent` only on ChildThing; `permit_delete` on no class |
| Models.OtherAttributes | tests/models.py:24-73 | the hook attributes: every class defines permit_update, Thing and ChildThing define permit_create, no class defines permit_delete |
| Models.AllowUpdate | tests/models.py:16 | `__allow_update__` (lines 16, 35 and 69) never names the id column and names only columns and to-many relations of its class |
| Models.ClassListsShape | tests/models.py:16-37 | each list-valued class attribute (`__allow_update__`, `__public__`, `__allow_associate__`, `__allow_disassociate__`) is an attribute that is neither a column nor a relation; the only element of one that is a mapped class is the Thing in ChildThing.__allow_associate__ |
| Models.PermitCreate | tests/models.py:24-27 | permit_create raises iff the class is SyncUser (AttributeError: it has no such hook), no user is given (PermissionError from require_user) or a Thing document has no user_id (KeyError) |
| Models.PermitUpdate | tests/models.py:29-31 | permit_update (also lines 47-49 and 71-73) raises iff no user is given, and then with PermissionError |
| Models.PermitAssociate | tests/models.py:51-53 | permit_associate raises AttributeError on a class without it and PermissionError without a user; otherwise it answers whether the parent is a Thing |
| Models.PermitDisassociate | tests/models.py:55-59 | permit_disassociate raises PermissionError without a user, AttributeError on a class without it or on a parent without user_id; otherwise it answers whether the principal owns the parent |
| Models.Check | minisync/__init__.py:122-123 | `if not hook(...): raise denial` succeeds iff the hook returned True; the hook's own exception propagates, and False raises the denial |
| Models.RequireUser | crudad/__init__.py:8-13 | without a user the decorated hook raises PermissionError; with one, it is the wrapped hook's answer |
| Models.PermitDelete | minisync/__init__.py:113 | no model class defines `permit_delete`: calling it raises AttributeError |
| Models.AnonymousDenied | crudad/__init__.py:8-13 | every decorated hook of every class raises PermissionError without a user, and its body is never evaluated (with a user, Thing.permit_create on a document without user_id raises KeyError instead) |
| Models.ThingCreateIff | tests/models.py:24-27 | Thing.permit_create answers iff the document has user_id, and holds iff that user_id is the principal's id |
| Models.ThingUpdateIff | tests/models.py:29-31 | Thing.permit_update is truthy iff the principal owns the Thing or the document carries a truthy user_id; it never raises once a user is given |
| Models.ChildThingPermits | tests/models.py:42-53 | ChildThing create and update always hold once a user is given; permit_associate holds iff the parent is a Thing |
| Models.ChildThingDisassociateIff | tests/models.py:55-59 | ChildThing.permit_disassociate holds iff the parent's class name is 'Thing' and the parent's user_id is the principal's id; a parent without user_id raises |
| Models.SyncUserPermits | tests/models.py:61-73 | SyncUser.permit_update holds iff the principal is that user; SyncUser has no permit_create (AttributeError) |
| Models.UpdatableFields | tests/models.py:16-69 | `__allow_update__` is exactly {description, children, user_id} for Thing, {description, parent_id} for ChildThing and {things} for SyncUser; no class allows the id |
| Store.NewEntity | minisync/__init__.py:72 | `mapper_class()`: a bare instance with every column of its class None and every to-many list empty |
| Store.Lookup | minisync/__init__.py:69-70 | `query.get(id)` finds an instance iff the id is an int stored for that class, and that instance has that class |
| Store.LookupStable | minisync/__init__.py:69-70 | `query.get(id)` finds the same instance before and after resolution steps, which never touch the persisted index |
| Store.Allocate | crudad/__init__.py:70 | `mapper_class()` takes a fresh handle, adds exactly one bare instance and keeps the store well formed |
| Store.SetColumn | minisync/__init__.py:42 | `setattr` changes exactly one column of one instance, keeps the store well formed and calls no session method |
| Store.AppendTo | minisync/__init__.py:76 | `append(c)` adds `c` at the end of exactly one list and keeps every list typed |
| Store.Log | crudad/__init__.py:73 | a session call is appended to the unit of work and nothing else changes |
| Store.Db.Get | minisync/__init__.py:105-106 | `mapper_class.query.get(id)` returns what Lookup says |
| Store.Db.Instantiate | minisync/__init__.py:104 | the new state is what Allocate says |
| Store.Db.SetAttr | crudad/__init__.py:133 | the new state is what SetColumn says |
| Store.Db.Append | crudad/__init__.py:151 | the new state is what AppendTo says |
| Store.Db.Record | minisync/__init__.py:115 | one session call (add, delete, flush or commit) is logged |
| Store.Db.FlushAndCommit | minisync/__init__.py:140-142 | flush, then commit iff asked |
| Unflatten.SplitDots | minisync/__init__.py:12 | `key.split(".")` gives dot-free segments that join back to the key, and one segment iff the key has no dot |
| Unflatten.SplitJoin | minisync/__init__.py:12 | splitting a join of dot-free segments gives the segments back |
| Unflatten.SetPath | minisync/__init__.py:13-18 | the cursor walk for one key succeeds iff the path meets only dicts or missing keys, after which the value is at the path; the top-level keys gain at most the path's first segment and stay unique; a blocked walk raises TypeError |
| Unflatten.SetPathMakesDicts | minisync/__init__.py:14-17 | after the walk, every proper prefix of the path names a dict |
| Unflatten.SetPathOthers | minisync/__init__.py:13-18 | the walk leaves the node at any path unrelated to its own by prefix as it was, so dotted keys merge into the dicts already present |
| Unflatten.SetPathKeepsClear | minisync/__init__.py:13-18 | a later walk does not block a path that was clear unless its own path is a proper prefix of that path |
| Unflatten.Unflattened | minisync/__init__.py:9-19 | `unflatten` as a fold of the walk over the keys in order; it can only raise TypeError |
| Unflatten.UnflattenStep | minisync/__init__.py:11-18 | processing key i extends the result for the first i keys by that key's walk |
| Unflatten.UnflattenErrPersists | minisync/__init__.py:11-18 | after an exception on some key, the later keys are never processed |
| Unflatten.KeysAreHeads | minisync/__init__.py:13-18 | the top-level keys of the result are the first segments of the input keys, each once |
| Unflatten.UnflattenKeys | minisync/__init__.py:13-18 | a string is a top-level key of the result iff it is the first segment of some input key, and the keys are unique |
| Unflatten.UnflattenPaths | minisync/__init__.py:9-19 | when no key's path is a proper prefix of another's, unflatten never fails and each value lands at its key's path unless a later key has the same path (the later one wins) |
| Unflatten.UnflattenInvariant | minisync/__init__.py:11-18 | the loop invariant of UnflattenPaths: after the first n keys, the later paths are still clear and the earlier values not overwritten are in place |
| Unflatten.UnflattenDotless | minisync/__init__.py:12-18 | a document of distinct dot-free keys comes out unchanged |
| Unflatten.Unflatten | minisync/__init__.py:9-19 | the loop over the keys computes Unflattened |
| Crudad.CreateOutcome | crudad/__init__.py:67-74 | `_create`: when permit_create does not hold, it raises PermissionError or the hook's exception and nothing is instantiated or staged; otherwise exactly one bare instance is added under the next handle and staged |
| Crudad.GetOrCreateOutcome | crudad/__init__.py:76-88 | with the id key present it never creates: the stored instance for a truthy, known id, None otherwise; without the id key it creates and stages one instance iff permit_create holds, and otherwise raises with nothing changed; a document that is not a dict raises AttributeError |
| Crudad.GetOrCreateKeeps | crudad/__init__.py:76-88 | `_getOrCreateMapperObj` changes no instance that existed before it |
| Crudad.UpdateOutcome | crudad/__init__.py:126-134 | `_update` changes exactly `field`, and does so iff permit_update({field: val}) holds and `field` is in `__allow_update__`; otherwise it raises (PermissionError, or the hook's own exception) and the store is unchanged |
| Crudad.AssociateOutcome | crudad/__init__.py:144-152 | `_associate` succeeds iff the child exists, has permit_associate and that hook holds; a None child raises PermissionError; a child already in the list changes nothing, otherwise it is appended and staged; on failure nothing changes |
| Crudad.AssociateIdempotent | crudad/__init__.py:150-152 | associating the same child again leaves the list and the session as the first association did |
| Crudad.AssociateGrows | crudad/__init__.py:150-152 | an association only appends to the parent's lists, without creating a duplicate, and only stages; the parent's columns and every other instance are unchanged |
| Crudad.DisassociateAsWritten | crudad/__init__.py:159-165 | `_disassociate` as written: it tests hasattr on the child but calls the hook on the parent, so a ChildThing and its Thing parent raise AttributeError |
| Crudad.DisassociateAsWrittenNeverSucceeds | crudad/__init__.py:159-165 | with the hooks of the model classes, `_disassociate` as written never succeeds |
| Crudad.DisassociateCounterexample | crudad/__init__.py:162 | a Thing owned by user 1 with a ChildThing: the child's own hook allows the disassociation, the code as written raises AttributeError, and the intended version succeeds |
| Crudad.DisassociateOutcome | crudad/__init__.py:159-165 | `_disassociate` as intended: it succeeds iff the child has permit_disassociate and that hook holds for the parent; a None child raises PermissionError; it never changes membership |
| Crudad.DisassociateOwnedThing | tests/models.py:55-59 | a ChildThing may be disassociated from a Thing iff the principal owns the Thing |
| Crudad.AssociateAll | crudad/__init__.py:121-123 | `for item in attr_val`: get-or-create, then associate each item in document order, stopping at the first exception; keeps the store well formed |
| Crudad.AssociateAllFrame | crudad/__init__.py:121-123 | the item loop only appends to the root's lists, without creating a duplicate, and only stages; the root's columns, every other existing instance and earlier session calls are unchanged; the items it creates stay bare (their own fields are never applied) |
| Crudad.ItemRecord | crudad/__init__.py:79-83 | the stored record an item names exists only for an item that carries the id key, and is what `query.get` finds for it |
| Crudad.AssociateAllMembers | crudad/__init__.py:121-123 | when the item loop succeeds, every item that carries the id key names a stored record and that record is in the list; every item without the id key got a newly created instance, under consecutive fresh handles in item order, and that instance is in the list; anything else the list gained is a stored record some item names or a created instance |
| Crudad.AssociateOne | crudad/__init__.py:122-123 | one successful turn of the item loop leaves the acquired instance in the list and adds nothing else; for an item with the id key that instance is the stored record it names, otherwise the instance created under the next fresh handle, the only one the turn allocates |
| Crudad.AssociateValue | crudad/__init__.py:119-123 | iterating the value of a to-many key: a list associates its items; an empty dict or empty string does nothing; a non-empty dict or string raises AttributeError; None or an int raises TypeError; anything but a list leaves the store as it was |
| Crudad.ApplyField | crudad/__init__.py:111-123 | one key: a name that is no attribute raises AttributeError with nothing changed; a list-valued class attribute (an allow-list, `__public__`) raises AttributeError at `.property` with nothing changed; the id key, the scalar backref, the hooks and the attributes every instance has are ignored |
| Crudad.ApplyFieldFrame | crudad/__init__.py:111-123 | one key only appends to the root's lists and only stages; every other existing instance is unchanged |
| Crudad.ApplyFieldColumns | crudad/__init__.py:113-115 | one key changes at most the column of that name, only when it is updatable and not the id key; on success a column key other than the id holds the given value |
| Crudad.ApplyFields | crudad/__init__.py:110-111 | the field loop in document order, stopping at the first exception; keeps the store well formed |
| Crudad.ApplyFieldsFrame | crudad/__init__.py:110-123 | the field loop only appends to the root's lists and stages; every other existing instance is unchanged |
| Crudad.ApplyFieldsColumns | crudad/__init__.py:110-115 | the fields of a document change only columns it names with an updatable key other than the id key; on success, with distinct keys, each such column holds the document's value |
| Crudad.ResolveOutcome | crudad/__init__.py:107-124 | `_resolveAndSet` on the non-delete path: on success, a root of the requested class |
| Crudad.ResolveOnlyStaged | crudad/__init__.py:107-124 | resolution only adds to the session, even when it fails: it never flushes or commits |
| Crudad.ResolveTouchesOnlyRoot | crudad/__init__.py:107-124 | a successful resolution leaves every other existing instance untouched, so the fields of list items are never applied, and the items it creates bare |
| Crudad.ResolveSetsColumns | crudad/__init__.py:110-115 | on success, every column key of a document with distinct keys, other than the id key, holds the document's value; a column the document does not name with an updatable key keeps its value |
| Crudad.CallOutcome | crudad/__init__.py:59-65 | `__call__`: resolve, then flush, then commit iff asked; keeps the store well formed |
| Crudad.CallFlushesThenCommits | crudad/__init__.py:61-64 | if resolution raises, neither flush nor commit happens; on success the session is flushed once, then committed iff `commit` is set |
| Crudad.Crudad.constructor | crudad/__init__.py:26-28 | the object operates on the `db` it is given |
| Crudad.Crudad.Call | crudad/__init__.py:33-65 | the result and the new store are those of CallOutcome |
| Crudad.Crudad.Create | crudad/__init__.py:67-74 | the result and the new store are those of CreateOutcome |
| Crudad.Crudad.GetOrCreateMapperObj | crudad/__init__.py:76-88 | the result and the new store are those of GetOrCreateOutcome |
| Crudad.Crudad.Update | crudad/__init__.py:126-134 | the result and the new store are those of UpdateOutcome |
| Crudad.Crudad.Associate | crudad/__init__.py:144-157 | the result and the new store are those of AssociateOutcome |
| Crudad.Crudad.Disassociate | crudad/__init__.py:159-165 | returns DisassociateOutcome and changes nothing |
| Crudad.Crudad.SetField | crudad/__init__.py:111-123 | one turn of the field loop: the result and the new store are those of ApplyField |
| Crudad.Crudad.AssociateItems | crudad/__init__.py:119-123 | the item loop: the result and the new store are those of AssociateValue |
| Crudad.Crudad.ResolveAndSet | crudad/__init__.py:90-124 | the result and the new store are those of ResolveOutcome |
| Crudad.Crudad.SetFields | crudad/__init__.py:110-124 | the field loop: the result and the new store are those of ApplyFields |
| Minisync.RequireUserOrRaise | minisync/__init__.py:21-26 | minisync's `require_user`: without a user it raises PermissionException, otherwise it is the wrapped function's result |
| Minisync.RequireUserIgnoresHook | minisync/__init__.py:21-26 | without a user the wrapped function is never evaluated: any two give the same PermissionException |
| Minisync.ParseKeys | minisync/__init__.py:51 | `map(int, attr_val.keys())` gives each key's integer, in order, and raises ValueError iff some key is not a numeral |
| Minisync.NoneTargetError | minisync/__init__.py:74-75 | resolving the fields of an item on None raises at the first key, and the error is one the resolver raises |
| Minisync.AcquireOutcome | minisync/__init__.py:65-72 | an item with a truthy id is the stored record (None when unknown) and nothing changes; otherwise it is one fresh instance; an item that is not a dict raises AttributeError; no session call is made |
| Minisync.ResolveAttrOutcome | minisync/__init__.py:28-77 | `__resolveAndSetAttribute` keeps the store well formed, calls no session method, leaves instances of higher rank and every other instance of the same rank alone, and raises only AttributeError, ValueError or UnmappedClassError (no permission hook is called) |
| Minisync.ResolveListOutcome | minisync/__init__.py:50-76 | the to-many branch for a dict of indices: the same frame and errors as ResolveAttrOutcome |
| Minisync.UpdateItemsOutcome | minisync/__init__.py:58-62 | the first loop keeps the store well formed, calls no session method, leaves instances above the list's class alone and raises only resolver errors |
| Minisync.AddItemsOutcome | minisync/__init__.py:63-76 | the second loop keeps the store well formed, calls no session method, leaves instances above the parent's class and every other instance of its class alone, and raises only resolver errors |
| Minisync.AddOneOutcome | minisync/__init__.py:63-76 | one append: only list k of the parent changes, by appending; on success it grows by exactly one element, which is the record `query.get` finds for a truthy id and otherwise the instance just created; there is no membership test |
| Minisync.AppendOnlyAppends | minisync/__init__.py:76 | `append(c)` puts `c` at the end of list k and touches nothing else of the parent |
| Minisync.AcquireItemOutcome | minisync/__init__.py:65-75 | the item of an entry is looked up or instantiated as the relation's class, then its own fields are resolved on it; on success that item has the class |
| Minisync.ResolveEntriesOutcome | minisync/__init__.py:61-62 | the loop over a dict's entries, stopping at the first exception; the same frame and errors |
| Minisync.AddItemsGrows | minisync/__init__.py:63-76 | the second loop changes the parent only by appending to list k: its columns and other lists stay, old elements keep their positions, and on success exactly one element is added per entry that names no existing position |
| Minisync.AddOneGrows | minisync/__init__.py:63-76 | AddItemsGrows for an entry that appends |
| Minisync.AddItemsPlaces | minisync/__init__.py:63-76 | on success the second loop puts, at the next free place of the list and in document order, one record per entry that names no existing position: the stored record for a truthy id, otherwise an instance fresh to the store |
| Minisync.AddOnePlaces | minisync/__init__.py:65-76 | AddItemsPlaces for an entry that appends |
| Minisync.ListPlaces | minisync/__init__.py:50-76 | on success the to-many branch keeps the old list as a prefix and places after it one record per entry that names no old position, in document order: the stored record for a truthy id, otherwise a fresh instance |
| Minisync.UpdateItemsSetsColumns | minisync/__init__.py:58-62 | when the first loop succeeds, a named position gets the item under `str(p)`: each column key of the item other than the id holds the value of its last entry, and the instance's other columns keep their values, as long as no other named position holds the same instance |
| Minisync.UpdateItemsLater | minisync/__init__.py:58-62 | the first loop leaves alone every instance of the list's class that no later named position holds |
| Minisync.ResolveEntriesColumns | minisync/__init__.py:61-62 | the loop over an item's entries changes only the columns they name; on success each named column other than the id holds the value of its last entry |
| Minisync.ResolveAttrCols | minisync/__init__.py:37-44 | one key changes the instance's columns only by writing that column, and only when it is a column other than the id |
| Minisync.ResolveIgnoresOthers | minisync/__init__.py:44-50 | a key naming the scalar backref, a hook or an attribute every instance has is left alone: success with the store unchanged |
| Minisync.ClassItemOutcome | minisync/__init__.py:59-62 | the first loop's turn at a position holding a mapped class succeeds iff the key `str(p)` holds a dict whose only key is the id (the id reads a column attribute, which is no list; any other key reaches `class_mapper` of the metaclass) |
| Minisync.ClassUpdates | minisync/__init__.py:58-62 | the first loop over a list-valued class attribute succeeds iff the turn at every visited position succeeds |
| Minisync.ClassListOutcome | minisync/__init__.py:50-65 | the list branch on a list-valued class attribute: a non-dict raises AttributeError, a key that is no numeral raises ValueError; it succeeds iff every entry names a position holding a mapped class and every such turn succeeds, since any entry left for the second loop raises AttributeError at `.property` |
| Minisync.NameListRaises | minisync/__init__.py:53-65 | on a class attribute that lists only strings the branch succeeds iff the dict is empty, and a non-empty dict of numerals raises AttributeError |
| Minisync.AllowAssociateOutcome | minisync/__init__.py:50-65 | on ChildThing.__allow_associate__ the branch succeeds iff the value is a dict whose keys are all "0" and, when there is one, the item there has only the id key |
| Minisync.ResolveClassAttribute | minisync/__init__.py:44-65 | a list-valued class attribute takes the list branch and changes nothing; except for ChildThing.__allow_associate__ it succeeds iff the value is an empty dict |
| Minisync.Acquire | minisync/__init__.py:66-72 | the result and the new store are those of AcquireOutcome |
| Minisync.ResolveAndSetAttribute | minisync/__init__.py:28-77 | the result and the new store are those of ResolveAttrOutcome |
| Minisync.ResolveList | minisync/__init__.py:50-76 | the result and the new store are those of ResolveListOutcome |
| Minisync.UpdateItems | minisync/__init__.py:58-62 | the first loop: the result and the new store are those of UpdateItemsOutcome |
| Minisync.AddItems | minisync/__init__.py:63-76 | the second loop: the result and the new store are those of AddItemsOutcome |
| Minisync.AddOne | minisync/__init__.py:63-76 | the result and the new store are those of AddOneOutcome |
| Minisync.AcquireItem | minisync/__init__.py:65-75 | the result and the new store are those of AcquireItemOutcome |
| Minisync.ResolveEntries | minisync/__init__.py:125-126 | the result and the new store are those of ResolveEntriesOutcome |
| Minisync.DeleteOutcome | minisync/__init__.py:112-119 | the delete branch succeeds iff permit_delete returned True: then the record is deleted, flushed and committed iff asked; otherwise it raises (PermissionException, or the hook's exception) and nothing changes |
| Minisync.UpdateRecordOutcome | minisync/__init__.py:121-129 | the update branch: unless permit_update holds it raises before anything changes; on success it returns the record after flush and commit; a failure afterwards is a resolver error, with nothing flushed |
| Minisync.CreateRecordOutcome | minisync/__init__.py:131-134 | the create branch: unless permit_create holds it raises before anything is staged; otherwise it is NewRecordOutcome |
| Minisync.NewRecordOutcome | minisync/__init__.py:135-143 | on success the new record of the requested class, added, flushed and committed iff asked; on failure only the add was made, and the error is a resolver error |
| Minisync.ExistingRecord | minisync/__init__.py:103-106 | the record to update or delete exists only for a truthy root id, and is the stored instance of the class for it |
| Minisync.SyncOutcome | minisync/__init__.py:81-143 | `sync_object` keeps the store well formed; a document unflatten rejects raises TypeError with nothing changed |
| Minisync.Delete | minisync/__init__.py:112-119 | the result and the new store are those of DeleteOutcome |
| Minisync.UpdateRecord | minisync/__init__.py:121-129 | the result and the new store are those of UpdateRecordOutcome |
| Minisync.CreateRecord | minisync/__init__.py:131-143 | the result and the new store are those of CreateRecordOutcome |
| Minisync.NewRecord | minisync/__init__.py:135-143 | the result and the new store are those of NewRecordOutcome |
| Minisync.SyncObject | minisync/__init__.py:81-143 | the result and the new store are those of SyncOutcome |
| Minisync.ResolveColumnExact | minisync/__init__.py:37-43 | a column other than the id is set to the value given, with no check; nothing else in the store changes |
| Minisync.IdNeverWritten | minisync/__init__.py:37-44 | the id key changes nothing |
| Minisync.ResolveListGrows | minisync/__init__.py:50-76 | for a dict of indices, updates in place and appends leave the columns and other relations alone, keep every old element in its position, and on success grow the list by exactly the number of keys that name no existing position, whether or not the appended record is already a member |
| Minisync.ResolveAttrList | minisync/__init__.py:50-51 | a to-many key with a dict of numerals takes the list branch |
| Minisync.ListGrows | minisync/__init__.py:50-76 | ResolveListGrows for the list branch itself |
| Minisync.ResolveListRejects | minisync/__init__.py:50-51 | a to-many value that is not a dict raises AttributeError, and a key that is not a numeral raises ValueError, before anything changes |
| Minisync.SyncCreatesWithoutRecord | minisync/__init__.py:103-108 | a root id that is absent, falsy or unknown takes the create path, whatever the delete flag says |
| Minisync.SyncDeleteRaises | minisync/__init__.py:112-113 | deleting an existing record raises AttributeError (no model defines permit_delete) and changes nothing |
| Minisync.SyncUpdateIgnoresCommit | minisync/__init__.py:127-128 | the update path flushes and commits whatever the commit flag says |
| Minisync.SyncChecksOnce | minisync/__init__.py:122-138 | permission is checked once, on the whole document: any two principals granted by the hook cause the same update or create, since nested changes get no further check |
| Minisync.SyncSession | minisync/__init__.py:115-142 | a failure has flushed and committed nothing (a create may have added its instance); an update ends with flush and commit; a create adds one fresh instance, flushes, and commits iff `commit` is set |
| Minisync.SyncDenialChangesNothing | minisync/__init__.py:101-134 | an error that does not come from the resolver (a malformed document, a denied or raising hook) is raised before anything changes |
| Scenarios.Fixtures | tests/fixtures.py:24-36 | the installed Things 1 to 3, owned by users 1, 1 and 2, form a well-formed store with an empty session |
| Scenarios.FixtureOwners | tests/fixtures.py:24-36 | in the fixtures Things 1 and 2 belong to user 1 and Thing 3 to user 2 |
| Scenarios.CreateWithColumns | minisync/__init__.py:131-143 | a permitted create of two distinct column keys returns the next handle, added, flushed and committed, holding both values |
| Scenarios.CreateDenied | minisync/__init__.py:133-134 | a create that permit_create answers with False raises PermissionException before anything changes |
| Scenarios.CreateWithListFails | minisync/__init__.py:135-138 | a permitted create whose first key is a to-many relation given as anything but a dict raises AttributeError after the add, with nothing flushed |
| Scenarios.UpdateRoute | minisync/__init__.py:121-129 | a permitted update resolves the keys on the record and then flushes and commits, or returns the resolver's error |
| Scenarios.UpdateWithListFails | minisync/__init__.py:122-126 | a permitted update whose first key is a to-many relation given as anything but a dict raises AttributeError with the store unchanged |
| Scenarios.ColumnThenId | minisync/__init__.py:37-44 | a column key followed by the id key writes only the column |
| Scenarios.ColumnsThenId | minisync/__init__.py:37-44 | two column keys followed by the id key write only those columns, in order |
| Scenarios.UpdateOneColumn | minisync/__init__.py:121-129 | a permitted update of one column and the id sets that column and nothing else, then flushes and commits |
| Scenarios.UpdateTwoColumns | minisync/__init__.py:121-129 | a permitted update of two columns and the id sets both and nothing else, then flushes and commits |
| Scenarios.CreateOwnThing | tests/test.py:45-49 | test_create: a user creating a Thing of their own gets a new Thing with the given user_id and description, added, flushed and committed |
| Scenarios.CreateForOtherUserDenied | tests/test.py:51-53 | test_create_permission: a Thing for another user raises PermissionException and changes nothing |
| Scenarios.UpdateByOwner | tests/test.py:55-58 | test_update: the owner's new description is written, nothing else changes, and the update is flushed and committed |
| Scenarios.UpdateReassignsOwner | tests/test.py:60-62 | test_update_permission: the owner may hand a Thing to another user; the update succeeds with the new user_id and description |
| Scenarios.TakeOverByDocument | tests/models.py:29-31 | any user may take over another's Thing by sending a truthy user_id |
| Scenarios.ParentCreateWithListFails | tests/test.py:67-76 | test_parent_create: children given as a list raise AttributeError once the new Thing has been added, with nothing flushed |
| Scenarios.ForeignKeyNotChecked | tests/test.py:111-118 | test_bad_association: a ChildThing pointing through parent_id at another user's Thing is created |
| Scenarios.UpdateChildrenListFails | tests/test.py:98-109 | test_associate_existing (and the second call of test_parent_update): children given to an existing Thing as a list raise AttributeError, and the store and the session are left as they were |

## Left out

- The crudad delete path (crudad/__init__.py:97-99, 136-142) is not modelled. `getattr(mapper_class, '_op', None)` is None for every model class, so that path is never taken. `_delete` is also unusable as written: it is called with a `user` keyword it does not accept, and it reads the undefined names `existing_record` and `user`.
- The disassociate branch of `_resolveAndSet` (crudad/__init__.py:101-106) and the recursion into an item's fields in `_associate` (153-156) are commented out. The model leaves them out, and Crudad.ResolveTouchesOnlyRoot states that item fields are never applied.
- SQLAlchemy is replaced by the store:
  - `class_mapper`, `query.get`, `flush` and `commit` become functions on `World`;
  - backrefs, cascades, foreign-key constraints and autoflush are not modelled;
  - storage, flush and commit errors are not modelled.
- Store.Lookup: `query.get` of a non-integer id (a numeric string, say) finds nothing, where SQLAlchemy may coerce it.
- Store.Db.FlushAndCommit: a flush only records `Flushed` in the unit of work. It assigns no primary key to a staged instance, whose `id` stays None, and it puts nothing into the index. So the record sync_object creates carries no id (minisync/__init__.py:95 promises one). An instance created by one call is not found by `query.get` in a later call, as test_associate_existing expects (tests/test.py:98-107).
- Values.Value: document scalars are None, int and str only. Python's bool and float values are not modelled, nor `True == 1` and `1.0 == 1` in comparisons. So `{'user_id': True}` passing Thing.permit_create for user 1, or `{'id': 0.0}` taking the create path, is outside the model.
- `mapper_class()` at minisync/__init__.py:104 and crudad/__init__.py:81 builds a transient instance that is never added to the session. The model allocates an instance only when it becomes reachable: the create path of `sync_object`, `_create`, and an appended item.
- The `hasattr(x[1], id_col_name)` filter at minisync/__init__.py:53 always holds for a mapped instance, and is modelled as true.
- Python 2 dict iteration order is arbitrary. A document is an entry list, and its order is the iteration order. The scenario documents that carry an id key list it last. Where the id key sits does not change their outcome, because the resolver never writes the id key (Minisync.IdNeverWritten).
- unflatten's cursor aliases the dict it walks into. Unflatten.SetPath models the walk as a functional update along the path, which gives the same result on the dict unflatten builds. When the walk descends into a nested dict that came from the input (as in `{"a": {"x": 1}, "a.y": 2}`), the source also writes into that dict of the caller's document; the model does not capture this mutation of its input.
- Values.ParseInt accepts only the numerals `str()` prints. Python's `int()` also accepts "01", "+1" or " 1", which the model rejects as ValueError. Index keys written by `str()` are covered both ways (Values.ParseShow, Values.ShowParse).
- `JsonSerializer`, `rec_getattr` and `Crudad.serialize` are not modelled: they format output and do not take part in syncing.
- Flask, Flask-Principal, fixture installation, packaging and the test harness are not modelled. A principal is the `id` of the acting user.
- The hooks receive that id; the user rows of tests/fixtures.py:14-22 are not modelled.
- tests/test.py imports `PermissionError` from minisync, which defines only `PermissionException`. The model uses the exception each module raises.
- There are tests whose expectations the code does not meet, and the scenarios state what the code does instead:
  - test_update_permission and test_bad_association expect a raise that neither generation performs;
  - the list-valued `children` payloads of test_parent_create, test_parent_update and test_associate_existing raise AttributeError in minisync.
- Actual removal on disassociate, rejecting conflicting dotted and nested keys, and rollback on failure are not implemented by the source, and are not stated as properties.
- Minisync.SyncOutcome: its own contract states only well-formedness and the unflatten error. Its behaviour is stated in the Minisync.Sync... lemmas and the scenarios.
- Crudad.ResolveOutcome: its own contract states only well-formedness and the class of the root. Its behaviour is stated in Crudad.ResolveOnlyStaged, Crudad.ResolveTouchesOnlyRoot and Crudad.ResolveSetsColumns.
- Crudad.CallOutcome: its own contract states only well-formedness. Its session behaviour is stated in Crudad.CallFlushesThenCommits.
- Crudad.ApplyField: its own contract states the cases that raise or are ignored. The column case is stated in Crudad.ApplyFieldColumns, the frame in Crudad.ApplyFieldFrame, and the items of a to-many key in Crudad.AssociateAllMembers.
- Minisync.ResolveAttrOutcome: its own contract states the frame and the errors. The columns it writes are stated in Minisync.ResolveAttrCols, the list-valued class attributes in Minisync.ResolveClassAttribute, the ignored attributes in Minisync.ResolveIgnoresOthers, and the list contents in Minisync.ListPlaces.
- Minisync.UpdateItemsOutcome: its own contract states the frame and the errors. What the named positions receive is stated in Minisync.UpdateItemsSetsColumns and Minisync.UpdateItemsLater, for positions that hold distinct instances only. When two named positions hold the same instance, the later turn's writes win, and the model does not state that case. It also does not carry the first loop's column writes through the second loop, whose items may name the same stored records.
- Minisync.UpdateItemsSetsColumns: it requires that no other named position of the list holds the same instance as position p. Where two positions hold one instance, both turns write to it, and the lemma does not say which values remain.
- Minisync.AddItemsOutcome: its own contract states the frame and the errors. The records it appends are stated in Minisync.AddItemsPlaces and Minisync.ListPlaces.
- Models.IsAttribute: `hasattr` is modelled on a closed list of names. These are the columns, the relations, the list-valued class attributes, the hooks, `parent`, and the attributes every mapped instance has (Models.InstanceAttributes). Any other name counts as missing, including attributes of Python objects or SQLAlchemy that the list leaves out.
- Scenarios.ParentCreateWithListFails: the scenario states only the iteration order in which `children` comes first. Python 2 may iterate the document's keys in another order. The other orders are not stated.

## Findings

| source | as written | input that shows it | evidently intended | confidence | as-written member | corrected member |
|---|---|---|---|---|---|---|
| crudad/__init__.py:162 | `_disassociate` tests `hasattr(child, 'permit_disassociate')` but calls `parent.permit_disassociate(child, user=user)`. Thing has no such hook (AttributeError), and the hook's `parent` argument would be the child | a Thing owned by user 1 with a ChildThing child, principal 1; the child's own hook allows it, but the call raises AttributeError | `child.permit_disassociate(parent, user=user)`, as the hasattr test and the hook's signature (tests/models.py:56) say | not executed | Crudad.DisassociateAsWritten, Crudad.DisassociateCounterexample, Crudad.DisassociateAsWrittenNeverSucceeds | Crudad.DisassociateOutcome, Crudad.DisassociateOwnedThing |
