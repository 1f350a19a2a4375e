/** minisync.unflatten: a flat change document whose keys name dotted paths
    ("user.email") becomes a nested one. Keys are processed in iteration order; each
    walks down from the result, creating an empty dict for every missing segment but
    the last, and assigns the value at the last. */
module Unflatten {
  import opened Values

  /** '.'.join(parts) */
  function Join(parts: seq<string>): string
    requires |parts| >= 1
  {
    if |parts| == 1 then parts[0] else parts[0] + "." + Join(parts[1..])
  }

  predicate NoDots(parts: seq<string>) {
    forall i :: 0 <= i < |parts| ==> '.' !in parts[i]
  }

  /** key.split("."): the maximal dot-free segments, in order. */
  function SplitDots(s: string): (parts: seq<string>)
    ensures |parts| >= 1 && NoDots(parts)
    ensures Join(parts) == s
    ensures |parts| == 1 <==> '.' !in s
  {
    if s == [] then [""]
    else if s[0] == '.' then
      var r := SplitDots(s[1..]);
      assert s == "." + s[1..];
      [""] + r
    else
      var r := SplitDots(s[1..]);
      var parts := [[s[0]] + r[0]] + r[1..];
      assert parts[1..] == r[1..];
      assert s == [s[0]] + s[1..];
      assert |r| > 1 ==> Join(r) == r[0] + "." + Join(r[1..]);
      assert forall i :: 1 <= i < |parts| ==> parts[i] == r[i];
      parts
  }

  /** Splitting a join of dot-free segments gives the segments back. */
  lemma {:induction false} SplitJoin(parts: seq<string>)
    requires |parts| >= 1 && NoDots(parts)
    ensures SplitDots(Join(parts)) == parts
    decreases |parts|, |parts[0]|
  {
    if parts[0] == [] {
      if |parts| > 1 {
        SplitJoin(parts[1..]);
        assert Join(parts)[1..] == Join(parts[1..]);
        assert parts == [""] + parts[1..];
      }
    } else {
      var c := parts[0][0];
      var tail := [parts[0][1..]] + parts[1..];
      NoDotsTail(parts);
      SplitJoin(tail);
      JoinHead(parts);
      assert c != '.' by { assert c == parts[0][0]; }
      SplitCons(c, Join(tail));
      assert [c] + tail[0] == parts[0];
      assert tail[1..] == parts[1..];
      assert [parts[0]] + parts[1..] == parts;
    }
  }

  /** Dropping the first character of the first segment keeps the segments dot-free. */
  lemma NoDotsTail(parts: seq<string>)
    requires |parts| >= 1 && NoDots(parts) && parts[0] != []
    ensures NoDots([parts[0][1..]] + parts[1..])
  {
    var tail := [parts[0][1..]] + parts[1..];
    forall i | 0 <= i < |tail| ensures '.' !in tail[i] {
      if i == 0 {
        assert forall j :: 0 <= j < |parts[0][1..]| ==> parts[0][1..][j] == parts[0][j + 1];
      } else {
        assert tail[i] == parts[i];
      }
    }
  }

  /** A join starts with the first character of its first segment. */
  lemma JoinHead(parts: seq<string>)
    requires |parts| >= 1 && parts[0] != []
    ensures Join(parts) == [parts[0][0]] + Join([parts[0][1..]] + parts[1..])
  {
    var tail := [parts[0][1..]] + parts[1..];
    assert parts[0] == [parts[0][0]] + parts[0][1..];
    if |parts| > 1 {
      assert tail[1..] == parts[1..];
    }
  }

  /** Splitting a string that starts with a character other than '.' puts that
      character in front of the first segment. */
  lemma SplitCons(c: char, s: string)
    requires c != '.'
    ensures SplitDots([c] + s) == [[c] + SplitDots(s)[0]] + SplitDots(s)[1..]
  {
    assert ([c] + s)[1..] == s;
  }

  predicate IsPrefixOf(a: seq<string>, b: seq<string>) {
    |a| <= |b| && b[..|a|] == a
  }

  predicate ProperPrefixOf(a: seq<string>, b: seq<string>) {
    |a| < |b| && b[..|a|] == a
  }

  /** The node at a path of segments, where every segment but the last names a dict. */
  function At(es: seq<(string, Doc)>, path: seq<string>): Option<Doc>
    requires |path| >= 1
    decreases |path|
  {
    match Get(es, path[0])
    case None => None
    case Some(d) =>
      if |path| == 1 then Some(d)
      else if d.Dict? then At(d.entries, path[1..])
      else None
  }

  /** The walk along path meets only dicts or missing keys until the last segment. */
  predicate Clear(es: seq<(string, Doc)>, path: seq<string>)
    requires |path| >= 1
    decreases |path|
  {
    |path| == 1 ||
    match Get(es, path[0])
    case None => true
    case Some(d) => d.Dict? && Clear(d.entries, path[1..])
  }

  /** One iteration of the outer loop: walk the cursor down path, inserting a fresh dict
      for each missing segment, and assign v at the last segment. A segment that names
      something other than a dict raises TypeError (item assignment or `in` on it). */
  function SetPath(es: seq<(string, Doc)>, path: seq<string>, v: Doc): (r: Result<seq<(string, Doc)>>)
    requires |path| >= 1
    ensures r.Ok? <==> Clear(es, path)
    ensures r.Err? ==> r.error == TypeError
    ensures r.Ok? ==> At(r.value, path) == Some(v)
    ensures r.Ok? ==> Keys(r.value) == Keys(es) + {path[0]}
    ensures r.Ok? && UniqueKeys(es) ==> UniqueKeys(r.value)
    decreases |path|
  {
    if |path| == 1 then Ok(Put(es, path[0], v))
    else
      var inner := match Get(es, path[0]) case Some(d) => d case None => Dict([]);
      if !inner.Dict? then Err(TypeError)
      else match SetPath(inner.entries, path[1..], v)
        case Err(e) => Err(e)
        case Ok(entries) => Ok(Put(es, path[0], Dict(entries)))
  }

  /** Every segment of the path but the last names a dict after the walk. */
  lemma {:induction false} SetPathMakesDicts(es: seq<(string, Doc)>, path: seq<string>, v: Doc, m: nat)
    requires |path| >= 1 && SetPath(es, path, v).Ok? && 1 <= m < |path|
    ensures At(SetPath(es, path, v).value, path[..m]).Some?
    ensures At(SetPath(es, path, v).value, path[..m]).value.Dict?
    decreases |path|
  {
    var r := SetPath(es, path, v).value;
    var inner := match Get(es, path[0]) case Some(d) => d case None => Dict([]);
    var sub := SetPath(inner.entries, path[1..], v).value;
    assert Get(r, path[0]) == Some(Dict(sub));
    if m > 1 {
      SetPathMakesDicts(inner.entries, path[1..], v, m - 1);
      assert path[..m][1..] == path[1..][..m - 1];
    }
  }

  /** The walk along path leaves the node at any path q unrelated to it by prefix as it
      was: a dotted key merges into the dicts already present on its way. */
  lemma {:induction false} SetPathOthers(es: seq<(string, Doc)>, path: seq<string>, v: Doc, q: seq<string>)
    requires |path| >= 1 && |q| >= 1 && SetPath(es, path, v).Ok?
    requires !IsPrefixOf(path, q) && !IsPrefixOf(q, path)
    ensures At(SetPath(es, path, v).value, q) == At(es, q)
    decreases |path|
  {
    var r := SetPath(es, path, v).value;
    if q[0] != path[0] {
      assert Get(r, q[0]) == Get(es, q[0]);
    } else {
      assert |path| > 1 && |q| > 1;
      var inner := match Get(es, path[0]) case Some(d) => d case None => Dict([]);
      var sub := SetPath(inner.entries, path[1..], v).value;
      assert Get(r, path[0]) == Some(Dict(sub));
      SetPathOthers(inner.entries, path[1..], v, q[1..]);
      if Get(es, path[0]).None? {
        assert At([], q[1..]) == None;
      }
    }
  }

  /** A later walk does not block an earlier-cleared path unless its own path is a
      proper prefix of it. */
  lemma {:induction false} SetPathKeepsClear(es: seq<(string, Doc)>, path: seq<string>, v: Doc, q: seq<string>)
    requires |path| >= 1 && |q| >= 1 && SetPath(es, path, v).Ok? && Clear(es, q)
    requires !ProperPrefixOf(path, q)
    ensures Clear(SetPath(es, path, v).value, q)
    decreases |path|
  {
    var r := SetPath(es, path, v).value;
    if |q| > 1 && q[0] == path[0] {
      assert |path| > 1;
      var inner := match Get(es, path[0]) case Some(d) => d case None => Dict([]);
      var sub := SetPath(inner.entries, path[1..], v).value;
      assert Get(r, path[0]) == Some(Dict(sub));
      if Get(es, path[0]).None? {
        EmptyClear(q[1..]);
      }
      SetPathKeepsClear(inner.entries, path[1..], v, q[1..]);
    } else if |q| > 1 {
      assert Get(r, q[0]) == Get(es, q[0]);
    }
  }

  lemma EmptyClear(q: seq<string>)
    requires |q| >= 1
    ensures Clear([], q)
  {
  }

  // ---- the outer loop ----

  /** The segments of key i. */
  function PathOf(es: seq<(string, Doc)>, i: nat): seq<string>
    requires i < |es|
  {
    SplitDots(es[i].0)
  }

  /** unflatten(dictionary), as the entries of resultDict: the keys processed in order. */
  function Unflattened(es: seq<(string, Doc)>): (r: Result<seq<(string, Doc)>>)
    ensures r.Err? ==> r.error == TypeError
    decreases |es|
  {
    if es == [] then Ok([])
    else match Unflattened(es[..|es| - 1])
      case Err(e) => Err(e)
      case Ok(acc) => SetPath(acc, PathOf(es, |es| - 1), es[|es| - 1].1)
  }

  /** The first segments of the keys of es. */
  function Heads(es: seq<(string, Doc)>): set<string>
    decreases |es|
  {
    if es == [] then {} else Heads(es[..|es| - 1]) + {PathOf(es, |es| - 1)[0]}
  }

  /** x is in Heads(es) iff some key of es starts with segment x. */
  lemma {:induction false} HeadsAre(es: seq<(string, Doc)>)
    ensures forall x :: x in Heads(es) <==> exists i :: 0 <= i < |es| && PathOf(es, i)[0] == x
    decreases |es|
  {
    if es != [] {
      var init := es[..|es| - 1];
      HeadsAre(init);
      var last := PathOf(es, |es| - 1)[0];
      forall x ensures x in Heads(es) <==> exists i :: 0 <= i < |es| && PathOf(es, i)[0] == x {
        if x != last && x in Heads(init) {
          var i :| 0 <= i < |init| && PathOf(init, i)[0] == x;
          assert PathOf(es, i) == PathOf(init, i);
        }
        if i :| 0 <= i < |es| - 1 && PathOf(es, i)[0] == x {
          assert PathOf(init, i) == PathOf(es, i);
        }
      }
    }
  }

  /** The top-level keys of the result are the first segments of the input keys, each once. */
  lemma {:induction false} KeysAreHeads(es: seq<(string, Doc)>)
    requires Unflattened(es).Ok?
    ensures Keys(Unflattened(es).value) == Heads(es) && UniqueKeys(Unflattened(es).value)
    decreases |es|
  {
    if es != [] {
      KeysAreHeads(es[..|es| - 1]);
    }
  }

  /** The top-level keys of the result are exactly the first segments of the input keys. */
  lemma UnflattenKeys(es: seq<(string, Doc)>)
    requires Unflattened(es).Ok?
    ensures forall x :: x in Keys(Unflattened(es).value) <==> exists i :: 0 <= i < |es| && PathOf(es, i)[0] == x
    ensures UniqueKeys(Unflattened(es).value)
  {
    KeysAreHeads(es);
    HeadsAre(es);
  }

  /** No key's path is a proper prefix of another's. */
  predicate PrefixFree(es: seq<(string, Doc)>) {
    forall i, j :: 0 <= i < |es| && 0 <= j < |es| ==> !ProperPrefixOf(PathOf(es, i), PathOf(es, j))
  }

  /** For prefix-free keys the walk never fails, and each value lands at the path of
      its key unless a later key has the same path (the later one wins). */
  lemma {:induction false} UnflattenPaths(es: seq<(string, Doc)>)
    requires PrefixFree(es)
    ensures Unflattened(es).Ok?
    ensures forall i :: 0 <= i < |es| && (forall j :: i < j < |es| ==> PathOf(es, j) != PathOf(es, i)) ==>
      At(Unflattened(es).value, PathOf(es, i)) == Some(es[i].1)
  {
    UnflattenInvariant(es, |es|);
    assert es[..|es|] == es;
  }

  lemma {:induction false} UnflattenInvariant(es: seq<(string, Doc)>, n: nat)
    requires PrefixFree(es) && n <= |es|
    ensures Unflattened(es[..n]).Ok?
    ensures forall j :: n <= j < |es| ==> Clear(Unflattened(es[..n]).value, PathOf(es, j))
    ensures forall i :: 0 <= i < n && (forall j :: i < j < n ==> PathOf(es, j) != PathOf(es, i)) ==>
      At(Unflattened(es[..n]).value, PathOf(es, i)) == Some(es[i].1)
    decreases n
  {
    if n == 0 {
      forall j | 0 <= j < |es| ensures Clear([], PathOf(es, j)) { EmptyClear(PathOf(es, j)); }
    } else {
      UnflattenInvariant(es, n - 1);
      var pre := es[..n];
      assert pre[..n - 1] == es[..n - 1];
      assert PathOf(pre, n - 1) == PathOf(es, n - 1);
      var acc := Unflattened(es[..n - 1]).value;
      var p := PathOf(es, n - 1);
      var r := SetPath(acc, p, es[n - 1].1).value;
      assert Unflattened(pre) == Ok(r);
      forall j | n <= j < |es| ensures Clear(r, PathOf(es, j)) {
        SetPathKeepsClear(acc, p, es[n - 1].1, PathOf(es, j));
      }
      forall i | 0 <= i < n && (forall j :: i < j < n ==> PathOf(es, j) != PathOf(es, i))
        ensures At(r, PathOf(es, i)) == Some(es[i].1)
      {
        if i == n - 1 {
          assert At(r, p) == Some(es[n - 1].1);
        } else {
          var q := PathOf(es, i);
          assert p != q;
          assert !IsPrefixOf(p, q) by { assert !ProperPrefixOf(p, q); }
          assert !IsPrefixOf(q, p) by { assert !ProperPrefixOf(q, p); }
          SetPathOthers(acc, p, es[n - 1].1, q);
        }
      }
    }
  }

  /** A document whose keys are distinct and contain no dot comes out unchanged. */
  lemma {:induction false} UnflattenDotless(es: seq<(string, Doc)>)
    requires UniqueKeys(es)
    requires forall i :: 0 <= i < |es| ==> '.' !in es[i].0
    ensures Unflattened(es) == Ok(es)
    decreases |es|
  {
    if es != [] {
      var init := es[..|es| - 1];
      UnflattenDotless(init);
      var k := es[|es| - 1].0;
      assert PathOf(es, |es| - 1) == [k];
      assert k !in Keys(init) by {
        forall i | 0 <= i < |init| ensures init[i].0 != k { assert init[i] == es[i]; }
      }
      assert init + [(k, es[|es| - 1].1)] == es;
    }
  }

  lemma UnflattenStep(es: seq<(string, Doc)>, i: nat)
    requires i < |es|
    ensures Unflattened(es[..i + 1]) ==
      match Unflattened(es[..i])
      case Err(e) => Err(e)
      case Ok(acc) => SetPath(acc, SplitDots(es[i].0), es[i].1)
  {
    var pre := es[..i + 1];
    assert pre[..|pre| - 1] == es[..i] && pre[|pre| - 1] == es[i];
  }

  /** An exception on key i ends the loop: keys after it are never processed. */
  lemma {:induction false} UnflattenErrPersists(es: seq<(string, Doc)>, n: nat)
    requires n <= |es| && Unflattened(es[..n]).Err?
    ensures Unflattened(es) == Unflattened(es[..n])
    decreases |es| - n
  {
    if n < |es| {
      UnflattenStep(es, n);
      UnflattenErrPersists(es, n + 1);
    } else {
      assert es[..n] == es;
    }
  }

  /** The outer loop of unflatten, with the cursor walk of each key done by SetPath. */
  method Unflatten(dictionary: seq<(string, Doc)>) returns (r: Result<seq<(string, Doc)>>)
    ensures r == Unflattened(dictionary)
  {
    var resultDict: seq<(string, Doc)> := [];
    var i := 0;
    while i < |dictionary|
      invariant 0 <= i <= |dictionary|
      invariant Unflattened(dictionary[..i]) == Ok(resultDict)
    {
      var (key, value) := dictionary[i];
      UnflattenStep(dictionary, i);
      var step := SetPath(resultDict, SplitDots(key), value);
      if step.Err? {
        UnflattenErrPersists(dictionary, i + 1);
        return Err(step.error);
      }
      resultDict := step.value;
      i := i + 1;
    }
    assert dictionary[..i] == dictionary;
    r := Ok(resultDict);
  }
}
