/** Values shared by both generations of the sync algorithm: Python-like scalar
    values, change documents (insertion-ordered dicts and lists), the exceptions the
    code raises, and Python's int()/str() on the index keys of to-many payloads. */
module Values {

  datatype Option<T> = None | Some(value: T)

  /** The exceptions the modelled code raises, by Python class. */
  datatype Error =
    | PermissionError       // crudad.PermissionError: raised by crudad and by the permission hooks
    | PermissionException   // minisync.PermissionException: raised by sync_object
    | AttributeError        // getattr on a missing attribute, or on None
    | KeyError              // obj_dict['user_id'] on a document without that key
    | TypeError             // iterating a value that is not iterable, item assignment on a non-dict
    | ValueError            // int() of a key that is not a numeral
    | UnmappedClassError    // class_mapper(NoneType)

  datatype Result<T> = Ok(value: T) | Err(error: Error)

  /** The scalar values a change document or a column holds. */
  datatype Value = VNone | VInt(i: int) | VStr(s: string)

  /** A node of a change document: a scalar, a dict (entries in iteration order) or a list. */
  datatype Doc = Scalar(v: Value) | Dict(entries: seq<(string, Doc)>) | List(items: seq<Doc>)

  /** The acting user: None when no user is given, otherwise the id attribute of the SyncUser. */
  type Principal = Option<Value>

  /** Python truthiness: None, zero, the empty string and empty containers are false,
      everything else is true. */
  predicate Truthy(d: Doc): (b: bool)
    ensures b <==> d !in {Scalar(VNone), Scalar(VInt(0)), Scalar(VStr("")), Dict([]), List([])}
  {
    match d
    case Scalar(VNone) => false
    case Scalar(VInt(i)) => i != 0
    case Scalar(VStr(s)) => s != ""
    case Dict(es) => es != []
    case List(xs) => xs != []
  }

  predicate UniqueKeys(es: seq<(string, Doc)>) {
    forall i, j :: 0 <= i < j < |es| ==> es[i].0 != es[j].0
  }

  function Keys(es: seq<(string, Doc)>): (ks: set<string>)
    ensures forall k :: k in ks <==> exists i :: 0 <= i < |es| && es[i].0 == k
  {
    set i | 0 <= i < |es| :: es[i].0
  }

  /** The position of key k in a dict, if present. */
  function Find(es: seq<(string, Doc)>, k: string): (r: Option<nat>)
    ensures r.Some? ==> r.value < |es| && es[r.value].0 == k
    ensures r.Some? ==> forall j :: 0 <= j < r.value ==> es[j].0 != k
    ensures r.None? <==> k !in Keys(es)
  {
    if es == [] then None
    else if es[0].0 == k then Some(0)
    else match Find(es[1..], k)
         case None => None
         case Some(j) => Some(j + 1)
  }

  /** d.get(k) */
  function Get(es: seq<(string, Doc)>, k: string): Option<Doc> {
    match Find(es, k)
    case None => None
    case Some(i) => Some(es[i].1)
  }

  /** d.get(k, None) */
  function GetOrNone(es: seq<(string, Doc)>, k: string): Doc {
    match Get(es, k)
    case None => Scalar(VNone)
    case Some(v) => v
  }

  /** d[k] = v: replaces the value in place when k is present, otherwise appends the entry. */
  function Put(es: seq<(string, Doc)>, k: string, v: Doc): (r: seq<(string, Doc)>)
    ensures Get(r, k) == Some(v)
    ensures forall k' :: k' != k ==> Get(r, k') == Get(es, k')
    ensures Keys(r) == Keys(es) + {k}
    ensures UniqueKeys(es) ==> UniqueKeys(r)
    ensures k in Keys(es) ==> |r| == |es|
    ensures k !in Keys(es) ==> r == es + [(k, v)]
  {
    match Find(es, k)
    case Some(i) =>
      var r := es[i := (k, v)];
      assert Find(r, k) == Some(i) by { FindFirst(r, k, i); }
      forall k' | k' != k ensures Get(r, k') == Get(es, k') { FindReplace(es, i, k, v, k'); }
      assert Keys(r) == Keys(es) by {
        forall x | x in Keys(es) ensures x in Keys(r) {
          var j :| 0 <= j < |es| && es[j].0 == x;
          assert r[j].0 == x;
        }
      }
      r
    case None =>
      var r := es + [(k, v)];
      assert Find(r, k) == Some(|es|) by { FindFirst(r, k, |es|); }
      forall k' | k' != k ensures Get(r, k') == Get(es, k') { FindAppend(es, k, v, k'); }
      assert Keys(r) == Keys(es) + {k} by {
        forall x | x in Keys(es) ensures x in Keys(r) {
          var j :| 0 <= j < |es| && es[j].0 == x;
          assert r[j].0 == x;
        }
        assert r[|es|].0 == k;
      }
      r
  }

  lemma {:induction false} FindFirst(es: seq<(string, Doc)>, k: string, i: nat)
    requires i < |es| && es[i].0 == k
    requires forall j :: 0 <= j < i ==> es[j].0 != k
    ensures Find(es, k) == Some(i)
  {
    if i > 0 { FindFirst(es[1..], k, i - 1); }
  }

  lemma {:induction false} FindReplace(es: seq<(string, Doc)>, i: nat, k: string, v: Doc, k': string)
    requires i < |es| && es[i].0 == k && k' != k
    ensures Find(es[i := (k, v)], k') == Find(es, k')
  {
    if i > 0 {
      assert es[i := (k, v)][1..] == es[1..][i - 1 := (k, v)];
      FindReplace(es[1..], i - 1, k, v, k');
    }
  }

  lemma {:induction false} FindAppend(es: seq<(string, Doc)>, k: string, v: Doc, k': string)
    requires k' != k
    ensures Find(es + [(k, v)], k') == Find(es, k')
  {
    if es != [] {
      assert (es + [(k, v)])[1..] == es[1..] + [(k, v)];
      FindAppend(es[1..], k, v, k');
    }
  }

  // ---- int() and str() on the index keys of a to-many payload ----

  function DigitChar(d: nat): (c: char)
    requires d < 10
    ensures '0' <= c <= '9' && (c - '0') as int == d
  {
    "0123456789"[d]
  }

  predicate AllDigits(s: string) {
    forall i :: 0 <= i < |s| ==> '0' <= s[i] <= '9'
  }

  /** The value of a string of decimal digits. */
  function DigitsValue(s: string): nat
    requires AllDigits(s)
  {
    if s == [] then 0 else DigitsValue(s[..|s| - 1]) * 10 + (s[|s| - 1] - '0') as int
  }

  /** A numeral as str() prints a non-negative int: digits without a leading zero. */
  predicate CanonicalNat(s: string) {
    |s| > 0 && AllDigits(s) && (s[0] == '0' ==> |s| == 1)
  }

  /** str(n) for n >= 0. */
  function ShowNat(n: nat): string
    decreases n
  {
    if n < 10 then [DigitChar(n)] else ShowNat(n / 10) + [DigitChar(n % 10)]
  }

  /** str(i): a minus sign exactly for a negative i, then the digits of |i|. */
  function ShowInt(i: int): (s: string)
    ensures |s| > 0 && (s[0] == '-' <==> i < 0)
  {
    ShowNatCanonical(if i < 0 then -i else i);
    if i < 0 then
      var s := "-" + ShowNat(-i);
      assert s[1..] == ShowNat(-i);
      s
    else ShowNat(i)
  }

  /** int(s), for the numerals str() prints; None where int() would raise ValueError.
      An accepted key is negative iff it starts with a minus sign, and zero iff it is "0". */
  function ParseInt(s: string): (r: Option<int>)
    ensures r.Some? ==> |s| > 0 && (r.value < 0 <==> s[0] == '-') && (r.value == 0 <==> s == "0")
  {
    if CanonicalNat(s) then
      if s[0] != '0' then LeadingDigitPositive(s); Some(DigitsValue(s))
      else CanonicalZero(s); Some(DigitsValue(s))
    else if |s| > 1 && s[0] == '-' && CanonicalNat(s[1..]) && s[1] != '0' then
      LeadingDigitPositive(s[1..]);
      Some(0 - DigitsValue(s[1..]) as int)
    else None
  }

  lemma {:induction false} ShowNatCanonical(n: nat)
    ensures CanonicalNat(ShowNat(n)) && DigitsValue(ShowNat(n)) == n
    decreases n
  {
    if n >= 10 {
      ShowNatCanonical(n / 10);
      var s := ShowNat(n);
      assert s[..|s| - 1] == ShowNat(n / 10);
    }
  }

  lemma {:induction false} LeadingDigitPositive(s: string)
    requires CanonicalNat(s) && s[0] != '0'
    ensures DigitsValue(s) > 0
    decreases |s|
  {
    if |s| > 1 {
      var p := s[..|s| - 1];
      assert p[0] == s[0];
      LeadingDigitPositive(p);
    }
  }

  lemma {:induction false} CanonicalShow(s: string)
    requires CanonicalNat(s)
    ensures ShowNat(DigitsValue(s)) == s
    decreases |s|
  {
    var d := (s[|s| - 1] - '0') as int;
    if |s| == 1 {
      assert s == [DigitChar(d)];
    } else {
      var p := s[..|s| - 1];
      assert p[0] == s[0];
      LeadingDigitPositive(p);
      CanonicalShow(p);
      var n := DigitsValue(s);
      assert n / 10 == DigitsValue(p) && n % 10 == d;
      assert s == p + [DigitChar(d)];
    }
  }

  /** int(str(i)) == i: str() prints a key that int() reads back. */
  lemma ParseShow(i: int)
    ensures ParseInt(ShowInt(i)) == Some(i)
  {
    if i < 0 {
      assert ShowInt(i) == "-" + ShowNat(-i);
      ParseShowNegative(-i);
    } else {
      assert ShowInt(i) == ShowNat(i);
      ShowNatCanonical(i);
    }
  }

  /** int() reads back what str() prints for a negative number. */
  lemma ParseShowNegative(n: nat)
    requires n > 0
    ensures ParseInt("-" + ShowNat(n)) == Some(0 - n)
  {
    var u := ShowNat(n);
    ShowNatCanonical(n);
    assert u[0] != '0' by {
      if u[0] == '0' { CanonicalZero(u); }
    }
    ParseNegative(u);
  }

  /** int() reads a minus sign before a numeral with a non-zero lead as the negation. */
  lemma ParseNegative(u: string)
    requires CanonicalNat(u) && u[0] != '0'
    ensures ParseInt("-" + u) == Some(0 - DigitsValue(u) as int)
  {
    var t := "-" + u;
    assert t[1..] == u && t[1] == u[0];
    assert t[0] == '-';
  }

  /** A numeral str() prints that starts with 0 is "0" itself. */
  lemma CanonicalZero(s: string)
    requires CanonicalNat(s) && s[0] == '0'
    ensures s == "0" && DigitsValue(s) == 0
  {
    assert s == [s[0]];
    assert DigitsValue(s) == DigitsValue(s[..0]) * 10;
  }

  /** str(int(s)) == s for every key int() accepts here: the `attr_val.get(str(i))`
      lookup finds the entry whose key named position i. */
  lemma ShowParse(s: string)
    requires ParseInt(s).Some?
    ensures ShowInt(ParseInt(s).value) == s
  {
    if CanonicalNat(s) {
      CanonicalShow(s);
    } else {
      CanonicalShow(s[1..]);
      LeadingDigitPositive(s[1..]);
      assert s == "-" + s[1..];
    }
  }
}
