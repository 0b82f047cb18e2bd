/**
 * Decoded JSON values as the Python code sees them: `None`, `bool`, `int`,
 * `float`, `str`, `list` and `dict`. A dict is an insertion-ordered list of
 * key/value pairs; `Put` is `d[k] = v` (replace in place, or append).
 */
module JsonValues {
  import opened Wrappers

  datatype Json =
    | JNull
    | JBool(b: bool)
    | JInt(i: int)
    | JFloat(r: real)
    | JStr(s: string)
    | JArr(items: seq<Json>)
    | JObj(fields: seq<(string, Json)>)

  type Fields = seq<(string, Json)>

  /** The keys of a dict, in insertion order. */
  function Keys(f: Fields): (r: seq<string>)
    ensures |r| == |f|
    ensures forall i :: 0 <= i < |f| ==> r[i] == f[i].0
  {
    seq(|f|, i requires 0 <= i < |f| => f[i].0)
  }

  /** Python dicts never hold a key twice. */
  predicate UniqueKeys(f: Fields) {
    forall i, j :: 0 <= i < j < |f| ==> f[i].0 != f[j].0
  }

  /** The position of the first occurrence of `k`. */
  function IndexOf(ks: seq<string>, k: string): (i: nat)
    requires k in ks
    ensures i < |ks| && ks[i] == k
    ensures forall j :: 0 <= j < i ==> ks[j] != k
  {
    if ks[0] == k then 0 else 1 + IndexOf(ks[1..], k)
  }

  /** Any first occurrence is the one `IndexOf` finds. */
  lemma IndexOfFirst(ks: seq<string>, k: string, i: nat)
    requires i < |ks| && ks[i] == k
    requires forall j :: 0 <= j < i ==> ks[j] != k
    ensures IndexOf(ks, k) == i
  {
  }

  /** `d.get(k)`: the value stored under `k`, if any. */
  function Get(f: Fields, k: string): (r: Option<Json>)
  {
    if |f| == 0 then None
    else
      assert Keys(f) == [f[0].0] + Keys(f[1..]);
      if f[0].0 == k then Some(f[0].1) else Get(f[1..], k)
  }

  /** What `Get` finds: a value exactly when the key is present, and the entry it came from. */
  lemma {:induction false} GetSpec(f: Fields, k: string)
    ensures Get(f, k).Some? <==> k in Keys(f)
    ensures Get(f, k).Some? ==> (k, Get(f, k).value) in f
    ensures Get(f, k).None? ==> forall i :: 0 <= i < |f| ==> f[i].0 != k
  {
    if |f| > 0 {
      GetSpec(f[1..], k);
      assert Keys(f) == [f[0].0] + Keys(f[1..]);
      if Get(f, k).None? {
        forall i | 0 <= i < |f| ensures f[i].0 != k {
          if i > 0 {
            assert f[i] == f[1..][i - 1];
          }
        }
      }
    }
  }

  /** A key no entry carries is not found. */
  lemma GetAbsent(f: Fields, k: string)
    requires forall i :: 0 <= i < |f| ==> f[i].0 != k
    ensures Get(f, k).None?
  {
    GetSpec(f, k);
  }

  /** In a dict with unique keys, each entry is what its key looks up. */
  lemma {:induction false} GetUnique(f: Fields, i: nat)
    requires UniqueKeys(f) && i < |f|
    ensures Get(f, f[i].0) == Some(f[i].1)
  {
    if i > 0 {
      UniqueTail(f);
      assert f[i] == f[1..][i - 1];
      GetUnique(f[1..], i - 1);
    }
  }

  /** The keys of two dicts written one after the other. */
  lemma KeysAppend(a: Fields, b: Fields)
    ensures Keys(a + b) == Keys(a) + Keys(b)
  {
  }

  /** The first entry with a key is the one a lookup finds. */
  lemma {:induction false} GetFirst(f: Fields, i: nat)
    requires i < |f|
    requires forall j :: 0 <= j < i ==> f[j].0 != f[i].0
    ensures Get(f, f[i].0) == Some(f[i].1)
  {
    assert f == [f[0]] + f[1..];
    if i == 0 {
      GetConsHead(f[0].0, f[0].1, f[1..]);
    } else {
      GetConsTail(f[0].0, f[0].1, f[1..], f[i].0);
      GetFirst(f[1..], i - 1);
    }
  }

  /** Looking up in `a + b`: `a` first, then `b`. */
  lemma {:induction false} GetAppend(a: Fields, b: Fields, k: string)
    ensures Get(a + b, k) == if Get(a, k).Some? then Get(a, k) else Get(b, k)
  {
    if |a| > 0 {
      assert a + b == [a[0]] + (a[1..] + b);
      assert a == [a[0]] + a[1..];
      GetCons(a[0].0, a[0].1, a[1..] + b, k);
      GetCons(a[0].0, a[0].1, a[1..], k);
      GetAppend(a[1..], b, k);
    } else {
      assert a + b == b;
    }
  }

  /** `d.get(k, default)`. */
  function GetOr(f: Fields, k: string, default: Json): Json {
    Get(f, k).GetOr(default)
  }

  /** `d[k] = v`: overwrite in place when `k` is present, otherwise append. */
  function Put(f: Fields, k: string, v: Json): Fields {
    if k in Keys(f) then f[IndexOf(Keys(f), k) := (k, v)] else f + [(k, v)]
  }

  /** `d[k] = v` keeps the key order, adding `k` at the end when it is new. */
  lemma PutKeys(f: Fields, k: string, v: Json)
    ensures Keys(Put(f, k, v)) == if k in Keys(f) then Keys(f) else Keys(f) + [k]
  {
  }

  /** Storing a new key appends it at the end. */
  lemma PutAbsent(f: Fields, k: string, v: Json)
    requires forall i :: 0 <= i < |f| ==> f[i].0 != k
    ensures Put(f, k, v) == f + [(k, v)]
  {
    assert k !in Keys(f);
  }

  /** `d[k] = v` on a dict whose first key is another one leaves that entry first. */
  lemma PutCons(f: Fields, k: string, v: Json)
    requires |f| > 0 && f[0].0 != k
    ensures Put(f, k, v) == [f[0]] + Put(f[1..], k, v)
  {
    assert Keys(f) == [f[0].0] + Keys(f[1..]);
    if k in Keys(f) {
      PutConsPresent(f, k, v);
    } else {
      assert f + [(k, v)] == [f[0]] + (f[1..] + [(k, v)]);
    }
  }

  lemma PutConsPresent(f: Fields, k: string, v: Json)
    requires |f| > 0 && f[0].0 != k && k in Keys(f[1..])
    ensures Put(f, k, v) == [f[0]] + Put(f[1..], k, v)
  {
    var ks := Keys(f);
    assert ks[0] != k;
    assert ks[1..] == Keys(f[1..]);
    var j := IndexOf(Keys(f[1..]), k);
    assert IndexOf(ks, k) == 1 + j;
    var g := f[1..];
    var a := f[1 + j := (k, v)];
    var b := [f[0]] + g[j := (k, v)];
    assert |a| == |b|;
    forall i | 0 <= i < |a| ensures a[i] == b[i] {
      if i > 0 {
        assert b[i] == g[j := (k, v)][i - 1];
      }
    }
  }

  /** `d[k] = v` leaves every entry under another key where it was. */
  lemma PutKeepsOthers(f: Fields, k: string, v: Json)
    ensures |Put(f, k, v)| >= |f|
    ensures forall i :: 0 <= i < |f| && f[i].0 != k ==> Put(f, k, v)[i] == f[i]
  {
  }

  /** `GetPut` for every key at once. */
  lemma GetPutAll(f: Fields, k: string, v: Json)
    ensures forall k' :: Get(Put(f, k, v), k') == if k' == k then Some(v) else Get(f, k')
  {
    forall k' ensures Get(Put(f, k, v), k') == if k' == k then Some(v) else Get(f, k') {
      GetPut(f, k, v, k');
    }
  }

  /** Reading back: the new value under `k`, the old value under every other key. */
  lemma {:induction false} GetPut(f: Fields, k: string, v: Json, k': string)
    ensures Get(Put(f, k, v), k') == if k' == k then Some(v) else Get(f, k')
  {
    if |f| == 0 {
      GetCons(k, v, [], k');
    } else if f[0].0 == k {
      assert Keys(f)[0] == k;
      assert Put(f, k, v) == [(k, v)] + f[1..];
      GetCons(k, v, f[1..], k');
      GetCons(f[0].0, f[0].1, f[1..], k');
      assert [f[0]] + f[1..] == f;
    } else {
      PutCons(f, k, v);
      GetPut(f[1..], k, v, k');
      GetCons(f[0].0, f[0].1, Put(f[1..], k, v), k');
      GetCons(f[0].0, f[0].1, f[1..], k');
      assert [f[0]] + f[1..] == f;
    }
  }

  /** `d[k] = v` on a dict never creates a repeated key. */
  lemma PutUnique(f: Fields, k: string, v: Json)
    requires UniqueKeys(f)
    ensures UniqueKeys(Put(f, k, v))
  {
    PutKeys(f, k, v);
    var r := Put(f, k, v);
    assert forall i :: 0 <= i < |r| ==> r[i].0 == Keys(r)[i];
  }

  /** Python truthiness of a JSON value. */
  predicate Truthy(j: Json) {
    match j
    case JNull => false
    case JBool(b) => b
    case JInt(i) => i != 0
    case JFloat(r) => r != 0.0
    case JStr(s) => s != ""
    case JArr(a) => a != []
    case JObj(f) => f != []
  }

  /** `x.get(...)` needs `x` to be a dict; anything else raises AttributeError. */
  function AsDict(j: Json): (r: Result<Fields>)
    ensures r.Ok? <==> j.JObj?
    ensures r.Ok? ==> r.value == j.fields
  {
    if j.JObj? then Ok(j.fields) else Err(AttributeError)
  }

  /**
   * `for x in j`: a list yields its items, a dict its keys, a string its
   * characters; anything else raises TypeError.
   */
  function Iterate(j: Json): (r: Result<seq<Json>>)
    ensures r.Ok? <==> (j.JArr? || j.JObj? || j.JStr?)
    ensures j.JArr? ==> r == Ok(j.items)
    ensures j.JObj? ==> r.Ok? && |r.value| == |j.fields|
    ensures j.JStr? ==> r.Ok? && |r.value| == |j.s|
    ensures r.Err? ==> r.fault == TypeError
  {
    match j
    case JArr(items) => Ok(items)
    case JObj(f) => Ok(seq(|f|, i requires 0 <= i < |f| => JStr(f[i].0)))
    case JStr(s) => Ok(seq(|s|, i requires 0 <= i < |s| => JStr([s[i]])))
    case _ => Err(TypeError)
  }

  /** `d.pop(k, None)`: the dict without its entry for `k`. */
  function Remove(f: Fields, k: string): (r: Fields)
    ensures |r| <= |f|
  {
    if |f| == 0 then []
    else if f[0].0 == k then f[1..]
    else [f[0]] + Remove(f[1..], k)
  }

  /** The rest of a dict with unique keys has unique keys, none of them its first key. */
  lemma UniqueTail(f: Fields)
    requires UniqueKeys(f) && |f| > 0
    ensures UniqueKeys(f[1..])
    ensures forall i :: 0 <= i < |f[1..]| ==> f[1..][i].0 != f[0].0
  {
    assert forall i :: 0 <= i < |f[1..]| ==> f[1..][i] == f[i + 1];
  }

  /** Putting a new key in front keeps the keys unique. */
  lemma UniqueCons(e: (string, Json), r: Fields)
    requires UniqueKeys(r)
    requires forall i :: 0 <= i < |r| ==> r[i].0 != e.0
    ensures UniqueKeys([e] + r)
  {
    assert forall i :: 0 < i < |[e] + r| ==> ([e] + r)[i] == r[i - 1];
  }

  /** Removing `k` leaves every other entry, in order, and no `k` when keys were unique. */
  lemma {:induction false} RemoveSpec(f: Fields, k: string, k': string)
    requires UniqueKeys(f)
    ensures Get(Remove(f, k), k') == if k' == k then None else Get(f, k')
    ensures UniqueKeys(Remove(f, k))
  {
    if |f| > 0 {
      UniqueTail(f);
      assert f == [f[0]] + f[1..];
      GetCons(f[0].0, f[0].1, f[1..], k');
      if f[0].0 == k {
        GetAbsent(f[1..], k);
      } else {
        var r := Remove(f[1..], k);
        RemoveSpec(f[1..], k, k');
        GetCons(f[0].0, f[0].1, r, k');
        RemoveSpec(f[1..], k, f[0].0);
        GetAbsent(f[1..], f[0].0);
        GetSpec(r, f[0].0);
        UniqueCons(f[0], r);
      }
    }
  }

  /** Looking up a key in a dict that starts with a given entry. */
  lemma GetCons(k: string, v: Json, f: Fields, k': string)
    ensures Get([(k, v)] + f, k') == if k' == k then Some(v) else Get(f, k')
  {
    if k' == k {
      GetConsHead(k, v, f);
    } else {
      GetConsTail(k, v, f, k');
    }
  }

  lemma GetConsHead(k: string, v: Json, f: Fields)
    ensures Get([(k, v)] + f, k) == Some(v)
  {
    var g := [(k, v)] + f;
    assert Keys(g)[0] == k;
    assert IndexOf(Keys(g), k) == 0;
  }

  lemma GetConsTail(k: string, v: Json, f: Fields, k': string)
    requires k' != k
    ensures Get([(k, v)] + f, k') == Get(f, k')
  {
    var g := [(k, v)] + f;
    var ks := Keys(g);
    assert ks == [k] + Keys(f);
    assert ks[1..] == Keys(f);
    if k' in Keys(f) {
      assert IndexOf(ks, k') == 1 + IndexOf(Keys(f), k');
    }
  }

  /** An entry that is there only when `present`, among entries with other keys. */
  lemma GetOptional(f: Fields, k: string, present: bool, v: Json, rest: Fields)
    requires forall i :: 0 <= i < |f| ==> f[i].0 != k
    requires forall i :: 0 <= i < |rest| ==> rest[i].0 != k
    ensures Get(f + (if present then [(k, v)] else []) + rest, k) == if present then Some(v) else None
  {
    var o: Fields := if present then [(k, v)] else [];
    GetAppend(f + o, rest, k);
    GetAppend(f, o, k);
    GetAbsent(f, k);
    GetAbsent(rest, k);
    if present {
      assert o == [(k, v)] + [];
      GetConsHead(k, v, []);
    } else {
      GetAbsent(o, k);
    }
  }

  /** `d.pop(k)` on a dict that starts with a given entry. */
  lemma RemoveCons(k: string, v: Json, f: Fields, k': string)
    ensures Remove([(k, v)] + f, k') == if k' == k then f else [(k, v)] + Remove(f, k')
  {
    assert ([(k, v)] + f)[1..] == f;
  }

  /** Popping a key the dict does not hold changes nothing. */
  lemma {:induction false} RemoveAbsent(f: Fields, k: string)
    requires forall i :: 0 <= i < |f| ==> f[i].0 != k
    ensures Remove(f, k) == f
  {
    if |f| > 0 {
      RemoveAbsent(f[1..], k);
      assert [f[0]] + f[1..] == f;
    }
  }

  /** A string value, or `None` for any other JSON value. */
  function AsStr(j: Json): Option<string> {
    if j.JStr? then Some(j.s) else None
  }

  // ---------------------------------------------------------------------
  // Dicts filled by conditional assignments
  // ---------------------------------------------------------------------

  /** Python truthiness of an optional string argument. */
  predicate Given(s: Option<string>) {
    s.Some? && s.value != ""
  }

  /** The value `if s: d[k] = s` stores, when it stores one. */
  function StrIfGiven(s: Option<string>): Option<Json> {
    if Given(s) then Some(JStr(s.value)) else None
  }

  /** `params or None`: an empty dict is not sent at all. */
  function NoneIfEmpty(f: Fields): Option<Json> {
    if f == [] then None else Some(JObj(f))
  }

  /** The entry `d[k] = v` adds when the value is there to add. */
  function Entry(e: (string, Option<Json>)): Fields {
    if e.1.Some? then [(e.0, e.1.value)] else []
  }

  /** The dict built by a run of `if ...: d[k] = v` statements, one per candidate entry, in order. */
  function Present(es: seq<(string, Option<Json>)>): Fields {
    if |es| == 0 then [] else Entry(es[0]) + Present(es[1..])
  }

  predicate DistinctNames(es: seq<(string, Option<Json>)>) {
    forall i, j :: 0 <= i < j < |es| ==> es[i].0 != es[j].0
  }

  lemma {:induction false} PresentSnoc(es: seq<(string, Option<Json>)>, e: (string, Option<Json>))
    ensures Present(es + [e]) == Present(es) + Entry(e)
  {
    if |es| == 0 {
      assert es + [e] == [e];
      assert Present([e]) == Entry(e) + Present([]);
    } else {
      assert (es + [e])[1..] == es[1..] + [e];
      PresentSnoc(es[1..], e);
    }
  }

  /** A key no candidate entry names is absent from the result. */
  lemma {:induction false} PresentAbsent(es: seq<(string, Option<Json>)>, k: string)
    requires forall i :: 0 <= i < |es| ==> es[i].0 != k
    ensures Get(Present(es), k) == None
    ensures k !in Keys(Present(es))
  {
    if |es| > 0 {
      PresentAbsent(es[1..], k);
      GetAppend(Entry(es[0]), Present(es[1..]), k);
      KeysAppend(Entry(es[0]), Present(es[1..]));
      if es[0].1.Some? {
        GetConsTail(es[0].0, es[0].1.value, [], k);
      }
    }
    GetSpec(Present(es), k);
  }

  /** Every candidate entry is in the result exactly when its value is there. */
  lemma {:induction false} PresentGet(es: seq<(string, Option<Json>)>, i: nat)
    requires DistinctNames(es) && i < |es|
    ensures Get(Present(es), es[i].0) == es[i].1
  {
    var k := es[i].0;
    GetAppend(Entry(es[0]), Present(es[1..]), k);
    if i == 0 {
      if es[0].1.Some? {
        GetConsHead(k, es[0].1.value, []);
      } else {
        PresentAbsent(es[1..], k);
      }
    } else {
      if es[0].1.Some? {
        GetConsTail(es[0].0, es[0].1.value, [], k);
      }
      PresentGet(es[1..], i - 1);
    }
  }

  /** Two runs of assignments one after the other. */
  lemma {:induction false} PresentAppend(a: seq<(string, Option<Json>)>, b: seq<(string, Option<Json>)>)
    ensures Present(a + b) == Present(a) + Present(b)
  {
    if |a| > 0 {
      assert (a + b)[1..] == a[1..] + b;
      PresentAppend(a[1..], b);
    } else {
      assert a + b == b;
    }
  }

  /** Leading candidates whose values are all there open the result, in order. */
  lemma {:induction false} PresentLeading(es: seq<(string, Option<Json>)>, n: nat)
    requires n <= |es| && forall i :: 0 <= i < n ==> es[i].1.Some?
    ensures |Present(es)| >= n && forall i :: 0 <= i < n ==> Present(es)[i] == (es[i].0, es[i].1.value)
  {
    if n > 0 {
      assert forall i :: 0 <= i < n - 1 ==> es[1..][i] == es[i + 1];
      PresentLeading(es[1..], n - 1);
    }
  }

  /** Every stored entry is a candidate whose value was there. */
  lemma {:induction false} PresentEntries(es: seq<(string, Option<Json>)>)
    ensures forall e | e in Present(es) :: exists i :: 0 <= i < |es| && es[i].0 == e.0 && es[i].1 == Some(e.1)
  {
    if |es| > 0 {
      PresentEntries(es[1..]);
      forall e | e in Present(es) ensures exists i :: 0 <= i < |es| && es[i].0 == e.0 && es[i].1 == Some(e.1) {
        if e !in Entry(es[0]) {
          var i :| 0 <= i < |es[1..]| && es[1..][i].0 == e.0 && es[1..][i].1 == Some(e.1);
          assert es[i + 1] == es[1..][i];
        }
      }
    }
  }

  /** The first `n` candidates, assigned one after the other. */
  function PresentUpTo(es: seq<(string, Option<Json>)>, n: nat): Fields
    requires n <= |es|
  {
    if n == 0 then [] else PresentUpTo(es, n - 1) + Entry(es[n - 1])
  }

  lemma {:induction false} PresentUpToSpec(es: seq<(string, Option<Json>)>, n: nat)
    requires n <= |es|
    ensures PresentUpTo(es, n) == Present(es[..n])
  {
    if n > 0 {
      PresentUpToSpec(es, n - 1);
      assert es[..n] == es[..n - 1] + [es[n - 1]];
      PresentSnoc(es[..n - 1], es[n - 1]);
    }
  }

  /** Every candidate's key is new when its turn comes. */
  lemma PresentUpToFresh(es: seq<(string, Option<Json>)>, n: nat)
    requires DistinctNames(es) && n < |es|
    ensures es[n].0 !in Keys(PresentUpTo(es, n))
  {
    PresentUpToSpec(es, n);
    PresentAbsent(es[..n], es[n].0);
  }

  /** `if v: d[k] = v` for a key `d` does not hold yet: the entry is appended when the value is there. */
  method PutIfPresent(d: Fields, k: string, v: Option<Json>) returns (r: Fields)
    requires k !in Keys(d)
    ensures r == d + Entry((k, v))
  {
    r := d;
    if v.Some? {
      r := Put(r, k, v.value);
    }
  }

  /** Nothing is stored exactly when no candidate value is there. */
  lemma {:induction false} PresentEmpty(es: seq<(string, Option<Json>)>)
    ensures Present(es) == [] <==> forall i :: 0 <= i < |es| ==> es[i].1.None?
  {
    if |es| > 0 {
      PresentEmpty(es[1..]);
      assert forall i :: 1 <= i < |es| ==> es[i] == es[1..][i - 1];
    }
  }

  /**
   * One `if v: d[k] = v` step on a dict that starts with `base`: the key is
   * new, so the assignment appends, and the dict grows by one candidate.
   */
  lemma PresentStep(base: Fields, es: seq<(string, Option<Json>)>, n: nat)
    requires DistinctNames(es) && n < |es|
    requires forall i :: 0 <= i < |es| ==> es[i].0 !in Keys(base)
    ensures es[n].0 !in Keys(base + Present(es[..n]))
    ensures base + Present(es[..n + 1]) == base + Present(es[..n]) + Entry(es[n])
  {
    assert es[..n + 1] == es[..n] + [es[n]];
    PresentSnoc(es[..n], es[n]);
    PresentAbsent(es[..n], es[n].0);
    KeysAppend(base, Present(es[..n]));
  }
}
