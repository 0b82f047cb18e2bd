/**
 * `to_camel_deep` / `to_snake_deep` (utils/case.py): key conversion applied
 * to every dict of a decoded JSON value, through lists and nested dicts.
 */
module CaseDeep {
  import opened Wrappers
  import opened JsonValues
  import opened Case

  /** Every entry of `Put(f, k, v)` is an entry of `f` or the new one. */
  lemma PutEntries(f: Fields, k: string, v: Json)
    ensures forall e :: e in Put(f, k, v) ==> e in f || e == (k, v)
  {
    var r := Put(f, k, v);
    forall e | e in r ensures e in f || e == (k, v) {
      var i :| 0 <= i < |r| && r[i] == e;
      if k in Keys(f) && i != IndexOf(Keys(f), k) {
        assert e == f[i];
      }
    }
  }

  /**
   * A dict comprehension `{k: v for k, v in pairs}`: entries are stored left
   * to right, so a key seen again overwrites the earlier value in place.
   * Each key is stored once, and every stored entry is one of the pairs.
   */
  function FromPairs(ps: Fields): (r: Fields)
    ensures UniqueKeys(r)
    ensures forall e :: e in r ==> e in ps
    decreases |ps|
  {
    if |ps| == 0 then []
    else
      var init := FromPairs(ps[..|ps| - 1]);
      PutUnique(init, ps[|ps| - 1].0, ps[|ps| - 1].1);
      PutEntries(init, ps[|ps| - 1].0, ps[|ps| - 1].1);
      Put(init, ps[|ps| - 1].0, ps[|ps| - 1].1)
  }

  /**
   * Converts every key with `conv` and recurses into every value and list
   * item: lists keep their length, dicts stay dicts whose keys are converted
   * input keys, and every other value is returned as is.
   */
  function Deep(conv: string -> string, j: Json): (r: Json)
    ensures j.JArr? <==> r.JArr?
    ensures j.JObj? <==> r.JObj?
    ensures j.JArr? ==> |r.items| == |j.items|
    ensures j.JObj? ==> UniqueKeys(r.fields)
    ensures j.JObj? ==> forall e :: e in r.fields ==> exists i :: 0 <= i < |j.fields| && e.0 == conv(j.fields[i].0)
    ensures !j.JArr? && !j.JObj? ==> r == j
    decreases j, 1
  {
    match j
    case JArr(items) => JArr(seq(|items|, i requires 0 <= i < |items| => Deep(conv, items[i])))
    case JObj(f) => JObj(FromPairs(DeepPairs(conv, f)))
    case _ => j
  }

  /** The pairs `(conv(k), deep(v))` of a dict, before they are stored. */
  function DeepPairs(conv: string -> string, f: Fields): (r: Fields)
    ensures |r| == |f|
    ensures forall i :: 0 <= i < |f| ==> r[i] == (conv(f[i].0), Deep(conv, f[i].1))
    decreases JObj(f), 0
  {
    seq(|f|, i requires 0 <= i < |f| => (conv(f[i].0), Deep(conv, f[i].1)))
  }

  /**
   * `to_camel_deep` (utils/case.py): the shape is kept and every top-level
   * key is the `to_camel` form of an input key.
   */
  function ToCamelDeep(j: Json): (r: Json)
    ensures j.JObj? <==> r.JObj?
    ensures j.JArr? ==> r.JArr? && |r.items| == |j.items|
    ensures !j.JArr? && !j.JObj? ==> r == j
    ensures r.JObj? ==> forall e :: e in r.fields ==> exists i :: 0 <= i < |j.fields| && e.0 == ToCamel(j.fields[i].0)
  {
    Deep(ToCamel, j)
  }

  /**
   * `to_snake_deep` (utils/case.py): the shape is kept and every top-level
   * key is a `to_snake` result, with no upper-case letter.
   */
  function ToSnakeDeep(j: Json): (r: Json)
    ensures j.JObj? <==> r.JObj?
    ensures j.JArr? ==> r.JArr? && |r.items| == |j.items|
    ensures !j.JArr? && !j.JObj? ==> r == j
    ensures r.JObj? ==> forall e, c :: e in r.fields && 0 <= c < |e.0| ==> !IsUpper(e.0[c])
  {
    Deep(ToSnake, j)
  }

  /** Keys satisfying `P` at every level, and no dict with a repeated key. */
  predicate AllKeys(P: string -> bool, j: Json)
    decreases j
  {
    match j
    case JArr(items) => forall i :: 0 <= i < |items| ==> AllKeys(P, items[i])
    case JObj(f) => UniqueKeys(f) && forall i :: 0 <= i < |f| ==> P(f[i].0) && AllKeys(P, f[i].1)
    case _ => true
  }
}
