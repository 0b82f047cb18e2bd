/**
 * Properties of the deep key conversion: list shape, dict keys and the
 * later-key-wins rule, round trips between the two styles, idempotence.
 */
module CaseDeepProps {
  import opened Wrappers
  import opened JsonValues
  import opened Case
  import opened CaseDeep

  /** The comprehension's keys are exactly the keys of its pairs, and its entries come from them. */
  lemma {:induction false} FromPairsEntries(ps: Fields)
    ensures forall k :: k in Keys(FromPairs(ps)) <==> k in Keys(ps)
    ensures forall e :: e in FromPairs(ps) ==> e in ps
    decreases |ps|
  {
    if |ps| > 0 {
      var init := ps[..|ps| - 1];
      var last := ps[|ps| - 1];
      FromPairsEntries(init);
      PutEntries(FromPairs(init), last.0, last.1);
      PutKeys(FromPairs(init), last.0, last.1);
      assert ps == init + [last];
      assert Keys(ps) == Keys(init) + [last.0] by {
        assert |Keys(ps)| == |Keys(init) + [last.0]|;
      }
    }
  }

  /** The value of the last pair with a given key is what the dict holds. */
  lemma {:induction false} FromPairsLastWins(ps: Fields, i: nat)
    requires i < |ps|
    requires forall j :: i < j < |ps| ==> ps[j].0 != ps[i].0
    ensures Get(FromPairs(ps), ps[i].0) == Some(ps[i].1)
    decreases |ps|
  {
    var n := |ps| - 1;
    var init := ps[..n];
    assert FromPairs(ps) == Put(FromPairs(init), ps[n].0, ps[n].1);
    GetPut(FromPairs(init), ps[n].0, ps[n].1, ps[i].0);
    if i < n {
      assert ps[n].0 != ps[i].0;
      assert init[i] == ps[i];
      forall j | i < j < |init| ensures init[j].0 != init[i].0 {
        assert init[j] == ps[j];
      }
      FromPairsLastWins(init, i);
    }
  }

  /** Duplicate keys: the value of the LAST pair with a given key wins. */
  lemma FromPairsLaterWins(ps: Fields)
    ensures forall i :: 0 <= i < |ps| && (forall j :: i < j < |ps| ==> ps[j].0 != ps[i].0) ==>
      Get(FromPairs(ps), ps[i].0) == Some(ps[i].1)
    ensures forall k :: k !in Keys(ps) ==> Get(FromPairs(ps), k) == None
  {
    FromPairsEntries(ps);
    forall i | 0 <= i < |ps| && (forall j :: i < j < |ps| ==> ps[j].0 != ps[i].0)
      ensures Get(FromPairs(ps), ps[i].0) == Some(ps[i].1)
    {
      FromPairsLastWins(ps, i);
    }
    forall k | k !in Keys(ps) ensures Get(FromPairs(ps), k) == None {
      GetSpec(FromPairs(ps), k);
    }
  }

  /** A comprehension over pairs with distinct keys reproduces them, order included. */
  lemma {:induction false} FromPairsUnique(ps: Fields)
    requires UniqueKeys(ps)
    ensures FromPairs(ps) == ps
    decreases |ps|
  {
    if |ps| > 0 {
      var init := ps[..|ps| - 1];
      var last := ps[|ps| - 1];
      assert UniqueKeys(init) by {
        forall i, j | 0 <= i < j < |init| ensures init[i].0 != init[j].0 {
          assert init[i] == ps[i] && init[j] == ps[j];
        }
      }
      FromPairsUnique(init);
      forall i | 0 <= i < |init| ensures init[i].0 != last.0 {
        assert init[i] == ps[i];
      }
      PutAbsent(init, last.0, last.1);
      assert ps == init + [last];
    }
  }

  /** Lists: each item of a converted list is the converted item. */
  lemma DeepShape(conv: string -> string, j: Json)
    ensures j.JArr? ==> forall i :: 0 <= i < |j.items| ==> Deep(conv, j).items[i] == Deep(conv, j.items[i])
  {
  }

  /**
   * Dicts: the converted dict holds exactly the converted keys, each at most
   * once; the value under a converted key is the converted value of the last
   * input entry whose key converts to it.
   */
  lemma DeepObject(conv: string -> string, f: Fields)
    ensures Deep(conv, JObj(f)).JObj? && UniqueKeys(Deep(conv, JObj(f)).fields)
    ensures forall c :: c in Keys(Deep(conv, JObj(f)).fields) <==> exists i :: 0 <= i < |f| && conv(f[i].0) == c
    ensures forall i :: 0 <= i < |f| && (forall j :: i < j < |f| ==> conv(f[j].0) != conv(f[i].0)) ==>
      Get(Deep(conv, JObj(f)).fields, conv(f[i].0)) == Some(Deep(conv, f[i].1))
  {
    var ps := DeepPairs(conv, f);
    FromPairsEntries(ps);
    FromPairsLaterWins(ps);
    forall c ensures c in Keys(ps) <==> exists i :: 0 <= i < |f| && conv(f[i].0) == c {
      if c in Keys(ps) {
        var i :| 0 <= i < |ps| && Keys(ps)[i] == c;
        assert conv(f[i].0) == c;
      }
      if exists i :: 0 <= i < |f| && conv(f[i].0) == c {
        var i :| 0 <= i < |f| && conv(f[i].0) == c;
        assert Keys(ps)[i] == c;
      }
    }
    forall i | 0 <= i < |f| && (forall j :: i < j < |f| ==> conv(f[j].0) != conv(f[i].0))
      ensures Get(FromPairs(ps), conv(f[i].0)) == Some(Deep(conv, f[i].1))
    {
      assert ps[i] == (conv(f[i].0), Deep(conv, f[i].1));
      assert forall j :: i < j < |ps| ==> ps[j].0 != ps[i].0;
    }
  }

  /** One dict: the keys come back, and so do the values, given that each value does. */
  lemma DeepRoundTripObject(there: string -> string, back: string -> string, P: string -> bool, f: Fields)
    requires forall k :: P(k) ==> back(there(k)) == k
    requires UniqueKeys(f) && forall i :: 0 <= i < |f| ==> P(f[i].0)
    requires forall i :: 0 <= i < |f| ==> Deep(back, Deep(there, f[i].1)) == f[i].1
    ensures Deep(back, Deep(there, JObj(f))) == JObj(f)
  {
    var ps := DeepPairs(there, f);
    assert Deep(there, JObj(f)) == JObj(FromPairs(ps));
    assert UniqueKeys(ps);
    FromPairsUnique(ps);
    var qs := DeepPairs(back, ps);
    assert Deep(back, JObj(ps)) == JObj(FromPairs(qs));
    forall i | 0 <= i < |f| ensures qs[i] == f[i] {
      assert ps[i] == (there(f[i].0), Deep(there, f[i].1));
    }
    assert qs == f;
    FromPairsUnique(f);
  }

  /**
   * Deep conversion with a key map `there` followed by one with `back`
   * restores the value when `back` undoes `there` on every key.
   */
  lemma {:induction false} DeepRoundTrip(there: string -> string, back: string -> string, P: string -> bool, j: Json)
    requires forall k :: P(k) ==> back(there(k)) == k
    requires AllKeys(P, j)
    ensures Deep(back, Deep(there, j)) == j
    decreases j
  {
    match j
    case JArr(items) =>
      forall i | 0 <= i < |items| ensures Deep(back, Deep(there, items[i])) == items[i] {
        DeepRoundTrip(there, back, P, items[i]);
      }
    case JObj(f) =>
      forall i | 0 <= i < |f| ensures Deep(back, Deep(there, f[i].1)) == f[i].1 {
        DeepRoundTrip(there, back, P, f[i].1);
      }
      DeepRoundTripObject(there, back, P, f);
    case _ =>
  }

  /** `to_camel_deep(to_snake_deep(x)) == x` for camelCase-keyed JSON. */
  lemma CamelSnakeDeepRoundTrip(j: Json)
    requires AllKeys(IsCamelCase, j)
    ensures ToCamelDeep(ToSnakeDeep(j)) == j
  {
    forall k | IsCamelCase(k) ensures ToCamel(ToSnake(k)) == k {
      CamelSnakeRoundTrip(k);
    }
    DeepRoundTrip(ToSnake, ToCamel, IsCamelCase, j);
  }

  /** `to_snake_deep(to_camel_deep(x)) == x` for snake_case-keyed JSON. */
  lemma SnakeCamelDeepRoundTrip(j: Json)
    requires AllKeys(IsSnakeCase, j)
    ensures ToSnakeDeep(ToCamelDeep(j)) == j
  {
    forall k | IsSnakeCase(k) ensures ToSnake(ToCamel(k)) == k {
      SnakeCamelRoundTrip(k);
    }
    DeepRoundTrip(ToCamel, ToSnake, IsSnakeCase, j);
  }

  /** One dict: given that every value is already stable, so is the dict. */
  lemma DeepIdempotentObject(conv: string -> string, f: Fields)
    requires forall k :: conv(conv(k)) == conv(k)
    requires forall i :: 0 <= i < |f| ==> Deep(conv, Deep(conv, f[i].1)) == Deep(conv, f[i].1)
    ensures Deep(conv, Deep(conv, JObj(f))) == Deep(conv, JObj(f))
  {
    var ps := DeepPairs(conv, f);
    var once := FromPairs(ps);
    assert Deep(conv, JObj(f)) == JObj(once);
    FromPairsEntries(ps);
    var qs := DeepPairs(conv, once);
    forall i | 0 <= i < |once| ensures qs[i] == once[i] {
      assert once[i] in ps;
      var m :| 0 <= m < |ps| && ps[m] == once[i];
      assert once[i] == (conv(f[m].0), Deep(conv, f[m].1));
    }
    assert qs == once;
    FromPairsUnique(once);
    assert Deep(conv, JObj(once)) == JObj(FromPairs(qs));
  }

  /** Converting twice with an idempotent key map is converting once. */
  lemma {:induction false} DeepIdempotent(conv: string -> string, j: Json)
    requires forall k :: conv(conv(k)) == conv(k)
    ensures Deep(conv, Deep(conv, j)) == Deep(conv, j)
    decreases j
  {
    match j
    case JArr(items) =>
      forall i | 0 <= i < |items| ensures Deep(conv, Deep(conv, items[i])) == Deep(conv, items[i]) {
        DeepIdempotent(conv, items[i]);
      }
    case JObj(f) =>
      forall i | 0 <= i < |f| ensures Deep(conv, Deep(conv, f[i].1)) == Deep(conv, f[i].1) {
        DeepIdempotent(conv, f[i].1);
      }
      DeepIdempotentObject(conv, f);
    case _ =>
  }

  /** Snake-casing an already snake-cased payload changes nothing. */
  lemma ToSnakeDeepIdempotent(j: Json)
    ensures ToSnakeDeep(ToSnakeDeep(j)) == ToSnakeDeep(j)
  {
    forall k ensures ToSnake(ToSnake(k)) == ToSnake(k) {
      ToSnakeIdempotent(k);
    }
    DeepIdempotent(ToSnake, j);
  }

  /** Storing one more pair is one more `d[k] = v`. */
  lemma FromPairsSnoc(ps: Fields, e: (string, Json))
    ensures FromPairs(ps + [e]) == Put(FromPairs(ps), e.0, e.1)
  {
    assert (ps + [e])[..|ps|] == ps;
  }

  /** Two keys that convert alike collapse into one entry holding the later value. */
  lemma CollidingKeysExample()
    ensures ToSnakeDeep(JObj([("aB", JInt(1)), ("a_b", JInt(2))])) == JObj([("a_b", JInt(2))])
  {
    var f := [("aB", JInt(1)), ("a_b", JInt(2))];
    assert ToSnake("aB") == "a_b";
    ToSnakeNoUpper("a_b");
    var e1, e2 := ("a_b", JInt(1)), ("a_b", JInt(2));
    assert DeepPairs(ToSnake, f) == [e1] + [e2];
    FromPairsSnoc([], e1);
    assert [] + [e1] == [e1];
    FromPairsSnoc([e1], e2);
    assert Put([e1], "a_b", JInt(2)) == [e2] by {
      assert "a_b" in Keys([e1]);
      assert IndexOf(Keys([e1]), "a_b") == 0;
    }
  }
}
