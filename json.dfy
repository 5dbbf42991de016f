/** JSON values as the HTTP client's `response.json()` hands them to Python,
    and the Python dictionaries built from them. */
module Json {

  datatype Option<+T> = None | Some(value: T)

  /** A decoded JSON document. `JNull` is Python's `None`; an object keeps its
      keys in document order, as a Python dict does. */
  datatype Json =
    | JNull
    | JBool(b: bool)
    | JInt(i: int)
    | JFloat(f: real)
    | JStr(s: string)
    | JArr(items: seq<Json>)
    | JObj(fields: seq<(string, Json)>)

  /** The keys of a sequence of pairs. */
  function Keys<V>(pairs: seq<(string, V)>): set<string>
  {
    set i | 0 <= i < |pairs| :: pairs[i].0
  }

  /** The dictionary obtained by inserting the pairs in order, so that a later
      pair overrides an earlier one with the same key (`dict(pairs)`). */
  function ToMap<V>(pairs: seq<(string, V)>): (m: map<string, V>)
    ensures m.Keys == Keys(pairs)
  {
    if |pairs| == 0 then map[]
    else
      var init := pairs[..|pairs| - 1];
      var last := pairs[|pairs| - 1];
      assert Keys(pairs) == Keys(init) + {last.0} by {
        forall k | k in Keys(pairs) ensures k in Keys(init) + {last.0} {
          var i :| 0 <= i < |pairs| && pairs[i].0 == k;
          if i < |pairs| - 1 { assert init[i] == pairs[i]; }
        }
      }
      ToMap(init)[last.0 := last.1]
  }

  /** A key that does not occur again later holds the value it was paired with. */
  lemma {:induction false} ToMapAt<V>(pairs: seq<(string, V)>, i: nat)
    requires i < |pairs|
    requires forall j :: i < j < |pairs| ==> pairs[j].0 != pairs[i].0
    ensures pairs[i].0 in ToMap(pairs) && ToMap(pairs)[pairs[i].0] == pairs[i].1
  {
    if i < |pairs| - 1 {
      var init := pairs[..|pairs| - 1];
      assert init[i] == pairs[i];
      ToMapAt(init, i);
    }
  }

  /** Keys that occur once: each one holds its own value. */
  predicate DistinctKeys<V>(pairs: seq<(string, V)>)
  {
    forall i, j :: 0 <= i < j < |pairs| ==> pairs[i].0 != pairs[j].0
  }

  /** The keys of the pairs in order of first occurrence, leaving out those in
      `seen`. */
  function FirstKeys<V>(pairs: seq<(string, V)>, seen: set<string>): seq<string>
  {
    if |pairs| == 0 then []
    else if pairs[0].0 in seen then FirstKeys(pairs[1..], seen)
    else [pairs[0].0] + FirstKeys(pairs[1..], seen + {pairs[0].0})
  }

  lemma {:induction false} FirstKeysSpec<V>(pairs: seq<(string, V)>, seen: set<string>)
    ensures forall k :: k in FirstKeys(pairs, seen) <==> k in Keys(pairs) && k !in seen
    ensures forall i, j :: 0 <= i < j < |FirstKeys(pairs, seen)| ==> FirstKeys(pairs, seen)[i] != FirstKeys(pairs, seen)[j]
    decreases |pairs|
  {
    if |pairs| > 0 {
      assert Keys(pairs) == {pairs[0].0} + Keys(pairs[1..]) by {
        forall k | k in Keys(pairs) ensures k in {pairs[0].0} + Keys(pairs[1..]) {
          var i :| 0 <= i < |pairs| && pairs[i].0 == k;
          if i > 0 { assert pairs[1..][i - 1] == pairs[i]; }
        }
        forall k | k in Keys(pairs[1..]) ensures k in Keys(pairs) {
          var i :| 0 <= i < |pairs[1..]| && pairs[1..][i].0 == k;
          assert pairs[i + 1] == pairs[1..][i];
        }
      }
      if pairs[0].0 in seen {
        FirstKeysSpec(pairs[1..], seen);
      } else {
        FirstKeysSpec(pairs[1..], seen + {pairs[0].0});
        var rest := FirstKeys(pairs[1..], seen + {pairs[0].0});
        assert FirstKeys(pairs, seen) == [pairs[0].0] + rest;
        assert forall j :: 0 <= j < |rest| ==> rest[j] in rest;
      }
    }
  }

  /** The items of `dict(pairs)`, which is how `response.json()` hands an
      object to Python: each key once, at its first position, holding the
      value of its last pair. */
  function DictItems<V>(pairs: seq<(string, V)>): seq<(string, V)>
  {
    var ks := FirstKeys(pairs, {});
    FirstKeysSpec(pairs, {});
    seq(|ks|, i requires 0 <= i < |ks| => (ks[i], ToMap(pairs)[ks[i]]))
  }

  /** The items have distinct keys, the same keys as the pairs, and make the
      same dictionary. */
  lemma DictItemsDict<V>(pairs: seq<(string, V)>)
    ensures DistinctKeys(DictItems(pairs))
    ensures Keys(DictItems(pairs)) == Keys(pairs)
    ensures ToMap(DictItems(pairs)) == ToMap(pairs)
  {
    var items := DictItems(pairs);
    var ks := FirstKeys(pairs, {});
    DictItemsKeys(pairs);
    forall k | k in Keys(items) ensures ToMap(items)[k] == ToMap(pairs)[k] {
      var i :| 0 <= i < |items| && items[i].0 == k;
      ToMapAt(items, i);
    }
  }

  lemma DictItemsKeys<V>(pairs: seq<(string, V)>)
    ensures |DictItems(pairs)| == |FirstKeys(pairs, {})|
    ensures forall i :: 0 <= i < |DictItems(pairs)| ==> DictItems(pairs)[i].0 == FirstKeys(pairs, {})[i]
    ensures DistinctKeys(DictItems(pairs))
    ensures Keys(DictItems(pairs)) == Keys(pairs)
  {
    var items := DictItems(pairs);
    var ks := FirstKeys(pairs, {});
    FirstKeysSpec(pairs, {});
    forall k | k in Keys(pairs) ensures k in Keys(items) {
      var i :| 0 <= i < |ks| && ks[i] == k;
      assert items[i].0 == k;
    }
  }

  /** Every key of the dict is the key of one item, and every item holds the
      dict's value for its key. */
  lemma DictItemsLookup<V>(pairs: seq<(string, V)>)
    ensures forall i :: 0 <= i < |DictItems(pairs)| ==>
      DictItems(pairs)[i].0 in ToMap(pairs) && DictItems(pairs)[i].1 == ToMap(pairs)[DictItems(pairs)[i].0]
    ensures forall k :: k in ToMap(pairs) ==> exists i :: 0 <= i < |DictItems(pairs)| && DictItems(pairs)[i].0 == k
  {
    DictItemsKeys(pairs);
  }

  /** Pairs whose keys occur once are their own items. */
  lemma DictItemsOfDistinct<V>(pairs: seq<(string, V)>)
    requires DistinctKeys(pairs)
    ensures DictItems(pairs) == pairs
  {
    FirstKeysOfDistinct(pairs, {});
    forall i | 0 <= i < |pairs| ensures DictItems(pairs)[i] == pairs[i] {
      ToMapAt(pairs, i);
    }
  }

  lemma {:induction false} FirstKeysOfDistinct<V>(pairs: seq<(string, V)>, seen: set<string>)
    requires DistinctKeys(pairs)
    requires forall i :: 0 <= i < |pairs| ==> pairs[i].0 !in seen
    ensures FirstKeys(pairs, seen) == seq(|pairs|, i requires 0 <= i < |pairs| => pairs[i].0)
    decreases |pairs|
  {
    if |pairs| > 0 {
      var rest := pairs[1..];
      forall i | 0 <= i < |rest| ensures rest[i].0 !in seen + {pairs[0].0} {
        assert rest[i] == pairs[i + 1];
      }
      FirstKeysOfDistinct(rest, seen + {pairs[0].0});
    }
  }

  /** Two pair lists with the same key at every position have the same keys,
      and the second has distinct keys when the first has. */
  lemma SameKeys<V, W>(a: seq<(string, V)>, b: seq<(string, W)>)
    requires |a| == |b| && forall i :: 0 <= i < |a| ==> a[i].0 == b[i].0
    ensures Keys(a) == Keys(b)
    ensures DistinctKeys(a) ==> DistinctKeys(b)
  {
    forall k | k in Keys(a) ensures k in Keys(b) {
      var i :| 0 <= i < |a| && a[i].0 == k;
      assert b[i].0 == k;
    }
  }
}
