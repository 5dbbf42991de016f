/** Assembling the combined record set from the responses: the provider's
    metric labels are renamed to the combined model's field names and paired,
    position by position, with the responses (`dict(zip(labels, results))`). */
module Records {
  import opened Json
  import Utils
  import StockModels
  import Validation

  /** The rename table, the same in src/api/fmp_client.py and
      src/data_validation.py. */
  const RenameTable: map<string, string> := map[
    "rating" := "ratings",
    "key-metrics" := "key_metrics",
    "key-metrics-ttm" := "key_metrics_ttm",
    "financial-growth" := "growth"
  ]

  /** `table.get(kind, kind)`: listed kinds are renamed, others pass through. */
  function Rename(metric: string): string
  {
    if metric in RenameTable then RenameTable[metric] else metric
  }

  /** The renaming comprehension, kind by kind. */
  function RenameAll(labels: seq<string>): (r: seq<string>)
    ensures |r| == |labels|
    ensures forall i :: 0 <= i < |labels| ==> r[i] == Rename(labels[i])
  {
    if |labels| == 0 then [] else RenameAll(labels[..|labels| - 1]) + [Rename(labels[|labels| - 1])]
  }

  /** Python's `zip`: pairs up to the shorter of the two. */
  function Zip<A, B>(xs: seq<A>, ys: seq<B>): (r: seq<(A, B)>)
    ensures |r| == if |xs| <= |ys| then |xs| else |ys|
    ensures forall i :: 0 <= i < |r| ==> r[i] == (xs[i], ys[i])
  {
    if |xs| == 0 || |ys| == 0 then [] else [(xs[0], ys[0])] + Zip(xs[1..], ys[1..])
  }

  /** `dict(zip(labels, values))`. */
  function Assemble<V>(labels: seq<string>, values: seq<V>): map<string, V>
  {
    ToMap(Zip(labels, values))
  }

  /** A Python `None` in the result list is a JSON null in the record set. */
  function OrNull(r: Option<Json>): Json
  {
    if r.Some? then r.value else JNull
  }

  function OrNulls(rs: seq<Option<Json>>): (r: seq<Json>)
    ensures |r| == |rs|
    ensures forall i :: 0 <= i < |rs| ==> r[i] == OrNull(rs[i])
  {
    seq(|rs|, i requires 0 <= i < |rs| => OrNull(rs[i]))
  }

  predicate Distinct(labels: seq<string>)
  {
    forall i, j :: 0 <= i < j < |labels| ==> labels[i] != labels[j]
  }

  /** With distinct labels, the label at position `i` holds the value at
      position `i`. */
  lemma {:induction false} AssembleAt<V>(labels: seq<string>, values: seq<V>, i: nat)
    requires Distinct(labels) && i < |labels| && i < |values|
    ensures labels[i] in Assemble(labels, values)
    ensures Assemble(labels, values)[labels[i]] == values[i]
  {
    var z := Zip(labels, values);
    forall j | i < j < |z| ensures z[j].0 != z[i].0 {
      assert z[j].0 == labels[j] && z[i].0 == labels[i];
    }
    ToMapAt(z, i);
  }

  /** The keys are the labels, when there are values enough for all of them. */
  lemma AssembleKeys<V>(labels: seq<string>, values: seq<V>)
    requires |labels| <= |values|
    ensures Assemble(labels, values).Keys == set i | 0 <= i < |labels| :: labels[i]
  {
    var z := Zip(labels, values);
    assert Keys(z) == set i | 0 <= i < |labels| :: labels[i] by {
      forall k | k in set i | 0 <= i < |labels| :: labels[i]
        ensures k in Keys(z)
      {
        var i :| 0 <= i < |labels| && labels[i] == k;
        assert z[i].0 == k;
      }
    }
  }

  /** Exactly the four listed kinds are renamed; every other label passes
      through unchanged. */
  lemma RenameChangesOnlyListed(metric: string)
    ensures Rename(metric) != metric <==>
      metric == "rating" || metric == "key-metrics" || metric == "key-metrics-ttm" || metric == "financial-growth"
    ensures metric !in RenameTable ==> Rename(metric) == metric
  {
  }

  /** The canonical field names are left alone by the renaming, so renaming
      twice is renaming once. */
  lemma RenameIdempotent(metric: string)
    ensures Rename(Rename(metric)) == Rename(metric)
  {
    if metric in RenameTable {
      var v := RenameTable[metric];
      assert v == "ratings" || v == "key_metrics" || v == "key_metrics_ttm" || v == "growth";
      assert v !in RenameTable;
    }
  }

  /** The canonical labels of the default metric kinds, in request order. */
  const CanonicalLabels: seq<string> := ["profile", "ratings", "quote", "key_metrics_ttm", "key_metrics", "growth"]

  /** The rename table on each default kind. */
  lemma RenameDefaultKinds()
    ensures Rename("profile") == "profile" && Rename("rating") == "ratings" && Rename("quote") == "quote"
    ensures Rename("key-metrics-ttm") == "key_metrics_ttm" && Rename("key-metrics") == "key_metrics"
    ensures Rename("financial-growth") == "growth"
  {
    assert "profile" !in RenameTable && "quote" !in RenameTable;
  }

  lemma RenamedKinds(kinds: seq<string>)
    requires kinds == Utils.DefaultMetricTypes
    ensures RenameAll(kinds) == CanonicalLabels
  {
    RenameDefaultKinds();
    var r := RenameAll(kinds);
    forall i | 0 <= i < 6 ensures r[i] == CanonicalLabels[i] {
      assert r[i] == Rename(kinds[i]);
    }
  }

  lemma RenamedDefaults()
    ensures RenameAll(Utils.DefaultMetricTypes) == CanonicalLabels
  {
    RenamedKinds(Utils.DefaultMetricTypes);
  }

  lemma CanonicalLabelsDistinct()
    ensures Distinct(CanonicalLabels)
  {
  }

  /** The renamed default labels are exactly the combined model's six field
      names (in another order). */
  lemma CanonicalLabelsAreFields()
    ensures (set i | 0 <= i < |CanonicalLabels| :: CanonicalLabels[i])
         == (set i | 0 <= i < |StockModels.CombinedModel| :: Validation.Names(StockModels.CombinedModel)[i])
  {
    var names := Validation.Names(StockModels.CombinedModel);
    assert names == ["profile", "quote", "ratings", "key_metrics_ttm", "key_metrics", "growth"];
    var a := set i | 0 <= i < |CanonicalLabels| :: CanonicalLabels[i];
    var b := set i | 0 <= i < |StockModels.CombinedModel| :: names[i];
    assert a == {"profile", "ratings", "quote", "key_metrics_ttm", "key_metrics", "growth"} by {
      assert CanonicalLabels[0] in a && CanonicalLabels[1] in a && CanonicalLabels[2] in a;
      assert CanonicalLabels[3] in a && CanonicalLabels[4] in a && CanonicalLabels[5] in a;
    }
    assert b == {"profile", "ratings", "quote", "key_metrics_ttm", "key_metrics", "growth"} by {
      assert names[0] in b && names[1] in b && names[2] in b;
      assert names[3] in b && names[4] in b && names[5] in b;
    }
  }

  /** Pairing the canonical labels with six values gives exactly the six
      labels as keys. */
  lemma CanonicalKeys(labels: seq<string>, results: seq<Json>)
    requires labels == CanonicalLabels && |results| == 6
    ensures Assemble(labels, results).Keys
         == {"profile", "ratings", "quote", "key_metrics_ttm", "key_metrics", "growth"}
  {
    AssembleKeys(labels, results);
    var ks := set i | 0 <= i < |labels| :: labels[i];
    assert ks == {"profile", "ratings", "quote", "key_metrics_ttm", "key_metrics", "growth"} by {
      assert labels[0] in ks && labels[1] in ks && labels[2] in ks;
      assert labels[3] in ks && labels[4] in ks && labels[5] in ks;
    }
  }

  /** Pairing the canonical labels with six values: each label holds the
      value at its own position. */
  lemma CanonicalLookups(labels: seq<string>, results: seq<Json>)
    requires labels == CanonicalLabels && |results| == 6
    ensures "profile" in Assemble(labels, results) && Assemble(labels, results)["profile"] == results[0]
    ensures "ratings" in Assemble(labels, results) && Assemble(labels, results)["ratings"] == results[1]
    ensures "quote" in Assemble(labels, results) && Assemble(labels, results)["quote"] == results[2]
    ensures "key_metrics_ttm" in Assemble(labels, results) && Assemble(labels, results)["key_metrics_ttm"] == results[3]
    ensures "key_metrics" in Assemble(labels, results) && Assemble(labels, results)["key_metrics"] == results[4]
    ensures "growth" in Assemble(labels, results) && Assemble(labels, results)["growth"] == results[5]
  {
    CanonicalLabelsDistinct();
    AssembleAt(labels, results, 0);
    AssembleAt(labels, results, 1);
    AssembleAt(labels, results, 2);
    AssembleAt(labels, results, 3);
    AssembleAt(labels, results, 4);
    AssembleAt(labels, results, 5);
  }

  /** The record set built from six default responses: each field name holds
      the response to its own request, and there are no other keys. */
  lemma DefaultRecords(results: seq<Json>)
    requires |results| == 6
    ensures Assemble(RenameAll(Utils.DefaultMetricTypes), results).Keys
         == {"profile", "ratings", "quote", "key_metrics_ttm", "key_metrics", "growth"}
    ensures "profile" in Assemble(RenameAll(Utils.DefaultMetricTypes), results)
    ensures Assemble(RenameAll(Utils.DefaultMetricTypes), results)["profile"] == results[0]
    ensures "ratings" in Assemble(RenameAll(Utils.DefaultMetricTypes), results)
    ensures Assemble(RenameAll(Utils.DefaultMetricTypes), results)["ratings"] == results[1]
    ensures "quote" in Assemble(RenameAll(Utils.DefaultMetricTypes), results)
    ensures Assemble(RenameAll(Utils.DefaultMetricTypes), results)["quote"] == results[2]
    ensures "key_metrics_ttm" in Assemble(RenameAll(Utils.DefaultMetricTypes), results)
    ensures Assemble(RenameAll(Utils.DefaultMetricTypes), results)["key_metrics_ttm"] == results[3]
    ensures "key_metrics" in Assemble(RenameAll(Utils.DefaultMetricTypes), results)
    ensures Assemble(RenameAll(Utils.DefaultMetricTypes), results)["key_metrics"] == results[4]
    ensures "growth" in Assemble(RenameAll(Utils.DefaultMetricTypes), results)
    ensures Assemble(RenameAll(Utils.DefaultMetricTypes), results)["growth"] == results[5]
  {
    RenamedDefaults();
    CanonicalKeys(RenameAll(Utils.DefaultMetricTypes), results);
    CanonicalLookups(RenameAll(Utils.DefaultMetricTypes), results);
  }

  /** Six responses, in request order, each a list of valid records of its
      own class. */
  predicate ResponsesValid(bodies: seq<Json>)
  {
    && |bodies| == 6
    && Validation.RecordsValid(StockModels.CompanyProfile, bodies[0])
    && Validation.RecordsValid(StockModels.Ratings, bodies[1])
    && Validation.RecordsValid(StockModels.Quote, bodies[2])
    && Validation.RecordsValid(StockModels.KeyMetricsTTM, bodies[3])
    && Validation.RecordsValid(StockModels.KeyMetrics, bodies[4])
    && Validation.RecordsValid(StockModels.Growth, bodies[5])
  }

  /** Renaming, zipping and validating six default responses: the record set
      is valid exactly when every response is a list of valid records of the
      class its kind names, and its dump holds each response's records under
      the class's field name. */
  lemma AssembledValidation(bodies: seq<Json>)
    requires |bodies| == 6
    ensures Validation.ValidateRecord(StockModels.CombinedModel, Assemble(RenameAll(Utils.DefaultMetricTypes), bodies)).Ok?
            <==> ResponsesValid(bodies)
    ensures ResponsesValid(bodies) ==>
      Validation.ValidateRecord(StockModels.CombinedModel, Assemble(RenameAll(Utils.DefaultMetricTypes), bodies)).value == [
        ("profile", Validation.DumpAll(StockModels.CompanyProfile, bodies[0])),
        ("quote", Validation.DumpAll(StockModels.Quote, bodies[2])),
        ("ratings", Validation.DumpAll(StockModels.Ratings, bodies[1])),
        ("key_metrics_ttm", Validation.DumpAll(StockModels.KeyMetricsTTM, bodies[3])),
        ("key_metrics", Validation.DumpAll(StockModels.KeyMetrics, bodies[4])),
        ("growth", Validation.DumpAll(StockModels.Growth, bodies[5]))]
  {
    var m := Assemble(RenameAll(Utils.DefaultMetricTypes), bodies);
    DefaultRecords(bodies);
    StockModels.CombinedModelAccepts(m);
    if ResponsesValid(bodies) {
      StockModels.CombinedModelDump(m);
    }
  }
}
