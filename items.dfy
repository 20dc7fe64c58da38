/**
 * `build_item(name, data, parents, rpn_string)`: one metric of a profile
 * page, evaluated for each parent geography (the place itself and its
 * comparatives).  For each parent the tables of its geography are merged
 * into one pair of estimate and error dictionaries, the formula is evaluated
 * on them and the four results are rounded to two places and recorded under
 * the parent's relation label.
 */
module Items {
  import opened Wrappers
  import opened Host
  import opened Rpn
  import opened Formula
  import opened RpnLaws

  /** A table's `estimate` and `error` dictionaries, keyed by variable. */
  datatype TableData = TableData(estimate: map<string, Option<real>>, error: map<string, Option<real>>)

  /** `data['data'][geoid]`: the tables of one geography, in iteration order. */
  type Tables = seq<(string, TableData)>

  /** `data['data']`: the tables of each geography. */
  type GeoData = map<string, Tables>

  /** An entry of `parents`: the relation label (`this`, `county`, …) and the geography. */
  datatype Parent = Parent(relation: string, geoid: string)

  /** The item: its name and the four dictionaries keyed by relation label. */
  datatype MetricItem = MetricItem(
    name: string,
    values: map<string, Option<real>>,
    error: map<string, Option<real>>,
    numerators: map<string, Option<real>>,
    numeratorErrors: map<string, Option<real>>)

  /** What `build_item` raises. */
  datatype BuildError =
    | MissingGeoid(geoid: string)   // data['data'][geoid] has no such key
    | Evaluation(cause: EvalError)  // value_rpn_calc raises
    | NullNumeratorMargin           // round(None, 2) on the numerator's margin

  // --- Merging the tables of a geography ----------------------------------------

  /** Dictionaries applied one after another with `dict.update`: a later one overwrites an earlier one. */
  function UpdateAll(ms: seq<map<string, Option<real>>>): map<string, Option<real>>
  {
    if ms == [] then map[] else UpdateAll(ms[..|ms| - 1]) + ms[|ms| - 1]
  }

  function Estimates(tables: Tables): seq<map<string, Option<real>>>
  {
    seq(|tables|, i requires 0 <= i < |tables| => tables[i].1.estimate)
  }

  function Errors(tables: Tables): seq<map<string, Option<real>>>
  {
    seq(|tables|, i requires 0 <= i < |tables| => tables[i].1.error)
  }

  /** `data_for_geoid`: the estimates and the errors of all tables of a geography, merged in order. */
  function Merged(tables: Tables): Observations
  {
    Observations(UpdateAll(Estimates(tables)), UpdateAll(Errors(tables)))
  }

  /** A variable is merged exactly when some table has it. */
  lemma {:induction false} UpdateAllDomain(ms: seq<map<string, Option<real>>>, k: string)
    ensures k in UpdateAll(ms) <==> exists i :: 0 <= i < |ms| && k in ms[i]
  {
    if ms != [] {
      var n := |ms| - 1;
      UpdateAllDomain(ms[..n], k);
      if k in UpdateAll(ms[..n]) {
        var i :| 0 <= i < n && k in ms[..n][i];
        assert ms[i] == ms[..n][i];
      }
      if exists i :: 0 <= i < |ms| && k in ms[i] {
        var i :| 0 <= i < |ms| && k in ms[i];
        if i < n {
          assert ms[..n][i] == ms[i];
        }
      }
    }
  }

  /** The merged value of a variable is the one of the last table that has it. */
  lemma {:induction false} UpdateAllLastWins(ms: seq<map<string, Option<real>>>, k: string, i: nat)
    requires i < |ms| && k in ms[i]
    requires forall j :: i < j < |ms| ==> k !in ms[j]
    ensures k in UpdateAll(ms) && UpdateAll(ms)[k] == ms[i][k]
  {
    var n := |ms| - 1;
    if i < n {
      assert k !in ms[n];
      forall j | i < j < n
        ensures k !in ms[..n][j]
      {
        assert ms[..n][j] == ms[j];
      }
      assert ms[..n][i] == ms[i];
      UpdateAllLastWins(ms[..n], k, i);
    }
  }

  /** Estimates and errors of the merged geography: a variable's entry comes from the last table that has it. */
  lemma MergedLastWins(tables: Tables, k: string, i: nat)
    requires i < |tables|
    ensures k in tables[i].1.estimate && (forall j :: i < j < |tables| ==> k !in tables[j].1.estimate) ==>
              k in Merged(tables).estimate && Merged(tables).estimate[k] == tables[i].1.estimate[k]
    ensures k in tables[i].1.error && (forall j :: i < j < |tables| ==> k !in tables[j].1.error) ==>
              k in Merged(tables).error && Merged(tables).error[k] == tables[i].1.error[k]
  {
    var es, rs := Estimates(tables), Errors(tables);
    if k in tables[i].1.estimate && (forall j :: i < j < |tables| ==> k !in tables[j].1.estimate) {
      assert forall j :: i < j < |es| ==> es[j] == tables[j].1.estimate;
      UpdateAllLastWins(es, k, i);
    }
    if k in tables[i].1.error && (forall j :: i < j < |tables| ==> k !in tables[j].1.error) {
      assert forall j :: i < j < |rs| ==> rs[j] == tables[j].1.error;
      UpdateAllLastWins(rs, k, i);
    }
  }

  /** A variable that no table has is not merged. */
  lemma MergedDomain(tables: Tables, k: string)
    ensures k in Merged(tables).estimate <==> exists i :: 0 <= i < |tables| && k in tables[i].1.estimate
    ensures k in Merged(tables).error <==> exists i :: 0 <= i < |tables| && k in tables[i].1.error
  {
    var es, rs := Estimates(tables), Errors(tables);
    UpdateAllDomain(es, k);
    UpdateAllDomain(rs, k);
    assert forall i :: 0 <= i < |tables| ==> es[i] == tables[i].1.estimate && rs[i] == tables[i].1.error;
  }

  /** The inner loop: `data_for_geoid['estimate'].update(...)` and `['error'].update(...)` table by table. */
  method MergeTables(tables: Tables) returns (obs: Observations)
    ensures obs == Merged(tables)
  {
    var estimate: map<string, Option<real>> := map[];
    var error: map<string, Option<real>> := map[];
    for i := 0 to |tables|
      invariant estimate == UpdateAll(Estimates(tables[..i]))
      invariant error == UpdateAll(Errors(tables[..i]))
    {
      assert Estimates(tables[..i + 1])[..i] == Estimates(tables[..i]);
      assert Errors(tables[..i + 1])[..i] == Errors(tables[..i]);
      estimate := estimate + tables[i].1.estimate;
      error := error + tables[i].1.error;
    }
    assert tables[..|tables|] == tables;
    obs := Observations(estimate, error);
  }

  // --- One parent -----------------------------------------------------------------

  /** The rounding after the evaluation: two places, a falsy error becoming 0 beside a value. */
  function Rounded(o: Outcome): Result<Outcome, BuildError>
  {
    var value := if o.value.Some? then Some(Round(o.value.value, 2)) else None;
    var error :=
      if o.value.None? then o.error
      else if o.error.Some? && o.error.value != 0.0 then Some(Round(o.error.value, 2))
      else Some(0.0);
    if o.numerator.Some? && o.numeratorMoe.None? then Err(NullNumeratorMargin)
    else if o.numerator.Some? then
      Ok(Outcome(value, error, Some(Round(o.numerator.value, 2)), Some(Round(o.numeratorMoe.value, 2))))
    else Ok(Outcome(value, error, None, o.numeratorMoe))
  }

  /** The four results recorded for one parent. */
  function Measure(data: GeoData, parent: Parent, formula: string): Result<Outcome, BuildError>
  {
    if parent.geoid !in data then Err(MissingGeoid(parent.geoid))
    else
      match Evaluate(Merged(data[parent.geoid]), formula)
      case Err(e) => Err(Evaluation(e))
      case Ok(o) => Rounded(o)
  }

  /**
   * What is recorded for a parent, in terms of what the evaluator returns on
   * its merged tables: the value rounded; beside a value, the error rounded
   * or 0 when it is missing or zero, and without one the error as returned;
   * the numerator and its margin rounded, and absent together.
   */
  lemma MeasureOutcome(data: GeoData, parent: Parent, formula: string)
    ensures Measure(data, parent, formula).Ok? <==>
              parent.geoid in data && Evaluate(Merged(data[parent.geoid]), formula).Ok?
    ensures Measure(data, parent, formula).Ok? ==>
              var o := Evaluate(Merged(data[parent.geoid]), formula).value;
              var m := Measure(data, parent, formula).value;
              (m.value.Some? <==> o.value.Some?) &&
              (o.value.Some? ==> m.value.value == Round(o.value.value, 2)) &&
              (o.value.Some? ==> m.error == if o.error.Some? && o.error.value != 0.0 then Some(Round(o.error.value, 2)) else Some(0.0)) &&
              (o.value.None? ==> m.error == o.error) &&
              (m.numerator.Some? <==> o.numerator.Some?) &&
              (m.numerator.Some? ==> m.numerator.value == Round(o.numerator.value, 2) &&
                                     m.numeratorMoe == Some(Round(o.numeratorMoe.value, 2))) &&
              (m.numerator.None? ==> m.numeratorMoe == None)
  {
    if parent.geoid in data {
      var obs := Merged(data[parent.geoid]);
      RoundingDefined(obs, formula);
    }
  }

  /** The evaluator pairs the numerator with its margin, so `round(None, 2)` is never reached. */
  lemma RoundingDefined(obs: Observations, formula: string)
    ensures Evaluate(obs, formula).Ok? ==> Rounded(Evaluate(obs, formula).value).Ok?
    ensures Evaluate(obs, formula).Ok? ==> var o := Evaluate(obs, formula).value; o.numerator.Some? <==> o.numeratorMoe.Some?
  {
    EvaluateNumeratorPaired(obs, Tokenize(formula));
  }

  // --- The item -------------------------------------------------------------------

  /** `val['values'][label] = value` and the three others. */
  function Record(item: MetricItem, rel: string, o: Outcome): MetricItem
  {
    item.(values := item.values[rel := o.value], error := item.error[rel := o.error],
          numerators := item.numerators[rel := o.numerator],
          numeratorErrors := item.numeratorErrors[rel := o.numeratorMoe])
  }

  /** The measurement of each parent, for the formula on these tables. */
  function MeasureOf(data: GeoData, formula: string): Parent -> Result<Outcome, BuildError>
  {
    p => Measure(data, p, formula)
  }

  /** `build_item` as a value: the parents in order, each measured by `measure`, the first error raised. */
  function BuildFrom(name: string, measure: Parent -> Result<Outcome, BuildError>, parents: seq<Parent>): Result<MetricItem, BuildError>
  {
    if parents == [] then Ok(MetricItem(name, map[], map[], map[], map[]))
    else
      var n := |parents| - 1;
      var item :- BuildFrom(name, measure, parents[..n]);
      var o :- measure(parents[n]);
      Ok(Record(item, parents[n].relation, o))
  }

  /** The relation labels of the parents. */
  function Labels(parents: seq<Parent>): set<string>
  {
    set i | 0 <= i < |parents| :: parents[i].relation
  }

  /** The item succeeds exactly when every parent is measured. */
  lemma {:induction false} BuildSucceeds(name: string, measure: Parent -> Result<Outcome, BuildError>, parents: seq<Parent>)
    ensures BuildFrom(name, measure, parents).Ok? <==>
              forall i :: 0 <= i < |parents| ==> measure(parents[i]).Ok?
  {
    if parents != [] {
      var n := |parents| - 1;
      var earlier := parents[..n];
      BuildSucceeds(name, measure, earlier);
      assert BuildFrom(name, measure, parents).Ok? <==>
               BuildFrom(name, measure, earlier).Ok? && measure(parents[n]).Ok?;
      if forall i :: 0 <= i < |parents| ==> measure(parents[i]).Ok? {
        forall i | 0 <= i < n
          ensures measure(earlier[i]).Ok?
        {
          assert earlier[i] == parents[i];
        }
      }
      if BuildFrom(name, measure, parents).Ok? {
        forall i | 0 <= i < |parents|
          ensures measure(parents[i]).Ok?
        {
          if i < n {
            assert earlier[i] == parents[i];
          }
        }
      }
    }
  }

  /** `build_item` returns exactly when every parent's geography is in the data and the formula evaluates on its tables. */
  lemma BuildItemSucceeds(name: string, data: GeoData, parents: seq<Parent>, formula: string)
    ensures BuildFrom(name, MeasureOf(data, formula), parents).Ok? <==>
              forall i :: 0 <= i < |parents| ==>
                parents[i].geoid in data && Evaluate(Merged(data[parents[i].geoid]), formula).Ok?
  {
    BuildSucceeds(name, MeasureOf(data, formula), parents);
    forall i | 0 <= i < |parents| {
      MeasureOutcome(data, parents[i], formula);
    }
  }

  /** Each of the four dictionaries is keyed by exactly the relation labels, and the name is kept. */
  lemma {:induction false} BuildKeys(name: string, measure: Parent -> Result<Outcome, BuildError>, parents: seq<Parent>)
    requires BuildFrom(name, measure, parents).Ok?
    ensures var item := BuildFrom(name, measure, parents).value;
            item.name == name &&
            item.values.Keys == Labels(parents) && item.error.Keys == Labels(parents) &&
            item.numerators.Keys == Labels(parents) && item.numeratorErrors.Keys == Labels(parents)
  {
    if parents != [] {
      var n := |parents| - 1;
      BuildKeys(name, measure, parents[..n]);
      LabelsSnoc(parents);
    }
  }

  lemma LabelsSnoc(parents: seq<Parent>)
    requires parents != []
    ensures Labels(parents) == Labels(parents[..|parents| - 1]) + {parents[|parents| - 1].relation}
  {
    var n := |parents| - 1;
    forall x | x in Labels(parents)
      ensures x in Labels(parents[..n]) + {parents[n].relation}
    {
      var i :| 0 <= i < |parents| && parents[i].relation == x;
      if i < n {
        assert parents[..n][i] == parents[i];
      }
    }
    forall x | x in Labels(parents[..n])
      ensures x in Labels(parents)
    {
      var i :| 0 <= i < n && parents[..n][i].relation == x;
      assert parents[i] == parents[..n][i];
    }
  }

  /** A label holds what was measured for the last parent with that label: a later parent overwrites an earlier one. */
  lemma {:induction false} BuildLastWins(name: string, measure: Parent -> Result<Outcome, BuildError>, parents: seq<Parent>, i: nat)
    requires BuildFrom(name, measure, parents).Ok?
    requires i < |parents|
    requires forall j :: i < j < |parents| ==> parents[j].relation != parents[i].relation
    ensures measure(parents[i]).Ok?
    ensures var item, o, rel := BuildFrom(name, measure, parents).value, measure(parents[i]).value, parents[i].relation;
            rel in item.values && item.values[rel] == o.value &&
            rel in item.error && item.error[rel] == o.error &&
            rel in item.numerators && item.numerators[rel] == o.numerator &&
            rel in item.numeratorErrors && item.numeratorErrors[rel] == o.numeratorMoe
  {
    var n := |parents| - 1;
    if i < n {
      forall j | i < j < n
        ensures parents[..n][j].relation != parents[..n][i].relation
      {
        assert parents[..n][j] == parents[j];
      }
      assert parents[..n][i] == parents[i];
      BuildLastWins(name, measure, parents[..n], i);
      assert parents[n].relation != parents[i].relation;
    }
  }

  /** Once a prefix of the parents fails, the item fails with the same error. */
  lemma {:induction false} BuildErrorSticks(name: string, measure: Parent -> Result<Outcome, BuildError>, parents: seq<Parent>, i: nat)
    requires i <= |parents|
    requires BuildFrom(name, measure, parents[..i]).Err?
    ensures BuildFrom(name, measure, parents) == BuildFrom(name, measure, parents[..i])
    decreases |parents| - i
  {
    if i == |parents| {
      assert parents[..i] == parents;
    } else {
      assert parents[..i + 1][..i] == parents[..i];
      BuildErrorSticks(name, measure, parents, i + 1);
    }
  }

  /** `build_item` as the source writes it: a loop over the parents filling the four dictionaries. */
  method BuildItem(name: string, data: GeoData, parents: seq<Parent>, rpnString: string)
    returns (r: Result<MetricItem, BuildError>)
    ensures r == BuildFrom(name, MeasureOf(data, rpnString), parents)
  {
    var values: map<string, Option<real>> := map[];
    var error: map<string, Option<real>> := map[];
    var numerators: map<string, Option<real>> := map[];
    var numeratorErrors: map<string, Option<real>> := map[];
    for i := 0 to |parents|
      invariant BuildFrom(name, MeasureOf(data, rpnString), parents[..i]) == Ok(MetricItem(name, values, error, numerators, numeratorErrors))
    {
      assert parents[..i + 1][..i] == parents[..i];
      var rel := parents[i].relation;
      var geoid := parents[i].geoid;
      if geoid !in data {
        BuildErrorSticks(name, MeasureOf(data, rpnString), parents, i + 1);
        return Err(MissingGeoid(geoid));
      }
      var dataForGeoid := MergeTables(data[geoid]);
      var result := ValueRpnCalc(dataForGeoid, rpnString);
      if result.Err? {
        BuildErrorSticks(name, MeasureOf(data, rpnString), parents, i + 1);
        return Err(Evaluation(result.error));
      }
      var value, err, numerator, numeratorMoe := result.value.value, result.value.error, result.value.numerator, result.value.numeratorMoe;
      if value.Some? {
        value := Some(Round(value.value, 2));
        err := if err.Some? && err.value != 0.0 then Some(Round(err.value, 2)) else Some(0.0);
      }
      if numerator.Some? {
        numerator := Some(Round(numerator.value, 2));
        if numeratorMoe.None? {
          BuildErrorSticks(name, MeasureOf(data, rpnString), parents, i + 1);
          return Err(NullNumeratorMargin);
        }
        numeratorMoe := Some(Round(numeratorMoe.value, 2));
      }
      values := values[rel := value];
      error := error[rel := err];
      numerators := numerators[rel := numerator];
      numeratorErrors := numeratorErrors[rel := numeratorMoe];
    }
    assert parents[..|parents|] == parents;
    r := Ok(MetricItem(name, values, error, numerators, numeratorErrors));
  }
}
