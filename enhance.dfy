/**
 * The comparative selector of `enhance_api_data`: for every dictionary of
 * the document that carries `values`, keep at most three geography levels in
 * the priority order `this, place, CBSA, county, state, nation` (a county only
 * when no CBSA was kept), fill the index, error, error-ratio, numerator and
 * numerator-error maps alongside, overwrite the six fields of the item, and
 * record the kept levels other than `this` as the document's comparatives.
 */
module Enhance {
  import opened Wrappers
  import opened PyValues
  import opened FindDicts

  /** `get_ratio(num, den[, precision])` of the utilities module, which is not part of this model. */
  const GetRatioOf: (Value, Value, Option<nat>) -> Value

  function GetRatio(num: Value, den: Value, precision: Option<nat>): Value
  {
    GetRatioOf(num, den, precision)
  }

  /** The geography levels, most preferred first. */
  const Levels: seq<string> := ["this", "place", "CBSA", "county", "state", "nation"]

  /** `num_comparatives`: the walk stops once this many levels besides `this` could be kept. */
  const NumComparatives: nat := 2

  /** The four fields of an item as the selector reads them. */
  datatype Raw = Raw(values: Entries, error: Entries, numerators: Entries, numeratorErrors: Entries)

  /** The ordered dictionaries the selector fills, and the list of comparative levels. */
  datatype Containers = Containers(values: Entries, index: Entries, error: Entries, errorRatio: Entries,
                                   numerators: Entries, numeratorErrors: Entries, comparatives: seq<string>)

  const Fresh := Containers([], [], [], [], [], [], [])

  /** `d[k]` for a key known to be present. */
  function Lookup(es: Entries, k: string): Value
  {
    match Get(es, k)
    case Some(v) => v
    case None => Null
  }

  /** The index of a level: the subject's value relative to the level's, or 0 when the subject's value is falsy. */
  function IndexValue(geo: Option<Value>, v: Value): Value
  {
    if geo.Some? && Truthy(geo.value) then GetRatio(geo.value, v, None) else Num(0.0)
  }

  /** A county is passed over once a CBSA has been kept. */
  predicate Skipped(acc: Containers, level: string)
  {
    level == "county" && "CBSA" in Keys(acc.values)
  }

  /** The walk stops once `values` has `num_comparatives + 1` keys. */
  predicate Full(acc: Containers)
  {
    |acc.values| >= NumComparatives + 1
  }

  /** The value of a level with a value: store it, its index, and the level as a comparative (unless `this`). */
  function VisitValues(raw: Raw, geo: Option<Value>, level: string, acc: Containers): Containers
  {
    if level in Keys(raw.values) then
      var v := Lookup(raw.values, level);
      acc.(values := Put(acc.values, level, v),
           index := Put(acc.index, level, IndexValue(geo, v)),
           comparatives := if level != "this" then acc.comparatives + [level] else acc.comparatives)
    else acc
  }

  /** The margin of a level with a value and a margin: store it and its ratio to the value, to three places. */
  function VisitError(raw: Raw, level: string, acc: Containers): Containers
  {
    if level in Keys(raw.values) && level in Keys(raw.error) then
      var e := Lookup(raw.error, level);
      acc.(error := Put(acc.error, level, e),
           errorRatio := Put(acc.errorRatio, level, GetRatio(e, Lookup(raw.values, level), Some(3))))
    else acc
  }

  /** The numerator of a level, when it has one. */
  function VisitNumerators(raw: Raw, level: string, acc: Containers): Containers
  {
    if level in Keys(raw.numerators) then acc.(numerators := Put(acc.numerators, level, Lookup(raw.numerators, level)))
    else acc
  }

  /** The numerator's margin of a level with a numerator and a numerator margin. */
  function VisitNumeratorErrors(raw: Raw, level: string, acc: Containers): Containers
  {
    if level in Keys(raw.numerators) && level in Keys(raw.numeratorErrors) then
      acc.(numeratorErrors := Put(acc.numeratorErrors, level, Lookup(raw.numeratorErrors, level)))
    else acc
  }

  /** One level that is not passed over: the four copying steps, in order. */
  function Visit(raw: Raw, geo: Option<Value>, level: string, acc: Containers): Containers
  {
    VisitNumeratorErrors(raw, level, VisitNumerators(raw, level, VisitError(raw, level, VisitValues(raw, geo, level, acc))))
  }

  /** The priority walk from level `i` on, with `continue` for a passed-over county and `break` when full. */
  function SelectFrom(raw: Raw, geo: Option<Value>, i: nat, acc: Containers): Containers
    requires i <= |Levels|
    decreases |Levels| - i
  {
    if i == |Levels| then acc
    else if Skipped(acc, Levels[i]) then SelectFrom(raw, geo, i + 1, acc)
    else
      var next := Visit(raw, geo, Levels[i], acc);
      if Full(next) then next else SelectFrom(raw, geo, i + 1, next)
  }

  /** What the selection loop builds for one item. */
  function Select(raw: Raw, geo: Option<Value>): Containers
  {
    SelectFrom(raw, geo, 0, Fresh)
  }

  /** The selection loop as the source writes it. */
  method SelectComparatives(raw: Raw, geo: Option<Value>) returns (e: Containers)
    ensures e == Select(raw, geo)
  {
    var values, index, error, errorRatio, numerators, numeratorErrors := [], [], [], [], [], [];
    var comparatives: seq<string> := [];
    for i := 0 to |Levels|
      invariant SelectFrom(raw, geo, i, Containers(values, index, error, errorRatio, numerators, numeratorErrors, comparatives))
                == Select(raw, geo)
    {
      var level := Levels[i];
      if level == "county" && "CBSA" in Keys(values) {
        continue;
      }
      ghost var before := Containers(values, index, error, errorRatio, numerators, numeratorErrors, comparatives);
      if level in Keys(raw.values) {
        values := Put(values, level, Lookup(raw.values, level));
        if geo.Some? && Truthy(geo.value) {
          index := Put(index, level, GetRatio(geo.value, Lookup(raw.values, level), None));
        } else {
          index := Put(index, level, Num(0.0));
        }
        if level != "this" {
          comparatives := comparatives + [level];
        }
      }
      ghost var afterValues := Containers(values, index, error, errorRatio, numerators, numeratorErrors, comparatives);
      assert afterValues == VisitValues(raw, geo, level, before);
      if level in Keys(raw.values) && level in Keys(raw.error) {
        error := Put(error, level, Lookup(raw.error, level));
        errorRatio := Put(errorRatio, level, GetRatio(Lookup(raw.error, level), Lookup(raw.values, level), Some(3)));
      }
      ghost var afterError := Containers(values, index, error, errorRatio, numerators, numeratorErrors, comparatives);
      assert afterError == VisitError(raw, level, afterValues);
      if level in Keys(raw.numerators) {
        numerators := Put(numerators, level, Lookup(raw.numerators, level));
      }
      assert Containers(values, index, error, errorRatio, numerators, numeratorErrors, comparatives) == VisitNumerators(raw, level, afterError);
      if level in Keys(raw.numerators) && level in Keys(raw.numeratorErrors) {
        numeratorErrors := Put(numeratorErrors, level, Lookup(raw.numeratorErrors, level));
      }
      assert Containers(values, index, error, errorRatio, numerators, numeratorErrors, comparatives)
             == Visit(raw, geo, level, before);
      if |values| >= NumComparatives + 1 {
        break;
      }
    }
    e := Containers(values, index, error, errorRatio, numerators, numeratorErrors, comparatives);
  }

  // --- One item, and the whole document --------------------------------------

  /** What the rewrite of a document can raise. */
  datatype EnhanceError =
    | MissingField(field: string)   // d[obj] or api_data['geography'] has no such key
    | NotADict(field: string)       // a field the selector tests membership in, or the geography, is not a dictionary
    | Detached(path: Path)          // a collected dictionary no longer sits at its path

  /** `d['values']['this']`, or `None` where that raises. */
  function GeoValue(d: Entries): Option<Value>
  {
    match Get(d, "values")
    case Some(Dict(vs)) => Get(vs, "this")
    case _ => None
  }

  function AsDict(v: Value, field: string): Result<Entries, EnhanceError>
  {
    match v
    case Dict(es) => Ok(es)
    case _ => Err(NotADict(field))
  }

  /** `raw[obj] = d[obj]` for the four fields, in order. */
  function RawOf(d: Entries): Result<Raw, EnhanceError>
  {
    if "values" !in Keys(d) then Err(MissingField("values"))
    else if "error" !in Keys(d) then Err(MissingField("error"))
    else if "numerators" !in Keys(d) then Err(MissingField("numerators"))
    else if "numerator_errors" !in Keys(d) then Err(MissingField("numerator_errors"))
    else
      var values :- AsDict(Lookup(d, "values"), "values");
      var error :- AsDict(Lookup(d, "error"), "error");
      var numerators :- AsDict(Lookup(d, "numerators"), "numerators");
      var numeratorErrors :- AsDict(Lookup(d, "numerator_errors"), "numerator_errors");
      Ok(Raw(values, error, numerators, numeratorErrors))
  }

  /** `d[obj] = enhanced[obj]` for the six fields, in order. */
  function Rewrite(d: Entries, e: Containers): Entries
  {
    var d1 := Put(d, "values", Dict(e.values));
    var d2 := Put(d1, "index", Dict(e.index));
    var d3 := Put(d2, "error", Dict(e.error));
    var d4 := Put(d3, "error_ratio", Dict(e.errorRatio));
    var d5 := Put(d4, "numerators", Dict(e.numerators));
    Put(d5, "numerator_errors", Dict(e.numeratorErrors))
  }

  /** A list of level names as a document value. */
  function StrList(xs: seq<string>): Value
  {
    List(seq(|xs|, i requires 0 <= i < |xs| => Str(xs[i])))
  }

  /** `api_data['geography']['comparatives'] = comparative_sumlevs`. */
  function SetComparatives(root: Entries, comparatives: seq<string>): Result<Entries, EnhanceError>
  {
    match Get(root, "geography")
    case None => Err(MissingField("geography"))
    case Some(g) =>
      var geography :- AsDict(g, "geography");
      Ok(Put(root, "geography", Dict(Put(geography, "comparatives", StrList(comparatives)))))
  }

  /** The value `v` with the node at `p` replaced by `node`; unchanged where `p` leaves the dictionaries. */
  function SetAt(v: Value, p: Path, node: Value): (r: Value)
    ensures v.Dict? && node.Dict? ==> r.Dict?
    decreases |p|
  {
    if p == [] then node
    else if v.Dict? && p[0] < |v.entries| then
      var entry := v.entries[p[0]];
      Dict(v.entries[p[0] := (entry.0, SetAt(entry.1, p[1..], node))])
    else v
  }

  /** The loop body for the dictionary found at `path`. */
  function EnhanceOne(root: Entries, path: Path): Result<Entries, EnhanceError>
  {
    match NodeAt(Dict(root), path)
    case Some(Dict(d)) =>
      var raw :- RawOf(d);
      var e := Select(raw, GeoValue(d));
      var tree := SetAt(Dict(root), path, Dict(Rewrite(d, e)));
      SetComparatives(tree.entries, e.comparatives)
    case _ => Err(Detached(path))
  }

  /** The loop over the collected dictionaries. */
  function EnhanceAll(root: Entries, paths: seq<Path>): Result<Entries, EnhanceError>
    decreases |paths|
  {
    if paths == [] then Ok(root)
    else
      var next :- EnhanceOne(root, paths[0]);
      EnhanceAll(next, paths[1..])
  }

  lemma EnhanceAllCons(root: Entries, paths: seq<Path>)
    requires paths != []
    ensures EnhanceAll(root, paths) ==
              match EnhanceOne(root, paths[0])
              case Err(e) => Err(e)
              case Ok(next) => EnhanceAll(next, paths[1..])
  {
  }

  /** The selection part of `enhance_api_data(api_data)` as the source writes it. */
  method EnhanceApiData(apiData: Entries) returns (r: Result<Entries, EnhanceError>)
    ensures r == EnhanceAll(apiData, FindOrder(apiData, "values"))
  {
    var dictList := FindDictsWithKey(apiData, "values");
    r := EnhanceDicts(apiData, dictList);
  }

  /** `for d in dict_list: …`, over the collected paths in order. */
  method EnhanceDicts(apiData: Entries, dictList: seq<Path>) returns (r: Result<Entries, EnhanceError>)
    ensures r == EnhanceAll(apiData, dictList)
  {
    var root := apiData;
    for i := 0 to |dictList|
      invariant EnhanceAll(apiData, dictList) == EnhanceAll(root, dictList[i..])
    {
      assert dictList[i..][1..] == dictList[i + 1..];
      EnhanceAllCons(root, dictList[i..]);
      var next := EnhanceItemAt(root, dictList[i]);
      if next.Err? {
        return Err(next.error);
      }
      root := next.value;
    }
    r := Ok(root);
  }

  /** The loop body for one collected dictionary: rewrite its six fields, then set the comparatives. */
  method EnhanceItemAt(root0: Entries, path: Path) returns (r: Result<Entries, EnhanceError>)
    ensures r == EnhanceOne(root0, path)
  {
    var node := NodeAt(Dict(root0), path);
    if !(node.Some? && node.value.Dict?) {
      return Err(Detached(path));
    }
    var d := node.value.entries;
    var geoValue := GeoValue(d);
    var raw := RawOf(d);
    if raw.Err? {
      return Err(raw.error);
    }
    var enhanced := SelectComparatives(raw.value, geoValue);
    d := Put(d, "values", Dict(enhanced.values));
    d := Put(d, "index", Dict(enhanced.index));
    d := Put(d, "error", Dict(enhanced.error));
    d := Put(d, "error_ratio", Dict(enhanced.errorRatio));
    d := Put(d, "numerators", Dict(enhanced.numerators));
    d := Put(d, "numerator_errors", Dict(enhanced.numeratorErrors));
    var root := SetAt(Dict(root0), path, Dict(d)).entries;
    var geography := Get(root, "geography");
    if geography.None? {
      return Err(MissingField("geography"));
    }
    if !geography.value.Dict? {
      return Err(NotADict("geography"));
    }
    r := Ok(Put(root, "geography", Dict(Put(geography.value.entries, "comparatives", StrList(enhanced.comparatives)))));
  }
}
