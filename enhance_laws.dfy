/**
 * What the comparative selector promises, stated without the loop: the kept
 * levels are the first three levels in priority order that have a value
 * (a county not counting where a CBSA has one); the levels the walk visits
 * are those reached before three were kept; and each filled map holds, for
 * exactly the levels it should, the value the raw maps give.
 */
module EnhanceLaws {
  import opened Wrappers
  import opened PyValues
  import opened FindDicts
  import opened Enhance

  /** A county is passed over where a CBSA has a value. */
  predicate PassedOver(raw: Raw, level: string)
  {
    level == "county" && "CBSA" in Keys(raw.values)
  }

  /** A level that can be kept: it has a value and is not passed over. */
  predicate Eligible(raw: Raw, level: string)
  {
    level in Keys(raw.values) && !PassedOver(raw, level)
  }

  /** The eligible levels among `levels`, in order. */
  function EligibleIn(raw: Raw, levels: seq<string>): (r: seq<string>)
    ensures |r| <= |levels|
  {
    if levels == [] then []
    else
      var n := |levels| - 1;
      EligibleIn(raw, levels[..n]) + (if Eligible(raw, levels[n]) then [levels[n]] else [])
  }

  function Take(xs: seq<string>, n: nat): seq<string>
  {
    if |xs| <= n then xs else xs[..n]
  }

  /** The levels the selector keeps: the first `num_comparatives + 1` eligible ones. */
  function Kept(raw: Raw): seq<string>
  {
    Take(EligibleIn(raw, Levels), NumComparatives + 1)
  }

  /** Level `n` is visited when it is not passed over and fewer than three levels were kept before it. */
  predicate VisitedAt(raw: Raw, n: nat)
    requires n < |Levels|
  {
    !PassedOver(raw, Levels[n]) && |EligibleIn(raw, Levels[..n])| < NumComparatives + 1
  }

  /** The visited levels among the first `n`. */
  function VisitedUpTo(raw: Raw, n: nat): seq<string>
    requires n <= |Levels|
  {
    if n == 0 then []
    else VisitedUpTo(raw, n - 1) + (if VisitedAt(raw, n - 1) then [Levels[n - 1]] else [])
  }

  /** The levels the walk reaches before it stops. */
  function Visited(raw: Raw): seq<string>
  {
    VisitedUpTo(raw, |Levels|)
  }

  /** The members of `xs` that are keys of `es`, in order. */
  function KeepIn(xs: seq<string>, es: Entries): seq<string>
  {
    if xs == [] then []
    else
      var n := |xs| - 1;
      KeepIn(xs[..n], es) + (if xs[n] in Keys(es) then [xs[n]] else [])
  }

  /** `xs` without `this`. */
  function WithoutThis(xs: seq<string>): seq<string>
  {
    if xs == [] then []
    else
      var n := |xs| - 1;
      WithoutThis(xs[..n]) + (if xs[n] != "this" then [xs[n]] else [])
  }

  /** The six maps the selector fills. */
  datatype Field = ValuesField | IndexField | ErrorField | ErrorRatioField | NumeratorsField | NumeratorErrorsField

  /** What a filled map holds for level `k`. */
  function Source(f: Field, raw: Raw, geo: Option<Value>, k: string): Value
  {
    match f
    case ValuesField => Lookup(raw.values, k)
    case IndexField => IndexValue(geo, Lookup(raw.values, k))
    case ErrorField => Lookup(raw.error, k)
    case ErrorRatioField => GetRatio(Lookup(raw.error, k), Lookup(raw.values, k), Some(3))
    case NumeratorsField => Lookup(raw.numerators, k)
    case NumeratorErrorsField => Lookup(raw.numeratorErrors, k)
  }

  /** The source values of one filled map, as a function of the level. */
  function SourceOf(f: Field, raw: Raw, geo: Option<Value>): string -> Value
  {
    k => Source(f, raw, geo, k)
  }

  /** The entries a filled map holds: each of `keys`, in order, with its source value. */
  function Filled(keys: seq<string>, src: string -> Value): (es: Entries)
    ensures |es| == |keys|
  {
    if keys == [] then []
    else
      var n := |keys| - 1;
      Filled(keys[..n], src) + [(keys[n], src(keys[n]))]
  }

  /**
   * The containers for the kept levels `kept` and the visited levels
   * `visited`: `values` and `index` hold the kept levels, `error` and
   * `error_ratio` the kept levels with an error, `numerators` the visited
   * levels with a numerator, `numerator_errors` those of them with a
   * numerator error, and the comparatives are the kept levels but `this`.
   */
  function Expected(raw: Raw, geo: Option<Value>, kept: seq<string>, visited: seq<string>): Containers
  {
    var withError := KeepIn(kept, raw.error);
    var withNumerator := KeepIn(visited, raw.numerators);
    Containers(Filled(kept, SourceOf(ValuesField, raw, geo)), Filled(kept, SourceOf(IndexField, raw, geo)),
               Filled(withError, SourceOf(ErrorField, raw, geo)), Filled(withError, SourceOf(ErrorRatioField, raw, geo)),
               Filled(withNumerator, SourceOf(NumeratorsField, raw, geo)),
               Filled(KeepIn(withNumerator, raw.numeratorErrors), SourceOf(NumeratorErrorsField, raw, geo)),
               WithoutThis(kept))
  }

  // --- Membership -------------------------------------------------------------

  /** A level is among the eligible ones of `levels` exactly when it is one of `levels` and eligible. */
  lemma {:induction false} EligibleMembers(raw: Raw, levels: seq<string>, x: string)
    ensures x in EligibleIn(raw, levels) <==> x in levels && Eligible(raw, x)
  {
    if levels != [] {
      var n := |levels| - 1;
      EligibleMembers(raw, levels[..n], x);
      assert levels == levels[..n] + [levels[n]];
    }
  }

  /** Only levels among the first `n` are visited among them. */
  lemma {:induction false} VisitedMembers(raw: Raw, n: nat, x: string)
    requires n <= |Levels|
    ensures x in VisitedUpTo(raw, n) ==> x in Levels[..n]
  {
    if n > 0 {
      VisitedMembers(raw, n - 1, x);
      assert Levels[..n] == Levels[..n - 1] + [Levels[n - 1]];
    }
  }

  /** A member of `xs` is kept by `KeepIn` exactly when it is a key of `es`. */
  lemma {:induction false} KeepInMembers(xs: seq<string>, es: Entries, x: string)
    ensures x in KeepIn(xs, es) <==> x in xs && x in Keys(es)
  {
    if xs != [] {
      var n := |xs| - 1;
      KeepInMembers(xs[..n], es, x);
      assert xs == xs[..n] + [xs[n]];
    }
  }

  lemma {:induction false} WithoutThisMembers(xs: seq<string>, x: string)
    ensures x in WithoutThis(xs) <==> x in xs && x != "this"
  {
    if xs != [] {
      var n := |xs| - 1;
      WithoutThisMembers(xs[..n], x);
      assert xs == xs[..n] + [xs[n]];
    }
  }

  /** The kept levels are eligible. */
  lemma KeptMembers(raw: Raw, x: string)
    ensures x in Kept(raw) ==> x in Levels && Eligible(raw, x)
  {
    EligibleMembers(raw, Levels, x);
    var e := EligibleIn(raw, Levels);
    if |e| > NumComparatives + 1 && x in e[..NumComparatives + 1] {
      assert x in e;
    }
  }

  // --- Helpers ---------------------------------------------------------------

  /** The six levels are distinct. */
  lemma LevelsDistinct()
    ensures forall a, b :: 0 <= a < b < |Levels| ==> Levels[a] != Levels[b]
  {
    assert Levels[0][0] == 't' && Levels[1][0] == 'p' && Levels[2][0] == 'C';
    assert Levels[3][0] == 'c' && Levels[4][0] == 's' && Levels[5][0] == 'n';
  }

  lemma LevelNotBefore(i: nat)
    requires i < |Levels|
    ensures Levels[i] !in Levels[..i]
  {
    LevelsDistinct();
  }

  /** A filled map has exactly the given keys, in order. */
  lemma {:induction false} KeysFilled(keys: seq<string>, src: string -> Value)
    ensures Keys(Filled(keys, src)) == keys
  {
    if keys != [] {
      var n := |keys| - 1;
      var front := Filled(keys[..n], src);
      var e := (keys[n], src(keys[n]));
      assert Filled(keys, src) == front + [e];
      KeysFilled(keys[..n], src);
      KeysSnoc(front, e);
      assert keys == keys[..n] + [keys[n]];
    }
  }

  /** A filled map gives each of its keys the source value, and nothing to other keys. */
  lemma {:induction false} GetFilled(keys: seq<string>, src: string -> Value, k: string)
    ensures Get(Filled(keys, src), k) == if k in keys then Some(src(k)) else None
  {
    if keys != [] {
      var n := |keys| - 1;
      var front := Filled(keys[..n], src);
      var e := (keys[n], src(keys[n]));
      assert Filled(keys, src) == front + [e];
      GetFilled(keys[..n], src, k);
      KeysFilled(keys[..n], src);
      GetSnoc(front, e.0, e.1, k);
      assert keys == keys[..n] + [keys[n]];
      assert k in keys <==> k in keys[..n] || k == keys[n];
    }
  }

  /** Writing a new key, where a condition holds, fills it. */
  lemma FilledWhen(keys: seq<string>, src: string -> Value, s: string, c: bool)
    requires s !in keys
    ensures (if c then Put(Filled(keys, src), s, src(s)) else Filled(keys, src))
            == Filled(keys + (if c then [s] else []), src)
  {
    if c {
      KeysFilled(keys, src);
      PutNew(Filled(keys, src), s, src(s));
      assert (keys + [s])[..|keys|] == keys;
    } else {
      assert keys + [] == keys;
    }
  }

  lemma EligibleAppend(raw: Raw, a: seq<string>, b: seq<string>)
    ensures EligibleIn(raw, a + b) == EligibleIn(raw, a) + EligibleIn(raw, b)
    decreases |b|
  {
    if b == [] {
      assert a + b == a;
    } else {
      var n := |b| - 1;
      assert (a + b)[..|a + b| - 1] == a + b[..n];
      EligibleAppend(raw, a, b[..n]);
    }
  }

  lemma EligibleSnoc(raw: Raw, i: nat)
    requires i < |Levels|
    ensures EligibleIn(raw, Levels[..i + 1]) ==
              EligibleIn(raw, Levels[..i]) + (if Eligible(raw, Levels[i]) then [Levels[i]] else [])
  {
    assert Levels[..i + 1][..i] == Levels[..i];
  }

  lemma KeepInSnoc(xs: seq<string>, s: string, es: Entries)
    ensures KeepIn(xs + [s], es) == KeepIn(xs, es) + (if s in Keys(es) then [s] else [])
  {
    assert (xs + [s])[..|xs|] == xs;
  }

  lemma WithoutThisSnoc(xs: seq<string>, s: string)
    ensures WithoutThis(xs + [s]) == WithoutThis(xs) + (if s != "this" then [s] else [])
  {
    assert (xs + [s])[..|xs|] == xs;
  }

  /** Once three levels were kept, no later level is visited. */
  lemma {:induction false} VisitedStops(raw: Raw, i: nat, j: nat)
    requires i <= j <= |Levels|
    requires |EligibleIn(raw, Levels[..i])| >= NumComparatives + 1
    ensures VisitedUpTo(raw, j) == VisitedUpTo(raw, i)
    decreases j - i
  {
    if j > i {
      VisitedStops(raw, i, j - 1);
      assert Levels[..j - 1] == Levels[..i] + Levels[i..j - 1];
      EligibleAppend(raw, Levels[..i], Levels[i..j - 1]);
    }
  }

  /** The passed-over test on the containers agrees with the one on the raw values. */
  lemma SkipAgrees(raw: Raw, geo: Option<Value>, i: nat, acc: Containers)
    requires i < |Levels|
    requires acc == Expected(raw, geo, EligibleIn(raw, Levels[..i]), VisitedUpTo(raw, i))
    ensures Skipped(acc, Levels[i]) <==> PassedOver(raw, Levels[i])
  {
    if i == 3 {
      var e := EligibleIn(raw, Levels[..3]);
      assert acc.values == Filled(e, SourceOf(ValuesField, raw, geo));
      KeysFilled(e, SourceOf(ValuesField, raw, geo));
      EligibleMembers(raw, Levels[..3], "CBSA");
      assert Levels[..3][2] == "CBSA";
      assert "CBSA"[0] != "county"[0];
    } else {
      CountyOnlyAt(i);
    }
  }

  /** `county` is the fourth level and no other. */
  lemma CountyOnlyAt(i: nat)
    requires i < |Levels| && i != 3
    ensures Levels[i] != "county"
  {
    assert Levels[0][0] == 't' && Levels[1][0] == 'p' && Levels[2][0] == 'C';
    assert Levels[4][0] == 's' && Levels[5][0] == 'n';
  }

  /** What one visited level does to `values`, `index` and the comparatives. */
  lemma VisitValuesPart(raw: Raw, geo: Option<Value>, s: string, acc: Containers)
    ensures var n := Visit(raw, geo, s, acc);
            var c := s in Keys(raw.values);
            && n.values == (if c then Put(acc.values, s, SourceOf(ValuesField, raw, geo)(s)) else acc.values)
            && n.index == (if c then Put(acc.index, s, SourceOf(IndexField, raw, geo)(s)) else acc.index)
            && n.comparatives == acc.comparatives + (if c && s != "this" then [s] else [])
  {
    var a1 := VisitValues(raw, geo, s, acc);
    var a2 := VisitError(raw, s, a1);
    var a3 := VisitNumerators(raw, s, a2);
    assert Visit(raw, geo, s, acc) == VisitNumeratorErrors(raw, s, a3);
    assert a3.values == a1.values && a3.index == a1.index && a3.comparatives == a1.comparatives;
    assert acc.comparatives + [] == acc.comparatives;
  }

  /** What one visited level does to `error` and `error_ratio`. */
  lemma VisitErrorPart(raw: Raw, geo: Option<Value>, s: string, acc: Containers)
    ensures var n := Visit(raw, geo, s, acc);
            var c := s in Keys(raw.values) && s in Keys(raw.error);
            && n.error == (if c then Put(acc.error, s, SourceOf(ErrorField, raw, geo)(s)) else acc.error)
            && n.errorRatio == (if c then Put(acc.errorRatio, s, SourceOf(ErrorRatioField, raw, geo)(s)) else acc.errorRatio)
  {
    var a1 := VisitValues(raw, geo, s, acc);
    var a2 := VisitError(raw, s, a1);
    var a3 := VisitNumerators(raw, s, a2);
    assert Visit(raw, geo, s, acc) == VisitNumeratorErrors(raw, s, a3);
    assert a1.error == acc.error && a1.errorRatio == acc.errorRatio;
    assert a3.error == a2.error && a3.errorRatio == a2.errorRatio;
  }

  /** What one visited level does to `numerators`. */
  lemma VisitNumeratorsPart(raw: Raw, geo: Option<Value>, s: string, acc: Containers)
    ensures var n := Visit(raw, geo, s, acc);
            var c := s in Keys(raw.numerators);
            n.numerators == (if c then Put(acc.numerators, s, SourceOf(NumeratorsField, raw, geo)(s)) else acc.numerators)
  {
    var a1 := VisitValues(raw, geo, s, acc);
    var a2 := VisitError(raw, s, a1);
    var a3 := VisitNumerators(raw, s, a2);
    assert Visit(raw, geo, s, acc) == VisitNumeratorErrors(raw, s, a3);
    assert a2.numerators == acc.numerators;
  }

  /** What one visited level does to `numerator_errors`. */
  lemma VisitNumeratorErrorsPart(raw: Raw, geo: Option<Value>, s: string, acc: Containers)
    ensures var n := Visit(raw, geo, s, acc);
            var c := s in Keys(raw.numerators) && s in Keys(raw.numeratorErrors);
            n.numeratorErrors ==
              (if c then Put(acc.numeratorErrors, s, SourceOf(NumeratorErrorsField, raw, geo)(s)) else acc.numeratorErrors)
  {
    var a1 := VisitValues(raw, geo, s, acc);
    var a2 := VisitError(raw, s, a1);
    var a3 := VisitNumerators(raw, s, a2);
    assert Visit(raw, geo, s, acc) == VisitNumeratorErrors(raw, s, a3);
    assert a3.numeratorErrors == acc.numeratorErrors;
  }

  lemma KeepInWhen(xs: seq<string>, s: string, c: bool, es: Entries)
    ensures KeepIn(xs + (if c then [s] else []), es) == KeepIn(xs, es) + (if c && s in Keys(es) then [s] else [])
  {
    if c {
      KeepInSnoc(xs, s, es);
    } else {
      assert xs + [] == xs;
      assert KeepIn(xs, es) + [] == KeepIn(xs, es);
    }
  }

  lemma WithoutThisWhen(xs: seq<string>, s: string, c: bool)
    ensures WithoutThis(xs + (if c then [s] else [])) == WithoutThis(xs) + (if c && s != "this" then [s] else [])
  {
    if c {
      WithoutThisSnoc(xs, s);
    } else {
      assert xs + [] == xs;
      assert WithoutThis(xs) + [] == WithoutThis(xs);
    }
  }

  /** One visited level extends the kept and visited levels by that level where it qualifies. */
  lemma VisitExpected(raw: Raw, geo: Option<Value>, i: nat, acc: Containers)
    requires i < |Levels|
    requires acc == Expected(raw, geo, EligibleIn(raw, Levels[..i]), VisitedUpTo(raw, i))
    requires VisitedAt(raw, i)
    ensures Visit(raw, geo, Levels[i], acc) == Expected(raw, geo, EligibleIn(raw, Levels[..i + 1]), VisitedUpTo(raw, i + 1))
  {
    var s := Levels[i];
    var kept := EligibleIn(raw, Levels[..i]);
    var visited := VisitedUpTo(raw, i);
    var inValues := s in Keys(raw.values);
    var inNumerators := s in Keys(raw.numerators);
    LevelNotBefore(i);
    EligibleSnoc(raw, i);
    EligibleMembers(raw, Levels[..i], s);
    VisitedMembers(raw, i, s);
    assert s !in kept && s !in visited;
    var withError := KeepIn(kept, raw.error);
    var withNumerator := KeepIn(visited, raw.numerators);
    assert EligibleIn(raw, Levels[..i + 1]) == kept + (if inValues then [s] else []);
    assert VisitedUpTo(raw, i + 1) == visited + [s];
    VisitValuesPart(raw, geo, s, acc);
    VisitErrorPart(raw, geo, s, acc);
    VisitNumeratorsPart(raw, geo, s, acc);
    VisitNumeratorErrorsPart(raw, geo, s, acc);
    FilledWhen(kept, SourceOf(ValuesField, raw, geo), s, inValues);
    FilledWhen(kept, SourceOf(IndexField, raw, geo), s, inValues);
    KeepInWhen(kept, s, inValues, raw.error);
    KeepInMembers(kept, raw.error, s);
    KeepInMembers(visited, raw.numerators, s);
    KeepInMembers(withNumerator, raw.numeratorErrors, s);
    FilledWhen(withError, SourceOf(ErrorField, raw, geo), s, inValues && s in Keys(raw.error));
    FilledWhen(withError, SourceOf(ErrorRatioField, raw, geo), s, inValues && s in Keys(raw.error));
    KeepInWhen(visited, s, true, raw.numerators);
    FilledWhen(withNumerator, SourceOf(NumeratorsField, raw, geo), s, inNumerators);
    KeepInWhen(withNumerator, s, inNumerators, raw.numeratorErrors);
    FilledWhen(KeepIn(withNumerator, raw.numeratorErrors), SourceOf(NumeratorErrorsField, raw, geo), s,
               inNumerators && s in Keys(raw.numeratorErrors));
    WithoutThisWhen(kept, s, inValues);
  }

  /** The walk stops at the level that makes three kept: those are all the kept levels. */
  lemma KeptWhenFull(raw: Raw, i: nat)
    requires i < |Levels|
    requires |EligibleIn(raw, Levels[..i + 1])| >= NumComparatives + 1
    requires |EligibleIn(raw, Levels[..i])| < NumComparatives + 1
    ensures Kept(raw) == EligibleIn(raw, Levels[..i + 1])
  {
    EligibleSnoc(raw, i);
    assert Levels == Levels[..i + 1] + Levels[i + 1..];
    EligibleAppend(raw, Levels[..i + 1], Levels[i + 1..]);
  }

  /** Once three levels were kept, the visited levels are complete. */
  lemma VisitedWhenFull(raw: Raw, i: nat)
    requires i < |Levels|
    requires |EligibleIn(raw, Levels[..i + 1])| >= NumComparatives + 1
    ensures Visited(raw) == VisitedUpTo(raw, i + 1)
  {
    VisitedStops(raw, i + 1, |Levels|);
  }

  /** The walk from level `i`, once the containers are right for the first `i` levels. */
  lemma {:induction false} SelectFromExpected(raw: Raw, geo: Option<Value>, i: nat, acc: Containers)
    requires i <= |Levels|
    requires |EligibleIn(raw, Levels[..i])| < NumComparatives + 1
    requires acc == Expected(raw, geo, EligibleIn(raw, Levels[..i]), VisitedUpTo(raw, i))
    ensures SelectFrom(raw, geo, i, acc) == Expected(raw, geo, Kept(raw), Visited(raw))
    decreases |Levels| - i, 2
  {
    if i == |Levels| {
      assert Levels[..i] == Levels;
    } else if Skipped(acc, Levels[i]) {
      SkipThenSelect(raw, geo, i, acc);
    } else {
      VisitThenSelect(raw, geo, i, acc);
    }
  }

  /** A passed-over county changes nothing, and the walk goes on from the next level. */
  lemma {:induction false} SkipThenSelect(raw: Raw, geo: Option<Value>, i: nat, acc: Containers)
    requires i < |Levels|
    requires |EligibleIn(raw, Levels[..i])| < NumComparatives + 1
    requires acc == Expected(raw, geo, EligibleIn(raw, Levels[..i]), VisitedUpTo(raw, i))
    requires Skipped(acc, Levels[i])
    ensures SelectFrom(raw, geo, i, acc) == Expected(raw, geo, Kept(raw), Visited(raw))
    decreases |Levels| - i, 1
  {
    SkipAgrees(raw, geo, i, acc);
    EligibleSnoc(raw, i);
    assert !Eligible(raw, Levels[i]) && !VisitedAt(raw, i);
    assert EligibleIn(raw, Levels[..i + 1]) == EligibleIn(raw, Levels[..i]);
    assert VisitedUpTo(raw, i + 1) == VisitedUpTo(raw, i);
    SelectFromExpected(raw, geo, i + 1, acc);
  }

  /** A level that is not passed over is visited; the walk then stops, or goes on from the next level. */
  lemma {:induction false} VisitThenSelect(raw: Raw, geo: Option<Value>, i: nat, acc: Containers)
    requires i < |Levels|
    requires |EligibleIn(raw, Levels[..i])| < NumComparatives + 1
    requires acc == Expected(raw, geo, EligibleIn(raw, Levels[..i]), VisitedUpTo(raw, i))
    requires !Skipped(acc, Levels[i])
    ensures SelectFrom(raw, geo, i, acc) == Expected(raw, geo, Kept(raw), Visited(raw))
    decreases |Levels| - i, 1
  {
    SkipAgrees(raw, geo, i, acc);
    var next := Visit(raw, geo, Levels[i], acc);
    VisitExpected(raw, geo, i, acc);
    NextThenSelect(raw, geo, i, next);
  }

  /** After the visit of level `i`: stop when the containers are full, else go on from level `i + 1`. */
  lemma {:induction false} NextThenSelect(raw: Raw, geo: Option<Value>, i: nat, next: Containers)
    requires i < |Levels|
    requires |EligibleIn(raw, Levels[..i])| < NumComparatives + 1
    requires next == Expected(raw, geo, EligibleIn(raw, Levels[..i + 1]), VisitedUpTo(raw, i + 1))
    ensures (if Full(next) then next else SelectFrom(raw, geo, i + 1, next)) == Expected(raw, geo, Kept(raw), Visited(raw))
    decreases |Levels| - i, 0
  {
    if Full(next) {
      StopExpected(raw, geo, i, next);
    } else {
      SelectFromExpected(raw, geo, i + 1, next);
    }
  }

  /** The visit that fills the third slot leaves the containers of every kept and visited level. */
  lemma StopExpected(raw: Raw, geo: Option<Value>, i: nat, next: Containers)
    requires i < |Levels|
    requires |EligibleIn(raw, Levels[..i])| < NumComparatives + 1
    requires next == Expected(raw, geo, EligibleIn(raw, Levels[..i + 1]), VisitedUpTo(raw, i + 1))
    requires Full(next)
    ensures next == Expected(raw, geo, Kept(raw), Visited(raw))
  {
    assert |next.values| == |EligibleIn(raw, Levels[..i + 1])|;
    KeptWhenFull(raw, i);
    VisitedWhenFull(raw, i);
  }

  // --- The selection -----------------------------------------------------------

  /** The selection loop builds exactly the expected containers for the kept and the visited levels. */
  lemma SelectExpected(raw: Raw, geo: Option<Value>)
    ensures Select(raw, geo) == Expected(raw, geo, Kept(raw), Visited(raw))
  {
    assert Levels[..0] == [];
    SelectFromExpected(raw, geo, 0, Fresh);
  }

  /** `values` and `index` hold exactly the kept levels, in order, with each level's value and index. */
  lemma SelectValues(raw: Raw, geo: Option<Value>, k: string)
    ensures Keys(Select(raw, geo).values) == Kept(raw) && Keys(Select(raw, geo).index) == Kept(raw)
    ensures Get(Select(raw, geo).values, k) == if k in Kept(raw) then Some(Lookup(raw.values, k)) else None
    ensures Get(Select(raw, geo).index, k) ==
              if k in Kept(raw) then Some(IndexValue(geo, Lookup(raw.values, k))) else None
  {
    SelectExpected(raw, geo);
    KeysFilled(Kept(raw), SourceOf(ValuesField, raw, geo));
    KeysFilled(Kept(raw), SourceOf(IndexField, raw, geo));
    GetFilled(Kept(raw), SourceOf(ValuesField, raw, geo), k);
    GetFilled(Kept(raw), SourceOf(IndexField, raw, geo), k);
  }

  /** `error` holds the kept levels that have an error, with the error. */
  lemma SelectErrors(raw: Raw, geo: Option<Value>, k: string)
    ensures Get(Select(raw, geo).error, k) ==
              if k in Kept(raw) && k in Keys(raw.error) then Some(Lookup(raw.error, k)) else None
  {
    SelectExpected(raw, geo);
    var withError := KeepIn(Kept(raw), raw.error);
    assert Select(raw, geo).error == Filled(withError, SourceOf(ErrorField, raw, geo));
    KeepInMembers(Kept(raw), raw.error, k);
    GetFilled(withError, SourceOf(ErrorField, raw, geo), k);
  }

  /** `error_ratio` holds the same levels, with the error's ratio to the value, to three places. */
  lemma SelectErrorRatios(raw: Raw, geo: Option<Value>, k: string)
    ensures Get(Select(raw, geo).errorRatio, k) ==
              if k in Kept(raw) && k in Keys(raw.error)
              then Some(GetRatio(Lookup(raw.error, k), Lookup(raw.values, k), Some(3)))
              else None
  {
    SelectExpected(raw, geo);
    var withError := KeepIn(Kept(raw), raw.error);
    assert Select(raw, geo).errorRatio == Filled(withError, SourceOf(ErrorRatioField, raw, geo));
    KeepInMembers(Kept(raw), raw.error, k);
    GetFilled(withError, SourceOf(ErrorRatioField, raw, geo), k);
  }

  /** `numerators` holds every visited level that has a numerator, kept or not. */
  lemma SelectNumerators(raw: Raw, geo: Option<Value>, k: string)
    ensures Get(Select(raw, geo).numerators, k) ==
              if k in Visited(raw) && k in Keys(raw.numerators) then Some(Lookup(raw.numerators, k)) else None
  {
    SelectExpected(raw, geo);
    var withNumerator := KeepIn(Visited(raw), raw.numerators);
    assert Select(raw, geo).numerators == Filled(withNumerator, SourceOf(NumeratorsField, raw, geo));
    GetFilled(withNumerator, SourceOf(NumeratorsField, raw, geo), k);
    KeepInMembers(Visited(raw), raw.numerators, k);
  }

  /** `numerator_errors` holds every visited level that has both a numerator and a numerator error. */
  lemma SelectNumeratorErrors(raw: Raw, geo: Option<Value>, k: string)
    ensures Get(Select(raw, geo).numeratorErrors, k) ==
              if k in Visited(raw) && k in Keys(raw.numerators) && k in Keys(raw.numeratorErrors)
              then Some(Lookup(raw.numeratorErrors, k))
              else None
  {
    SelectExpected(raw, geo);
    var visited := Visited(raw);
    var withNumerator := KeepIn(visited, raw.numerators);
    var withNumeratorError := KeepIn(withNumerator, raw.numeratorErrors);
    assert Select(raw, geo).numeratorErrors == Filled(withNumeratorError, SourceOf(NumeratorErrorsField, raw, geo));
    GetFilled(withNumeratorError, SourceOf(NumeratorErrorsField, raw, geo), k);
    KeepInMembers(withNumerator, raw.numeratorErrors, k);
    KeepInMembers(visited, raw.numerators, k);
  }

  /** The comparatives are the kept levels other than `this`, in order. */
  lemma SelectComparativeLevels(raw: Raw, geo: Option<Value>)
    ensures Select(raw, geo).comparatives == WithoutThis(Kept(raw))
    ensures forall x :: x in Select(raw, geo).comparatives <==> x in Kept(raw) && x != "this"
  {
    SelectExpected(raw, geo);
    forall x {
      WithoutThisMembers(Kept(raw), x);
    }
  }

  /** At most three levels are kept, so `values` has at most three keys and there are at most two comparatives. */
  lemma KeptAtMostThree(raw: Raw, geo: Option<Value>)
    ensures |Kept(raw)| <= NumComparatives + 1
    ensures |Select(raw, geo).values| <= NumComparatives + 1
  {
    SelectExpected(raw, geo);
  }

  /** The position of a level in the priority order. */
  function Rank(level: string): nat
  {
    if level == "this" then 0
    else if level == "place" then 1
    else if level == "CBSA" then 2
    else if level == "county" then 3
    else if level == "state" then 4
    else if level == "nation" then 5
    else |Levels|
  }

  lemma RankOfLevels()
    ensures forall k :: 0 <= k < |Levels| ==> Rank(Levels[k]) == k
  {
  }

  /** Each level of `xs` comes strictly after the one before it in the priority order. */
  predicate InPriorityOrder(xs: seq<string>)
  {
    forall a, b :: 0 <= a < b < |xs| ==> Rank(xs[a]) < Rank(xs[b])
  }

  /** The eligible levels among the first `n` appear in priority order. */
  lemma {:induction false} EligibleOrdered(raw: Raw, n: nat)
    requires n <= |Levels|
    ensures forall a :: 0 <= a < |EligibleIn(raw, Levels[..n])| ==> Rank(EligibleIn(raw, Levels[..n])[a]) < n
    ensures InPriorityOrder(EligibleIn(raw, Levels[..n]))
  {
    if n > 0 {
      EligibleOrdered(raw, n - 1);
      EligibleSnoc(raw, n - 1);
      var front := EligibleIn(raw, Levels[..n - 1]);
      var e := EligibleIn(raw, Levels[..n]);
      var last := Levels[n - 1];
      assert Rank(last) == n - 1 by { RankOfLevels(); }
      forall a | 0 <= a < |e|
        ensures Rank(e[a]) < n
        ensures a < |front| ==> Rank(e[a]) < n - 1
      {
        if a < |front| {
          assert e[a] == front[a];
        } else {
          assert e[a] == last;
        }
      }
      forall a, b | 0 <= a < b < |e|
        ensures Rank(e[a]) < Rank(e[b])
      {
        if b < |front| {
          assert e[a] == front[a] && e[b] == front[b];
        } else {
          assert e[b] == last;
        }
      }
    }
  }

  /** The kept levels appear in priority order. */
  lemma KeptOrdered(raw: Raw)
    ensures InPriorityOrder(Kept(raw))
  {
    EligibleOrdered(raw, |Levels|);
    assert Levels[..|Levels|] == Levels;
    var e := EligibleIn(raw, Levels);
    var k := Kept(raw);
    forall a, b | 0 <= a < b < |k|
      ensures Rank(k[a]) < Rank(k[b])
    {
      assert k[a] == e[a] && k[b] == e[b];
    }
  }

  /** A county is never kept together with a CBSA. */
  lemma NeverCountyAndCbsa(raw: Raw, geo: Option<Value>)
    ensures !("county" in Keys(Select(raw, geo).values) && "CBSA" in Keys(Select(raw, geo).values))
  {
    SelectValues(raw, geo, "county");
    KeptMembers(raw, "county");
    KeptMembers(raw, "CBSA");
  }

  // --- Rewriting the item ------------------------------------------------------

  /** The six fields take the selected containers; every other key, `name` and `metadata` among them, keeps its value. */
  lemma RewriteFields(d: Entries, e: Containers, k: string)
    ensures Get(Rewrite(d, e), k) ==
              if k == "values" then Some(Dict(e.values))
              else if k == "index" then Some(Dict(e.index))
              else if k == "error" then Some(Dict(e.error))
              else if k == "error_ratio" then Some(Dict(e.errorRatio))
              else if k == "numerators" then Some(Dict(e.numerators))
              else if k == "numerator_errors" then Some(Dict(e.numeratorErrors))
              else Get(d, k)
  {
    var d1 := Put(d, "values", Dict(e.values));
    var d2 := Put(d1, "index", Dict(e.index));
    var d3 := Put(d2, "error", Dict(e.error));
    var d4 := Put(d3, "error_ratio", Dict(e.errorRatio));
    var d5 := Put(d4, "numerators", Dict(e.numerators));
    GetPut(d, "values", Dict(e.values), k);
    GetPut(d1, "index", Dict(e.index), k);
    GetPut(d2, "error", Dict(e.error), k);
    GetPut(d3, "error_ratio", Dict(e.errorRatio), k);
    GetPut(d4, "numerators", Dict(e.numerators), k);
    GetPut(d5, "numerator_errors", Dict(e.numeratorErrors), k);
  }

  /** Replacing the node at a path that leads somewhere puts the new node there. */
  lemma {:induction false} SetAtReaches(v: Value, p: Path, node: Value)
    requires NodeAt(v, p).Some?
    ensures NodeAt(SetAt(v, p, node), p) == Some(node)
    decreases |p|
  {
    if p != [] {
      NodeAtDict(v, p);
      var entry := v.entries[p[0]];
      SetAtReaches(entry.1, p[1..], node);
    }
  }

  /** Two paths that part below the root: neither is a prefix of the other. */
  predicate Diverge(p: Path, q: Path)
    decreases |p|
  {
    p != [] && q != [] && (p[0] != q[0] || Diverge(p[1..], q[1..]))
  }

  /** Replacing the node at `p` leaves every node on a path that parts from `p` as it was. */
  lemma {:induction false} SetAtElsewhere(v: Value, p: Path, node: Value, q: Path)
    requires Diverge(p, q)
    ensures NodeAt(SetAt(v, p, node), q) == NodeAt(v, q)
    decreases |p|
  {
    if v.Dict? && p[0] < |v.entries| && p[0] == q[0] {
      SetAtElsewhere(v.entries[p[0]].1, p[1..], node, q[1..]);
    }
  }

  /** Below the replaced node, the document is the new node. */
  lemma {:induction false} SetAtBelow(v: Value, p: Path, node: Value, r: Path)
    requires NodeAt(v, p).Some?
    ensures NodeAt(SetAt(v, p, node), p + r) == NodeAt(node, r)
    decreases |p|
  {
    if p == [] {
      assert p + r == r;
    } else {
      NodeAtDict(v, p);
      assert (p + r)[1..] == p[1..] + r;
      SetAtBelow(v.entries[p[0]].1, p[1..], node, r);
    }
  }

  /** Each dictionary on the way to the replaced node keeps its keys, in order. */
  lemma {:induction false} SetAtAbove(v: Value, p: Path, node: Value, n: nat)
    requires n < |p| && NodeAt(v, p).Some?
    ensures var before, after := NodeAt(v, p[..n]), NodeAt(SetAt(v, p, node), p[..n]);
            before.Some? && before.value.Dict? && after.Some? && after.value.Dict? &&
            Keys(after.value.entries) == Keys(before.value.entries)
    decreases |p|
  {
    NodeAtDict(v, p);
    var entry := v.entries[p[0]];
    if n == 0 {
      KeysUpdate(v.entries, p[0], (entry.0, SetAt(entry.1, p[1..], node)));
    } else {
      assert p[..n] == [p[0]] + p[1..][..n - 1];
      SetAtAbove(entry.1, p[1..], node, n - 1);
    }
  }

  /**
   * One item enhanced, seen from the whole document, for an item that lies
   * outside `geography`: the item's node becomes its rewrite, the document's
   * top-level keys stay as they were, and every node on a path that parts from
   * the item's path outside `geography` is unchanged.
   */
  lemma EnhanceOneDocument(root: Entries, path: Path, q: Path)
    requires EnhanceOne(root, path).Ok?
    requires path != [] && path[0] < |root| && root[path[0]].0 != "geography"
    ensures var d := NodeAt(Dict(root), path).value.entries;
            var out := EnhanceOne(root, path).value;
            && NodeAt(Dict(out), path) == Some(Dict(Rewrite(d, Select(RawOf(d).value, GeoValue(d)))))
            && Keys(out) == Keys(root)
            && (q != [] && Diverge(path, q) && q[0] < |root| && root[q[0]].0 != "geography" ==>
                  NodeAt(Dict(out), q) == NodeAt(Dict(root), q))
  {
    var d := NodeAt(Dict(root), path).value.entries;
    var e := Select(RawOf(d).value, GeoValue(d));
    var rw := Dict(Rewrite(d, e));
    var entry := root[path[0]];
    var tree := SetAt(Dict(root), path, rw);
    assert tree.entries == root[path[0] := (entry.0, SetAt(entry.1, path[1..], rw))];
    var g := Dict(Put(AsDict(Get(tree.entries, "geography").value, "geography").value, "comparatives", StrList(e.comparatives)));
    var out := Put(tree.entries, "geography", g);
    assert out == EnhanceOne(root, path).value;
    KeysUpdate(root, path[0], (entry.0, SetAt(entry.1, path[1..], rw)));
    GetSome(tree.entries, "geography");
    KeysPut(tree.entries, "geography", g);
    PutOther(tree.entries, "geography", g, path[0]);
    SetAtReaches(Dict(root), path, rw);
    if q != [] && Diverge(path, q) && q[0] < |root| && root[q[0]].0 != "geography" {
      PutOther(tree.entries, "geography", g, q[0]);
      SetAtElsewhere(Dict(root), path, rw, q);
    }
  }

  /** After one item outside `geography` is enhanced, the rewritten item keeps every key but the six fields. */
  lemma EnhanceOneItemFields(root: Entries, path: Path, k: string)
    requires EnhanceOne(root, path).Ok?
    requires path != [] && path[0] < |root| && root[path[0]].0 != "geography"
    ensures var d := NodeAt(Dict(root), path).value.entries;
            var e := Select(RawOf(d).value, GeoValue(d));
            var item := NodeAt(Dict(EnhanceOne(root, path).value), path);
            && item.Some? && item.value.Dict?
            && Get(item.value.entries, "values") == Some(Dict(e.values))
            && Get(item.value.entries, "index") == Some(Dict(e.index))
            && Get(item.value.entries, "error") == Some(Dict(e.error))
            && Get(item.value.entries, "error_ratio") == Some(Dict(e.errorRatio))
            && Get(item.value.entries, "numerators") == Some(Dict(e.numerators))
            && Get(item.value.entries, "numerator_errors") == Some(Dict(e.numeratorErrors))
            && (k !in {"values", "index", "error", "error_ratio", "numerators", "numerator_errors"} ==>
                  Get(item.value.entries, k) == Get(d, k))
  {
    var d := NodeAt(Dict(root), path).value.entries;
    var e := Select(RawOf(d).value, GeoValue(d));
    EnhanceOneDocument(root, path, []);
    RewriteFields(d, e, "values");
    RewriteFields(d, e, "index");
    RewriteFields(d, e, "error");
    RewriteFields(d, e, "error_ratio");
    RewriteFields(d, e, "numerators");
    RewriteFields(d, e, "numerator_errors");
    RewriteFields(d, e, k);
  }

  /** Inside `geography`, only `comparatives` changes when the enhanced item lies outside it. */
  lemma EnhanceOneGeography(root: Entries, path: Path, k: string)
    requires EnhanceOne(root, path).Ok?
    requires path != [] && path[0] < |root| && root[path[0]].0 != "geography"
    ensures var before, after := Get(root, "geography"), Get(EnhanceOne(root, path).value, "geography");
            && before.Some? && before.value.Dict? && after.Some? && after.value.Dict?
            && (k != "comparatives" ==> Get(after.value.entries, k) == Get(before.value.entries, k))
  {
    var d := NodeAt(Dict(root), path).value.entries;
    var e := Select(RawOf(d).value, GeoValue(d));
    var rw := Dict(Rewrite(d, e));
    var entry := root[path[0]];
    var tree := SetAt(Dict(root), path, rw);
    assert tree.entries == root[path[0] := (entry.0, SetAt(entry.1, path[1..], rw))];
    GetUpdate(root, path[0], (entry.0, SetAt(entry.1, path[1..], rw)), "geography");
    var geography := AsDict(Get(tree.entries, "geography").value, "geography").value;
    var g := Dict(Put(geography, "comparatives", StrList(e.comparatives)));
    GetPut(tree.entries, "geography", g, "geography");
    GetPut(geography, "comparatives", StrList(e.comparatives), k);
  }

  /** After one item is enhanced, the geography lists that item's comparative levels. */
  lemma EnhanceOneComparatives(root: Entries, path: Path)
    requires EnhanceOne(root, path).Ok?
    ensures var g := Get(EnhanceOne(root, path).value, "geography");
            var d := NodeAt(Dict(root), path).value.entries;
            g.Some? && g.value.Dict? &&
            Get(g.value.entries, "comparatives") == Some(StrList(Select(RawOf(d).value, GeoValue(d)).comparatives))
  {
    var d := NodeAt(Dict(root), path).value.entries;
    var e := Select(RawOf(d).value, GeoValue(d));
    var tree := SetAt(Dict(root), path, Dict(Rewrite(d, e)));
    var geography := AsDict(Get(tree.entries, "geography").value, "geography").value;
    GetPut(tree.entries, "geography", Dict(Put(geography, "comparatives", StrList(e.comparatives))), "geography");
    GetPut(geography, "comparatives", StrList(e.comparatives), "comparatives");
  }

  /** Enhancing the items of two path lists in turn is enhancing their concatenation. */
  lemma {:induction false} EnhanceAllAppend(root: Entries, xs: seq<Path>, ys: seq<Path>)
    ensures EnhanceAll(root, xs + ys) ==
              match EnhanceAll(root, xs)
              case Err(e) => Err(e)
              case Ok(mid) => EnhanceAll(mid, ys)
    decreases |xs|
  {
    if xs == [] {
      assert xs + ys == ys;
    } else {
      assert (xs + ys)[1..] == xs[1..] + ys;
      EnhanceAllCons(root, xs + ys);
      EnhanceAllCons(root, xs);
      match EnhanceOne(root, xs[0]) {
        case Err(_) =>
        case Ok(next) => EnhanceAllAppend(next, xs[1..], ys);
      }
    }
  }

  /** The last item of the loop is enhanced in the document the earlier items left. */
  lemma EnhanceAllSnoc(root: Entries, front: seq<Path>, last: Path)
    requires EnhanceAll(root, front + [last]).Ok?
    ensures EnhanceAll(root, front).Ok?
    ensures EnhanceOne(EnhanceAll(root, front).value, last) == EnhanceAll(root, front + [last])
  {
    EnhanceAllAppend(root, front, [last]);
    var mid := EnhanceAll(root, front).value;
    EnhanceAllCons(mid, [last]);
  }

  /** The loop leaves in `geography` the comparatives of the last item it enhanced: each item overwrites the one before. */
  lemma EnhanceAllLastComparatives(root: Entries, front: seq<Path>, last: Path)
    requires EnhanceAll(root, front + [last]).Ok?
    ensures EnhanceAll(root, front).Ok? && EnhanceOne(EnhanceAll(root, front).value, last).Ok?
    ensures var mid := EnhanceAll(root, front).value;
            var item := NodeAt(Dict(mid), last);
            var g := Get(EnhanceAll(root, front + [last]).value, "geography");
            item.Some? && item.value.Dict? && g.Some? && g.value.Dict? &&
            Get(g.value.entries, "comparatives") ==
              Some(StrList(Select(RawOf(item.value.entries).value, GeoValue(item.value.entries)).comparatives))
  {
    EnhanceAllSnoc(root, front, last);
    EnhanceOneComparatives(EnhanceAll(root, front).value, last);
  }
}
