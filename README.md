# Census profile: margin-of-error arithmetic and comparative selection

This project models the computational core of the Census Reporter profile
builder (`census/profile.py`). It covers four things:

- **The margin-of-error formulas.** `moe_add`, `moe_proportion` and
  `moe_ratio` follow the ACS handbook. Beside them are the scaling helpers
  `percentify` and `rateify`, and the two operator tables `ops` and
  `moe_ops`.
- **The evaluator `value_rpn_calc`.** It runs a formula written in reverse
  Polish notation, such as `B01001002 B01001001 / %`. It keeps two parallel
  stacks: one for estimates and one for their margins of error. A ratio also
  sets a side channel that records the numerator and that numerator's
  margin.
- **`build_item` and `add_metadata`.**
  - `build_item` merges the tables of each parent geography. It evaluates
    the formula on the merged data and rounds the results. Then it files
    them under the parent's relation label in four dictionaries.
  - `add_metadata` stores a `metadata` dictionary in a document section, in
    place.
- **The selection part of `enhance_api_data`.**
  - `find_dicts_with_key` walks the document and collects every dictionary
    that has a `values` key.
  - For each such item, the selection loop picks up to three summary levels
    in priority order: `this`, `place`, `CBSA`, `county`, `state`, `nation`.
    A county is skipped once a CBSA has been kept.
  - The loop copies each picked level's value, index, error, error ratio,
    numerator and numerator error. It then rewrites the item's six fields
    and sets the geography's comparatives.

Modules, one per file:

| module | file | what it holds |
|---|---|---|
| `Wrappers` | `wrappers.dfy` | `Option`, `Result` |
| `Host` | `host.dfy` | `math.sqrt` and `round`, which are not modelled exactly (see below) |
| `Moe` | `moe.dfy` | the margin-of-error formulas and the laws they satisfy |
| `Formula` | `formula.dfy` | `str.split()`, token classification and `float(token)` |
| `Rpn` | `rpn.dfy` | the evaluator: two specification functions `Step` and `Run`, and the loop methods proved against them |
| `RpnLaws` | `rpn_laws.dfy` | stack discipline, the numerator side channel, and worked formulas from the profile |
| `PyValues` | `pyvalues.dfy` | JSON-like document values with insertion-ordered dictionaries |
| `Items` | `items.dfy` | `build_item` |
| `Metadata` | `metadata.dfy` | `add_metadata`, as a class updated in place |
| `FindDicts` | `find_dicts.dfy` | `find_dicts_with_key` |
| `Enhance` | `enhance.dfy` | the selection loop and the rewrite of the found items |
| `EnhanceLaws` | `enhance_laws.dfy` | an independent description of what that loop selects, proved equal to it |

**How Python's errors are modelled.** Each exception the code can raise
becomes a `Result` error:

- popping an empty stack (`IndexError`) becomes `StackUnderflow`;
- `float(token)` on a word that is not a number (`ValueError`) becomes
  `InvalidLiteral`;
- a missing key in `data['estimate']` or `data['error']` (`KeyError`)
  becomes `MissingVariable`;
- arithmetic on a `None` margin (`TypeError`) becomes `NullMargin`. The
  arithmetic is `None ** 2`, `None * 100` or `round(None, 1)`.

**The square root and rounding.** `math.sqrt` and `round` are opaque
functions of the model, declared in `Host`. `Host.ExactSqrt()` is the
hypothesis that `Sqrt` is the true square root. Lemmas that depend on it
take it as a precondition.

**Two edge cases of `build_item`:**

- A parent whose geoid is missing from the data does not get `null`
  values. The code raises `KeyError` at `data['data'][geoid]`
  (census/profile.py:268). The model returns `Err(MissingGeoid)`.
- A falsy error becomes 0 only beside a value that is not `None`
  (census/profile.py:281-284). The code's own comment at line 283 leaves
  open whether a `None` error should be 0. A `None` value keeps whatever
  error the evaluator returned.

## Model

| member | source | states |
|---|---|---|
| Moe.Percentify | census/profile.py:161-162 | the definition of `percentify`: a fraction times 100; its effect in a formula is stated by `RpnLaws.StepScale` |
| Moe.Rateify | census/profile.py:164-165 | the definition of `rateify`: a fraction times 1000; its effect in a formula is stated by `RpnLaws.StepScale` |
| Moe.MoeAdd | census/profile.py:167-169 | the definition of `moe_add`: the square root of the sum of the squared margins; its laws are `SumOfSquaresNonNegative`, `MoeAddSymmetric` and `MoeAddBounds` |
| Moe.MoeProportion | census/profile.py:171-178 | the definition of `moe_proportion`, with the fall-back to `moe_ratio` where `math.sqrt` raises; `sqrt(moe_n^2 - p^2 moe_d^2) / d` when the radicand is non-negative, else `moe_ratio`; its law is `ProportionAtMostRatio` |
| Moe.MoeRatio | census/profile.py:180-184 | the definition of `moe_ratio`; its radicand is `RatioRadicand` |
| Moe.SumOfSquaresNonNegative | census/profile.py:167-169 | the radicand of `moe_add` is never negative, so `math.sqrt` never raises there |
| Moe.RatioRadicand | census/profile.py:180-184 | the radicand of `moe_ratio` is never negative for a non-zero denominator |
| Moe.MoeAddSymmetric | census/profile.py:167-169 | `+` and `-` share one margin formula, symmetric in its operands and insensitive to their signs |
| Moe.MoeAddBounds | census/profile.py:167-169 | with an exact square root, the margin of a sum squares to the sum of the squares; it lies between the larger margin and the sum of the two, and equals abs(a) when b is 0 |
| Moe.ProportionAtMostRatio | census/profile.py:171-184 | with an exact square root and a positive denominator, the proportion margin is non-negative and never exceeds the ratio margin |
| Formula.Split | census/profile.py:206 | the definition of `str.split()` with no separator; its laws are `SplitWords`, `SplitJoin`, `SplitSkips` and `SplitFirst` |
| Formula.Classify | census/profile.py:208-248 | the definition of the evaluator's branch order: operator table key, then `B` or `D3-` prefix, then `float`; its law is `ClassifyTokenText` |
| Formula.ParseLiteral | census/profile.py:247-248 | the definition of `float(token)` on signed decimal literals, `None` where it raises; its laws are `ParsedLiteralIsLiteral` and `ParseLiteralNatText` |
| Formula.ClassifyTokenText | census/profile.py:208-248 | classifying a well-formed token's text gives the token back, and writing a classified word gives the word back: operators are the table keys, then words starting with `B` or `D3-` are variables, then everything else is a literal |
| Formula.SkipWhitespace | census/profile.py:206 | drops exactly the leading whitespace: the result is a suffix, every dropped character is whitespace, and the result starts with a non-whitespace character or is empty |
| Formula.WordLength | census/profile.py:206 | the first word of a string is whitespace-free and ends at whitespace or at the end |
| Formula.SplitWords | census/profile.py:206 | every word produced by `rpn_string.split()` is non-empty and whitespace-free |
| Formula.SplitJoin | census/profile.py:206 | splitting words joined by single spaces gives the words back |
| Formula.SplitSpace | census/profile.py:206 | a leading space does not change the split |
| Formula.SplitFirst | census/profile.py:206 | a word followed by whitespace or nothing is the first word of the split, followed by the split of the rest |
| Formula.WordOfPrefix | census/profile.py:206 | the first word of `w + rest` is `w` when `rest` is empty or starts with whitespace |
| Formula.SplitSkips | census/profile.py:206 | the split ignores leading whitespace |
| Formula.Tokenize | census/profile.py:206 | the evaluator reads one token per word of the split |
| Formula.TokenizeFormulaText | census/profile.py:206-248 | writing well-formed tokens as a formula and tokenizing it gives the same tokens |
| Formula.DigitCount | census/profile.py:247-248 | the leading run of decimal digits of `float`'s input is maximal |
| Formula.ParsedLiteralIsLiteral | census/profile.py:243-248 | a word `float` accepts is never an operator or a variable, so it reaches the literal branch |
| Formula.NatText | census/profile.py:247-248 | the printed form of a natural number is a non-empty run of digits |
| Formula.DigitsValueNatText | census/profile.py:247-248 | reading back a printed natural number gives its value |
| Formula.ParseLiteralNatText | census/profile.py:247-248 | `float` of a printed integer, with or without a minus sign, is that integer |
| Rpn.Step | census/profile.py:208-250 | the definition of one token's effect on the two stacks and the numerator; its laws are the `RpnLaws.Step…` lemmas |
| Rpn.Run | census/profile.py:206-250 | the definition of the loop over the tokens, stopping at the first error; its laws are `RunAligned`, `RunAppend` and `RunWithoutRatioKeepsNumerator` |
| Rpn.Finish | census/profile.py:252-255 | the definition of the final pops: the top pair and the numerator, or an underflow on an empty stack |
| Rpn.Evaluate | census/profile.py:200-255 | the definition of `value_rpn_calc` as a value; `ValueRpnCalc` is proved equal to it |
| Rpn.ValueRpnCalc | census/profile.py:200-255 | the loop over the split formula, with two list stacks and the numerator variables, returns exactly `Evaluate(data, rpn_string)`, including each error the source raises |
| Rpn.ExecuteToken | census/profile.py:208-250 | one iteration of the loop pops, computes and pushes exactly as `Step` specifies, and keeps the two stacks of equal height |
| RpnLaws.StepStackDiscipline | census/profile.py:208-250 | a token underflows exactly when the stack holds fewer entries than it pops; otherwise, when it succeeds, it replaces that many entries with one |
| RpnLaws.StepAligned | census/profile.py:208-250 | one step keeps the two stacks of equal height and the numerator and its margin set together or not at all |
| RpnLaws.RunAligned | census/profile.py:206-250 | the same holds for any run of tokens |
| RpnLaws.EvaluateNumeratorPaired | census/profile.py:227-239 | a successful evaluation reports the numerator and its margin together or not at all |
| RpnLaws.StepScale | census/profile.py:212-219 | `%` and `%%` multiply the value and its margin by 100 and 1000, and map `None` to `None` |
| RpnLaws.StepBinary | census/profile.py:220-242 | `+` and `-` combine the two values and give the `moe_add` margin; a `None` operand gives `None`; two values with a `None` margin raise `TypeError`, except that the zero branch of `/` needs only the numerator's margin |
| RpnLaws.StepRatio | census/profile.py:227-239 | `/` on two non-zero values gives the quotient and the `moe_proportion` margin, and records the numerator with its margin rounded to one place |
| RpnLaws.StepOperands | census/profile.py:243-248 | a variable pushes its estimate and error or raises for a missing key; a literal pushes `float(token)` as both value and margin, or raises |
| RpnLaws.RunAppend | census/profile.py:206-250 | running two token sequences in turn is running their concatenation |
| RpnLaws.RunWithoutRatioKeepsNumerator | census/profile.py:238-239 | only `/` writes the numerator |
| RpnLaws.EvaluateWithoutRatio | census/profile.py:203-255 | a formula without `/` reports no numerator |
| RpnLaws.DeeperEntriesIgnored | census/profile.py:249-255 | the result is the top of the stacks: deeper entries are ignored |
| RpnLaws.EvaluateSingleVariable | census/profile.py:243-255 | a formula of one variable returns that variable's estimate and error, and no numerator |
| RpnLaws.TokenizeSingleVariable | census/profile.py:206-243 | a variable name alone is one variable token |
| RpnLaws.EvaluateUnderflow | census/profile.py:209-222 | the empty formula, and a binary operator with fewer than two entries, raise a stack underflow |
| RpnLaws.RatioByZero | census/profile.py:230-239 | `X Y /` with a zero `Y` gives 0 with margin 0, whatever `Y`'s margin once `X` has one, and still records `X` as the numerator |
| RpnLaws.PercentOfTotalTokens | census/profile.py:212-239 | `X Y / %` gives 100·a/b with the proportion margin scaled by 100, and the numerator `a` with its margin rounded |
| RpnLaws.PercentOfTotalText | census/profile.py:206-243 | `'B01001002 B01001001 / %'` reads as two variables, a ratio and a percentage |
| RpnLaws.PercentOfTotalScenario | census/profile.py:200-255 | for estimates 100 of 500 and margins 10 and 20, the formula gives the percentage and margin computed in `PercentOfTotalArithmetic` |
| RpnLaws.PercentOfTotalArithmetic | census/profile.py:161-178 | 100/500 as a percentage is 20, and its margin is 100·sqrt(84)/500 |
| RpnLaws.DifferenceDenominatorTokens | census/profile.py:220-242 | `T W H - /` divides `T` by `W - H`, with the proportion margin over the `moe_add` margin of the difference |
| RpnLaws.DifferenceDenominatorRun | census/profile.py:206-250 | the run of `T W H - /` leaves one pair and sets the numerator to `T` |
| RpnLaws.ThreeVariables | census/profile.py:243-250 | three variables push their pairs in order |
| RpnLaws.DifferenceThenRatio | census/profile.py:220-242 | `- /` on the stack `t w h` leaves `t / (w - h)` and its margins |
| RpnLaws.DifferenceStep | census/profile.py:240-242 | `-` on the top two entries leaves `w - h` with the `moe_add` margin |
| RpnLaws.QuotientStep | census/profile.py:227-239 | `/` on two non-zero values leaves the quotient and records the numerator |
| RpnLaws.RunVariable | census/profile.py:243-250 | a variable pushes its estimate and margin, and the run goes on with the rest |
| RpnLaws.DifferenceDenominatorText | census/profile.py:206-243 | `'B08013001 B08006001 B08006017 - /'` reads as three variables, a difference and a ratio |
| RpnLaws.DifferenceDenominatorScenario | census/profile.py:200-255 | mean travel time (aggregate minutes over workers minus those at home) evaluates to `t / (w - h)` with the proportion margin, and reports `t` as the numerator |
| PyValues.Keys | census/profile.py:258-262 | a dictionary has one key per entry |
| PyValues.KeysAt | census/profile.py:258-262 | the i-th key is the key of the i-th entry |
| PyValues.GetSome | census/profile.py:2181 | `key in d` exactly when `d` has a value for the key |
| PyValues.GetPut | census/profile.py:302 | after `d[key] = v`, the key maps to `v` and every other key keeps its value |
| PyValues.KeysPut | census/profile.py:302 | `d[key] = v` keeps the keys in order, and appends the key when it is new |
| PyValues.PutNew | census/profile.py:302 | writing a new key appends an entry |
| PyValues.KeysSnoc | census/profile.py:302 | appending an entry appends its key |
| PyValues.GetSnoc | census/profile.py:2219-2240 | lookups after an append: earlier entries first, then the new key |
| PyValues.PutUnique | census/profile.py:302 | writing a key keeps the dictionary's keys unique |
| PyValues.PutOther | census/profile.py:302 | `d[key] = v` leaves every entry with another key at its position |
| PyValues.KeysUpdate | census/profile.py:2247 | replacing an entry's value in place keeps the keys |
| PyValues.GetUpdate | census/profile.py:2247 | replacing an entry with another key in place does not change a lookup |
| PyValues.Size | census/profile.py:2176-2187 | every value has at least one node, which makes the walk's measure well-founded |
| PyValues.EntriesSizeSnoc | census/profile.py:2183-2185 | the size of a dictionary's entries grows by each entry added |
| Items.Merged | census/profile.py:267-270 | the definition of `data_for_geoid`: the tables' estimates and errors merged in order; its laws are `MergedLastWins` and `MergedDomain` |
| Items.Rounded | census/profile.py:280-288 | the definition of the rounding after the evaluation; its law is `MeasureOutcome` |
| Items.Measure | census/profile.py:265-289 | the definition of the four results for one parent; its law is `MeasureOutcome` |
| Items.BuildFrom | census/profile.py:257-295 | the definition of `build_item` as a value; its laws are `BuildSucceeds`, `BuildKeys`, `BuildLastWins` and `BuildErrorSticks` |
| Items.UpdateAllDomain | census/profile.py:268-270 | a variable is in the merged dictionary exactly when some table has it |
| Items.UpdateAllLastWins | census/profile.py:268-270 | with `dict.update`, a variable's merged value comes from the last table that has it |
| Items.MergedLastWins | census/profile.py:267-270 | for both estimates and errors of a geography, a variable holds the entry of the last table that has it |
| Items.MergedDomain | census/profile.py:267-270 | a variable that no table has is not merged, for estimates and for errors |
| Items.MergeTables | census/profile.py:267-270 | the update loop over a geography's tables builds exactly the merged observations |
| Items.MeasureOutcome | census/profile.py:266-289 | one parent succeeds exactly when its geoid is in the data and the formula evaluates; then the value is rounded to 2 places, the error is rounded or 0 when falsy (only beside a value), and the numerator and its margin are rounded |
| Items.RoundingDefined | census/profile.py:286-288 | the evaluator pairs the numerator with its margin, so `round(None, 2)` is never reached |
| Items.BuildSucceeds | census/profile.py:264-295 | the item is built exactly when every parent is measured |
| Items.BuildItemSucceeds | census/profile.py:264-295 | `build_item` returns exactly when every parent's geoid is in the data and the formula evaluates on its merged tables |
| Items.BuildKeys | census/profile.py:257-293 | the name is kept, and each of the four dictionaries is keyed by exactly the parents' relation labels |
| Items.LabelsSnoc | census/profile.py:264-265 | the labels of the parents grow by each parent's label |
| Items.BuildLastWins | census/profile.py:290-293 | each label holds what was measured for the last parent with that label, in all four dictionaries |
| Items.BuildErrorSticks | census/profile.py:264-295 | once a parent fails, the item fails with that error |
| Items.BuildItem | census/profile.py:257-295 | the loop over the parents as the source writes it returns exactly `BuildFrom` over the measurement of each parent |
| Metadata.MetadataFields | census/profile.py:298-300 | the metadata dictionary has exactly the keys `table_id`, `universe` and `acs_release`, each holding the value it was given |
| Metadata.Section.constructor | census/profile.py:297 | a section holds the entries it was made with |
| Metadata.Section.AddMetadata | census/profile.py:297-302 | `metadata` is set to the new dictionary, and every other key keeps its value; the keys are unchanged or gain `metadata` at the end |
| FindDicts.Walk | census/profile.py:2177-2187 | the definition of the worklist walk; its laws are `WalkStep` and `WalkMembers` |
| FindDicts.FindOrder | census/profile.py:2176-2187 | the definition of `find_dicts_with_key` as a value; its laws are `FindOrderComplete` and `FindOrderOnce` |
| FindDicts.StackSizeAppend | census/profile.py:2177-2185 | the measure of a stack is additive |
| FindDicts.ChildrenSmaller | census/profile.py:2183-2185 | the children pushed for a dictionary are together smaller than it, so the walk terminates |
| FindDicts.WalkStep | census/profile.py:2179-2185 | one round pops the last dictionary, reports it when it has the key, and pushes its dictionary-valued entries in order |
| FindDicts.ChildOrigin | census/profile.py:2183-2185 | each pushed child is a dictionary-valued entry |
| FindDicts.ChildPosition | census/profile.py:2183-2185 | each dictionary-valued entry is pushed |
| FindDicts.NodeAtDict | census/profile.py:2183-2185 | a path that leads somewhere passes through dictionaries only |
| FindDicts.BelowChild | census/profile.py:2183-2185 | a dictionary with the key strictly inside a pending one lies inside one of its children |
| FindDicts.ChildBelow | census/profile.py:2183-2185 | a dictionary inside a child lies inside its parent |
| FindDicts.BelowSelf | census/profile.py:2181-2182 | a popped dictionary is reported exactly when it has the key |
| FindDicts.WithinAppend | census/profile.py:2177-2185 | a dictionary is within a concatenation of stacks exactly when it is within one of them |
| FindDicts.WithinAt | census/profile.py:2177-2185 | a dictionary within one pending entry is within the stack |
| FindDicts.WithinWitness | census/profile.py:2177-2185 | a dictionary within the stack is within some pending entry |
| FindDicts.BelowSplit | census/profile.py:2180-2185 | a dictionary lies within a pending one exactly when it is that one, or lies within a child |
| FindDicts.WalkMembers | census/profile.py:2177-2187 | the walk reports exactly the dictionaries with the key that lie within the stack |
| FindDicts.FindOrderComplete | census/profile.py:2176-2187 | `find_dicts_with_key` lists exactly the dictionaries of the document that have the key |
| FindDicts.ChildrenIncreasing | census/profile.py:2183-2185 | the pushed entries sit at distinct positions, in the order of the entries |
| FindDicts.ChildrenApart | census/profile.py:2183-2185 | no pushed child lies within another |
| FindDicts.ApartBelow | census/profile.py:2183-2185 | a dictionary apart from the popped one is apart from each of its children |
| FindDicts.RestApart | census/profile.py:2179-2185 | one round keeps the stack free of dictionaries nested in one another |
| FindDicts.PoppedNotAgain | census/profile.py:2179-2185 | a popped dictionary is never met again by the walk over what is left |
| FindDicts.WalkNoRepeat | census/profile.py:2177-2187 | a walk over such a stack reports no path twice |
| FindDicts.FindOrderOnce | census/profile.py:2176-2187 | `find_dicts_with_key` lists each dictionary at most once |
| FindDicts.FindDictsWithKey | census/profile.py:2176-2187 | the worklist loop as the source writes it returns exactly the walk's list, in its order |
| FindDicts.WalkPop | census/profile.py:2179-2185 | one round leaves a smaller worklist, and the report of that round followed by the walk over what is left |
| FindDicts.WalkRound | census/profile.py:2179-2185 | one iteration of the while loop keeps what is found plus what the walk still reports, and shrinks the worklist |
| FindDicts.PushChildren | census/profile.py:2183-2185 | the inner loop appends exactly the dictionary-valued entries, in order |
| Enhance.Select | census/profile.py:2193-2243 | the definition of what the selection loop builds for one item; its laws are the `EnhanceLaws.Select…` lemmas |
| Enhance.Visit | census/profile.py:2217-2240 | the definition of the four copying steps for one level; their laws are `EnhanceLaws.Visit…Part` |
| Enhance.GeoValue | census/profile.py:2195-2198 | the definition of `d['values']['this']`, `None` where that raises |
| Enhance.RawOf | census/profile.py:2203-2204 | the definition of `raw[obj] = d[obj]` for the four fields; a missing field raises |
| Enhance.Rewrite | census/profile.py:2246-2247 | the definition of `d[obj] = enhanced[obj]` for the six fields; its law is `EnhanceLaws.RewriteFields` |
| Enhance.SetComparatives | census/profile.py:2249 | the definition of `api_data['geography']['comparatives'] = comparative_sumlevs` |
| Enhance.EnhanceOne | census/profile.py:2192-2249 | the definition of the loop body for one found item; its laws are `EnhanceLaws.EnhanceOneDocument`, `EnhanceOneItemFields`, `EnhanceOneGeography` and `EnhanceOneComparatives` |
| Enhance.EnhanceAll | census/profile.py:2192-2249 | the definition of the loop over the found items; its laws are `EnhanceAllCons`, `EnhanceLaws.EnhanceAllAppend` and `EnhanceAllLastComparatives` |
| Enhance.SelectComparatives | census/profile.py:2200-2243 | the selection loop builds exactly the containers that `Select` specifies |
| Enhance.SetAt | census/profile.py:2247 | replacing a node inside a dictionary leaves a dictionary; what changes and what does not is `EnhanceLaws.SetAtReaches`, `SetAtBelow`, `SetAtAbove` and `SetAtElsewhere` |
| Enhance.EnhanceAllCons | census/profile.py:2192-2249 | the loop over the found items handles the first item, then the rest |
| Enhance.EnhanceApiData | census/profile.py:2189-2249 | finds every dictionary with `values` and enhances each, in the order found, returning exactly `EnhanceAll` |
| Enhance.EnhanceDicts | census/profile.py:2192-2249 | the loop over the collected items returns exactly `EnhanceAll` |
| Enhance.EnhanceItemAt | census/profile.py:2193-2249 | the body for one item reads its four fields, selects, rewrites its six fields and sets the comparatives, exactly as `EnhanceOne` |
| EnhanceLaws.EligibleIn | census/profile.py:2211-2218 | there are no more eligible levels than levels given; which levels they are is `EligibleMembers`, their order `EligibleOrdered` |
| EnhanceLaws.Filled | census/profile.py:2219-2240 | a filled map has one entry per key |
| EnhanceLaws.EligibleMembers | census/profile.py:2211-2218 | a level is eligible among some levels exactly when it is one of them, has a value, and is not a county passed over for a CBSA |
| EnhanceLaws.VisitedMembers | census/profile.py:2211-2243 | only levels among the first `n` are visited among them |
| EnhanceLaws.KeepInMembers | census/profile.py:2231-2240 | a visited level is kept in a field's map exactly when the field has it |
| EnhanceLaws.WithoutThisMembers | census/profile.py:2227-2228 | removing `this` keeps every other level |
| EnhanceLaws.KeptMembers | census/profile.py:2211-2243 | every kept level is eligible |
| EnhanceLaws.LevelsDistinct | census/profile.py:2211 | the six summary levels are distinct |
| EnhanceLaws.LevelNotBefore | census/profile.py:2211 | a level does not occur before its own position |
| EnhanceLaws.KeysFilled | census/profile.py:2219-2240 | a filled map has exactly the given keys, in order |
| EnhanceLaws.GetFilled | census/profile.py:2219-2240 | a filled map gives each of its keys the source value, and nothing to other keys |
| EnhanceLaws.FilledWhen | census/profile.py:2219-2240 | a conditional write of a new key extends the filled map by that key |
| EnhanceLaws.EligibleAppend | census/profile.py:2211-2218 | eligibility distributes over concatenation |
| EnhanceLaws.EligibleSnoc | census/profile.py:2211-2218 | the eligible levels grow by each eligible level |
| EnhanceLaws.KeepInSnoc | census/profile.py:2231-2240 | kept levels grow by each level the field has |
| EnhanceLaws.WithoutThisSnoc | census/profile.py:2227-2228 | comparatives grow by each level other than `this` |
| EnhanceLaws.VisitedStops | census/profile.py:2242-2243 | once three levels are kept, no later level is visited |
| EnhanceLaws.SkipAgrees | census/profile.py:2214-2215 | the `continue` test on the containers built so far agrees with the test on the raw values |
| EnhanceLaws.CountyOnlyAt | census/profile.py:2211 | `county` is the fourth level and no other |
| EnhanceLaws.VisitValuesPart | census/profile.py:2218-2228 | one visited level adds its value, index and comparative when it has a value |
| EnhanceLaws.VisitErrorPart | census/profile.py:2231-2233 | one visited level adds its error and error ratio when it has both a value and an error |
| EnhanceLaws.VisitNumeratorsPart | census/profile.py:2236-2237 | one visited level adds its numerator when it has one |
| EnhanceLaws.VisitNumeratorErrorsPart | census/profile.py:2239-2240 | one visited level adds its numerator error when it has both |
| EnhanceLaws.KeepInWhen | census/profile.py:2231-2240 | a conditional visit extends the kept list by that level |
| EnhanceLaws.WithoutThisWhen | census/profile.py:2227-2228 | a conditional visit extends the comparatives by that level |
| EnhanceLaws.VisitExpected | census/profile.py:2211-2243 | one visited level extends the expected containers by that level wherever it qualifies |
| EnhanceLaws.KeptWhenFull | census/profile.py:2242-2243 | the level that fills the third place completes the kept levels |
| EnhanceLaws.VisitedWhenFull | census/profile.py:2242-2243 | once three levels are kept, the visited levels are complete |
| EnhanceLaws.SelectFromExpected | census/profile.py:2211-2243 | from any level on, the walk completes the expected containers |
| EnhanceLaws.SkipThenSelect | census/profile.py:2214-2215 | a county passed over changes nothing, and the walk goes on |
| EnhanceLaws.VisitThenSelect | census/profile.py:2216-2243 | a level not passed over is visited; the walk then stops or goes on |
| EnhanceLaws.StopExpected | census/profile.py:2242-2243 | the `break` leaves the containers of every kept and visited level |
| EnhanceLaws.SelectExpected | census/profile.py:2200-2243 | the loop builds exactly the containers of the independent description: the first three eligible levels, plus the numerators of every visited level |
| EnhanceLaws.SelectValues | census/profile.py:2218-2224 | `values` and `index` hold exactly the kept levels, each with its value, and the index is `get_ratio` of the subject's value or 0 when that is falsy |
| EnhanceLaws.SelectErrors | census/profile.py:2231-2232 | `error` holds exactly the kept levels that have an error, with that error |
| EnhanceLaws.SelectErrorRatios | census/profile.py:2231-2233 | `error_ratio` holds the same levels, each with the error's ratio to the value, to three places |
| EnhanceLaws.SelectNumerators | census/profile.py:2236-2237 | `numerators` holds every visited level that has a numerator, kept or not |
| EnhanceLaws.SelectNumeratorErrors | census/profile.py:2239-2240 | `numerator_errors` holds every visited level with both a numerator and a numerator error |
| EnhanceLaws.SelectComparativeLevels | census/profile.py:2226-2228 | the comparatives are the kept levels other than `this`, in order |
| EnhanceLaws.KeptAtMostThree | census/profile.py:2200-2243 | at most three levels are kept, so there are at most two comparatives |
| EnhanceLaws.RankOfLevels | census/profile.py:2211 | each level's rank is its position in the priority order |
| EnhanceLaws.EligibleOrdered | census/profile.py:2211-2218 | the eligible levels appear in priority order |
| EnhanceLaws.KeptOrdered | census/profile.py:2211-2243 | the kept levels appear in priority order |
| EnhanceLaws.NeverCountyAndCbsa | census/profile.py:2213-2215 | a county is never kept together with a CBSA |
| EnhanceLaws.RewriteFields | census/profile.py:2246-2247 | the six fields take the selected containers; every other key, `name` and `metadata` among them, keeps its value |
| EnhanceLaws.SetAtReaches | census/profile.py:2247 | replacing the node at a path that leads somewhere puts the new node there |
| EnhanceLaws.SetAtElsewhere | census/profile.py:2247 | replacing the node at a path leaves every node on a path that parts from it unchanged |
| EnhanceLaws.SetAtBelow | census/profile.py:2247 | below the replaced node, the document is the new node |
| EnhanceLaws.SetAtAbove | census/profile.py:2247 | each dictionary on the way to the replaced node keeps its keys, in order |
| EnhanceLaws.EnhanceOneComparatives | census/profile.py:2249 | after one item is enhanced, the geography's `comparatives` lists that item's comparative levels |
| EnhanceLaws.EnhanceOneDocument | census/profile.py:2192-2249 | for an item outside `geography`: its node becomes its rewrite, the top-level keys stay, and every node on a path that parts from the item's path outside `geography` is unchanged |
| EnhanceLaws.EnhanceOneItemFields | census/profile.py:2246-2247 | for an item outside `geography`: after the rewrite, the item's six fields hold the selected containers and every other key, `name` and `metadata` among them, keeps its value |
| EnhanceLaws.EnhanceOneGeography | census/profile.py:2249 | for an item outside `geography`: inside `geography` every key but `comparatives` keeps its value |
| EnhanceLaws.EnhanceAllAppend | census/profile.py:2192-2249 | enhancing the items of two path lists in turn is enhancing their concatenation |
| EnhanceLaws.EnhanceAllSnoc | census/profile.py:2192-2249 | the last item is enhanced in the document the earlier items left |
| EnhanceLaws.EnhanceAllLastComparatives | census/profile.py:2249 | after the loop, `geography.comparatives` holds the comparatives of the last item: each item overwrites the one before |

## Left out

- The HTTP client, `geo_profile`, `format_d3_data`, `_maybe_int` and the rest of the profile builder that calls these functions are not part of this model.
- The tail of `enhance_api_data` is not modelled. It sets the summary level name, the short geoid and the release year and level, and adds the extra-links flag. It looks only at the `geography` section, after the selection loop.
- `math.sqrt`, `round` and `get_ratio` are opaque functions. So `round`'s own rule is not modelled: Python 2 rounds a tie away from zero, on the binary value of its argument. Nor is IEEE 754 arithmetic: the rounding of `+ - * /` to the nearest double, and overflow. `Host.ExactSqrt()` is the stated hypothesis wherever a lemma needs the true square root.
- Integer and float operands are not distinguished. Python 2's `operator.div` on two ints truncates. In this code every `/` goes through the `float(...)` conversion or the zero branch, so the model uses real division throughout.
- `float(token)` is modelled for optional sign, digits, and an optional fraction. It is not modelled for exponents, `inf`, `nan`, surrounding whitespace (`split` removes it anyway), or underscores. The model treats those words as invalid literals.
- The iteration order of a plain Python 2 `dict` is not defined. The model takes iteration order to be entry order in two places. The tables of `data['data'][geoid]` are given as a sequence in iteration order. `d.iteritems()` in `find_dicts_with_key` visits a dictionary's entries in the order they are stored. The second place decides the order in which the items are found and enhanced, so it also decides which item's comparatives end up in `geography`.
- The key order of the `metadata` dictionary is fixed as `table_id`, `universe`, `acs_release`. Only its three key–value pairs are meaningful.
- `Items.Rounded`: for a non-`None` value, a falsy error becomes `0.0`, not the integer `0`. The model does not distinguish int from float.
- `Items.Measure`: a table without `estimate` or `error`, and a parent without `relation` or `geoid`, are outside the model's types. In the source each would raise `KeyError`.
- `build_item`'s test `if data_for_geoid:` always holds, because the dictionary has two keys. The model therefore always calls the evaluator.
- `find_dicts_with_key` returns references to the dictionaries it found. The model returns index paths from the document root, and each item is looked up again by its path when its turn comes. The two agree only while no earlier rewrite has changed what lies on a later item's path. The rewrite of one item replaces its six fields with new dictionaries, so a later path into one of those fields can end in either of two ways:
  - It no longer leads to a dictionary. The model then stops with `Err(Detached)`, while the source goes on editing the dictionary that was detached from the document.
  - It leads to a different dictionary. For example, an item's `numerators` may hold two found items, `P` under `place` and then `T` under `this`, with both levels in its `values`. The rewrite stores its containers in level priority order, so `T` now comes before `P` and the two saved paths swap targets. The model enhances `P` first and `T` last; the source enhances `T` first and `P` last. The final `geography.comparatives` then differs between them.
  `EnhanceLaws.EnhanceOneDocument` states when nothing of this kind happens: the nodes on every path that parts from the item's path outside `geography` are unchanged.
- `Enhance.RawOf`: fields `values`, `error`, `numerators` or `numerator_errors` that are not dictionaries give `Err(NotADict)`. In the source, `in` on a list or string does not raise, so it would go on with different behaviour.
- The `try`/`except` around `d['values']['this']` catches every exception. The model keeps this as `GeoValue` returning `None`.
- Aliasing between the document's dictionaries is not modelled. They form a tree of values.
