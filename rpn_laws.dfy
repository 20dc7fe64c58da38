/**
 * What the evaluator promises: stack discipline, the operand order and the
 * null rule of each operator, the zero-safe ratio, the last-numerator side
 * channel, and the results of the formulas the profile pages use.
 */
module RpnLaws {
  import opened Wrappers
  import opened Host
  import opened Moe
  import opened Formula
  import opened Rpn

  /**
   * Every token pops its arity from both stacks and pushes exactly one entry
   * onto each, leaving the deeper entries as they were; it underflows exactly
   * when the stacks are shallower than its arity.
   */
  lemma StepStackDiscipline(data: Observations, m: Machine, tok: Token)
    requires |m.values| == |m.errors|
    ensures Step(data, m, tok) == Err(StackUnderflow) <==> |m.values| < Arity(tok)
    ensures Step(data, m, tok).Ok? ==>
              var m', k := Step(data, m, tok).value, |m.values| - Arity(tok);
              && 0 <= k
              && |m'.values| == |m'.errors| == k + 1
              && m'.values[..k] == m.values[..k]
              && m'.errors[..k] == m.errors[..k]
  {
  }

  /** One step keeps the stacks of equal height and the side channel empty or full. */
  lemma StepAligned(data: Observations, m: Machine, tok: Token)
    requires Aligned(m)
    ensures Step(data, m, tok).Ok? ==> Aligned(Step(data, m, tok).value)
  {
    StepStackDiscipline(data, m, tok);
  }

  /** A whole run keeps the stacks of equal height and the side channel empty or full. */
  lemma {:induction false} RunAligned(data: Observations, m: Machine, tokens: seq<Token>)
    requires Aligned(m)
    ensures Run(data, m, tokens).Ok? ==> Aligned(Run(data, m, tokens).value)
    decreases |tokens|
  {
    if tokens != [] {
      StepAligned(data, m, tokens[0]);
      if Step(data, m, tokens[0]).Ok? {
        RunAligned(data, Step(data, m, tokens[0]).value, tokens[1..]);
      }
    }
  }

  /** The numerator and its margin are reported together or not at all. */
  lemma EvaluateNumeratorPaired(data: Observations, tokens: seq<Token>)
    ensures EvaluateTokens(data, tokens).Ok? ==>
              var o := EvaluateTokens(data, tokens).value;
              o.numerator.Some? <==> o.numeratorMoe.Some?
  {
    RunAligned(data, Initial, tokens);
  }

  /**
   * `%` and `%%` pop one pair: a null estimate gives `(None, None)`, otherwise
   * both estimate and margin are scaled by 100 or by 1000; the side channel is
   * untouched.
   */
  lemma StepScale(data: Observations, m: Machine, op: UnaryOp, v: real, e: real)
    requires |m.values| == |m.errors| > 0
    ensures var below := Machine(DropLast(m.values), DropLast(m.errors), m.slot);
            && (Last(m.values) == None ==> Step(data, m, Unary(op)) == Ok(Push(below, Pair(None, None))))
            && (Last(m.values) == Some(v) && Last(m.errors) == Some(e) ==>
                  Step(data, m, Unary(op)) == Ok(Push(below, Pair(Some(v * Factor(op)), Some(e * Factor(op))))))
            && (Last(m.values).Some? && Last(m.errors) == None ==> Step(data, m, Unary(op)) == Err(NullMargin))
  {
  }

  function Factor(op: UnaryOp): real
  {
    match op
    case Percent => 100.0
    case Rate => 1000.0
  }

  /**
   * A binary operator computes `a op b` with `b` the top of the stacks and `a`
   * the entry below; a null operand gives `(None, None)` and leaves the side
   * channel alone; `+` and `-` share the margin `moe_add`.  Two estimates with
   * a null margin raise, except that the zero branch of `/` needs only the
   * margin of `a`.
   */
  lemma StepBinary(data: Observations, m: Machine, op: BinaryOp)
    requires |m.values| == |m.errors| >= 2
    ensures var n := |m.values|;
            var a, b := Pair(m.values[n - 2], m.errors[n - 2]), Pair(m.values[n - 1], m.errors[n - 1]);
            var below := Machine(m.values[..n - 2], m.errors[..n - 2], m.slot);
            var zero := a.value == Some(0.0) || b.value == Some(0.0);
            && ((a.value == None || b.value == None) ==> Step(data, m, Binary(op)) == Ok(Push(below, Pair(None, None))))
            && (a.value.Some? && b.value.Some? && a.moe.Some? && b.moe.Some? && op != Ratio ==>
                  Step(data, m, Binary(op)) == Ok(Push(below, Pair(
                    Some(if op == Plus then a.value.value + b.value.value else a.value.value - b.value.value),
                    Some(MoeAdd(a.moe.value, b.moe.value))))))
            && (a.value.Some? && b.value.Some? && a.moe == None ==> Step(data, m, Binary(op)) == Err(NullMargin))
            && (a.value.Some? && b.value.Some? && b.moe == None && !(op == Ratio && zero) ==> Step(data, m, Binary(op)) == Err(NullMargin))
  {
    var n := |m.values|;
    assert DropLast(DropLast(m.values)) == m.values[..n - 2];
    assert DropLast(DropLast(m.errors)) == m.errors[..n - 2];
  }

  /**
   * The ratio `a / b`: `(0, 0)` when either operand is zero, otherwise the
   * quotient with the proportion margin; in both cases the side channel
   * becomes `a` with its margin rounded to one place.
   */
  lemma StepRatio(data: Observations, m: Machine, x: real, y: real, ex: real, ey: real)
    requires |m.values| == |m.errors| >= 2
    requires m.values[|m.values| - 2] == Some(x) && m.values[|m.values| - 1] == Some(y)
    requires m.errors[|m.errors| - 2] == Some(ex) && m.errors[|m.errors| - 1] == Some(ey)
    ensures var n := |m.values|;
            var below := Machine(m.values[..n - 2], m.errors[..n - 2], Numerator(Some(x), Some(Round(ex, 1))));
            && (x == 0.0 || y == 0.0 ==> Step(data, m, Binary(Ratio)) == Ok(Push(below, Pair(Some(0.0), Some(0.0)))))
            && (x != 0.0 && y != 0.0 ==>
                  Step(data, m, Binary(Ratio)) == Ok(Push(below, Pair(Some(x / y), Some(MoeProportion(x, y, ex, ey))))))
  {
    var n := |m.values|;
    assert DropLast(DropLast(m.values)) == m.values[..n - 2];
    assert DropLast(DropLast(m.errors)) == m.errors[..n - 2];
  }

  /**
   * A variable pushes its estimate and its error and raises on an absent key;
   * a literal pushes its value onto both stacks.
   */
  lemma StepOperands(data: Observations, m: Machine, name: string, text: string)
    ensures Step(data, m, Variable(name)) ==
              if name in data.estimate && name in data.error
              then Ok(Push(m, Pair(data.estimate[name], data.error[name])))
              else Err(MissingVariable(name))
    ensures Step(data, m, Literal(text)) ==
              match ParseLiteral(text)
              case Some(x) => Ok(Push(m, Pair(Some(x), Some(x))))
              case None => Err(InvalidLiteral(text))
  {
  }

  /** Running two token sequences one after the other. */
  lemma {:induction false} RunAppend(data: Observations, m: Machine, xs: seq<Token>, ys: seq<Token>)
    ensures Run(data, m, xs + ys) ==
              match Run(data, m, xs)
              case Err(e) => Err(e)
              case Ok(m') => Run(data, m', ys)
    decreases |xs|
  {
    if xs == [] {
      assert xs + ys == ys;
    } else {
      assert (xs + ys)[0] == xs[0];
      assert (xs + ys)[1..] == xs[1..] + ys;
      if Step(data, m, xs[0]).Ok? {
        RunAppend(data, Step(data, m, xs[0]).value, xs[1..], ys);
      }
    }
  }

  predicate NoRatio(tokens: seq<Token>)
  {
    forall i :: 0 <= i < |tokens| ==> tokens[i] != Binary(Ratio)
  }

  /** Only `/` writes the side channel: tokens without it leave the numerator as it was. */
  lemma {:induction false} RunWithoutRatioKeepsNumerator(data: Observations, m: Machine, tokens: seq<Token>)
    requires NoRatio(tokens)
    ensures Run(data, m, tokens).Ok? ==> Run(data, m, tokens).value.slot == m.slot
    decreases |tokens|
  {
    if tokens != [] && Step(data, m, tokens[0]).Ok? {
      assert tokens[0] != Binary(Ratio);
      RunWithoutRatioKeepsNumerator(data, Step(data, m, tokens[0]).value, tokens[1..]);
    }
  }

  /** A formula without `/` reports no numerator. */
  lemma EvaluateWithoutRatio(data: Observations, tokens: seq<Token>)
    requires NoRatio(tokens)
    ensures EvaluateTokens(data, tokens).Ok? ==>
              EvaluateTokens(data, tokens).value.numerator == None &&
              EvaluateTokens(data, tokens).value.numeratorMoe == None
  {
    RunWithoutRatioKeepsNumerator(data, Initial, tokens);
  }

  /**
   * The result is the top pair after the last token: a formula followed by one
   * more variable evaluates to that variable, whatever lies below it, and the
   * side channel is the one the formula left.
   */
  lemma DeeperEntriesIgnored(data: Observations, tokens: seq<Token>, name: string)
    requires Run(data, Initial, tokens).Ok?
    requires name in data.estimate && name in data.error
    ensures EvaluateTokens(data, tokens + [Variable(name)]) ==
              var slot := Run(data, Initial, tokens).value.slot;
              Ok(Outcome(data.estimate[name], data.error[name], slot.numerator, slot.numeratorMoe))
  {
    RunAppend(data, Initial, tokens, [Variable(name)]);
  }

  /** A formula of one variable returns that variable's estimate and error and no numerator. */
  lemma EvaluateSingleVariable(data: Observations, name: string)
    requires IsVariableName(name) && NoWhitespace(name)
    ensures Evaluate(data, name) ==
              if name in data.estimate && name in data.error
              then Ok(Outcome(data.estimate[name], data.error[name], None, None))
              else Err(MissingVariable(name))
  {
    TokenizeSingleVariable(name);
    assert Run(data, Initial, [Variable(name)]) == Step(data, Initial, Variable(name));
  }

  /** A variable name alone is one variable token. */
  lemma TokenizeSingleVariable(name: string)
    requires IsVariableName(name) && NoWhitespace(name)
    ensures Tokenize(name) == [Variable(name)]
  {
    assert Join([name]) == name;
    SplitJoin([name]);
    ClassifyTokenText(Variable(name), name);
  }

  /** The first stack underflow: a binary operator with fewer than two entries below it. */
  lemma EvaluateUnderflow(data: Observations, name: string, op: BinaryOp)
    requires name in data.estimate && name in data.error
    ensures EvaluateTokens(data, [Binary(op)]) == Err(StackUnderflow)
    ensures EvaluateTokens(data, [Variable(name), Binary(op)]) == Err(StackUnderflow)
    ensures EvaluateTokens(data, []) == Err(StackUnderflow)
  {
    var m1 := Push(Initial, Pair(data.estimate[name], data.error[name]));
    assert Run(data, Initial, [Variable(name), Binary(op)]) == Run(data, m1, [Binary(op)]);
  }

  /** `X Y /` with a zero estimate for `Y` gives `(0, 0)`, whatever the margins, once `X` has a margin. */
  lemma RatioByZero(data: Observations, x: string, y: string)
    requires x in data.estimate && x in data.error && y in data.estimate && y in data.error
    requires data.estimate[x].Some? && data.error[x].Some? && data.estimate[y] == Some(0.0)
    ensures EvaluateTokens(data, [Variable(x), Variable(y), Binary(Ratio)]) ==
              Ok(Outcome(Some(0.0), Some(0.0), data.estimate[x], Some(Round(data.error[x].value, 1))))
  {
    var m1 := Push(Initial, Pair(data.estimate[x], data.error[x]));
    var m2 := Push(m1, Pair(data.estimate[y], data.error[y]));
    assert Run(data, Initial, [Variable(x), Variable(y), Binary(Ratio)]) == Run(data, m2, [Binary(Ratio)]);
  }

  /** `Join` of a word followed by more words. */
  lemma JoinCons(w: string, rest: seq<string>)
    ensures Join([w] + rest) == if rest == [] then w else w + " " + Join(rest)
  {
    assert ([w] + rest)[1..] == rest;
  }

  /**
   * A proportion then scaled to a percentage, `X Y / %`: with non-zero
   * estimates it is 100 a / b with 100 times the proportion margin, and the
   * side channel holds `X` with its margin rounded to one place.
   */
  lemma PercentOfTotalTokens(data: Observations, x: string, y: string, a: real, b: real, ea: real, eb: real)
    requires x in data.estimate && x in data.error && y in data.estimate && y in data.error
    requires data.estimate[x] == Some(a) && data.error[x] == Some(ea)
    requires data.estimate[y] == Some(b) && data.error[y] == Some(eb)
    requires a != 0.0 && b != 0.0
    ensures EvaluateTokens(data, [Variable(x), Variable(y), Binary(Ratio), Unary(Percent)]) ==
              Ok(Outcome(Some(Percentify(a / b)), Some(Percentify(MoeProportion(a, b, ea, eb))), Some(a), Some(Round(ea, 1))))
  {
    var tokens := [Variable(x), Variable(y), Binary(Ratio), Unary(Percent)];
    var p := MoeProportion(a, b, ea, eb);
    var m1 := Push(Initial, Pair(Some(a), Some(ea)));
    var m2 := Push(m1, Pair(Some(b), Some(eb)));
    StepRatio(data, m2, a, b, ea, eb);
    var m3 := Push(Machine([], [], Numerator(Some(a), Some(Round(ea, 1)))), Pair(Some(a / b), Some(p)));
    StepScale(data, m3, Percent, a / b, p);
    var m4 := Push(Machine([], [], m3.slot), Pair(Some(Percentify(a / b)), Some(Percentify(p))));
    assert Run(data, m3, tokens[3..]) == Ok(m4);
    assert Run(data, m2, tokens[2..]) == Ok(m4);
    assert Run(data, m1, tokens[1..]) == Ok(m4);
  }

  /** The text `'B01001002 B01001001 / %'` reads as two variables, a ratio and a percentage. */
  lemma PercentOfTotalText()
    ensures Tokenize("B01001002 B01001001 / %") ==
              [Variable("B01001002"), Variable("B01001001"), Binary(Ratio), Unary(Percent)]
  {
    var tokens := [Variable("B01001002"), Variable("B01001001"), Binary(Ratio), Unary(Percent)];
    assert "B01001002"[..1] == "B" && "B01001001"[..1] == "B";
    assert forall i :: 0 <= i < |tokens| ==> WellFormedToken(tokens[i]);
    TokenizeFormulaText(tokens);
    PercentOfTotalWritten();
  }

  lemma PercentOfTotalWritten()
    ensures FormulaText([Variable("B01001002"), Variable("B01001001"), Binary(Ratio), Unary(Percent)]) ==
            "B01001002 B01001001 / %"
  {
    PercentOfTotalWords();
    PercentOfTotalJoined();
  }

  lemma PercentOfTotalWords()
    ensures FormulaText([Variable("B01001002"), Variable("B01001001"), Binary(Ratio), Unary(Percent)]) == Join(["B01001002", "B01001001", "/", "%"])
  {
    var tokens := [Variable("B01001002"), Variable("B01001001"), Binary(Ratio), Unary(Percent)];
    assert seq(|tokens|, i requires 0 <= i < |tokens| => TokenText(tokens[i])) == ["B01001002", "B01001001", "/", "%"];
  }

  lemma PercentOfTotalJoined()
    ensures Join(["B01001002", "B01001001", "/", "%"]) == "B01001002 B01001001 / %"
  {
    JoinCons("%", []);
    JoinCons("/", ["%"]);
    JoinCons("B01001001", ["/", "%"]);
    JoinCons("B01001002", ["B01001001", "/", "%"]);
  }

  /**
   * The percentage of a total as the profile pages write it: 100 people of 500
   * (margins 10 and 20) are 20 percent, with margin 100 * sqrt(84) / 500, and
   * the numerator 100 with its margin rounded to one place.
   */
  lemma PercentOfTotalScenario(data: Observations)
    requires data.estimate == map["B01001002" := Some(100.0), "B01001001" := Some(500.0)]
    requires data.error == map["B01001002" := Some(10.0), "B01001001" := Some(20.0)]
    ensures Evaluate(data, "B01001002 B01001001 / %") ==
              Ok(Outcome(Some(20.0), Some(100.0 * (Sqrt(84.0) / 500.0)), Some(100.0), Some(Round(10.0, 1))))
  {
    assert "B01001002"[8] != "B01001001"[8];
    TwoKeys("B01001002", "B01001001", Some(100.0), Some(500.0));
    TwoKeys("B01001002", "B01001001", Some(10.0), Some(20.0));
    PercentOfTotalText();
    PercentOfTotalTokens(data, "B01001002", "B01001001", 100.0, 500.0, 10.0, 20.0);
    PercentOfTotalArithmetic();
  }

  lemma PercentOfTotalArithmetic()
    ensures Percentify(100.0 / 500.0) == 20.0
    ensures Percentify(MoeProportion(100.0, 500.0, 10.0, 20.0)) == 100.0 * (Sqrt(84.0) / 500.0)
  {
    assert ProportionRadicand(100.0, 500.0, 10.0, 20.0) == 84.0;
  }

  /**
   * An aggregate over a difference, `T W H - /`: the denominator's margin is
   * `moe_add` of the two margins, and the side channel holds `T`.
   */
  lemma DifferenceDenominatorTokens(data: Observations, xt: string, xw: string, xh: string,
                                    t: real, w: real, h: real, et: real, ew: real, eh: real)
    requires xt in data.estimate && xt in data.error && xw in data.estimate && xw in data.error
    requires xh in data.estimate && xh in data.error
    requires data.estimate[xt] == Some(t) && data.error[xt] == Some(et)
    requires data.estimate[xw] == Some(w) && data.error[xw] == Some(ew)
    requires data.estimate[xh] == Some(h) && data.error[xh] == Some(eh)
    requires t != 0.0 && w != h
    ensures EvaluateTokens(data, [Variable(xt), Variable(xw), Variable(xh), Binary(Minus), Binary(Ratio)]) ==
              Ok(Outcome(Some(t / (w - h)), Some(MoeProportion(t, w - h, et, MoeAdd(ew, eh))), Some(t), Some(Round(et, 1))))
  {
    DifferenceDenominatorRun(data, xt, xw, xh, t, w, h, et, ew, eh);
  }

  /** The run of `T W H - /`: one pair left, and the side channel set by the ratio. */
  lemma DifferenceDenominatorRun(data: Observations, xt: string, xw: string, xh: string,
                                 t: real, w: real, h: real, et: real, ew: real, eh: real)
    requires xt in data.estimate && xt in data.error && xw in data.estimate && xw in data.error
    requires xh in data.estimate && xh in data.error
    requires data.estimate[xt] == Some(t) && data.error[xt] == Some(et)
    requires data.estimate[xw] == Some(w) && data.error[xw] == Some(ew)
    requires data.estimate[xh] == Some(h) && data.error[xh] == Some(eh)
    requires t != 0.0 && w != h
    ensures Run(data, Initial, [Variable(xt), Variable(xw), Variable(xh), Binary(Minus), Binary(Ratio)]) ==
              Ok(Machine([Some(t / (w - h))], [Some(MoeProportion(t, w - h, et, MoeAdd(ew, eh)))],
                         Numerator(Some(t), Some(Round(et, 1)))))
  {
    assert [Variable(xt), Variable(xw), Variable(xh), Binary(Minus), Binary(Ratio)] ==
           [Variable(xt), Variable(xw), Variable(xh)] + [Binary(Minus), Binary(Ratio)];
    ThreeVariables(data, xt, xw, xh, [Binary(Minus), Binary(Ratio)]);
    DifferenceThenRatio(data, t, w, h, et, ew, eh);
  }

  /** Three variables push their pairs in order, and the run goes on after them. */
  lemma ThreeVariables(data: Observations, x: string, y: string, z: string, rest: seq<Token>)
    requires x in data.estimate && x in data.error && y in data.estimate && y in data.error
    requires z in data.estimate && z in data.error
    ensures Run(data, Initial, [Variable(x), Variable(y), Variable(z)] + rest) ==
            Run(data, Machine([data.estimate[x], data.estimate[y], data.estimate[z]],
                              [data.error[x], data.error[y], data.error[z]], NoNumerator), rest)
  {
    var tokens := [Variable(x), Variable(y), Variable(z)] + rest;
    var m1 := Machine([data.estimate[x]], [data.error[x]], NoNumerator);
    var m2 := Machine([data.estimate[x], data.estimate[y]], [data.error[x], data.error[y]], NoNumerator);
    var m3 := Machine([data.estimate[x], data.estimate[y], data.estimate[z]],
                      [data.error[x], data.error[y], data.error[z]], NoNumerator);
    RunVariable(data, Initial, x, tokens);
    assert Push(Initial, Pair(data.estimate[x], data.error[x])) == m1;
    RunVariable(data, m1, y, tokens[1..]);
    assert Push(m1, Pair(data.estimate[y], data.error[y])) == m2;
    RunVariable(data, m2, z, tokens[2..]);
    assert Push(m2, Pair(data.estimate[z], data.error[z])) == m3;
    assert tokens[1..][1..] == tokens[2..] && tokens[2..][1..] == rest;
  }

  /** `- /` on the stack `t w h`: the difference of the last two divides the first. */
  lemma DifferenceThenRatio(data: Observations, t: real, w: real, h: real, et: real, ew: real, eh: real)
    requires t != 0.0 && w != h
    ensures Run(data, Machine([Some(t), Some(w), Some(h)], [Some(et), Some(ew), Some(eh)], NoNumerator),
                [Binary(Minus), Binary(Ratio)]) ==
              Ok(Machine([Some(t / (w - h))], [Some(MoeProportion(t, w - h, et, MoeAdd(ew, eh)))],
                         Numerator(Some(t), Some(Round(et, 1)))))
  {
    var m3 := Machine([Some(t), Some(w), Some(h)], [Some(et), Some(ew), Some(eh)], NoNumerator);
    var m4 := Machine([Some(t), Some(w - h)], [Some(et), Some(MoeAdd(ew, eh))], NoNumerator);
    var m5 := Machine([Some(t / (w - h))], [Some(MoeProportion(t, w - h, et, MoeAdd(ew, eh)))],
                      Numerator(Some(t), Some(Round(et, 1))));
    DifferenceStep(data, t, w, h, et, ew, eh);
    QuotientStep(data, t, w - h, et, MoeAdd(ew, eh));
    assert [Binary(Minus), Binary(Ratio)][1..] == [Binary(Ratio)];
    assert Run(data, m4, [Binary(Ratio)]) == Ok(m5);
  }

  lemma DifferenceStep(data: Observations, t: real, w: real, h: real, et: real, ew: real, eh: real)
    ensures Step(data, Machine([Some(t), Some(w), Some(h)], [Some(et), Some(ew), Some(eh)], NoNumerator), Binary(Minus)) ==
            Ok(Machine([Some(t), Some(w - h)], [Some(et), Some(MoeAdd(ew, eh))], NoNumerator))
  {
    var m3 := Machine([Some(t), Some(w), Some(h)], [Some(et), Some(ew), Some(eh)], NoNumerator);
    StepBinary(data, m3, Minus);
    var below := Machine(m3.values[..1], m3.errors[..1], NoNumerator);
    assert below == Machine([Some(t)], [Some(et)], NoNumerator);
    assert Push(below, Pair(Some(w - h), Some(MoeAdd(ew, eh)))) ==
           Machine([Some(t), Some(w - h)], [Some(et), Some(MoeAdd(ew, eh))], NoNumerator);
  }

  lemma QuotientStep(data: Observations, t: real, d: real, et: real, ed: real)
    requires t != 0.0 && d != 0.0
    ensures Step(data, Machine([Some(t), Some(d)], [Some(et), Some(ed)], NoNumerator), Binary(Ratio)) ==
            Ok(Machine([Some(t / d)], [Some(MoeProportion(t, d, et, ed))], Numerator(Some(t), Some(Round(et, 1)))))
  {
    var m4 := Machine([Some(t), Some(d)], [Some(et), Some(ed)], NoNumerator);
    StepRatio(data, m4, t, d, et, ed);
    var below := Machine(m4.values[..0], m4.errors[..0], Numerator(Some(t), Some(Round(et, 1))));
    assert below == Machine([], [], Numerator(Some(t), Some(Round(et, 1))));
    assert Push(below, Pair(Some(t / d), Some(MoeProportion(t, d, et, ed)))) ==
           Machine([Some(t / d)], [Some(MoeProportion(t, d, et, ed))], Numerator(Some(t), Some(Round(et, 1))));
  }

  /** A variable pushes its estimate and margin, and the run goes on with the rest. */
  lemma RunVariable(data: Observations, m: Machine, name: string, tokens: seq<Token>)
    requires name in data.estimate && name in data.error
    requires tokens != [] && tokens[0] == Variable(name)
    ensures Run(data, m, tokens) == Run(data, Push(m, Pair(data.estimate[name], data.error[name])), tokens[1..])
  {
  }

  /** The text `'B08013001 B08006001 B08006017 - /'` reads as three variables, a difference and a ratio. */
  lemma DifferenceDenominatorText()
    ensures Tokenize("B08013001 B08006001 B08006017 - /") ==
              [Variable("B08013001"), Variable("B08006001"), Variable("B08006017"), Binary(Minus), Binary(Ratio)]
  {
    var tokens := [Variable("B08013001"), Variable("B08006001"), Variable("B08006017"), Binary(Minus), Binary(Ratio)];
    assert "B08013001"[..1] == "B" && "B08006001"[..1] == "B" && "B08006017"[..1] == "B";
    assert forall i :: 0 <= i < |tokens| ==> WellFormedToken(tokens[i]);
    TokenizeFormulaText(tokens);
    DifferenceDenominatorWritten();
  }

  lemma DifferenceDenominatorWritten()
    ensures FormulaText([Variable("B08013001"), Variable("B08006001"), Variable("B08006017"), Binary(Minus), Binary(Ratio)]) ==
            "B08013001 B08006001 B08006017 - /"
  {
    DifferenceDenominatorWords();
    DifferenceDenominatorJoined();
  }

  lemma DifferenceDenominatorWords()
    ensures FormulaText([Variable("B08013001"), Variable("B08006001"), Variable("B08006017"), Binary(Minus), Binary(Ratio)]) == Join(["B08013001", "B08006001", "B08006017", "-", "/"])
  {
    var tokens := [Variable("B08013001"), Variable("B08006001"), Variable("B08006017"), Binary(Minus), Binary(Ratio)];
    assert seq(|tokens|, i requires 0 <= i < |tokens| => TokenText(tokens[i])) == ["B08013001", "B08006001", "B08006017", "-", "/"];
  }

  lemma DifferenceDenominatorJoined()
    ensures Join(["B08013001", "B08006001", "B08006017", "-", "/"]) == "B08013001 B08006001 B08006017 - /"
  {
    JoinCons("/", []);
    JoinCons("-", ["/"]);
    JoinCons("B08006017", ["-", "/"]);
    JoinCons("B08006001", ["B08006017", "-", "/"]);
    JoinCons("B08013001", ["B08006001", "B08006017", "-", "/"]);
  }

  /** Lookups in a map display of two distinct keys. */
  lemma TwoKeys(k1: string, k2: string, v1: Option<real>, v2: Option<real>)
    requires k1 != k2
    ensures var m := map[k1 := v1, k2 := v2];
            k1 in m && k2 in m && m[k1] == v1 && m[k2] == v2
  {
  }

  /** Lookups in a map display of three distinct keys. */
  lemma ThreeKeys(k1: string, k2: string, k3: string, v1: Option<real>, v2: Option<real>, v3: Option<real>)
    requires k1 != k2 && k1 != k3 && k2 != k3
    ensures var m := map[k1 := v1, k2 := v2, k3 := v3];
            k1 in m && k2 in m && k3 in m && m[k1] == v1 && m[k2] == v2 && m[k3] == v3
  {
  }

  /** Mean travel time to work: aggregate minutes over workers minus those working at home. */
  lemma DifferenceDenominatorScenario(data: Observations, t: real, w: real, h: real, et: real, ew: real, eh: real)
    requires data.estimate == map["B08013001" := Some(t), "B08006001" := Some(w), "B08006017" := Some(h)]
    requires data.error == map["B08013001" := Some(et), "B08006001" := Some(ew), "B08006017" := Some(eh)]
    requires t != 0.0 && w != h
    ensures Evaluate(data, "B08013001 B08006001 B08006017 - /") ==
              Ok(Outcome(Some(t / (w - h)), Some(MoeProportion(t, w - h, et, MoeAdd(ew, eh))), Some(t), Some(Round(et, 1))))
  {
    assert "B08013001"[4] != "B08006001"[4] && "B08013001"[4] != "B08006017"[4];
    assert "B08006001"[7] != "B08006017"[7];
    ThreeKeys("B08013001", "B08006001", "B08006017", Some(t), Some(w), Some(h));
    ThreeKeys("B08013001", "B08006001", "B08006017", Some(et), Some(ew), Some(eh));
    DifferenceDenominatorText();
    DifferenceDenominatorTokens(data, "B08013001", "B08006001", "B08006017", t, w, h, et, ew, eh);
  }
}
