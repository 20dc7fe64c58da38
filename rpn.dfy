/**
 * The formula evaluator `value_rpn_calc`: a postfix stack machine with two
 * parallel stacks, one of estimates and one of margins of error, and a
 * single "last numerator" slot that every ratio operator overwrites.
 *
 * `Step` and `Run` specify the machine one token at a time; `ValueRpnCalc`
 * is the imperative evaluator, proved to compute `Evaluate`.
 */
module Rpn {
  import opened Wrappers
  import opened Host
  import opened Moe
  import opened Formula

  /** The flattened observations of one geography: `data['estimate']` and `data['error']`. */
  datatype Observations = Observations(estimate: map<string, Option<real>>, error: map<string, Option<real>>)

  /** What the evaluator raises. */
  datatype EvalError =
    | StackUnderflow                  // pop from an empty list
    | InvalidLiteral(token: string)   // float(token) fails
    | MissingVariable(name: string)   // data['estimate'][token] or data['error'][token] has no such key
    | NullMargin                      // arithmetic on a margin of error that is None

  /** One entry of each stack: an estimate and its margin of error. */
  datatype Pair = Pair(value: Option<real>, moe: Option<real>)

  /** The side channel: the numerator of the last ratio, and its margin rounded to one place. */
  datatype Numerator = Numerator(numerator: Option<real>, numeratorMoe: Option<real>)

  /** The evaluator's state: the two stacks (top at the end) and the side channel. */
  datatype Machine = Machine(values: seq<Option<real>>, errors: seq<Option<real>>, slot: Numerator)

  /** `(value, error, numerator, numerator_moe)`. */
  datatype Outcome = Outcome(value: Option<real>, error: Option<real>, numerator: Option<real>, numeratorMoe: Option<real>)

  const NoNumerator := Numerator(None, None)
  const Initial := Machine([], [], NoNumerator)

  /** The two stacks have equal height, and the side channel is empty or full. */
  predicate Aligned(m: Machine)
  {
    |m.values| == |m.errors| && (m.slot.numerator.Some? <==> m.slot.numeratorMoe.Some?)
  }

  function Push(m: Machine, p: Pair): Machine
  {
    Machine(m.values + [p.value], m.errors + [p.moe], m.slot)
  }

  /** The number of entries a token pops. */
  function Arity(tok: Token): nat
  {
    match tok
    case Unary(_) => 1
    case Binary(_) => 2
    case _ => 0
  }

  function Scale(op: UnaryOp, x: real): real
  {
    match op
    case Percent => Percentify(x)
    case Rate => Rateify(x)
  }

  /** `%` or `%%` applied to the popped pair. */
  function ApplyUnary(op: UnaryOp, b: Pair): Result<Pair, EvalError>
  {
    match b.value
    case None => Ok(Pair(None, None))
    case Some(v) =>
      match b.moe
      case None => Err(NullMargin)
      case Some(e) => Ok(Pair(Some(Scale(op, v)), Some(Scale(op, e))))
  }

  /** `a op b`, where `b` was on top of the stacks and `a` below it; a ratio also sets the side channel. */
  function ApplyBinary(op: BinaryOp, a: Pair, b: Pair, slot: Numerator): Result<(Pair, Numerator), EvalError>
  {
    if a.value.None? || b.value.None? then Ok((Pair(None, None), slot))
    else
      var x, y := a.value.value, b.value.value;
      match op
      case Plus =>
        if a.moe.None? || b.moe.None? then Err(NullMargin)
        else Ok((Pair(Some(x + y), Some(MoeAdd(a.moe.value, b.moe.value))), slot))
      case Minus =>
        if a.moe.None? || b.moe.None? then Err(NullMargin)
        else Ok((Pair(Some(x - y), Some(MoeAdd(a.moe.value, b.moe.value))), slot))
      case Ratio =>
        if x == 0.0 || y == 0.0 then
          if a.moe.None? then Err(NullMargin)
          else Ok((Pair(Some(0.0), Some(0.0)), Numerator(Some(x), Some(Round(a.moe.value, 1)))))
        else if a.moe.None? || b.moe.None? then Err(NullMargin)
        else Ok((Pair(Some(x / y), Some(MoeProportion(x, y, a.moe.value, b.moe.value))),
                 Numerator(Some(x), Some(Round(a.moe.value, 1)))))
  }

  function Last(s: seq<Option<real>>): Option<real>
    requires |s| > 0
  {
    s[|s| - 1]
  }

  function DropLast(s: seq<Option<real>>): seq<Option<real>>
    requires |s| > 0
  {
    s[..|s| - 1]
  }

  /** The effect of one token on the machine. */
  function Step(data: Observations, m: Machine, tok: Token): Result<Machine, EvalError>
  {
    match tok
    case Unary(op) =>
      if |m.values| < 1 || |m.errors| < 1 then Err(StackUnderflow)
      else
        var c :- ApplyUnary(op, Pair(Last(m.values), Last(m.errors)));
        Ok(Push(Machine(DropLast(m.values), DropLast(m.errors), m.slot), c))
    case Binary(op) =>
      if |m.values| < 2 || |m.errors| < 2 then Err(StackUnderflow)
      else
        var b := Pair(Last(m.values), Last(m.errors));
        var rest := Machine(DropLast(m.values), DropLast(m.errors), m.slot);
        var a := Pair(Last(rest.values), Last(rest.errors));
        var below := Machine(DropLast(rest.values), DropLast(rest.errors), m.slot);
        var r :- ApplyBinary(op, a, b, m.slot);
        Ok(Push(below.(slot := r.1), r.0))
    case Variable(name) =>
      if name !in data.estimate || name !in data.error then Err(MissingVariable(name))
      else Ok(Push(m, Pair(data.estimate[name], data.error[name])))
    case Literal(text) =>
      match ParseLiteral(text)
      case None => Err(InvalidLiteral(text))
      case Some(x) => Ok(Push(m, Pair(Some(x), Some(x))))
  }

  /** The machine after a sequence of tokens, or the first error raised. */
  function Run(data: Observations, m: Machine, tokens: seq<Token>): Result<Machine, EvalError>
    decreases |tokens|
  {
    if tokens == [] then Ok(m)
    else
      match Step(data, m, tokens[0])
      case Err(e) => Err(e)
      case Ok(m') => Run(data, m', tokens[1..])
  }

  /** The final pops: the top pair and the side channel. */
  function Finish(m: Machine): Result<Outcome, EvalError>
  {
    if |m.values| == 0 || |m.errors| == 0 then Err(StackUnderflow)
    else Ok(Outcome(Last(m.values), Last(m.errors), m.slot.numerator, m.slot.numeratorMoe))
  }

  function EvaluateTokens(data: Observations, tokens: seq<Token>): Result<Outcome, EvalError>
  {
    var m :- Run(data, Initial, tokens);
    Finish(m)
  }

  /** `value_rpn_calc(data, rpn_string)` as a value. */
  function Evaluate(data: Observations, formula: string): Result<Outcome, EvalError>
  {
    EvaluateTokens(data, Tokenize(formula))
  }

  /** The evaluator, as the source writes it: two list stacks and a loop over the tokens. */
  method ValueRpnCalc(data: Observations, rpnString: string) returns (r: Result<Outcome, EvalError>)
    ensures r == Evaluate(data, rpnString)
  {
    var words := Split(rpnString);
    ghost var tokens := Tokenize(rpnString);
    var stack: seq<Option<real>> := [];
    var moeStack: seq<Option<real>> := [];
    var numerator: Option<real> := None;
    var numeratorMoe: Option<real> := None;
    for i := 0 to |words|
      invariant |stack| == |moeStack|
      invariant Run(data, Initial, tokens) == Run(data, Machine(stack, moeStack, Numerator(numerator, numeratorMoe)), tokens[i..])
    {
      assert tokens[i..][0] == tokens[i] == Classify(words[i]);
      assert tokens[i..][1..] == tokens[i + 1..];
      var next := ExecuteToken(data, words[i], stack, moeStack, numerator, numeratorMoe);
      if next.Err? {
        return Err(next.error);
      }
      stack, moeStack := next.value.values, next.value.errors;
      numerator, numeratorMoe := next.value.slot.numerator, next.value.slot.numeratorMoe;
    }
    if |stack| == 0 {
      return Err(StackUnderflow);
    }
    r := Ok(Outcome(stack[|stack| - 1], moeStack[|moeStack| - 1], numerator, numeratorMoe));
  }

  /** The body of the evaluator's loop for one token: pops, computes and pushes. */
  method ExecuteToken(data: Observations, token: string, stack0: seq<Option<real>>, moeStack0: seq<Option<real>>,
                      numerator0: Option<real>, numeratorMoe0: Option<real>)
    returns (r: Result<Machine, EvalError>)
    requires |stack0| == |moeStack0|
    ensures r == Step(data, Machine(stack0, moeStack0, Numerator(numerator0, numeratorMoe0)), Classify(token))
    ensures r.Ok? ==> |r.value.values| == |r.value.errors|
  {
    var stack, moeStack, numerator, numeratorMoe := stack0, moeStack0, numerator0, numeratorMoe0;
    var c: Option<real>, cMoe: Option<real>;
    if OperatorToken(token).Some? {
      if |stack| == 0 {
        return Err(StackUnderflow);
      }
      var b, bMoe := stack[|stack| - 1], moeStack[|moeStack| - 1];
      stack, moeStack := stack[..|stack| - 1], moeStack[..|moeStack| - 1];
      if token == "%" || token == "%%" {
        if b == None {
          c, cMoe := None, None;
        } else {
          if bMoe == None {
            return Err(NullMargin);
          }
          if token == "%" {
            c, cMoe := Some(Percentify(b.value)), Some(Percentify(bMoe.value));
          } else {
            c, cMoe := Some(Rateify(b.value)), Some(Rateify(bMoe.value));
          }
        }
      } else {
        if |stack| == 0 {
          return Err(StackUnderflow);
        }
        var a, aMoe := stack[|stack| - 1], moeStack[|moeStack| - 1];
        stack, moeStack := stack[..|stack| - 1], moeStack[..|moeStack| - 1];
        if a == None || b == None {
          c, cMoe := None, None;
        } else if token == "/" {
          if a.value == 0.0 || b.value == 0.0 {
            c, cMoe := Some(0.0), Some(0.0);
          } else {
            if aMoe == None || bMoe == None {
              return Err(NullMargin);
            }
            c := Some(a.value / b.value);
            cMoe := Some(MoeProportion(a.value, b.value, aMoe.value, bMoe.value));
          }
          if aMoe == None {
            return Err(NullMargin);
          }
          numerator, numeratorMoe := a, Some(Round(aMoe.value, 1));
        } else {
          if aMoe == None || bMoe == None {
            return Err(NullMargin);
          }
          c := Some(if token == "+" then a.value + b.value else a.value - b.value);
          cMoe := Some(MoeAdd(aMoe.value, bMoe.value));
        }
      }
    } else if StartsWith(token, "B") || StartsWith(token, "D3-") {
      if token !in data.estimate || token !in data.error {
        return Err(MissingVariable(token));
      }
      c, cMoe := data.estimate[token], data.error[token];
    } else {
      var x := ParseLiteral(token);
      if x == None {
        return Err(InvalidLiteral(token));
      }
      c, cMoe := x, x;
    }
    r := Ok(Machine(stack + [c], moeStack + [cMoe], Numerator(numerator, numeratorMoe)));
  }
}
