/**
 * The text of a formula: a reverse-Polish string split on whitespace into
 * tokens, each classified as an operator of the `ops` table, a variable
 * reference (a table-variable identifier starting with `B`, or with `D3-` for
 * the alternative data source), or otherwise a numeric literal.
 */
module Formula {
  import opened Wrappers

  datatype UnaryOp = Percent | Rate
  datatype BinaryOp = Plus | Minus | Ratio

  datatype Token =
    | Unary(unary: UnaryOp)
    | Binary(binary: BinaryOp)
    | Variable(name: string)
    | Literal(text: string)

  /** The keys of the operator table `ops`, and what each one is. */
  function OperatorToken(t: string): Option<Token>
  {
    if t == "+" then Some(Binary(Plus))
    else if t == "-" then Some(Binary(Minus))
    else if t == "/" then Some(Binary(Ratio))
    else if t == "%" then Some(Unary(Percent))
    else if t == "%%" then Some(Unary(Rate))
    else None
  }

  /** The characters on which `str.split()` breaks a byte string. */
  predicate IsWhitespace(c: char)
  {
    c == ' ' || c == '\t' || c == '\n' || c == '\r' || c as int == 11 || c as int == 12
  }

  predicate NoWhitespace(w: string)
  {
    forall i :: 0 <= i < |w| ==> !IsWhitespace(w[i])
  }

  predicate StartsWith(s: string, prefix: string)
  {
    |prefix| <= |s| && s[..|prefix|] == prefix
  }

  /** A token that the evaluator looks up in the observations. */
  predicate IsVariableName(t: string)
  {
    StartsWith(t, "B") || StartsWith(t, "D3-")
  }

  /** Classification in the order the evaluator tests: operator, variable, literal. */
  function Classify(t: string): Token
  {
    match OperatorToken(t)
    case Some(op) => op
    case None => if IsVariableName(t) then Variable(t) else Literal(t)
  }

  /** The text a token is written with. */
  function TokenText(tok: Token): string
  {
    match tok
    case Unary(Percent) => "%"
    case Unary(Rate) => "%%"
    case Binary(Plus) => "+"
    case Binary(Minus) => "-"
    case Binary(Ratio) => "/"
    case Variable(name) => name
    case Literal(text) => text
  }

  /** A token that can be written as one word and read back as itself. */
  predicate WellFormedToken(tok: Token)
  {
    match tok
    case Variable(name) => IsVariableName(name) && NoWhitespace(name)
    case Literal(text) => |text| > 0 && NoWhitespace(text) && OperatorToken(text).None? && !IsVariableName(text)
    case _ => true
  }

  /** Classification is a left inverse of writing, and writing is a left inverse of classification. */
  lemma ClassifyTokenText(tok: Token, t: string)
    ensures WellFormedToken(tok) ==> Classify(TokenText(tok)) == tok
    ensures TokenText(Classify(t)) == t
  {
    if tok.Variable? && IsVariableName(tok.name) {
      assert tok.name[0] == 'B' || tok.name[0] == 'D';
    }
  }

  // --- str.split() -------------------------------------------------------

  /** Drops the leading whitespace of `s`. */
  function SkipWhitespace(s: string): (r: string)
    ensures |r| <= |s| && r == s[|s| - |r|..]
    ensures r == [] || !IsWhitespace(r[0])
    ensures forall i :: 0 <= i < |s| - |r| ==> IsWhitespace(s[i])
  {
    if s != [] && IsWhitespace(s[0]) then SkipWhitespace(s[1..]) else s
  }

  /** The length of the longest whitespace-free prefix of `s`. */
  function WordLength(s: string): (n: nat)
    ensures n <= |s|
    ensures NoWhitespace(s[..n])
    ensures n < |s| ==> IsWhitespace(s[n])
  {
    if s == [] || IsWhitespace(s[0]) then 0
    else
      var n := 1 + WordLength(s[1..]);
      assert s[..n] == [s[0]] + s[1..][..n - 1];
      n
  }

  /** `str.split()` with no separator: the maximal runs of non-whitespace characters. */
  function Split(s: string): seq<string>
    decreases |s|
  {
    var t := SkipWhitespace(s);
    if t == [] then []
    else
      var n := WordLength(t);
      [t[..n]] + Split(t[n..])
  }

  /** Every word of a split is non-empty and free of whitespace. */
  lemma {:induction false} SplitWords(s: string)
    ensures forall i :: 0 <= i < |Split(s)| ==> |Split(s)[i]| > 0 && NoWhitespace(Split(s)[i])
    decreases |s|
  {
    var t := SkipWhitespace(s);
    if t != [] {
      var n := WordLength(t);
      assert n > 0 by { assert !IsWhitespace(t[0]); }
      var words, rest := Split(s), Split(t[n..]);
      assert words == [t[..n]] + rest;
      SplitWords(t[n..]);
      forall i | 0 <= i < |words|
        ensures |words[i]| > 0 && NoWhitespace(words[i])
      {
        if i > 0 {
          assert words[i] == rest[i - 1];
        }
      }
    }
  }

  /** Words written one after another, separated by one space each. */
  function Join(words: seq<string>): string
  {
    if words == [] then ""
    else if |words| == 1 then words[0]
    else words[0] + " " + Join(words[1..])
  }

  /** Splitting the joined words gives the words back. */
  lemma {:induction false} SplitJoin(words: seq<string>)
    requires forall i :: 0 <= i < |words| ==> |words[i]| > 0 && NoWhitespace(words[i])
    ensures Split(Join(words)) == words
  {
    if words == [] {
      assert Split("") == [];
    } else if |words| == 1 {
      SplitFirst(words[0], "");
      assert words[0] + "" == words[0];
      assert Split("") == [];
      assert words == [words[0]];
    } else {
      var w, more := words[0], words[1..];
      assert forall i :: 0 <= i < |more| ==> more[i] == words[i + 1];
      SplitJoin(more);
      var rest := " " + Join(more);
      assert Join(words) == w + rest;
      SplitFirst(w, rest);
      SplitSpace(Join(more));
      assert Split(Join(words)) == [w] + more;
      HeadTail(words);
    }
  }

  lemma HeadTail(xs: seq<string>)
    requires xs != []
    ensures xs == [xs[0]] + xs[1..]
  {
  }

  /** A leading space does not change the split. */
  lemma SplitSpace(s: string)
    ensures Split(" " + s) == Split(s)
  {
    assert (" " + s)[1..] == s;
    assert SkipWhitespace(" " + s) == SkipWhitespace(s);
  }

  /** A word followed by whitespace or nothing is the first word of the split. */
  lemma SplitFirst(w: string, rest: string)
    requires |w| > 0 && NoWhitespace(w)
    requires rest == [] || IsWhitespace(rest[0])
    ensures Split(w + rest) == [w] + Split(rest)
  {
    assert SkipWhitespace(w + rest) == w + rest;
    WordOfPrefix(w, rest);
    assert (w + rest)[..|w|] == w;
    assert (w + rest)[|w|..] == rest;
  }

  /** The first word of `w + rest` is `w` when `rest` starts with whitespace or is empty. */
  lemma WordOfPrefix(w: string, rest: string)
    requires |w| > 0 && NoWhitespace(w)
    requires rest == [] || IsWhitespace(rest[0])
    ensures WordLength(w + rest) == |w|
  {
    var s := w + rest;
    assert forall i :: 0 <= i < |w| ==> s[i] == w[i];
    assert rest != [] ==> s[|w|] == rest[0];
  }

  /** Split ignores leading whitespace. */
  lemma SplitSkips(s: string)
    ensures Split(s) == Split(SkipWhitespace(s))
  {
    var t := SkipWhitespace(s);
    assert SkipWhitespace(t) == t;
  }

  // --- Tokens of a formula -------------------------------------------------

  /** The formula string as the evaluator sees it: `rpn_string.split()`, each word classified. */
  function Tokenize(s: string): (tokens: seq<Token>)
    ensures |tokens| == |Split(s)|
  {
    var words := Split(s);
    seq(|words|, i requires 0 <= i < |words| => Classify(words[i]))
  }

  /** A token sequence written as a formula string. */
  function FormulaText(tokens: seq<Token>): string
  {
    Join(seq(|tokens|, i requires 0 <= i < |tokens| => TokenText(tokens[i])))
  }

  /** Writing well-formed tokens as a formula and tokenizing it gives them back. */
  lemma TokenizeFormulaText(tokens: seq<Token>)
    requires forall i :: 0 <= i < |tokens| ==> WellFormedToken(tokens[i])
    ensures Tokenize(FormulaText(tokens)) == tokens
  {
    var words := seq(|tokens|, i requires 0 <= i < |tokens| => TokenText(tokens[i]));
    forall i | 0 <= i < |words|
      ensures |words[i]| > 0 && NoWhitespace(words[i])
    {
      assert WellFormedToken(tokens[i]);
    }
    SplitJoin(words);
    forall i | 0 <= i < |tokens|
      ensures Classify(words[i]) == tokens[i]
    {
      ClassifyTokenText(tokens[i], words[i]);
    }
  }

  // --- Numeric literals: float(token) --------------------------------------

  predicate IsDigit(c: char)
  {
    '0' <= c <= '9'
  }

  predicate AllDigits(s: string)
  {
    forall i :: 0 <= i < |s| ==> IsDigit(s[i])
  }

  /** The number of leading decimal digits of `s`. */
  function DigitCount(s: string): (n: nat)
    ensures n <= |s| && AllDigits(s[..n])
    ensures n < |s| ==> !IsDigit(s[n])
  {
    if s == [] || !IsDigit(s[0]) then 0
    else
      var n := 1 + DigitCount(s[1..]);
      assert s[..n] == [s[0]] + s[1..][..n - 1];
      n
  }

  /** The value of a string of decimal digits, most significant first. */
  function DigitsValue(s: string): nat
    requires AllDigits(s)
  {
    if s == [] then 0
    else DigitsValue(s[..|s| - 1]) * 10 + (s[|s| - 1] as int - '0' as int)
  }

  function Pow10(n: nat): (r: nat)
    ensures r >= 1
  {
    if n == 0 then 1 else 10 * Pow10(n - 1)
  }

  /** `digits`, `digits.`, `digits.digits` or `.digits`. */
  function ParseUnsigned(t: string): Option<real>
  {
    var k := DigitCount(t);
    var whole := DigitsValue(t[..k]) as real;
    if k == |t| then
      if k > 0 then Some(whole) else None
    else if t[k] == '.' && AllDigits(t[k + 1..]) && (k > 0 || k + 1 < |t|) then
      var fraction := t[k + 1..];
      Some(whole + DigitsValue(fraction) as real / Pow10(|fraction|) as real)
    else None
  }

  /** `float(token)` on a decimal literal with an optional sign; `None` where it raises. */
  function ParseLiteral(t: string): Option<real>
  {
    if |t| > 0 && (t[0] == '-' || t[0] == '+') then
      match ParseUnsigned(t[1..])
      case None => None
      case Some(x) => Some(if t[0] == '-' then -x else x)
    else ParseUnsigned(t)
  }

  /** A parsed literal is never taken for an operator or a variable. */
  lemma ParsedLiteralIsLiteral(t: string)
    requires ParseLiteral(t).Some?
    ensures Classify(t) == Literal(t)
    ensures WellFormedToken(Literal(t)) <==> NoWhitespace(t)
  {
    var u := if |t| > 0 && (t[0] == '-' || t[0] == '+') then t[1..] else t;
    assert ParseUnsigned(u).Some?;
    var k := DigitCount(u);
    assert |u| > 0 && (IsDigit(u[0]) || u[0] == '.');
    assert t[0] != 'B' && t[0] != 'D';
    assert !StartsWith(t, "B") && !StartsWith(t, "D3-");
  }

  /** The decimal digits of a natural number. */
  function NatText(n: nat): (s: string)
    ensures |s| > 0 && AllDigits(s)
  {
    var d := ['0' + (n % 10) as char];
    if n < 10 then d else NatText(n / 10) + d
  }

  /** Reading back a printed natural number gives its value. */
  lemma {:induction false} DigitsValueNatText(n: nat)
    ensures DigitsValue(NatText(n)) == n
  {
    var s := NatText(n);
    if n >= 10 {
      DigitsValueNatText(n / 10);
      assert s[..|s| - 1] == NatText(n / 10);
    }
  }

  /** `float` of a printed integer, with or without a minus sign, is that integer. */
  lemma ParseLiteralNatText(n: nat)
    ensures ParseLiteral(NatText(n)) == Some(n as real)
    ensures ParseLiteral("-" + NatText(n)) == Some(-(n as real))
  {
    var s := NatText(n);
    DigitsValueNatText(n);
    assert DigitCount(s) == |s|;
    assert s[..|s|] == s;
    assert ("-" + s)[1..] == s;
  }
}
