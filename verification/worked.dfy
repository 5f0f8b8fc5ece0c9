/** Worked inputs for the interpreter's built-in table, each followed from
    the text to its value. They pin down outcomes that the precedence rules
    alone do not make obvious. Each text is a parameter fixed by the
    precondition, so that the solver follows the scanning steps given here
    instead of unfolding the scanner on a literal. */
module Worked {
  import opened Core
  import opened Chars
  import opened Numbers
  import opened Operations
  import opened Normalizer
  import opened Evaluator
  import opened Lexer
  import opened Substitution
  import opened Au

  /** `next` on a run of digits reads it whole as one operand. */
  lemma {:induction false} ScanDigits(keys: seq<string>, s: string, i: nat, j: nat)
    requires i < j <= |s| && AllDigits(s[i..j])
    requires j == |s| || !IsNumberChar(s[j])
    ensures ScanNext(keys, s, i, "") == Ok(Step(Some(Operand(DigitsValue(s[i..j]) as real)), j))
  {
    assert IsDigit(s[i..j][0]);
    ClassesAreDisjoint(s[i]);
    ScanNextDispatch(keys, s, i);
    forall k | i <= k < j ensures IsNumberChar(s[k]) {
      assert s[i..j][k - i] == s[k];
    }
    assert NumberEnd(s, i) == j;
    ParseFloatOfDigits(s[i..j]);
  }

  /** `next` on one of the built-in operator characters. */
  lemma {:induction false} ScanOperator(s: string, i: nat)
    requires i < |s| && s[i] in "+-*/%^"
    ensures ScanNext(DefaultKeys, s, i, "") == Ok(Step(Some(Operator(s[i])), i + 1))
  {
    assert !IsSpace(s[i]) && !IsNumberChar(s[i]);
    assert IsOperatorChar(DefaultKeys, s[i]);
    ScanNextDispatch(DefaultKeys, s, i);
  }

  /** One turn of the loop of `tokens`. */
  lemma {:induction false} ScanAllStep(keys: seq<string>, s: string, i: nat, acc: seq<Token>, t: Token, j: nat, acc': seq<Token>)
    requires i <= |s| && ScanNext(keys, s, i, "") == Ok(Step(Some(t), j))
    requires acc' == acc + [t]
    ensures j <= |s| && ScanAll(keys, s, i, acc) == ScanAll(keys, s, j, acc')
  {
  }

  /** The loop of `tokens` at the end of the text. */
  lemma {:induction false} ScanAllEnd(keys: seq<string>, s: string, acc: seq<Token>)
    ensures ScanAll(keys, s, |s|, acc) == Ok(acc)
  {
  }

  /** A text whose substitution and scan are known evaluates the normalised tokens. */
  lemma {:induction false} EvaluateScanned(ops: Table, s: string, vars: map<string, string>, text: string, ts: seq<Token>)
    requires s != "" && Substitute(s, vars) == Ok(text)
    requires ScanAll(DefaultKeys, text, 0, []) == Ok(ts)
    ensures Evaluate(ops, DefaultKeys, Some(s), vars) ==
              (var t :- CleanUp(ts); EvalToken(ops, t))
  {
  }

  lemma {:induction false} MixedPrecedenceTokens(s: string)
    requires s == "10-2*3+4"
    ensures ScanAll(DefaultKeys, s, 0, []) ==
              Ok([Operand(10.0), Operator('-'), Operand(2.0), Operator('*'), Operand(3.0), Operator('+'), Operand(4.0)])
  {
    var keys := DefaultKeys;
    assert s[0..2] == "10" && s[3..4] == "2";
    assert DigitsValue("10") == 10;
    ScanDigits(keys, s, 0, 2);
    ScanAllStep(keys, s, 0, [], Operand(10.0), 2, [Operand(10.0)]);
    ScanOperator(s, 2);
    ScanAllStep(keys, s, 2, [Operand(10.0)], Operator('-'), 3, [Operand(10.0), Operator('-')]);
    ScanDigits(keys, s, 3, 4);
    ScanAllStep(keys, s, 3, [Operand(10.0), Operator('-')], Operand(2.0), 4, [Operand(10.0), Operator('-'), Operand(2.0)]);
    MixedPrecedenceTokensRest(s);
  }

  lemma {:induction false} MixedPrecedenceTokensRest(s: string)
    requires s == "10-2*3+4"
    ensures ScanAll(DefaultKeys, s, 4, [Operand(10.0), Operator('-'), Operand(2.0)]) ==
              Ok([Operand(10.0), Operator('-'), Operand(2.0), Operator('*'), Operand(3.0), Operator('+'), Operand(4.0)])
  {
    var keys := DefaultKeys;
    assert s[5..6] == "3" && s[7..8] == "4";
    ScanOperator(s, 4);
    ScanAllStep(keys, s, 4, [Operand(10.0), Operator('-'), Operand(2.0)], Operator('*'), 5, [Operand(10.0), Operator('-'), Operand(2.0), Operator('*')]);
    ScanDigits(keys, s, 5, 6);
    ScanAllStep(keys, s, 5, [Operand(10.0), Operator('-'), Operand(2.0), Operator('*')], Operand(3.0), 6, [Operand(10.0), Operator('-'), Operand(2.0), Operator('*'), Operand(3.0)]);
    ScanOperator(s, 6);
    ScanAllStep(keys, s, 6, [Operand(10.0), Operator('-'), Operand(2.0), Operator('*'), Operand(3.0)], Operator('+'), 7, [Operand(10.0), Operator('-'), Operand(2.0), Operator('*'), Operand(3.0), Operator('+')]);
    ScanDigits(keys, s, 7, 8);
    ScanAllStep(keys, s, 7, [Operand(10.0), Operator('-'), Operand(2.0), Operator('*'), Operand(3.0), Operator('+')], Operand(4.0), 8, [Operand(10.0), Operator('-'), Operand(2.0), Operator('*'), Operand(3.0), Operator('+'), Operand(4.0)]);
    ScanAllEnd(keys, s, [Operand(10.0), Operator('-'), Operand(2.0), Operator('*'), Operand(3.0), Operator('+'), Operand(4.0)]);
  }

  /** After a tighter operator, `figure` reduces the whole rest of the line
      on the right-hand side: `10-2*3+4` is `10-(2*3+4)`, which is 0, where
      the usual reading gives 8. */
  lemma {:induction false} MixedPrecedence(s: string, rem: (real, real) -> real, pow: (real, real) -> real)
    requires s == "10-2*3+4"
    ensures Evaluate(DefaultOperations(rem, pow), DefaultKeys, Some(s), map[]) == Ok(0.0)
  {
    var ts := [Operand(10.0), Operator('-'), Operand(2.0), Operator('*'), Operand(3.0), Operator('+'), Operand(4.0)];
    MixedPrecedenceTokens(s);
    SubstituteWithoutReferences(s, map[]);
    EvaluateScanned(DefaultOperations(rem, pow), s, map[], s, ts);
    MixedPrecedenceValue(ts, rem, pow);
    assert CleanUp(ts) == Ok(Group(ts));
  }

  /** The reduction of `10-2*3+4`: `*` binds tighter than `-`, so the right
      operand of `-` is `2*3+4`, which is 10. */
  lemma {:induction false} MixedPrecedenceValue(ts: seq<Token>, rem: (real, real) -> real, pow: (real, real) -> real)
    requires ts == [Operand(10.0), Operator('-'), Operand(2.0), Operator('*'), Operand(3.0), Operator('+'), Operand(4.0)]
    ensures Comput(DefaultOperations(rem, pow), ts) == Ok(0.0)
  {
    var ops := DefaultOperations(rem, pow);
    var tail := [Operand(3.0), Operator('+'), Operand(4.0)];
    var right := [Operand(2.0), Operator('*')] + tail;
    assert Drop(right) == [Operator('*')] + tail && Drop(Drop(right)) == tail;
    assert Figure(ops, 6.0, Some('+'), Some(4.0), []) == Ok(10.0);
    assert Figure(ops, 2.0, Some('*'), Some(3.0), [Operator('+'), Operand(4.0)]) == Ok(10.0);
    assert Comput(ops, right) == Ok(10.0);
    TighterTakesTheRest(ops, 10.0, '-', 2.0, '*', tail);
    assert Drop(ts) == [Operator('-')] + right && Drop(Drop(ts)) == right && Drop(Drop(Drop(ts))) == [Operator('*')] + tail;
    assert Comput(ops, ts) == Figure(ops, 10.0, Some('-'), Some(2.0), [Operator('*')] + tail);
  }

  /** Three single-digit operands around two operators. */
  lemma {:induction false} ThreeTokens(s: string, a: nat, o1: char, b: nat, o2: char, c: nat)
    requires a < 10 && b < 10 && c < 10 && o1 in "+-*/%^" && o2 in "+-*/%^"
    requires s == [Digit(a), o1, Digit(b), o2, Digit(c)]
    ensures ScanAll(DefaultKeys, s, 0, []) ==
              Ok([Operand(a as real), Operator(o1), Operand(b as real), Operator(o2), Operand(c as real)])
  {
    var keys := DefaultKeys;
    assert s[0..1] == [Digit(a)] && s[2..3] == [Digit(b)] && s[4..5] == [Digit(c)];
    ScanDigits(keys, s, 0, 1);
    ScanAllStep(keys, s, 0, [], Operand(a as real), 1, [Operand(a as real)]);
    ScanOperator(s, 1);
    ScanAllStep(keys, s, 1, [Operand(a as real)], Operator(o1), 2, [Operand(a as real), Operator(o1)]);
    ScanDigits(keys, s, 2, 3);
    ScanAllStep(keys, s, 2, [Operand(a as real), Operator(o1)], Operand(b as real), 3,
                [Operand(a as real), Operator(o1), Operand(b as real)]);
    ScanOperator(s, 3);
    ScanAllStep(keys, s, 3, [Operand(a as real), Operator(o1), Operand(b as real)], Operator(o2), 4,
                [Operand(a as real), Operator(o1), Operand(b as real), Operator(o2)]);
    ScanDigits(keys, s, 4, 5);
    ScanAllStep(keys, s, 4, [Operand(a as real), Operator(o1), Operand(b as real), Operator(o2)], Operand(c as real), 5,
                [Operand(a as real), Operator(o1), Operand(b as real), Operator(o2), Operand(c as real)]);
    ScanAllEnd(keys, s, [Operand(a as real), Operator(o1), Operand(b as real), Operator(o2), Operand(c as real)]);
  }

  /** A tighter operator on the right is applied first: `2+3*4` is 14. */
  lemma {:induction false} TighterOnTheRight(s: string, rem: (real, real) -> real, pow: (real, real) -> real)
    requires s == "2+3*4"
    ensures Evaluate(DefaultOperations(rem, pow), DefaultKeys, Some(s), map[]) == Ok(14.0)
  {
    ThreeTokens(s, 2, '+', 3, '*', 4);
    SubstituteWithoutReferences(s, map[]);
    EvaluateScanned(DefaultOperations(rem, pow), s, map[], s,
                    [Operand(2.0), Operator('+'), Operand(3.0), Operator('*'), Operand(4.0)]);
  }

  /** Operators of equal priority are applied from the left: `2^3^2` is
      `(2^3)^2`. */
  lemma {:induction false} EqualPriorityFromTheLeft(s: string, rem: (real, real) -> real, pow: (real, real) -> real)
    requires s == "2^3^2"
    ensures Evaluate(DefaultOperations(rem, pow), DefaultKeys, Some(s), map[]) == Ok(pow(pow(2.0, 3.0), 2.0))
  {
    ThreeTokens(s, 2, '^', 3, '^', 2);
    SubstituteWithoutReferences(s, map[]);
    EvaluateScanned(DefaultOperations(rem, pow), s, map[], s,
                    [Operand(2.0), Operator('^'), Operand(3.0), Operator('^'), Operand(2.0)]);
  }

  /** `^` has the priority of `*`, so `2*3^2` is `(2*3)^2`. */
  lemma {:induction false} PowerNoTighterThanProduct(s: string, rem: (real, real) -> real, pow: (real, real) -> real)
    requires s == "2*3^2"
    ensures Evaluate(DefaultOperations(rem, pow), DefaultKeys, Some(s), map[]) == Ok(pow(6.0, 2.0))
  {
    ThreeTokens(s, 2, '*', 3, '^', 2);
    SubstituteWithoutReferences(s, map[]);
    EvaluateScanned(DefaultOperations(rem, pow), s, map[], s,
                    [Operand(2.0), Operator('*'), Operand(3.0), Operator('^'), Operand(2.0)]);
  }

  /** Two single-digit operands around one operator. */
  lemma {:induction false} TwoTokens(s: string, a: nat, o: char, b: nat)
    requires a < 10 && b < 10 && o in "+-*/%^"
    requires s == [Digit(a), o, Digit(b)]
    ensures ScanAll(DefaultKeys, s, 0, []) == Ok([Operand(a as real), Operator(o), Operand(b as real)])
  {
    var keys := DefaultKeys;
    assert s[0..1] == [Digit(a)] && s[2..3] == [Digit(b)];
    ScanDigits(keys, s, 0, 1);
    ScanAllStep(keys, s, 0, [], Operand(a as real), 1, [Operand(a as real)]);
    ScanOperator(s, 1);
    ScanAllStep(keys, s, 1, [Operand(a as real)], Operator(o), 2, [Operand(a as real), Operator(o)]);
    ScanDigits(keys, s, 2, 3);
    ScanAllStep(keys, s, 2, [Operand(a as real), Operator(o)], Operand(b as real), 3,
                [Operand(a as real), Operator(o), Operand(b as real)]);
    ScanAllEnd(keys, s, [Operand(a as real), Operator(o), Operand(b as real)]);
  }

  /** The `/` handler refuses a zero denominator, and the whole parse fails. */
  lemma {:induction false} ZeroDenominator(s: string, rem: (real, real) -> real, pow: (real, real) -> real)
    requires s == "8/0"
    ensures Evaluate(DefaultOperations(rem, pow), DefaultKeys, Some(s), map[]) == Err(DivisionByZero)
  {
    TwoTokens(s, 8, '/', 0);
    SubstituteWithoutReferences(s, map[]);
    EvaluateScanned(DefaultOperations(rem, pow), s, map[], s, [Operand(8.0), Operator('/'), Operand(0.0)]);
  }

  lemma {:induction false} LeadingMinusTokens(s: string)
    requires s == "-5+3"
    ensures ScanAll(DefaultKeys, s, 0, []) == Ok([Operator('-'), Operand(5.0), Operator('+'), Operand(3.0)])
  {
    var keys := DefaultKeys;
    ScanOperator(s, 0);
    ScanAllStep(keys, s, 0, [], Operator('-'), 1, [Operator('-')]);
    assert s[1..2] == [Digit(5)] && s[3..4] == [Digit(3)];
    ScanDigits(keys, s, 1, 2);
    ScanAllStep(keys, s, 1, [Operator('-')], Operand(5.0), 2, [Operator('-'), Operand(5.0)]);
    ScanOperator(s, 2);
    ScanAllStep(keys, s, 2, [Operator('-'), Operand(5.0)], Operator('+'), 3, [Operator('-'), Operand(5.0), Operator('+')]);
    ScanDigits(keys, s, 3, 4);
    ScanAllStep(keys, s, 3, [Operator('-'), Operand(5.0), Operator('+')], Operand(3.0), 4,
                [Operator('-'), Operand(5.0), Operator('+'), Operand(3.0)]);
    ScanAllEnd(keys, s, [Operator('-'), Operand(5.0), Operator('+'), Operand(3.0)]);
  }

  /** A leading `-` is folded into the number after it: `-5+3` is -2. */
  lemma {:induction false} LeadingMinus(s: string, rem: (real, real) -> real, pow: (real, real) -> real)
    requires s == "-5+3"
    ensures Evaluate(DefaultOperations(rem, pow), DefaultKeys, Some(s), map[]) == Ok(-2.0)
  {
    LeadingMinusTokens(s);
    SubstituteWithoutReferences(s, map[]);
    EvaluateScanned(DefaultOperations(rem, pow), s, map[], s, [Operator('-'), Operand(5.0), Operator('+'), Operand(3.0)]);
    var ts := [Operator('-'), Operand(5.0), Operator('+'), Operand(3.0)];
    assert [Operand(-5.0)] + ts[2..] == [Operand(-5.0), Operator('+'), Operand(3.0)];
    assert CleanUp(ts) == Ok(Group([Operand(-5.0), Operator('+'), Operand(3.0)]));
  }

  lemma {:induction false} BoundVariableText(s: string)
    requires s == "$x+1"
    ensures Substitute(s, map["x" := "5"]) == Ok([Digit(5), '+', Digit(1)])
  {
    var vars := map["x" := "5"];
    assert s == "$" + "x" + "+1";
    ReferenceIsLongestName("x", "+1", vars);
    SubstituteWithoutReferences("+1", vars);
    assert vars["x"] + "+1" == [Digit(5), '+', Digit(1)];
  }

  /** A reference is replaced by the text of its binding before scanning:
      `$x+1` with `x` bound to `5` is 6. */
  lemma {:induction false} BoundVariable(s: string, rem: (real, real) -> real, pow: (real, real) -> real)
    requires s == "$x+1"
    ensures Evaluate(DefaultOperations(rem, pow), DefaultKeys, Some(s), map["x" := "5"]) == Ok(6.0)
  {
    BoundVariableText(s);
    var text := Substitute(s, map["x" := "5"]).value;
    TwoTokens(text, 5, '+', 1);
    EvaluateScanned(DefaultOperations(rem, pow), s, map["x" := "5"], text, [Operand(5.0), Operator('+'), Operand(1.0)]);
  }

  /** A name without a binding aborts the parse, before any scanning. */
  lemma {:induction false} UnboundVariable(s: string, ops: Table, keys: seq<string>)
    requires s == "$y*)"
    ensures Evaluate(ops, keys, Some(s), map[]) == Err(UndefinedVariable("y"))
  {
    assert s == "$" + "y" + "*)";
    WordEndOfRun(s, 1, 2);
    assert s[1..2] == "y";
  }

  /** `next` at an opening parenthesis. */
  lemma {:induction false} ScanOpen(s: string, i: nat)
    requires i < |s| && s[i] == '('
    ensures ScanNext(DefaultKeys, s, i, "") == ScanGroup(DefaultKeys, s, i)
  {
    assert !IsOperatorChar(DefaultKeys, '(');
    ScanNextDispatch(DefaultKeys, s, i);
  }

  lemma {:induction false} GroupFirstTokens(s: string)
    requires s == "(2+3)*4"
    ensures ScanAll(DefaultKeys, s, 0, []) ==
              Ok([Group([Operand(2.0), Operator('+'), Operand(3.0)]), Operator('*'), Operand(4.0)])
  {
    var keys := DefaultKeys;
    var inner := [Operand(2.0), Operator('+'), Operand(3.0)];
    IndexOfIsFirst(s, '(', 1);
    IndexOfIsFirst(s, ')', 1);
    assert s[1] != ')' && s[2] != ')' && s[3] != ')' && s[4] == ')';
    assert IndexOf(s, ')', 1) == 4;
    assert CloseIndex(s, 0, 1) == Ok(4);
    TwoTokens(s[1..4], 2, '+', 3);
    assert Tokenized(keys, s[1..4]) == Ok(Group(inner));
    ScanOpen(s, 0);
    ScanAllStep(keys, s, 0, [], Group(inner), 5, [Group(inner)]);
    ScanOperator(s, 5);
    ScanAllStep(keys, s, 5, [Group(inner)], Operator('*'), 6, [Group(inner), Operator('*')]);
    assert s[6..7] == [Digit(4)];
    ScanDigits(keys, s, 6, 7);
    ScanAllStep(keys, s, 6, [Group(inner), Operator('*')], Operand(4.0), 7, [Group(inner), Operator('*'), Operand(4.0)]);
    ScanAllEnd(keys, s, [Group(inner), Operator('*'), Operand(4.0)]);
  }

  /** A parenthesised group is evaluated as one operand: `(2+3)*4` is 20. */
  lemma {:induction false} GroupFirst(s: string, rem: (real, real) -> real, pow: (real, real) -> real)
    requires s == "(2+3)*4"
    ensures Evaluate(DefaultOperations(rem, pow), DefaultKeys, Some(s), map[]) == Ok(20.0)
  {
    GroupFirstTokens(s);
    SubstituteWithoutReferences(s, map[]);
    EvaluateScanned(DefaultOperations(rem, pow), s, map[], s,
                    [Group([Operand(2.0), Operator('+'), Operand(3.0)]), Operator('*'), Operand(4.0)]);
  }

  /** The tokens of a text holding one group and nothing else. */
  lemma {:induction false} WholeGroup(s: string, end: nat, t: Token)
    requires |s| > 0 && s[0] == '('
    requires CloseIndex(s, 0, 1) == Ok(end) && end + 1 == |s|
    requires Tokenized(DefaultKeys, s[1..end]) == Ok(t) && !t.Operator?
    ensures Tokenized(DefaultKeys, s) == Ok(t)
  {
    ScanOpen(s, 0);
    ScanAllStep(DefaultKeys, s, 0, [], t, |s|, [t]);
    ScanAllEnd(DefaultKeys, s, [t]);
  }

  /** Two levels of parentheses around a number leave the number: `((1))` is 1. */
  lemma {:induction false} DoubleNesting(s: string, ops: Table)
    requires s == "((1))"
    ensures Evaluate(ops, DefaultKeys, Some(s), map[]) == Ok(1.0)
  {
    DoubleNestingMatches();
    assert s[1..4] == "(1)";
    var inner := s[1..4];
    IndexOfIsFirst(inner, '(', 1);
    IndexOfIsFirst(inner, ')', 1);
    assert IndexOf(inner, ')', 1) == 2;
    assert CloseIndex(inner, 0, 1) == Ok(2);
    assert inner[1..2] == NatToString(1);
    TokenizedNumeral(DefaultKeys, 1);
    WholeGroup(inner, 2, Operand(1.0));
    WholeGroup(s, 4, Operand(1.0));
    SubstituteWithoutReferences(s, map[]);
  }

  /** Three levels fail: the outer `(` is closed by the second `)`, and the
      text `((1)` between them lacks a `)` at its own position 4. */
  lemma {:induction false} TripleNesting(s: string, ops: Table)
    requires s == "(((1)))"
    ensures Evaluate(ops, DefaultKeys, Some(s), map[]) == Err(UnmatchedParenthesis(4))
  {
    TripleNestingFails();
    assert s[1..5] == "((1)";
    var inner := s[1..5];
    ScanOpen(inner, 0);
    assert Tokenized(DefaultKeys, inner) == Err(UnmatchedParenthesis(4));
    ScanOpen(s, 0);
    SubstituteWithoutReferences(s, map[]);
  }

  /** A registered `(` is read as an operator before the group rule is
      tried: `(1)` then scans as the operator `(` and the number 1, and the
      `)` after them, not being a key, is an illegal character. */
  lemma {:induction false} OpenParenAsOperator(keys: seq<string>, s: string)
    requires s == "(1)" && ")" !in keys
    ensures ScanNext(RefreshedKeys(keys, "("), s, 0, "") == Ok(Step(Some(Operator('(')), 1))
    ensures Tokenized(RefreshedKeys(keys, "("), s) == Err(IllegalCharacter(2))
  {
    var k := RefreshedKeys(keys, "(");
    assert [s[0]] == "(";
    ShortSymbolIsScanned(keys, s, 0);
    ScanAllStep(k, s, 0, [], Operator('('), 1, [Operator('(')]);
    assert s[1..2] == [Digit(1)];
    ScanDigits(k, s, 1, 2);
    ScanAllStep(k, s, 1, [Operator('(')], Operand(1.0), 2, [Operator('('), Operand(1.0)]);
    assert !IsOperatorChar(k, ')');
    StrayCloseIsIllegal(k, s, 2);
  }

  /** The decimal text of a natural number after a `-` is tokenized as the
      negated number: the leading `-` is folded into the operand. */
  lemma {:induction false} NegTokenizedNumeral(keys: seq<string>, n: nat)
    requires "-" in keys
    ensures Tokenized(keys, "-" + NatToString(n)) == Ok(Operand(-(n as real)))
  {
    var d := NatToString(n);
    var s := "-" + d;
    assert s[1..|s|] == d;
    assert !IsSpace(s[0]) && !IsNumberChar(s[0]) && IsOperatorChar(keys, s[0]);
    ScanNextDispatch(keys, s, 0);
    ScanAllStep(keys, s, 0, [], Operator('-'), 1, [Operator('-')]);
    ScanDigits(keys, s, 1, |s|);
    ScanAllStep(keys, s, 1, [Operator('-')], Operand(n as real), |s|, [Operator('-'), Operand(n as real)]);
    ScanAllEnd(keys, s, [Operator('-'), Operand(n as real)]);
    assert CleanUp([Operator('-'), Operand(n as real)]) == Ok(Operand(-1.0 * (n as real)));
  }

  /** A negative integer written in decimal evaluates to itself, whatever the
      table and the bindings, as long as `-` is an operator key. */
  lemma {:induction false} NegLiteral(ops: Table, keys: seq<string>, n: nat, vars: map<string, string>)
    requires "-" in keys
    ensures Evaluate(ops, keys, Some("-" + NatToString(n)), vars) == Ok(-(n as real))
  {
    var s := "-" + NatToString(n);
    assert '$' !in s by {
      forall i | 0 <= i < |s| ensures s[i] != '$' {
        if i > 0 {
          assert s[i] == NatToString(n)[i - 1];
          assert IsDigit(NatToString(n)[i - 1]);
        }
      }
    }
    SubstituteWithoutReferences(s, vars);
    NegTokenizedNumeral(keys, n);
  }

  /** `parseFloat("1e")` is 1: an `e` without exponent digits is ignored. */
  lemma {:induction false} ParseFloatOneE(t: string)
    requires t == "1e"
    ensures ParseFloat(t) == Some(1.0)
  {
    assert DigitsEnd(t, 1) == 1;
    assert DigitsEnd(t, 0) == 1;
    assert t[..1] == "1";
    assert DigitsValue("1") == 1;
  }

  lemma {:induction false} ExponentFormTokens(s: string)
    requires s == "1e+21"
    ensures ScanAll(DefaultKeys, s, 0, []) == Ok([Operand(1.0), Operator('+'), Operand(21.0)])
  {
    var keys := DefaultKeys;
    assert IsNumberChar(s[0]) && IsNumberChar(s[1]) && !IsNumberChar(s[2]);
    assert NumberEnd(s, 0) == 2;
    ParseFloatOneE(s[0..2]);
    ScanNextDispatch(keys, s, 0);
    ScanAllStep(keys, s, 0, [], Operand(1.0), 2, [Operand(1.0)]);
    ScanOperator(s, 2);
    ScanAllStep(keys, s, 2, [Operand(1.0)], Operator('+'), 3, [Operand(1.0), Operator('+')]);
    assert s[3..5] == "21";
    assert DigitsValue("21") == 21;
    ScanDigits(keys, s, 3, 5);
    ScanAllStep(keys, s, 3, [Operand(1.0), Operator('+')], Operand(21.0), 5, [Operand(1.0), Operator('+'), Operand(21.0)]);
    ScanAllEnd(keys, s, [Operand(1.0), Operator('+'), Operand(21.0)]);
  }

  /** JavaScript writes numbers from 10^21 on in exponent form, `1e+21` for
      10^21. The scanner reads that text as `1e`, `+` and `21`, so it
      evaluates to 1 + 21 = 22. */
  lemma {:induction false} ExponentFormMisread(s: string, rem: (real, real) -> real, pow: (real, real) -> real)
    requires s == "1e+21"
    ensures Evaluate(DefaultOperations(rem, pow), DefaultKeys, Some(s), map[]) == Ok(22.0)
  {
    ExponentFormTokens(s);
    SubstituteWithoutReferences(s, map[]);
    EvaluateScanned(DefaultOperations(rem, pow), s, map[], s, [Operand(1.0), Operator('+'), Operand(21.0)]);
  }
}
