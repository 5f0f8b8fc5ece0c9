/** The interpreter object au.js exports: `parse(input, variables)` with the
    registries `operations`, `operatorKeys` and `parsers`, and the two
    registration functions `operator` and `parser`. */
module Au {
  import opened Core
  import opened Chars
  import opened Numbers
  import opened Operations
  import opened Evaluator
  import opened Lexer
  import opened Substitution

  /** What `parse` returns. `input` is None when it is not a string (or is
      otherwise falsy); such an input, like the empty string, is worth 0.
      Otherwise variables are substituted, the text is tokenized and the
      resulting unit is evaluated; the first stage to fail aborts. */
  function Evaluate(ops: Table, keys: seq<string>, input: Option<string>, vars: map<string, string>): (r: Result<real>)
    ensures input.None? || input.value == "" ==> r == Ok(0.0)
    ensures input.Some? && input.value != "" && !(Names(input.value) <= vars.Keys) ==>
              r.Err? && r.error.UndefinedVariable? && r.error.name in Names(input.value) - vars.Keys
  {
    if input.None? || input.value == "" then Ok(0.0)
    else
      SubstituteOkIff(input.value, vars);
      var text :- Substitute(input.value, vars);
      var t :- Tokenized(keys, text);
      EvalToken(ops, t)
  }

  /** The errors evaluation itself can raise once every operator is in the table. */
  predicate EvaluationError(e: Error)
  {
    e.ExpectedOperand? || e.ExpectedOperator? || e.MissingRightOperand? || e.Coercion? || e.DivisionByZero?
  }

  /** Every handler fails, if at all, the way the built-in `/` does. */
  ghost predicate FailsOnlyByDivision(ops: Table)
  {
    forall k, o1, o2 :: k in ops && ops[k].comput(o1, o2).Err? ==> ops[k].comput(o1, o2).error == DivisionByZero
  }

  lemma {:induction false} DefaultFailsOnlyByDivision(rem: (real, real) -> real, pow: (real, real) -> real)
    ensures FailsOnlyByDivision(DefaultOperations(rem, pow))
  {
    var ops := DefaultOperations(rem, pow);
    forall k, o1, o2 | k in ops && ops[k].comput(o1, o2).Err?
      ensures ops[k].comput(o1, o2).error == DivisionByZero
    {
      assert k == "/";
    }
  }

  lemma {:induction false} HandlerFailure(ops: Table, k: string, o1: real, o2: real)
    requires FailsOnlyByDivision(ops) && k in ops && ops[k].comput(o1, o2).Err?
    ensures ops[k].comput(o1, o2).error == DivisionByZero
  {
  }

  lemma {:induction false} KnownOperatorInTable(keys: seq<string>, ops: Table, t: Token)
    requires KeysOf(keys, ops) && t.Operator? && Known(keys, t)
    ensures [t.symbol] in ops
  {
  }

  lemma {:induction false} DropKeepsKnown(keys: seq<string>, ts: seq<Token>)
    requires AllKnown(keys, ts)
    ensures AllKnown(keys, Drop(ts))
  {
    if ts != [] {
      forall i | 0 <= i < |ts| - 1 ensures Known(keys, ts[1..][i]) {
        assert ts[1..][i] == ts[i + 1];
      }
    }
  }

  /** With every operator of the tokens in the table, `figure`'s "operator
      was not found" branch is never reached: evaluation fails only for the
      shape of the tokens or in a handler. */
  lemma {:induction false} ComputErrors(ops: Table, keys: seq<string>, ts: seq<Token>)
    requires KeysOf(keys, ops) && FailsOnlyByDivision(ops) && AllKnown(keys, ts)
    ensures Comput(ops, ts).Err? ==> EvaluationError(Comput(ops, ts).error)
    decreases Size(ts), 2
  {
    OperationErrors(ops, keys, ts);
    var t1 := Drop(ts);
    DropKeepsKnown(keys, ts);
    if Operation(ops, ts).Ok? && t1 != [] && t1[0].Operator? {
      var t2 := Drop(t1);
      DropKeepsKnown(keys, t1);
      OperationErrors(ops, keys, t2);
      var left := Operation(ops, ts).value;
      var right := Operation(ops, t2);
      if right.Ok? && left.Some? {
        assert Known(keys, t1[0]);
        KnownOperatorInTable(keys, ops, t1[0]);
        DropKeepsKnown(keys, t2);
        FigureErrors(ops, keys, left.value, Some(t1[0].symbol), right.value, Drop(t2));
      }
    }
  }

  lemma {:induction false} OperationErrors(ops: Table, keys: seq<string>, ts: seq<Token>)
    requires KeysOf(keys, ops) && FailsOnlyByDivision(ops) && AllKnown(keys, ts)
    ensures Operation(ops, ts).Err? ==> EvaluationError(Operation(ops, ts).error)
    decreases Size(ts), 0
  {
    if ts != [] && ts[0].Group? {
      assert Known(keys, ts[0]);
      assert Size(ts[0].items) < Size(ts);
      ComputErrors(ops, keys, ts[0].items);
    }
  }

  lemma {:induction false} FigureErrors(ops: Table, keys: seq<string>, left: real, op: Option<char>, right: Option<real>, ts: seq<Token>)
    requires KeysOf(keys, ops) && FailsOnlyByDivision(ops) && AllKnown(keys, ts)
    requires op.Some? ==> [op.value] in ops
    ensures Figure(ops, left, op, right, ts).Err? ==> EvaluationError(Figure(ops, left, op, right, ts).error)
    decreases Size(ts), 1
  {
    if op.Some? && right.Some? {
      var current := ops[[op.value]];
      if ts == [] {
        if current.comput(left, right.value).Err? {
          HandlerFailure(ops, [op.value], left, right.value);
        }
      } else if ts[0].Operator? && [ts[0].symbol] in ops {
        var nextOp := ts[0].symbol;
        var rest := ts[1..];
        DropKeepsKnown(keys, ts);
        DropKeepsKnown(keys, rest);
        OperationErrors(ops, keys, rest);
        var r2 := Operation(ops, rest);
        if ops[[nextOp]].priority > current.priority {
          if r2.Ok? {
            FigureErrors(ops, keys, right.value, Some(nextOp), r2.value, Drop(rest));
            var v := Figure(ops, right.value, Some(nextOp), r2.value, Drop(rest));
            if v.Ok? && current.comput(left, v.value).Err? {
              HandlerFailure(ops, [op.value], left, v.value);
            }
          }
        } else {
          var l2 := current.comput(left, right.value);
          if l2.Err? {
            HandlerFailure(ops, [op.value], left, right.value);
          } else if r2.Ok? {
            FigureErrors(ops, keys, l2.value, Some(nextOp), r2.value, Drop(rest));
          }
        }
      }
    }
  }

  /** With handlers that fail only as `/` does, a well-formed token list
      evaluates, or fails with the division-by-zero error and nothing else. */
  lemma {:induction false} WellFormedComputDivides(ops: Table, ts: seq<Token>)
    requires FailsOnlyByDivision(ops) && WellFormed(ops, ts)
    ensures Comput(ops, ts).Ok? || Comput(ops, ts) == Err(DivisionByZero)
    decreases Size(ts), 2
  {
    WellFormedOperationDivides(ops, ts);
    if |ts| > 1 && Operation(ops, ts).Ok? {
      SizeSplit(ts);
      SizeSplit(ts[1..]);
      assert ts[1..][2..] == ts[3..] && Drop(Drop(ts)) == ts[2..];
      WellFormedOperationDivides(ops, ts[2..]);
      if Operation(ops, ts[2..]).Ok? {
        var l := Operation(ops, ts).value.value;
        var r := Operation(ops, ts[2..]).value.value;
        WellFormedFigureDivides(ops, l, ts[1].symbol, r, ts[3..]);
      }
    }
  }

  lemma {:induction false} WellFormedOperationDivides(ops: Table, ts: seq<Token>)
    requires FailsOnlyByDivision(ops) && ts != [] && WellFormedOperand(ops, ts[0])
    ensures (Operation(ops, ts).Ok? && Operation(ops, ts).value.Some?) || Operation(ops, ts) == Err(DivisionByZero)
    decreases Size(ts), 0
  {
    if ts[0].Group? {
      assert Size(ts[0].items) < Size(ts);
      WellFormedComputDivides(ops, ts[0].items);
    }
  }

  lemma {:induction false} WellFormedFigureDivides(ops: Table, left: real, op: char, right: real, ts: seq<Token>)
    requires FailsOnlyByDivision(ops) && [op] in ops && WellFormedPairs(ops, ts)
    ensures Figure(ops, left, Some(op), Some(right), ts).Ok? || Figure(ops, left, Some(op), Some(right), ts) == Err(DivisionByZero)
    decreases Size(ts), 1
  {
    var current := ops[[op]];
    if current.comput(left, right).Err? {
      HandlerFailure(ops, [op], left, right);
    }
    if ts != [] {
      SizeSplit(ts);
      var rest := ts[1..];
      WellFormedOperationDivides(ops, rest);
      var nextOp := ts[0].symbol;
      assert Drop(rest) == ts[2..];
      if Operation(ops, rest).Ok? {
        var r2 := Operation(ops, rest).value.value;
        if ops[[nextOp]].priority > current.priority {
          WellFormedFigureDivides(ops, right, nextOp, r2, Drop(rest));
          var v := Figure(ops, right, Some(nextOp), Some(r2), Drop(rest));
          if v.Ok? && current.comput(left, v.value).Err? {
            HandlerFailure(ops, [op], left, v.value);
          }
        } else if current.comput(left, right).Ok? {
          var l2 := current.comput(left, right).value;
          WellFormedFigureDivides(ops, l2, nextOp, r2, Drop(rest));
        }
      }
    }
  }

  /** Over the built-in table, a well-formed expression evaluates unless it
      divides by zero. */
  lemma {:induction false} DefaultTableFailsOnlyByDivision(rem: (real, real) -> real, pow: (real, real) -> real, ts: seq<Token>)
    requires WellFormed(DefaultOperations(rem, pow), ts)
    ensures Comput(DefaultOperations(rem, pow), ts).Ok? || Comput(DefaultOperations(rem, pow), ts) == Err(DivisionByZero)
  {
    DefaultFailsOnlyByDivision(rem, pow);
    WellFormedComputDivides(DefaultOperations(rem, pow), ts);
  }

  /** Which stage an error of `parse` comes from: an undefined variable is
      one the input refers to and the bindings lack; a table whose keys are
      `operatorKeys` never yields "operator was not found". */
  lemma {:induction false} ErrorsByStage(ops: Table, keys: seq<string>, input: Option<string>, vars: map<string, string>)
    requires KeysOf(keys, ops) && FailsOnlyByDivision(ops)
    ensures var r := Evaluate(ops, keys, input, vars);
            r.Err? ==>
              && input.Some?
              && (|| (r.error.UndefinedVariable? && r.error.name in Names(input.value) && r.error.name !in vars)
                  || ScanningError(r.error)
                  || EvaluationError(r.error))
    ensures Evaluate(ops, keys, input, vars).Err? ==> !Evaluate(ops, keys, input, vars).error.UnknownOperator?
  {
    if input.Some? && input.value != "" {
      var text := Substitute(input.value, vars);
      if text.Ok? {
        var t := Tokenized(keys, text.value);
        if t.Ok? {
          match t.value
          case Group(items) =>
            assert Known(keys, t.value);
            ComputErrors(ops, keys, items);
          case _ =>
        }
      }
    }
  }

  /** Registering an operator whose symbol is not one character long
      changes no result of `parse`: the tokenizer only ever reads one
      character as an operator, so such an operator is never used. */
  lemma {:induction false} LongSymbolIsInert(ops: Table, keys: seq<string>, symbol: string, e: Entry,
                                             input: Option<string>, vars: map<string, string>)
    requires |symbol| != 1
    ensures Evaluate(ops[symbol := e], RefreshedKeys(keys, symbol), input, vars) == Evaluate(ops, keys, input, vars)
  {
    var keys' := RefreshedKeys(keys, symbol);
    forall c ensures IsOperatorChar(keys', c) <==> IsOperatorChar(keys, c) {
      LongSymbolNeverScanned(keys, symbol, c);
    }
    var ops' := ops[symbol := e];
    assert SameOneCharEntries(ops', ops);
    if input.Some? && input.value != "" {
      var text := Substitute(input.value, vars);
      if text.Ok? {
        TokenizedSameKeys(keys', keys, text.value);
        var t := Tokenized(keys, text.value);
        if t.Ok? && t.value.Group? {
          ComputSameEntries(ops', ops, t.value.items);
        }
      }
    }
  }

  /** Registering a one-character operator makes its character an operator:
      wherever the character used to be illegal, it is now read as an
      operator token. */
  lemma {:induction false} ShortSymbolIsScanned(keys: seq<string>, input: string, index: nat)
    requires index < |input| && !IsSpace(input[index]) && !IsNumberChar(input[index])
    ensures ScanNext(RefreshedKeys(keys, [input[index]]), input, index, "") ==
              Ok(Step(Some(Operator(input[index])), index + 1))
  {
    ShortSymbolScanned(keys, input[index]);
    ScanNextDispatch(RefreshedKeys(keys, [input[index]]), input, index);
  }

  /** The decimal text of a natural number is tokenized as that number. */
  lemma {:induction false} TokenizedNumeral(keys: seq<string>, n: nat)
    ensures Tokenized(keys, NatToString(n)) == Ok(Operand(n as real))
  {
    var s := NatToString(n);
    assert NumberEnd(s, 0) == |s|;
    ClassesAreDisjoint(s[0]);
    assert IsDigit(s[0]);
    ScanNextDispatch(keys, s, 0);
    assert s[0..|s|] == s;
    NatRoundTrip(n);
    assert ScanNext(keys, s, 0, "") == Ok(Step(Some(Operand(n as real)), |s|));
    assert ScanAll(keys, s, |s|, [Operand(n as real)]) == Ok([Operand(n as real)]);
    assert [] + [Operand(n as real)] == [Operand(n as real)];
    assert ScanAll(keys, s, 0, []) == Ok([Operand(n as real)]);
  }

  /** A run of digits evaluates to the number it writes, whatever the table
      and the bindings. */
  lemma {:induction false} NatLiteral(ops: Table, keys: seq<string>, n: nat, vars: map<string, string>)
    ensures Evaluate(ops, keys, Some(NatToString(n)), vars) == Ok(n as real)
  {
    var s := NatToString(n);
    assert '$' !in s by {
      forall i | 0 <= i < |s| ensures s[i] != '$' {
        assert IsDigit(s[i]);
      }
    }
    SubstituteWithoutReferences(s, vars);
    TokenizedNumeral(keys, n);
  }

  /** The interpreter object. `operatorKeys` is kept equal to the keys of
      `operations`; `parsers` only ever grows. */
  class Interpreter {
    var operations: Table
    var operatorKeys: seq<string>
    var parsers: seq<ParserEntry>

    ghost predicate Valid()
      reads this
    {
      KeysOf(operatorKeys, operations)
    }

    /** `interpreter()`: the six built-in operators and no parsers. JavaScript's
        `%` and `Math.pow` are passed in. */
    constructor (rem: (real, real) -> real, pow: (real, real) -> real)
      ensures Valid()
      ensures operations == DefaultOperations(rem, pow) && operatorKeys == DefaultKeys && parsers == []
    {
      operations := DefaultOperations(rem, pow);
      operatorKeys := DefaultKeys;
      parsers := [];
      DefaultKeysOfDefaultTable(rem, pow);
    }

    /** `api.operator`: add or replace an entry, then refresh the keys. */
    method Operator(symbol: string, priority: int, handler: (real, real) -> Result<real>)
      requires Valid()
      modifies this
      ensures Valid()
      ensures operations == old(operations)[symbol := Entry(priority, handler)]
      ensures operatorKeys == RefreshedKeys(old(operatorKeys), symbol)
      ensures parsers == old(parsers)
    {
      RegisterKeepsKeys(operatorKeys, operations, symbol, Entry(priority, handler));
      operations := operations[symbol := Entry(priority, handler)];
      operatorKeys := RefreshedKeys(operatorKeys, symbol);
    }

    /** `api.parser`: insert an entry when both arguments are functions. */
    method Parser(predict: Arg, token: Arg, pos: Option<int>)
      modifies this
      ensures parsers == AddParser(old(parsers), predict, token, pos)
      ensures operations == old(operations) && operatorKeys == old(operatorKeys)
    {
      if predict.Callable? && token.Callable? {
        var k := SpliceIndex(|parsers|, pos);
        parsers := parsers[..k] + [ParserEntry(predict.f, token.f)] + parsers[k..];
      }
    }

    /** `parse(input, variables)`, running the tokenizer's cursor. */
    method Parse(input: Option<string>, variables: map<string, string>) returns (r: Result<real>)
      requires Valid()
      ensures r == Evaluate(operations, operatorKeys, input, variables)
      ensures r.Err? && FailsOnlyByDivision(operations) ==>
                && input.Some?
                && !r.error.UnknownOperator?
                && (|| (r.error.UndefinedVariable? && r.error.name in Names(input.value) && r.error.name !in variables)
                    || ScanningError(r.error)
                    || EvaluationError(r.error))
    {
      if FailsOnlyByDivision(operations) {
        ErrorsByStage(operations, operatorKeys, input, variables);
      }
      if input.None? || input.value == "" {
        return Ok(0.0);
      }
      var text := Substitute(input.value, variables);
      if text.Err? {
        return Err(text.error);
      }
      var t := Tokens(text.value, operatorKeys);
      if t.Err? {
        return Err(t.error);
      }
      r := EvalToken(operations, t.value);
    }
  }
}
