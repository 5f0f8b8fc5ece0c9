/** The precedence-climbing evaluator of au.js (`operation`, `operator`,
    `figure`, `comput`). The token array that `figure` reads through `this`
    and consumes with `shift` is passed explicitly: each call receives the
    tokens not yet shifted. */
module Evaluator {
  import opened Core
  import opened Operations
  import opened Normalizer

  /** `operation(tkns)`: the value of the first token, or None when there is
      none; a group is evaluated on the spot. The caller drops the token. */
  function Operation(ops: Table, ts: seq<Token>): (r: Result<Option<real>>)
    ensures (r.Ok? && r.value.None?) <==> ts == []
    ensures ts != [] && ts[0].Operator? ==> r == Err(ExpectedOperand)
    decreases Size(ts), 0
  {
    if ts == [] then Ok(None)
    else
      match ts[0]
      case Operand(n) => Ok(Some(n))
      case Group(items) =>
        assert Size(items) < Size(ts);
        var v :- Comput(ops, items);
        Ok(Some(v))
      case Operator(_) => Err(ExpectedOperand)
  }

  /** `figure(left, op, right)` over the tokens `ts` still to be shifted. With
      no pending operator it returns `left`. Otherwise it shifts the next
      operator: when there is none it applies `op`; when the next one has a
      strictly greater priority, the rest of the tokens is reduced on the
      right-hand side first; otherwise `left op right` is computed and the
      reduction goes on from there. */
  function Figure(ops: Table, left: real, op: Option<char>, right: Option<real>, ts: seq<Token>): (r: Result<real>)
    decreases Size(ts), 1
  {
    if op.None? then Ok(left)
    else if right.None? then Err(MissingRightOperand)
    else if [op.value] !in ops then Err(UnknownOperator([op.value]))
    else
      var current := ops[[op.value]];
      if ts == [] then current.comput(left, right.value)
      else if !ts[0].Operator? then Err(ExpectedOperator)
      else
        var nextOp := ts[0].symbol;
        var rest := ts[1..];
        if [nextOp] !in ops then Err(Coercion)
        else if ops[[nextOp]].priority > current.priority then
          var r2 :- Operation(ops, rest);
          var v :- Figure(ops, right.value, Some(nextOp), r2, Drop(rest));
          current.comput(left, v)
        else
          var l2 :- current.comput(left, right.value);
          var r2 :- Operation(ops, rest);
          Figure(ops, l2, Some(nextOp), r2, Drop(rest))
  }

  /** `comput(tkns)` for an array: shift an operand, an operator and an operand,
      then reduce with `figure`. An empty array yields undefined in au.js. */
  function Comput(ops: Table, ts: seq<Token>): (r: Result<real>)
    decreases Size(ts), 2
  {
    var left :- Operation(ops, ts);
    var t1 := Drop(ts);
    if t1 != [] && !t1[0].Operator? then Err(ExpectedOperator)
    else
      var op := if t1 == [] then None else Some(t1[0].symbol);
      var t2 := Drop(t1);
      var right :- Operation(ops, t2);
      if left.None? then Err(Coercion)
      else Figure(ops, left.value, op, right, Drop(t2))
  }

  /** `comput(token)` for the single token the normaliser returns. */
  function EvalToken(ops: Table, t: Token): Result<real>
  {
    match t
    case Operand(n) => Ok(n)
    case Group(items) => Comput(ops, items)
    case Operator(_) => Err(ExpectedOperand)
  }

  // ---------------------------------------------------------------------
  // How `figure` reduces a tighter operator.

  /** When the next operator binds tighter, the right-hand operand becomes
      the value of everything that follows, read as one expression: the
      rest of the list is never folded back to the left of `op`. */
  lemma {:induction false} TighterTakesTheRest(ops: Table, left: real, op: char, right: real, c: char, rest: seq<Token>)
    requires [op] in ops && [c] in ops && ops[[c]].priority > ops[[op]].priority
    ensures Figure(ops, left, Some(op), Some(right), [Operator(c)] + rest) ==
              (var v :- Comput(ops, [Operand(right), Operator(c)] + rest); ops[[op]].comput(left, v))
  {
    var ts := [Operator(c)] + rest;
    assert ts[1..] == rest;
    var whole := [Operand(right), Operator(c)] + rest;
    assert Drop(whole) == ts && Drop(ts) == rest;
  }

  /** Evaluating the unit the normaliser returns is evaluating the token list
      it stands for: unwrapping a single token changes no value. */
  lemma {:induction false} EvalUnwrapped(ops: Table, t: Token, ts: seq<Token>)
    requires ts != [] && Unwrapped(t, ts)
    ensures EvalToken(ops, t) == Comput(ops, ts)
  {
    if |ts| == 1 {
      assert Drop(ts) == [];
    }
  }

  /** The normaliser keeps the value: a leading `+` does nothing and a leading
      `-` negates the number after it. */
  lemma {:induction false} CleanUpKeepsValue(ops: Table, tkns: seq<Token>)
    requires CleanUp(tkns).Ok?
    ensures !tkns[0].Operator? ==> EvalToken(ops, CleanUp(tkns).value) == Comput(ops, tkns)
    ensures tkns[0] == Operator('+') ==> EvalToken(ops, CleanUp(tkns).value) == Comput(ops, tkns[1..])
    ensures tkns[0] == Operator('-') ==>
              EvalToken(ops, CleanUp(tkns).value) == Comput(ops, [Operand(-tkns[1].number)] + tkns[2..])
  {
    var t := CleanUp(tkns).value;
    if !tkns[0].Operator? {
      EvalUnwrapped(ops, t, tkns);
    } else if tkns[0] == Operator('+') {
      EvalUnwrapped(ops, t, tkns[1..]);
    } else {
      EvalUnwrapped(ops, t, [Operand(-tkns[1].number)] + tkns[2..]);
    }
  }

  // ---------------------------------------------------------------------
  // Shape: which token lists evaluate.

  /** A token that stands where an operand belongs and evaluates. */
  predicate WellFormedOperand(ops: Table, t: Token)
    decreases SizeOf(t), 1
  {
    match t
    case Operand(_) => true
    case Group(items) => WellFormed(ops, items)
    case Operator(_) => false
  }

  function SizeOf(t: Token): nat
  {
    Size([t])
  }

  /** Operands and known operators alternate, starting and ending with an
      operand, and so on inside every group. */
  predicate WellFormed(ops: Table, ts: seq<Token>)
    decreases Size(ts), 2
  {
    ts != [] && WellFormedOperand(ops, ts[0]) && WellFormedPairs(ops, ts[1..])
  }

  /** (known operator, operand) pairs. */
  predicate WellFormedPairs(ops: Table, ts: seq<Token>)
    decreases Size(ts), 0
  {
    ts == [] ||
    (|ts| >= 2 && ts[0].Operator? && [ts[0].symbol] in ops
     && WellFormedOperand(ops, ts[1]) && WellFormedPairs(ops, ts[2..]))
  }

  /** Handlers that never throw (all built-ins but `/`). */
  ghost predicate NeverFails(ops: Table)
  {
    forall k, o1, o2 :: k in ops ==> ops[k].comput(o1, o2).Ok?
  }

  lemma {:induction false} SizeSplit(ts: seq<Token>)
    requires |ts| >= 2
    ensures SizeOf(ts[0]) + SizeOf(ts[1]) + Size(ts[2..]) == Size(ts)
    ensures Size(ts[1..]) < Size(ts)
  {
    assert ts[1..][1..] == ts[2..];
    assert [ts[0]][1..] == [] && [ts[1]][1..] == [];
  }

  /** Whatever evaluates is well formed: operands and operators alternate,
      every operator is in the table, every group is well formed. */
  lemma {:induction false} ComputOkIsWellFormed(ops: Table, ts: seq<Token>)
    requires Comput(ops, ts).Ok?
    ensures WellFormed(ops, ts)
    decreases Size(ts), 2
  {
    OperationOkIsWellFormed(ops, ts);
    var t1 := Drop(ts);
    if t1 != [] {
      var t2 := Drop(t1);
      assert t2 == ts[2..];
      OperationOkIsWellFormed(ops, t2);
      var right := Operation(ops, t2).value;
      FigureOkIsWellFormed(ops, Operation(ops, ts).value.value, t1[0].symbol, right.value, Drop(t2));
      assert ts[1..][2..] == Drop(t2);
      assert [ts[2]] + Drop(t2) == ts[2..];
    }
  }

  lemma {:induction false} OperationOkIsWellFormed(ops: Table, ts: seq<Token>)
    requires Operation(ops, ts).Ok? && ts != []
    ensures WellFormedOperand(ops, ts[0])
    decreases Size(ts), 0
  {
    if ts[0].Group? {
      assert Size(ts[0].items) < Size(ts);
      ComputOkIsWellFormed(ops, ts[0].items);
    }
  }

  lemma {:induction false} FigureOkIsWellFormed(ops: Table, left: real, op: char, right: real, ts: seq<Token>)
    requires Figure(ops, left, Some(op), Some(right), ts).Ok?
    ensures [op] in ops && WellFormedPairs(ops, ts)
    decreases Size(ts), 1
  {
    if ts != [] {
      var rest := ts[1..];
      var current := ops[[op]];
      var r2 := Operation(ops, rest);
      assert r2.Ok?;
      assert r2.value.Some?;
      OperationOkIsWellFormed(ops, rest);
      var nextOp := ts[0].symbol;
      if ops[[nextOp]].priority > current.priority {
        FigureOkIsWellFormed(ops, right, nextOp, r2.value.value, Drop(rest));
      } else {
        var l2 := current.comput(left, right).value;
        FigureOkIsWellFormed(ops, l2, nextOp, r2.value.value, Drop(rest));
      }
      assert Drop(rest) == ts[2..];
    }
  }

  /** With handlers that never throw, whatever is well formed evaluates. */
  lemma {:induction false} WellFormedComputOk(ops: Table, ts: seq<Token>)
    requires NeverFails(ops) && WellFormed(ops, ts)
    ensures Comput(ops, ts).Ok?
    decreases Size(ts), 2
  {
    WellFormedOperationOk(ops, ts);
    if |ts| > 1 {
      SizeSplit(ts);
      SizeSplit(ts[1..]);
      assert ts[1..][2..] == ts[3..] && Drop(Drop(ts)) == ts[2..];
      WellFormedOperationOk(ops, ts[2..]);
      var l := Operation(ops, ts).value.value;
      var r := Operation(ops, ts[2..]).value.value;
      WellFormedFigureOk(ops, l, ts[1].symbol, r, ts[3..]);
    }
  }

  lemma {:induction false} WellFormedOperationOk(ops: Table, ts: seq<Token>)
    requires NeverFails(ops) && ts != [] && WellFormedOperand(ops, ts[0])
    ensures Operation(ops, ts).Ok? && Operation(ops, ts).value.Some?
    decreases Size(ts), 0
  {
    if ts[0].Group? {
      assert Size(ts[0].items) < Size(ts);
      WellFormedComputOk(ops, ts[0].items);
    }
  }

  lemma {:induction false} WellFormedFigureOk(ops: Table, left: real, op: char, right: real, ts: seq<Token>)
    requires NeverFails(ops) && [op] in ops && WellFormedPairs(ops, ts)
    ensures Figure(ops, left, Some(op), Some(right), ts).Ok?
    decreases Size(ts), 1
  {
    var current := ops[[op]];
    assert current.comput(left, right).Ok?;
    if ts != [] {
      SizeSplit(ts);
      var rest := ts[1..];
      WellFormedOperationOk(ops, rest);
      var r2 := Operation(ops, rest).value.value;
      var nextOp := ts[0].symbol;
      assert Drop(rest) == ts[2..];
      if ops[[nextOp]].priority > current.priority {
        WellFormedFigureOk(ops, right, nextOp, r2, Drop(rest));
        var v := Figure(ops, right, Some(nextOp), Some(r2), Drop(rest)).value;
        assert current.comput(left, v).Ok?;
      } else {
        var l2 := current.comput(left, right).value;
        WellFormedFigureOk(ops, l2, nextOp, r2, Drop(rest));
      }
    }
  }

  /** For handlers that never throw, a token list evaluates exactly when it is well formed. */
  lemma ComputOkIff(ops: Table, ts: seq<Token>)
    requires NeverFails(ops)
    ensures Comput(ops, ts).Ok? <==> WellFormed(ops, ts)
  {
    if Comput(ops, ts).Ok? {
      ComputOkIsWellFormed(ops, ts);
    }
    if WellFormed(ops, ts) {
      WellFormedComputOk(ops, ts);
    }
  }

  /** Two tables that agree on every one-character symbol. */
  ghost predicate SameOneCharEntries(ops1: Table, ops2: Table)
  {
    forall k :: |k| == 1 ==> (k in ops1 <==> k in ops2) && (k in ops1 ==> ops1[k] == ops2[k])
  }

  /** The evaluator looks up one-character symbols only: tables that agree
      on those evaluate every token list alike. */
  lemma {:induction false} ComputSameEntries(ops1: Table, ops2: Table, ts: seq<Token>)
    requires SameOneCharEntries(ops1, ops2)
    ensures Comput(ops1, ts) == Comput(ops2, ts)
    decreases Size(ts), 2
  {
    OperationSameEntries(ops1, ops2, ts);
    var left := Operation(ops1, ts);
    if left.Ok? && |ts| >= 2 && ts[1].Operator? {
      var t2 := ts[2..];
      assert Drop(Drop(ts)) == t2;
      OperationSameEntries(ops1, ops2, t2);
      var right := Operation(ops1, t2);
      if right.Ok? && left.value.Some? {
        assert Size(Drop(t2)) < Size(ts);
        FigureSameEntries(ops1, ops2, left.value.value, Some(ts[1].symbol), right.value, Drop(t2));
      }
    }
  }

  lemma {:induction false} OperationSameEntries(ops1: Table, ops2: Table, ts: seq<Token>)
    requires SameOneCharEntries(ops1, ops2)
    ensures Operation(ops1, ts) == Operation(ops2, ts)
    decreases Size(ts), 0
  {
    if ts != [] && ts[0].Group? {
      assert Size(ts[0].items) < Size(ts);
      ComputSameEntries(ops1, ops2, ts[0].items);
    }
  }

  lemma {:induction false} FigureSameEntries(ops1: Table, ops2: Table, left: real, op: Option<char>, right: Option<real>, ts: seq<Token>)
    requires SameOneCharEntries(ops1, ops2)
    ensures Figure(ops1, left, op, right, ts) == Figure(ops2, left, op, right, ts)
    decreases Size(ts), 1
  {
    if op.Some? && right.Some? && [op.value] in ops1 {
      assert |[op.value]| == 1;
      var current := ops1[[op.value]];
      if ts != [] && ts[0].Operator? {
        var nextOp := ts[0].symbol;
        assert |[nextOp]| == 1;
        var rest := ts[1..];
        if [nextOp] in ops1 {
          OperationSameEntries(ops1, ops2, rest);
          var r2 := Operation(ops1, rest);
          if r2.Ok? {
            if ops1[[nextOp]].priority > current.priority {
              FigureSameEntries(ops1, ops2, right.value, Some(nextOp), r2.value, Drop(rest));
            } else {
              var l2 := current.comput(left, right.value);
              if l2.Ok? {
                FigureSameEntries(ops1, ops2, l2.value, Some(nextOp), r2.value, Drop(rest));
              }
            }
          }
        }
      }
    } else if op.Some? && right.Some? {
      assert |[op.value]| == 1;
    }
  }

  /** A list that ends in an operator never evaluates: the operator has no right operand. */
  lemma {:induction false} TrailingOperatorFails(ops: Table, ts: seq<Token>, c: char)
    ensures Comput(ops, ts + [Operator(c)]).Err?
  {
    if Comput(ops, ts + [Operator(c)]).Ok? {
      ComputOkIsWellFormed(ops, ts + [Operator(c)]);
      WellFormedEndsInOperand(ops, ts + [Operator(c)]);
    }
  }

  lemma {:induction false} WellFormedEndsInOperand(ops: Table, ts: seq<Token>)
    requires WellFormed(ops, ts)
    ensures !ts[|ts| - 1].Operator?
  {
    if |ts| > 1 {
      PairsEndInOperand(ops, ts[1..]);
    }
  }

  lemma {:induction false} PairsEndInOperand(ops: Table, ts: seq<Token>)
    requires WellFormedPairs(ops, ts) && ts != []
    ensures !ts[|ts| - 1].Operator?
    decreases |ts|
  {
    if |ts| > 2 {
      PairsEndInOperand(ops, ts[2..]);
    }
  }

  // ---------------------------------------------------------------------
  // Equal and falling priorities fold to the left.

  /** (known operator, number) pairs, without groups. */
  predicate FlatPairs(ops: Table, ts: seq<Token>)
  {
    |ts| % 2 == 0 &&
    forall i :: 0 <= i < |ts| ==>
      if i % 2 == 0 then ts[i].Operator? && [ts[i].symbol] in ops else ts[i].Operand?
  }

  /** The priorities of `op` and of the operators in `ts` never rise. */
  predicate NonIncreasing(ops: Table, op: char, ts: seq<Token>)
    requires [op] in ops && FlatPairs(ops, ts)
    decreases |ts|
  {
    ts == [] ||
    (ops[[ts[0].symbol]].priority <= ops[[op]].priority
     && (FlatPairsTail(ops, ts); NonIncreasing(ops, ts[0].symbol, ts[2..])))
  }

  lemma {:induction false} FlatPairsTail(ops: Table, ts: seq<Token>)
    requires FlatPairs(ops, ts) && ts != []
    ensures |ts| >= 2 && FlatPairs(ops, ts[2..])
  {
    forall i | 0 <= i < |ts| - 2
      ensures if i % 2 == 0 then ts[2..][i].Operator? && [ts[2..][i].symbol] in ops else ts[2..][i].Operand?
    {
      assert ts[2..][i] == ts[i + 2];
    }
  }

  /** Reference reading of `v0 o1 v1 o2 v2 ...`: `(((v0 o1 v1) o2 v2) ...)`. */
  function FoldLeft(ops: Table, acc: real, ts: seq<Token>): Result<real>
    requires FlatPairs(ops, ts)
    decreases |ts|
  {
    if ts == [] then Ok(acc)
    else
      FlatPairsTail(ops, ts);
      var a :- ops[[ts[0].symbol]].comput(acc, ts[1].number);
      FoldLeft(ops, a, ts[2..])
  }

  lemma {:induction false} FigureFoldsLeft(ops: Table, left: real, op: char, right: real, ts: seq<Token>)
    requires [op] in ops && FlatPairs(ops, ts) && NonIncreasing(ops, op, ts)
    ensures Figure(ops, left, Some(op), Some(right), ts) ==
              (var a :- ops[[op]].comput(left, right); FoldLeft(ops, a, ts))
    decreases |ts|
  {
    if ts != [] {
      FlatPairsTail(ops, ts);
      assert ts[1].Operand?;
      assert Drop(ts[1..]) == ts[2..];
      var c := ops[[op]].comput(left, right);
      if c.Ok? {
        FigureFoldsLeft(ops, c.value, ts[0].symbol, ts[1].number, ts[2..]);
      }
    }
  }

  /** When no operator has a greater priority than the one before it, au.js
      evaluates strictly from left to right: `2 ^ 3 ^ 2` is `(2 ^ 3) ^ 2`. */
  lemma {:induction false} ComputFoldsLeft(ops: Table, v: real, ts: seq<Token>)
    requires ts != [] && FlatPairs(ops, ts)
    requires (FlatPairsTail(ops, ts); NonIncreasing(ops, ts[0].symbol, ts[2..]))
    ensures Comput(ops, [Operand(v)] + ts) == FoldLeft(ops, v, ts)
  {
    FlatPairsTail(ops, ts);
    var all := [Operand(v)] + ts;
    assert Drop(all) == ts;
    assert Drop(ts) == ts[1..] && ts[1..][0] == ts[1];
    assert Drop(ts[1..]) == ts[2..];
    FigureFoldsLeft(ops, v, ts[0].symbol, ts[1].number, ts[2..]);
  }
}
