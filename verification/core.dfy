/** Values shared by every stage of the evaluator: optional values, the
    failure-compatible result of each stage, the error kinds the evaluator
    throws, and the token structure the tokenizer hands to the evaluator. */
module Core {

  datatype Option<+T> = None | Some(value: T)

  /** Every failure in au.js is a thrown exception that nobody catches, so each
      stage returns either its value or the error that aborts the whole parse. */
  datatype Result<+T> = Ok(value: T) | Err(error: Error) {
    predicate IsFailure() { Err? }

    function PropagateFailure<U>(): Result<U>
      requires Err?
    {
      Err(error)
    }

    function Extract(): T
      requires Ok?
    {
      value
    }
  }

  /** The errors au.js raises, one constructor per `error(...)` call site, plus
      `Coercion` for the places where JavaScript would raise a TypeError or
      silently produce NaN/undefined (an empty token list, negating something
      that is not a number, evaluating an empty group). */
  datatype Error =
    | IllegalCharacter(pos: int)               // next: no rule for the character at pos
    | InvalidNumber(text: string, pos: int)    // numberToken: buffer is not a number
    | UnmatchedParenthesis(pos: int)           // matchClosePoint: no ')' left
    | IllegalExpression                        // cleanUp: bad leading operator
    | ExpectedOperand                          // operation: an operator where an operand belongs
    | ExpectedOperator                         // operator: an operand where an operator belongs
    | MissingRightOperand                      // figure: pending operator without right operand
    | UnknownOperator(symbol: string)          // figure: symbol absent from the table
    | DivisionByZero                           // the '/' handler
    | UndefinedVariable(name: string)          // parse: `$name` without a binding
    | Coercion                                 // a JavaScript coercion accident

  /** The errors the tokenizer and the normaliser raise. */
  predicate ScanningError(e: Error)
  {
    e.IllegalCharacter? || e.InvalidNumber? || e.UnmatchedParenthesis? || e.IllegalExpression? || e.Coercion?
  }

  /** The position an error message is prefixed with, if the call site passes one. */
  function Position(e: Error): Option<int>
  {
    match e
    case IllegalCharacter(p) => Some(p)
    case InvalidNumber(_, p) => Some(p)
    case UnmatchedParenthesis(p) => Some(p)
    case _ => None
  }

  /** A token: a number (`type: 'operation'`), a one-character operator
      (`type: 'operator'`) or a parenthesised sub-expression (`type: 'group'`). */
  datatype Token =
    | Operand(number: real)
    | Operator(symbol: char)
    | Group(items: seq<Token>)

  /** Number of token nodes, used as the termination measure of the evaluator. */
  function Size(ts: seq<Token>): (n: nat)
    ensures ts != [] ==> n > Size(ts[1..])
  {
    if ts == [] then 0
    else (match ts[0] case Group(items) => 1 + Size(items) case _ => 1) + Size(ts[1..])
  }

  /** `tkns.shift()` with the shifted element discarded. */
  function Drop(ts: seq<Token>): seq<Token>
  {
    if ts == [] then [] else ts[1..]
  }
}
