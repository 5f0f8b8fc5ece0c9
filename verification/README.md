# au.js in Dafny

au.js evaluates arithmetic expressions given as text: `parse("2 + 3 * 4")` is
14. It runs a pipeline of stages:

1. `$name` references are replaced by the values bound in `variables`.
2. A scanner driven by a mutable cursor `{index, buffer, stack}` turns the text
   into tokens: numbers, one-character operators and parenthesised groups.
   It tokenizes each group's text recursively.
3. `cleanUp` folds a leading `+` or `-` and wraps the tokens into one unit.
4. A precedence-climbing evaluator (`operation`, `operator`, `figure`,
   `comput`) reduces that unit with the operator table `operations`.

Callers may add or replace operators with `au.operator(symbol, priority,
handler)`. They may register custom token recognisers with
`au.parser(predict, token, pos)`.

The model follows that structure, one module per stage:

| module | file | stage |
|---|---|---|
| `Core` | core.dfy | tokens, results, the error kinds au.js throws |
| `Chars`, `Numbers` | numbers.dfy | character classes of the scanner; `parseFloat` on the number buffer |
| `Messages` | messages.dfy | the `[pos->n] ` prefix of error messages |
| `Operations` | operations.dfy | the operator table, `operatorKeys`, the `parsers` list |
| `Normalizer` | normalizer.dfy | `cleanUp` |
| `Evaluator` | evaluator.dfy | `operation`, `operator`, `figure`, `comput` |
| `Lexer` | lexer.dfy | `matchClosePoint`, `numberToken`, `operatorToken`, `groupToken`, `next`, `tokens` |
| `Substitution` | substitution.dfy | the `$name` replacement done by `parse` |
| `Au` | au.dfy | `parse` and the interpreter object with `operator` and `parser` |
| `Worked` | worked.dfy | whole inputs followed from text to value |

Modelling choices:

- **Failures.** Every thrown error aborts the whole parse. Each stage
  therefore returns a `Result`. There is one `Error` constructor per
  `error(...)` call site, plus `Coercion` for a JavaScript TypeError, NaN or
  undefined.
- **The scanner.** It is stated twice:
  - as functions of the text, the index and the buffer: `ScanNext`,
    `ScanNumber`, `ScanGroup`, `CloseIndex`, `ScanAll`, `Tokenized`;
  - as the class `Cursor`, whose methods update `index`, `buffer` and
    `stack` in place the way au.js does.

  Each method is proved to follow its function. The `Tokens` method runs the
  `while (tkn = next(...))` loop over a fresh cursor.
- **Token consumption.** The evaluator consumes its token array with `shift`.
  The model passes the tokens not yet shifted explicitly instead.
- **Numbers.** Numbers are exact `real`s. `%` and `Math.pow` are parameters
  of the built-in table.

Three behaviours of the code that differ from the usual reading of an
arithmetic expression. The model keeps each of them:

- **Nested parentheses.** A depth counter would match `(((1)))` as a whole.
  The loop in `matchClosePoint` counts at most one further `(` per `)` it
  finds.
  - `((1))` evaluates to 1 (`Lexer.DoubleNestingMatches`, `Worked.DoubleNesting`).
  - `(((1)))` fails with an unmatched parenthesis at position 4 of the inner
    text `((1)` (`Lexer.TripleNestingFails`, `Worked.TripleNesting`).
- **Multi-character operators.** A symbol such as `!!` can be registered, but
  it is never scanned. The scanner only ever looks up single characters in
  `operatorKeys`. Registering a longer symbol therefore changes no result of
  `parse` (`Au.LongSymbolIsInert`).
- **A tighter operator takes everything after it.** When the next operator
  binds tighter, the recursive `figure` call consumes the whole rest of the
  list, not just the next operand. So `10-2*3+4` is `10-(2*3+4)` = 0, not 8
  (`Evaluator.TighterTakesTheRest`, `Worked.MixedPrecedence`).

Three consequences of the proofs:

- Take a table whose keys are `operatorKeys` and whose handlers fail, if at
  all, only with the division-by-zero error, as the built-in ones do. Then
  the "operator was not found" branch of `figure` is unreachable from
  `parse`.
- A `$name` error names a reference that really is in the input and unbound.
- An unbound variable fails the parse before any scanning.

## Model

| member | source | states |
|---|---|---|
| Chars.ClassesAreDisjoint | au.js:109-111 | a whitespace character is neither a number character nor a name character, and a number character is not a parenthesis: the built-in classes that `next` tests in turn do not overlap (a registered operator that is a digit, `.`, `e` or whitespace is hidden by an earlier test; a registered `(` is tested before the group rule and overrides it, see `Worked.OpenParenAsOperator`) |
| Chars.IsNumberChar | au.js:109-111 | `isNumber`: a digit, `.` or `e`; `ClassesAreDisjoint` separates it from whitespace and from parentheses, and `NumberEnd` gives the run it spans |
| Chars.IsSpace | au.js:223 | the `\s` class (ECMAScript whitespace and line terminators); `ClassesAreDisjoint` separates it from number and name characters |
| Numbers.ParseFloat | au.js:148-151 | `parseFloat` on the number buffer: never negative; `ParseFloatDefinedIff` says when it is NaN, `ParseFloatOfDigits` and `NatRoundTrip` what it reads |
| Numbers.ParseFloatDefinedIff | au.js:148-151 | the number buffer fails as NaN exactly when it does not start with a digit or with `.` followed by a digit |
| Numbers.ParseFloatOfDigits | au.js:148 | a buffer of digits alone reads as its decimal value |
| Numbers.NatRoundTrip | au.js:148 | the decimal text of a natural number reads back, through `parseFloat`, as that number |
| Messages.PositionPrefix | au.js:105-107 | the prefix is empty exactly when no position is passed or the position is -1 |
| Messages.ErrorPrefix | au.js:105-107 | the prefix `error` puts before a message, from the position the call site passes; `ErrorPrefixPresent` says which errors carry one |
| Messages.ErrorPrefixPresent | au.js:105-107 | an error carries a `[pos->n] ` prefix exactly when it is one of the three that pass a position (illegal character, invalid number, missing `)`) and that position is not -1 |
| Messages.PositionPrefixRoundTrip | au.js:106 | the text between `[pos->` and `] ` reads back as the reported position |
| Operations.Divide | au.js:33-42 | division succeeds exactly when the denominator is non-zero, and then the quotient times the denominator is the numerator; otherwise it fails with the division-by-zero error |
| Operations.DefaultOperations | au.js:19-55 | the six built-in entries with priorities 10 and 100; `DefaultKeysOfDefaultTable` proves the initial keys are its keys and `Au.DefaultFailsOnlyByDivision` that only `/` fails |
| Operations.DefaultKeysOfDefaultTable | au.js:19-55 | the initial `operatorKeys` lists each key of the initial table exactly once, and every such key is one character long |
| Operations.RefreshedKeys | au.js:66 | after `operations[symbol] = ...` the key list holds the old keys plus the symbol: an existing key keeps its place and a new one is appended |
| Operations.RegisterKeepsKeys | au.js:60-67 | `api.operator` keeps `operatorKeys` a duplicate-free list of exactly the table's keys |
| Operations.RegisterIdempotent | au.js:60-67 | registering the same operator twice leaves table and keys as registering it once |
| Operations.IsOperatorChar | au.js:230 | `operatorKeys.indexOf(char) !== -1` for a one-character string; `LongSymbolNeverScanned` and `ShortSymbolScanned` say how registration changes it |
| Operations.LongSymbolNeverScanned | au.js:230 | registering a symbol that is not one character long changes no operator-character decision of the scanner |
| Operations.ShortSymbolScanned | au.js:230 | a registered one-character symbol is an operator character |
| Operations.SpliceIndex | au.js:70 | the insertion index is the end when `pos` is not a number, `pos` itself when it lies in the list, counted from the end when negative, and always within the list |
| Operations.AddParser | au.js:68-75 | when both arguments are functions exactly one entry is inserted at the splice index and every other entry keeps its order; otherwise the list is unchanged |
| Operations.AddParserKeepsEntries | au.js:68-75 | the new list is the old one plus at most the one new entry, as multisets: registration never loses a parser |
| Normalizer.CleanUp | au.js:177-202 | succeeds exactly for a non-empty list that does not start with an operator other than a unary `+`, or `-` before a number; a lone operator or any other leading operator is an illegal expression; a single token is returned unwrapped |
| Normalizer.Normalize | au.js:177-202 | the in-place version (negation written into the second token, first token shifted off) returns what `CleanUp` specifies |
| Evaluator.Operation | au.js:253-263 | yields no value exactly for an empty list, and fails with "Except operation" on a leading operator |
| Evaluator.Figure | au.js:277-311 | `figure` over the tokens not yet shifted; `TighterTakesTheRest`, `FigureFoldsLeft`, `FigureOkIsWellFormed`, `WellFormedFigureOk` and `Au.WellFormedFigureDivides` carry its properties |
| Evaluator.Comput | au.js:313-320 | `comput` on an array; `ComputOkIff`, `ComputFoldsLeft`, `TrailingOperatorFails` and `Au.WellFormedComputDivides` carry its properties |
| Evaluator.EvalToken | au.js:317-319 | `comput` on the single token `cleanUp` returns; `EvalUnwrapped` and `CleanUpKeepsValue` relate it to the token list |
| Evaluator.TighterTakesTheRest | au.js:298-299 | when the next operator binds tighter, the right-hand operand becomes the value of the whole rest of the list read as one expression |
| Evaluator.EvalUnwrapped | au.js:313-320 | evaluating the single token `cleanUp` returns equals evaluating the token list it stands for |
| Evaluator.CleanUpKeepsValue | au.js:177-202 | normalising keeps the value: a leading `+` changes nothing and a leading `-` negates the first operand |
| Evaluator.ComputOkIsWellFormed | au.js:253-320 | whatever evaluates has operands and known operators alternating, starting and ending with an operand, in every group |
| Evaluator.OperationOkIsWellFormed | au.js:253-263 | an operand that evaluates is a number or a well-formed group |
| Evaluator.FigureOkIsWellFormed | au.js:277-311 | a successful reduction had a known pending operator and (operator, operand) pairs after it |
| Evaluator.WellFormedComputOk | au.js:253-320 | with handlers that never throw, every well-formed list evaluates |
| Evaluator.WellFormedOperationOk | au.js:253-263 | with handlers that never throw, a well-formed operand yields a value |
| Evaluator.WellFormedFigureOk | au.js:277-311 | with handlers that never throw, a known operator followed by well-formed pairs reduces |
| Evaluator.ComputOkIff | au.js:253-320 | with handlers that never throw, a token list evaluates exactly when it is well formed |
| Evaluator.TrailingOperatorFails | au.js:283-285 | a list ending in an operator never evaluates (no right operand) |
| Evaluator.WellFormedEndsInOperand | au.js:253-320 | a well-formed list ends in an operand |
| Evaluator.PairsEndInOperand | au.js:277-311 | (operator, operand) pairs end in an operand |
| Evaluator.FigureFoldsLeft | au.js:301-302 | when priorities never rise along the list, `figure` equals the left fold `(((l op r) o1 v1) o2 v2)...` |
| Evaluator.ComputFoldsLeft | au.js:313-320 | a flat expression whose priorities never rise evaluates as its left fold, so `2^3^2` is `(2^3)^2` |
| Evaluator.ComputSameEntries | au.js:253-320 | tables that agree on every one-character symbol evaluate every token list alike |
| Evaluator.OperationSameEntries | au.js:253-263 | the same, for one operand |
| Evaluator.FigureSameEntries | au.js:277-311 | the same, for one reduction |
| Lexer.IndexOf | au.js:120-121 | `indexOf` yields -1 or a position at or after the start that holds the character |
| Lexer.IndexOfIsFirst | au.js:120-121 | -1 exactly when the character does not occur from the start on; otherwise no earlier position holds it |
| Lexer.CloseIndex | au.js:114-138 | a match is a `)` after the opening position; a failure is a missing `)` reported after that position |
| Lexer.CloseIndexFailsWithoutClose | au.js:128-134 | `matchClosePoint` fails only when no `)` is left at or after the position it reports |
| Lexer.ScanNext | au.js:217-238 | a token moves the cursor forward and its operators are all in `operatorKeys`; no token means only whitespace was left; a non-space character always yields a token or an error; every error is a scanning error |
| Lexer.ScanNumber | au.js:141-163 | a number always yields one operand and moves the cursor forward |
| Lexer.ScanGroup | au.js:205-214 | a group yields one token whose operators are all known and moves the cursor forward |
| Lexer.ScanAll | au.js:241-251 | the loop keeps every token's operators in `operatorKeys` and fails only with a scanning error |
| Lexer.Tokenized | au.js:241-251 | `tokens` returns one unit whose operators are all in `operatorKeys`, or a scanning or normalising error |
| Lexer.CleanUpKeepsKnown | au.js:177-202 | normalising keeps every operator of the tokens in `operatorKeys` |
| Lexer.NumberEnd | au.js:146-148 | the end of the run of number characters: all before it are number characters, the one at it is not |
| Lexer.ScanNumberIsMaximalMunch | au.js:141-163 | a number is the whole run of number characters read at once: one operand, the cursor just after the run, or an invalid-number error at that position |
| Lexer.ScanNextDispatch | au.js:217-238 | the dispatch order of `next`: number character, then operator character, then `(`, then an illegal-character error at the cursor |
| Lexer.StrayCloseIsIllegal | au.js:237 | a `)` the scanner meets on its own is an illegal character at its position, unless `)` has been registered as an operator |
| Lexer.DoubleNestingMatches | au.js:114-138 | in `((1))` the outer `(` is matched with the last `)` |
| Lexer.TripleNestingFails | au.js:114-138 | in `(((1)))` the outer `(` is matched with the second `)`, and `((1)` then lacks a `)` at its position 4 |
| Lexer.TokenizedSameKeys | au.js:241-251 | key lists that make the same characters operators tokenize every text alike |
| Lexer.ScanAllSameKeys | au.js:241-251 | the same, for the scanning loop |
| Lexer.ScanNextSameKeys | au.js:217-238 | the same, for one call of `next` |
| Lexer.ScanNumberSameKeys | au.js:141-163 | the same, for one call of `numberToken` |
| Lexer.ScanGroupSameKeys | au.js:205-214 | the same, for one call of `groupToken` |
| Lexer.Cursor.constructor | au.js:242 | a fresh cursor is at index 0 with an empty buffer |
| Lexer.Cursor.MatchClosePoint | au.js:114-138 | the loop over `pos.index` and `pos.stack` returns what `CloseIndex` specifies and, on success, leaves `index` at the `)` with `stack` 0 |
| Lexer.Cursor.OperatorToken | au.js:166-175 | the operator token is the character at the cursor, and the cursor advances by exactly one |
| Lexer.Cursor.Next | au.js:217-238 | the token or error and the new cursor are those `ScanNext` specifies, with the buffer empty afterwards |
| Lexer.Cursor.NumberToken | au.js:141-163 | the result and cursor are those `ScanNumber` specifies, and the buffer is reset after the number (the character-by-character buffering is in the body, not the contract) |
| Lexer.Cursor.GroupToken | au.js:205-214 | the result and cursor are those `ScanGroup` specifies |
| Lexer.Tokens | au.js:241-251 | the `while` loop over a fresh cursor returns what `Tokenized` specifies |
| Substitution.WordEnd | au.js:326 | the end of the run of name characters: every character before it is a name character, and the one at it, if any, is not |
| Substitution.Substitute | au.js:325-335 | a failure names a reference of the input that has no binding |
| Substitution.Refs | au.js:326 | the names the input refers to, from left to right: a name is in the list exactly when the input refers to it |
| Substitution.SubstituteFailsAtFirst | au.js:329-331 | a failure names the first reference, from the left, that has no binding; every earlier reference is bound |
| Substitution.SubstituteOkIff | au.js:325-335 | substitution succeeds exactly when every name the input refers to is bound |
| Substitution.SubstituteWithoutReferences | au.js:326 | text without `$` is left as it is |
| Substitution.ReferenceIsLongestName | au.js:326 | a reference is the longest run of name characters after `$`, replaced whole by its binding's text |
| Au.Evaluate | au.js:322-340 | an empty or non-string input is worth 0; an input with an unbound reference fails with an undefined-variable error naming one of them |
| Au.DefaultFailsOnlyByDivision | au.js:19-55 | of the built-in handlers only `/` fails, with the division-by-zero error |
| Au.ComputErrors | au.js:253-320 | with every operator in the table, evaluation fails only for the shape of the tokens or in a handler, never with "operator was not found" |
| Au.OperationErrors | au.js:253-263 | the same, for one operand |
| Au.FigureErrors | au.js:277-311 | the same, for one reduction |
| Au.WellFormedComputDivides | au.js:253-320 | with handlers that fail only by division by zero, a well-formed token list evaluates or fails with the division-by-zero error, and with no other error |
| Au.WellFormedOperationDivides | au.js:253-263 | the same, for one operand |
| Au.WellFormedFigureDivides | au.js:277-311 | the same, for one reduction |
| Au.DefaultTableFailsOnlyByDivision | au.js:19-55 | over the built-in table, a well-formed expression evaluates unless it divides by zero |
| Au.ErrorsByStage | au.js:322-340 | an undefined-variable error names a reference the input makes and the bindings lack; every other error is a scanning or an evaluation error; "operator was not found" never escapes `parse` |
| Au.LongSymbolIsInert | au.js:60-67 | registering an operator whose symbol is not one character long changes no result of `parse` |
| Au.ShortSymbolIsScanned | au.js:227-232 | once a one-character symbol is registered, `next` reads that character as an operator token, provided the character is neither whitespace nor a number character (digits, `.`, `e`), which `next` tests first |
| Au.TokenizedNumeral | au.js:141-163 | the decimal text of a natural number is tokenized as that number |
| Au.NatLiteral | au.js:322-340 | the decimal text of a natural number evaluates to that number, whatever the table and bindings |
| Au.Interpreter.constructor | au.js:19-78 | the interpreter starts with the six built-in operators, their keys and no parsers, with the keys invariant holding |
| Au.Interpreter.Operator | au.js:60-67 | the entry is added or replaced, the keys are refreshed, the keys invariant is kept and `parsers` is untouched |
| Au.Interpreter.Parser | au.js:68-75 | `parsers` becomes what `AddParser` specifies and the operator table is untouched |
| Au.Interpreter.Parse | au.js:322-340 | the result is what `Evaluate` specifies for the current table and keys; with the keys invariant and handlers that fail only by division by zero, an error is an unbound referenced name, a scanning error or an evaluation error, never "operator was not found" |
| Worked.MixedPrecedence | au.js:290-303 | `10-2*3+4` is 0 |
| Worked.TighterOnTheRight | au.js:290-300 | `2+3*4` is 14 |
| Worked.EqualPriorityFromTheLeft | au.js:301-302 | `2^3^2` is `pow(pow(2, 3), 2)` |
| Worked.PowerNoTighterThanProduct | au.js:29-54 | `2*3^2` is `pow(6, 2)` |
| Worked.ZeroDenominator | au.js:33-42 | `8/0` fails with the division-by-zero error |
| Worked.LeadingMinus | au.js:178-187 | `-5+3` is -2 |
| Worked.OpenParenAsOperator | au.js:230-235 | once `(` is registered, `next` reads it as that operator instead of starting a group, so `(1)` fails at the `)` as an illegal character |
| Worked.NegTokenizedNumeral | au.js:178-187 | when `-` is an operator key, `-` followed by the decimal text of a natural number n is tokenized as the single operand -n |
| Worked.NegLiteral | au.js:178-187 | when `-` is an operator key, `-` followed by the decimal text of a natural number n evaluates to -n, whatever the table and bindings |
| Worked.ParseFloatOneE | au.js:148 | the buffer `1e`, an exponent mark with no digits after it, reads as 1 |
| Worked.ExponentFormTokens | au.js:141-163 | `1e+21`, the text JavaScript prints for 10^21, is scanned as the operand 1, the operator `+` and the operand 21 |
| Worked.ExponentFormMisread | au.js:141-163 | `1e+21` evaluates to 22 with the built-in operators |
| Worked.BoundVariable | au.js:325-335 | `$x+1` with `x` bound to `5` is 6 |
| Worked.UnboundVariable | au.js:329-331 | `$y*)` without bindings fails on `y`, before the illegal `)` is reached |
| Worked.GroupFirst | au.js:205-214 | `(2+3)*4` is 20 |
| Worked.DoubleNesting | au.js:114-138 | `((1))` is 1 |
| Worked.TripleNesting | au.js:114-138 | `(((1)))` fails with an unmatched parenthesis at position 4 |

## Left out

- IEEE doubles. Numbers are exact reals, so rounding, overflow to Infinity,
  NaN arithmetic and `-0` are not modelled. `%` and `Math.pow` are
  parameters about which nothing is assumed.
- Numbers.ParseFloat: models `parseFloat` only on the buffer alphabet
  `0-9 . e`, which is all the scanner puts in the buffer. The value is
  exact, not rounded to a double.
- The regular expressions are replaced by explicit character predicates:
  - `/\d|\.|e/` by `IsNumberChar`;
  - `/\s/` by `IsSpace` (the ECMAScript whitespace and line-terminator set);
  - `/\$([\w\d]+)/g` by `Substitute`.

  Characters are Unicode scalar values, not UTF-16 code units. Text outside
  the Basic Multilingual Plane is therefore indexed differently.
- JavaScript coercion accidents become the single error `Coercion`.
  - An empty token list makes `cleanUp` read `tkns[0].type` and throw a
    TypeError. This happens for `()` or a group holding only whitespace, or
    for input that is all whitespace.
  - Negating a token that is not a number gives NaN.
  - Looking up an unknown operator's priority throws.
- Au.NatLiteral: the round trip is claimed only for plain digit text, and
  by Worked.NegLiteral for a `-` before it. JavaScript prints numbers from
  10^21 on in exponent form such as `1e+21`. The scanner reads that as `1e`,
  `+`, `21`, and it evaluates to 22 (Worked.ExponentFormMisread).
- Evaluator.Comput: `comput([])` returns undefined in au.js. The model
  fails with `Coercion`. No input of `parse` reaches it, because groups and
  token lists are never empty after `cleanUp`.
- Handlers are caller code. A handler is a total function returning a value
  or an error.
  - A handler that is not a function, and a priority that is not a number,
    are not modelled.
  - Au.ErrorsByStage assumes that handlers fail only as the built-in `/`
    does. A handler may throw anything.
- Registered parsers are never called. `next` does not consult `parsers`, so
  the model keeps them as opaque callbacks in a list.
  - `typeof` is modelled by the `Arg` datatype.
  - A `pos` that is not an integer (a fraction, NaN, Infinity) is not
    modelled.
- `Object.keys` orders integer-like keys first. `RefreshedKeys` appends in
  insertion order instead. Only membership is used by the scanner, so no
  result depends on it.
- Bindings are taken as the text their value converts to, and a name bound
  to null or undefined is absent from the map.
  - A `variables` argument that is itself null or undefined (a TypeError) is
    not modelled.
  - Inherited properties found by `variables[name]` are not modelled.
- The wording of error messages is left out; only the error kind and the
  `[pos->n] ` prefix are modelled.
- The module plumbing is left out: `marge`, `each`, and the IIFE that
  installs `au` on the global object (au.js:12-18, au.js:80-103,
  au.js:342-346).
- Recursion depth and call-stack exhaustion are not modelled.
