/** The tokenizer of au.js (`next`, `numberToken`, `operatorToken`,
    `groupToken`, `matchClosePoint`, `tokens`).

    The first half states, as functions of the input and of the cursor's
    `index` and `buffer`, what each step of the scan yields and where it
    leaves the cursor. The second half is the scan itself: a `Cursor` object
    whose fields the methods update in place, each method proved to follow
    the corresponding function. */
module Lexer {
  import opened Core
  import opened Chars
  import opened Numbers
  import opened Operations
  import opened Normalizer

  /** What one call of `next` yields (a token, or nothing at the end of the
      input) and the `index` it leaves the cursor at. */
  datatype Step = Step(token: Option<Token>, index: nat)

  /** Every operator token, at any depth, is one of the keys. */
  predicate Known(keys: seq<string>, t: Token)
  {
    match t
    case Operand(_) => true
    case Operator(c) => IsOperatorChar(keys, c)
    case Group(items) => forall i :: 0 <= i < |items| ==> Known(keys, items[i])
  }

  predicate AllKnown(keys: seq<string>, ts: seq<Token>)
  {
    forall i :: 0 <= i < |ts| ==> Known(keys, ts[i])
  }

  predicate AllSpace(s: string)
  {
    forall i :: 0 <= i < |s| ==> IsSpace(s[i])
  }

  /** `input.indexOf(c, from)`: the first position at or after `from` holding `c`, or -1. */
  function IndexOf(s: string, c: char, from: nat): (k: int)
    requires from <= |s|
    ensures k == -1 || (from <= k < |s| && s[k] == c)
    decreases |s| - from
  {
    if from == |s| then -1
    else if s[from] == c then from
    else IndexOf(s, c, from + 1)
  }

  /** `indexOf` finds the first occurrence, and reports -1 only when there is none. */
  lemma {:induction false} IndexOfIsFirst(s: string, c: char, from: nat)
    requires from <= |s|
    ensures IndexOf(s, c, from) == -1 <==> forall j :: from <= j < |s| ==> s[j] != c
    ensures IndexOf(s, c, from) != -1 ==> forall j :: from <= j < IndexOf(s, c, from) ==> s[j] != c
    decreases |s| - from
  {
    if from < |s| && s[from] != c {
      IndexOfIsFirst(s, c, from + 1);
    }
  }

  /** The loop of `matchClosePoint`, from the cursor position `index` with
      `stack` parentheses open. Each round looks for the next `)` after
      `index`; it counts at most one `(` met before that `)`, and moves to the
      `)`. (The assignment `pos.index = open + 1` is overwritten at once by
      `pos.index = close`, so it has no effect.) */
  function CloseIndex(input: string, index: nat, stack: int): (r: Result<nat>)
    requires index < |input| && stack > 0
    ensures r.Ok? ==> index < r.value < |input| && input[r.value] == ')'
    ensures r.Err? ==> r.error.UnmatchedParenthesis? && index < r.error.pos <= |input|
    decreases |input| - index
  {
    var from := index + 1;
    var open := IndexOf(input, '(', from);
    var close := IndexOf(input, ')', from);
    var depth := if open != -1 && open < close then stack + 1 else stack;
    if close == -1 then Err(UnmatchedParenthesis(from))
    else if depth - 1 > 0 then CloseIndex(input, close, depth - 1)
    else Ok(close)
  }

  /** `next` at `index` with `buffer` pending. Dispatch in this order: end of
      input, whitespace, number character, operator key, `(`, anything else. */
  function ScanNext(keys: seq<string>, input: string, index: nat, buffer: string): (r: Result<Step>)
    requires index <= |input|
    ensures r.Ok? ==> index <= r.value.index <= |input|
    ensures r.Ok? && r.value.token.Some? ==> index < r.value.index && Known(keys, r.value.token.value)
    ensures r.Ok? && r.value.token.None? ==> r.value.index == |input| && AllSpace(input[index..])
    ensures r.Ok? && index < |input| && !IsSpace(input[index]) ==> r.value.token.Some?
    ensures r.Err? ==> ScanningError(r.error)
    decreases |input|, |input| - index, 2
  {
    if index == |input| then Ok(Step(None, index))
    else
      var c := input[index];
      if IsSpace(c) then
        var r := ScanNext(keys, input, index + 1, buffer);
        assert r.Ok? && r.value.token.None? ==> input[index..] == [c] + input[index + 1..];
        r
      else if IsNumberChar(c) then ScanNumber(keys, input, index, buffer)
      else if IsOperatorChar(keys, c) then Ok(Step(Some(Operator(c)), index + 1))
      else if c == '(' then ScanGroup(keys, input, index)
      else Err(IllegalCharacter(index))
  }

  /** `numberToken`: append the character to the buffer; when the next
      character is not a number character, read the buffer as a number,
      otherwise go on through `next`. */
  function ScanNumber(keys: seq<string>, input: string, index: nat, buffer: string): (r: Result<Step>)
    requires index < |input|
    ensures r.Ok? ==> index < r.value.index <= |input| && r.value.token.Some?
    ensures r.Ok? ==> r.value.token.value.Operand?
    ensures r.Err? ==> ScanningError(r.error)
    decreases |input|, |input| - index, 1
  {
    var buf := buffer + [input[index]];
    var j := index + 1;
    if j < |input| && IsNumberChar(input[j]) then ScanNext(keys, input, j, buf)
    else
      match ParseFloat(buf)
      case None => Err(InvalidNumber(buf, j))
      case Some(n) => Ok(Step(Some(Operand(n)), j))
  }

  /** `groupToken`: find the closing parenthesis, tokenize what lies strictly
      between the two, and continue after the closing one. */
  function ScanGroup(keys: seq<string>, input: string, index: nat): (r: Result<Step>)
    requires index < |input| && input[index] == '('
    ensures r.Ok? ==> index < r.value.index <= |input| && r.value.token.Some?
                      && Known(keys, r.value.token.value)
    ensures r.Err? ==> ScanningError(r.error)
    decreases |input|, |input| - index, 0
  {
    var end :- CloseIndex(input, index, 1);
    var t :- Tokenized(keys, input[index + 1..end]);
    Ok(Step(Some(t), end + 1))
  }

  /** The loop of `tokens`: call `next` until it yields nothing. */
  function ScanAll(keys: seq<string>, input: string, index: nat, acc: seq<Token>): (r: Result<seq<Token>>)
    requires index <= |input|
    ensures r.Ok? && AllKnown(keys, acc) ==> AllKnown(keys, r.value)
    ensures r.Err? ==> ScanningError(r.error)
    decreases |input|, |input| - index, 3
  {
    var step :- ScanNext(keys, input, index, "");
    match step.token
    case None => Ok(acc)
    case Some(t) => ScanAll(keys, input, step.index, acc + [t])
  }

  /** `tokens(input)`: scan the whole input, then normalise. */
  function Tokenized(keys: seq<string>, input: string): (r: Result<Token>)
    ensures r.Ok? ==> Known(keys, r.value)
    ensures r.Err? ==> ScanningError(r.error)
    decreases |input|, |input| + 1, 0
  {
    var tkns :- ScanAll(keys, input, 0, []);
    CleanUpKeepsKnown(keys, tkns);
    CleanUp(tkns)
  }

  lemma {:induction false} CleanUpKeepsKnown(keys: seq<string>, tkns: seq<Token>)
    requires AllKnown(keys, tkns)
    ensures CleanUp(tkns).Ok? ==> Known(keys, CleanUp(tkns).value)
  {
    if CleanUp(tkns).Ok? {
      var rest := if !tkns[0].Operator? then tkns
                  else if tkns[0].symbol == '+' then tkns[1..]
                  else [Operand(-1.0 * tkns[1].number)] + tkns[2..];
      assert Unwrapped(CleanUp(tkns).value, rest);
      forall i | 0 <= i < |rest| ensures Known(keys, rest[i]) {
        if rest != tkns && (tkns[0].symbol == '+' || i > 0) {
          assert rest[i] == tkns[i + 1];
        }
      }
    }
  }

  // ---------------------------------------------------------------------
  // Properties of the scan.

  /** The end of the run of number characters that starts at `i`. */
  function NumberEnd(s: string, i: nat): (j: nat)
    requires i <= |s|
    ensures i <= j <= |s|
    ensures forall k :: i <= k < j ==> IsNumberChar(s[k])
    ensures j < |s| ==> !IsNumberChar(s[j])
    decreases |s| - i
  {
    if i < |s| && IsNumberChar(s[i]) then NumberEnd(s, i + 1) else i
  }

  /** Number recognition collects the maximal run of number characters into
      the buffer, emits one operand holding its value and leaves the cursor
      just after the run; it fails, at that position, when the buffer is not
      a number. */
  lemma {:induction false} ScanNumberIsMaximalMunch(keys: seq<string>, input: string, index: nat, buffer: string)
    requires index < |input| && IsNumberChar(input[index])
    ensures var end := NumberEnd(input, index);
            var text := buffer + input[index..end];
            ScanNumber(keys, input, index, buffer) ==
              match ParseFloat(text)
              case None => Err(InvalidNumber(text, end))
              case Some(n) => Ok(Step(Some(Operand(n)), end))
    decreases |input| - index
  {
    var j := index + 1;
    var buf := buffer + [input[index]];
    if j < |input| && IsNumberChar(input[j]) {
      var end := NumberEnd(input, j);
      assert NumberEnd(input, index) == end;
      NumberCharGoesOn(keys, input, j, buf);
      assert ScanNumber(keys, input, index, buffer) == ScanNumber(keys, input, j, buf);
      ScanNumberIsMaximalMunch(keys, input, j, buf);
      assert buf + input[j..end] == buffer + input[index..end] by {
        assert input[index..end] == [input[index]] + input[j..end];
      }
    } else {
      assert NumberEnd(input, index) == j;
      assert input[index..j] == [input[index]];
    }
  }

  /** A number character met by `next` goes straight to `numberToken`. */
  lemma {:induction false} NumberCharGoesOn(keys: seq<string>, input: string, j: nat, buf: string)
    requires j < |input| && IsNumberChar(input[j])
    ensures ScanNext(keys, input, j, buf) == ScanNumber(keys, input, j, buf)
  {
    ClassesAreDisjoint(input[j]);
  }

  /** `matchClosePoint` fails only when no `)` is left at or after the
      position it reports. */
  lemma {:induction false} CloseIndexFailsWithoutClose(input: string, index: nat, stack: int)
    requires index < |input| && stack > 0
    requires CloseIndex(input, index, stack).Err?
    ensures forall k :: CloseIndex(input, index, stack).error.pos <= k < |input| ==> input[k] != ')'
    decreases |input| - index
  {
    var from := index + 1;
    var open := IndexOf(input, '(', from);
    var close := IndexOf(input, ')', from);
    var depth := if open != -1 && open < close then stack + 1 else stack;
    if close == -1 {
      IndexOfIsFirst(input, ')', from);
    } else {
      CloseIndexFailsWithoutClose(input, close, depth - 1);
    }
  }

  /** The dispatch order of `next` at a character that is not whitespace. */
  lemma {:induction false} ScanNextDispatch(keys: seq<string>, input: string, index: nat)
    requires index < |input|
    ensures var c := input[index];
            && (IsNumberChar(c) ==>
                  var end := NumberEnd(input, index);
                  ScanNext(keys, input, index, "") ==
                    match ParseFloat(input[index..end])
                    case None => Err(InvalidNumber(input[index..end], end))
                    case Some(n) => Ok(Step(Some(Operand(n)), end)))
            && (!IsSpace(c) && !IsNumberChar(c) && IsOperatorChar(keys, c) ==>
                  ScanNext(keys, input, index, "") == Ok(Step(Some(Operator(c)), index + 1)))
            && (!IsSpace(c) && !IsNumberChar(c) && !IsOperatorChar(keys, c) && c == '(' ==>
                  ScanNext(keys, input, index, "") == ScanGroup(keys, input, index))
            && (!IsSpace(c) && !IsNumberChar(c) && !IsOperatorChar(keys, c) && c != '(' ==>
                  ScanNext(keys, input, index, "") == Err(IllegalCharacter(index)))
  {
    if IsNumberChar(input[index]) {
      ScanNumberIsMaximalMunch(keys, input, index, "");
      assert "" + input[index..NumberEnd(input, index)] == input[index..NumberEnd(input, index)];
    }
  }

  /** Two key lists that make the same characters operators. */
  predicate SameOperatorChars(keys1: seq<string>, keys2: seq<string>)
  {
    forall c :: IsOperatorChar(keys1, c) <==> IsOperatorChar(keys2, c)
  }

  /** The tokenizer consults the keys only through `IsOperatorChar`: key
      lists that make the same characters operators tokenize alike. */
  lemma {:induction false} TokenizedSameKeys(keys1: seq<string>, keys2: seq<string>, input: string)
    requires SameOperatorChars(keys1, keys2)
    ensures Tokenized(keys1, input) == Tokenized(keys2, input)
    decreases |input|, |input| + 1, 0
  {
    ScanAllSameKeys(keys1, keys2, input, 0, []);
  }

  lemma {:induction false} ScanAllSameKeys(keys1: seq<string>, keys2: seq<string>, input: string, index: nat, acc: seq<Token>)
    requires SameOperatorChars(keys1, keys2) && index <= |input|
    ensures ScanAll(keys1, input, index, acc) == ScanAll(keys2, input, index, acc)
    decreases |input|, |input| - index, 3
  {
    ScanNextSameKeys(keys1, keys2, input, index, "");
    var step := ScanNext(keys1, input, index, "");
    if step.Ok? && step.value.token.Some? {
      ScanAllSameKeys(keys1, keys2, input, step.value.index, acc + [step.value.token.value]);
    }
  }

  lemma {:induction false} ScanNextSameKeys(keys1: seq<string>, keys2: seq<string>, input: string, index: nat, buffer: string)
    requires SameOperatorChars(keys1, keys2) && index <= |input|
    ensures ScanNext(keys1, input, index, buffer) == ScanNext(keys2, input, index, buffer)
    decreases |input|, |input| - index, 2
  {
    if index < |input| {
      var c := input[index];
      assert IsOperatorChar(keys1, c) <==> IsOperatorChar(keys2, c);
      if IsSpace(c) {
        ScanNextSameKeys(keys1, keys2, input, index + 1, buffer);
      } else if IsNumberChar(c) {
        ScanNumberSameKeys(keys1, keys2, input, index, buffer);
      } else if !IsOperatorChar(keys1, c) && c == '(' {
        ScanGroupSameKeys(keys1, keys2, input, index);
      }
    }
  }

  lemma {:induction false} ScanNumberSameKeys(keys1: seq<string>, keys2: seq<string>, input: string, index: nat, buffer: string)
    requires SameOperatorChars(keys1, keys2) && index < |input|
    ensures ScanNumber(keys1, input, index, buffer) == ScanNumber(keys2, input, index, buffer)
    decreases |input|, |input| - index, 1
  {
    var j := index + 1;
    if j < |input| && IsNumberChar(input[j]) {
      ScanNextSameKeys(keys1, keys2, input, j, buffer + [input[index]]);
    }
  }

  lemma {:induction false} ScanGroupSameKeys(keys1: seq<string>, keys2: seq<string>, input: string, index: nat)
    requires SameOperatorChars(keys1, keys2) && index < |input| && input[index] == '('
    ensures ScanGroup(keys1, input, index) == ScanGroup(keys2, input, index)
    decreases |input|, |input| - index, 0
  {
    var end := CloseIndex(input, index, 1);
    if end.Ok? {
      TokenizedSameKeys(keys1, keys2, input[index + 1..end.value]);
    }
  }

  /** A `)` that no `(` opened is an illegal character unless it is an operator key. */
  lemma StrayCloseIsIllegal(keys: seq<string>, input: string, index: nat)
    requires index < |input| && input[index] == ')' && !IsOperatorChar(keys, ')')
    ensures ScanNext(keys, input, index, "") == Err(IllegalCharacter(index))
  {
  }

  /** Two levels of parentheses are matched. */
  lemma DoubleNestingMatches()
    ensures CloseIndex("((1))", 0, 1) == Ok(4)
  {
    assert IndexOf("((1))", '(', 1) == 1;
    assert IndexOf("((1))", ')', 1) == 3;
    assert IndexOf("((1))", '(', 4) == -1;
    assert IndexOf("((1))", ')', 4) == 4;
  }

  /** Three levels are not: the outer `(` is matched with the second `)`, and
      the text `((1)` inside is then missing a `)`, at its position 4. */
  lemma {:induction false} TripleNestingFails()
    ensures CloseIndex("(((1)))", 0, 1) == Ok(5)
    ensures CloseIndex("((1)", 0, 1) == Err(UnmatchedParenthesis(4))
  {
    assert IndexOf("(((1)))", '(', 1) == 1;
    assert IndexOf("(((1)))", ')', 1) == 4;
    assert IndexOf("(((1)))", '(', 5) == -1;
    assert IndexOf("(((1)))", ')', 5) == 5;
    assert IndexOf("((1)", '(', 1) == 1;
    assert IndexOf("((1)", ')', 1) == 3;
    assert IndexOf("((1)", '(', 4) == -1;
    assert IndexOf("((1)", ')', 4) == -1;
  }

  // ---------------------------------------------------------------------
  // The scan, over a cursor updated in place.

  /** `pos`: the scan cursor of one `tokens` call. */
  class Cursor {
    var index: int
    var buffer: string
    var stack: int

    /** `{ index: 0, buffer: '' }`; `stack` is set before it is read. */
    constructor ()
      ensures index == 0 && buffer == "" && stack == 0
    {
      index := 0;
      buffer := "";
      stack := 0;
    }

    /** The cursor's state after a call agrees with the step `spec` describes:
        the same token or error, and the cursor at the step's end with an
        empty buffer. `stack` is left unspecified: only `matchClosePoint`
        reads it, and `groupToken` sets it to 1 right before that call. */
    ghost predicate Follows(spec: Result<Step>, r: Result<Option<Token>>)
      reads this
    {
      match spec
      case Err(e) => r == Err(e)
      case Ok(step) => r == Ok(step.token) && index == step.index && buffer == ""
    }

    method MatchClosePoint(input: string) returns (r: Result<nat>)
      requires 0 <= index < |input| && stack > 0
      modifies this`index, this`stack
      ensures r == CloseIndex(input, old(index), old(stack))
      ensures r.Ok? ==> index == r.value && stack == 0
    {
      var close := -1;
      while stack > 0
        invariant 0 <= index < |input| && stack >= 0
        invariant stack > 0 ==> CloseIndex(input, index, stack) == CloseIndex(input, old(index), old(stack))
        invariant stack == 0 ==> close == index && CloseIndex(input, old(index), old(stack)) == Ok(index)
        decreases |input| - index
      {
        ghost var before := index;
        index := index + 1;
        var open := IndexOf(input, '(', index);
        close := IndexOf(input, ')', index);
        if open != -1 && open < close {
          stack := stack + 1;
          index := open + 1;
        }
        if close == -1 {
          r := Err(UnmatchedParenthesis(index));
          assert r == CloseIndex(input, before, stack);
          return;
        }
        stack := stack - 1;
        index := close;
      }
      r := Ok(close);
    }

    method OperatorToken(input: string) returns (t: Token)
      requires 0 <= index < |input|
      modifies this`index
      ensures t == Operator(input[old(index)]) && index == old(index) + 1
    {
      t := Operator(input[index]);
      index := index + 1;
    }

    method Next(input: string, keys: seq<string>) returns (r: Result<Option<Token>>)
      requires 0 <= index <= |input|
      requires buffer == "" || (index < |input| && IsNumberChar(input[index]))
      modifies this
      ensures Follows(ScanNext(keys, input, old(index), old(buffer)), r)
      decreases |input|, |input| - index, 2
    {
      if index == |input| {
        return Ok(None);
      }
      var c := input[index];
      if IsSpace(c) {
        index := index + 1;
        r := Next(input, keys);
      } else if IsNumberChar(c) {
        r := NumberToken(input, keys);
      } else if IsOperatorChar(keys, c) {
        var t := OperatorToken(input);
        r := Ok(Some(t));
      } else if c == '(' {
        r := GroupToken(input, keys);
      } else {
        r := Err(IllegalCharacter(index));
      }
    }

    method NumberToken(input: string, keys: seq<string>) returns (r: Result<Option<Token>>)
      requires 0 <= index < |input|
      modifies this
      ensures Follows(ScanNumber(keys, input, old(index), old(buffer)), r)
      decreases |input|, |input| - index, 1
    {
      buffer := buffer + [input[index]];
      index := index + 1;
      if !(index < |input| && IsNumberChar(input[index])) {
        var n := ParseFloat(buffer);
        if n.None? {
          return Err(InvalidNumber(buffer, index));
        }
        buffer := "";
        return Ok(Some(Operand(n.value)));
      }
      r := Next(input, keys);
    }

    method GroupToken(input: string, keys: seq<string>) returns (r: Result<Option<Token>>)
      requires 0 <= index < |input| && input[index] == '(' && buffer == ""
      modifies this
      ensures Follows(ScanGroup(keys, input, old(index)), r)
      decreases |input|, |input| - index, 0
    {
      var start := index + 1;
      stack := 1;
      var end := MatchClosePoint(input);
      if end.Err? {
        return Err(end.error);
      }
      index := end.value + 1;
      var t := Tokens(input[start..end.value], keys);
      if t.Err? {
        return Err(t.error);
      }
      r := Ok(Some(t.value));
    }
  }

  /** `tokens(input)`, with a fresh cursor. */
  method Tokens(input: string, keys: seq<string>) returns (r: Result<Token>)
    ensures r == Tokenized(keys, input)
    decreases |input|, |input| + 1, 0
  {
    var pos := new Cursor();
    var tkns: seq<Token> := [];
    while true
      invariant 0 <= pos.index <= |input| && pos.buffer == ""
      invariant ScanAll(keys, input, pos.index, tkns) == ScanAll(keys, input, 0, [])
      decreases |input| - pos.index
    {
      var tkn := pos.Next(input, keys);
      if tkn.Err? {
        return Err(tkn.error);
      }
      if tkn.value.None? {
        break;
      }
      tkns := tkns + [tkn.value.value];
    }
    r := Normalize(tkns);
  }
}
