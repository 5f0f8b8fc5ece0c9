/** `cleanUp`: turns the tokens of one tokenizer pass into one evaluable unit. */
module Normalizer {
  import opened Core

  /** A leading operator the normaliser accepts: `+` before anything, or `-`
      before a number (negating any other token is a JavaScript NaN accident). */
  predicate UnaryPrefix(tkns: seq<Token>)
  {
    |tkns| > 1 && tkns[0].Operator?
    && (tkns[0].symbol == '+' || (tkns[0].symbol == '-' && tkns[1].Operand?))
  }

  /** A leading `+` is dropped, a leading `-` is folded into the number after
      it; a single token left over is returned as it is, several are wrapped
      in a group. Any other leading operator, or an operator alone, is an
      illegal expression; an empty list is a TypeError in au.js. */
  function CleanUp(tkns: seq<Token>): (r: Result<Token>)
    ensures r.Ok? <==> tkns != [] && (tkns[0].Operator? ==> UnaryPrefix(tkns))
    ensures tkns != [] && tkns[0].Operator? && (|tkns| == 1 || tkns[0].symbol !in "+-") ==>
              r == Err(IllegalExpression)
    ensures r.Ok? && r.value.Group? ==> |r.value.items| >= 2 || r.value in tkns
    ensures r.Ok? && !tkns[0].Operator? ==> Unwrapped(r.value, tkns)
    ensures r.Err? ==> r.error == IllegalExpression || r.error == Coercion
  {
    if tkns == [] then Err(Coercion)
    else
      var rest :- if tkns[0].Operator? then
                    var o := tkns[0].symbol;
                    if |tkns| > 1 && (o == '-' || o == '+') then
                      if o == '+' then Ok(tkns[1..])
                      else if tkns[1].Operand? then Ok([Operand(-1.0 * tkns[1].number)] + tkns[2..])
                      else Err(Coercion)
                    else Err(IllegalExpression)
                  else Ok(tkns);
      if |rest| == 1 then Ok(rest[0]) else Ok(Group(rest))
  }

  /** `cleanUp` as au.js runs it: the negation is written into the second
      token, then the first token is shifted off. */
  method Normalize(tkns: seq<Token>) returns (r: Result<Token>)
    ensures r == CleanUp(tkns)
  {
    var ts := tkns;
    if ts == [] {
      return Err(Coercion);
    }
    if ts[0].Operator? {
      var o := ts[0].symbol;
      if |ts| > 1 && (o == '-' || o == '+') {
        if o == '-' {
          if !ts[1].Operand? {
            return Err(Coercion);
          }
          ts := ts[1 := Operand(-1.0 * ts[1].number)];
          assert ts[1..] == [Operand(-1.0 * tkns[1].number)] + tkns[2..];
        }
        ts := ts[1..];
      } else {
        return Err(IllegalExpression);
      }
    }
    if |ts| == 1 {
      r := Ok(ts[0]);
    } else {
      r := Ok(Group(ts));
    }
  }

  /** `t` is the unit that stands for the token list `ts`: its only token, or
      the group of all of them. */
  predicate Unwrapped(t: Token, ts: seq<Token>)
  {
    if |ts| == 1 then t == ts[0] else t == Group(ts)
  }
}
