/** The two registries of au.js: the operator table `operations` (with the
    list of its keys, `operatorKeys`) and the list `parsers`. */
module Operations {
  import opened Core

  /** One entry of `operations`: a priority (greater binds tighter) and the
      handler `comput`, which may throw. */
  datatype Entry = Entry(priority: int, comput: (real, real) -> Result<real>)

  type Table = map<string, Entry>

  /** The handler of `/`: division, refusing a zero denominator. */
  function Divide(o1: real, o2: real): (r: Result<real>)
    ensures r.Ok? <==> o2 != 0.0
    ensures r.Ok? ==> r.value * o2 == o1
    ensures r.Err? ==> r.error == DivisionByZero
  {
    if o2 != 0.0 then Ok(o1 / o2) else Err(DivisionByZero)
  }

  /** The table au.js starts with. JavaScript's `%` and `Math.pow` work on
      doubles; they are parameters here, so nothing is assumed about them. */
  function DefaultOperations(rem: (real, real) -> real, pow: (real, real) -> real): Table
  {
    map[
      "+" := Entry(10, (o1, o2) => Ok(o1 + o2)),
      "-" := Entry(10, (o1, o2) => Ok(o1 - o2)),
      "*" := Entry(100, (o1, o2) => Ok(o1 * o2)),
      "/" := Entry(100, Divide),
      "%" := Entry(100, (o1, o2) => Ok(rem(o1, o2))),
      "^" := Entry(100, (o1, o2) => Ok(pow(o1, o2)))
    ]
  }

  /** `Object.keys(operations)` for the initial table. */
  const DefaultKeys: seq<string> := ["+", "-", "*", "/", "%", "^"]

  /** `operatorKeys` lists the keys of the table, each once. */
  ghost predicate KeysOf(keys: seq<string>, ops: Table)
  {
    && (forall k :: k in keys <==> k in ops)
    && (forall i, j :: 0 <= i < j < |keys| ==> keys[i] != keys[j])
  }

  lemma {:induction false} DefaultKeysOfDefaultTable(rem: (real, real) -> real, pow: (real, real) -> real)
    ensures KeysOf(DefaultKeys, DefaultOperations(rem, pow))
    ensures forall k :: k in DefaultKeys ==> |k| == 1
  {
    var ops := DefaultOperations(rem, pow);
    assert ops.Keys == {"+", "-", "*", "/", "%", "^"};
    forall k ensures k in DefaultKeys <==> k in ops {
    }
  }

  /** The characters the tokenizer reads as operators:
      `operatorKeys.indexOf(char) !== -1` for a one-character string. */
  predicate IsOperatorChar(keys: seq<string>, c: char)
  {
    [c] in keys
  }

  /** `Object.keys` after `operations[symbol] = ...`: a new key is appended,
      an existing key keeps its place. */
  function RefreshedKeys(keys: seq<string>, symbol: string): (r: seq<string>)
    ensures forall k :: k in r <==> k in keys || k == symbol
    ensures symbol in keys ==> r == keys
    ensures symbol !in keys ==> r == keys + [symbol]
  {
    if symbol in keys then keys else keys + [symbol]
  }

  /** `api.operator` keeps `operatorKeys` equal to the keys of the table. */
  lemma {:induction false} RegisterKeepsKeys(keys: seq<string>, ops: Table, symbol: string, e: Entry)
    requires KeysOf(keys, ops)
    ensures KeysOf(RefreshedKeys(keys, symbol), ops[symbol := e])
  {
    var r := RefreshedKeys(keys, symbol);
    if symbol !in keys {
      forall i, j | 0 <= i < j < |r| ensures r[i] != r[j] {
        if j == |keys| {
          assert r[i] == keys[i];
        }
      }
    }
  }

  /** Registering the same operator twice leaves the registry as registering it once. */
  lemma RegisterIdempotent(keys: seq<string>, ops: Table, symbol: string, e: Entry)
    ensures ops[symbol := e][symbol := e] == ops[symbol := e]
    ensures RefreshedKeys(RefreshedKeys(keys, symbol), symbol) == RefreshedKeys(keys, symbol)
  {
  }

  /** A symbol that is not one character long never becomes an operator
      character: registering it changes no decision of the tokenizer. */
  lemma {:induction false} LongSymbolNeverScanned(keys: seq<string>, symbol: string, c: char)
    requires |symbol| != 1
    ensures IsOperatorChar(RefreshedKeys(keys, symbol), c) <==> IsOperatorChar(keys, c)
  {
    assert [c] != symbol;
  }

  /** A one-character symbol is an operator character as soon as it is registered. */
  lemma {:induction false} ShortSymbolScanned(keys: seq<string>, c: char)
    ensures IsOperatorChar(RefreshedKeys(keys, [c]), c)
  {
  }

  /** A caller-supplied callable, identified only by itself: au.js never calls
      the functions it stores in `parsers`. */
  datatype Callback = Callback(id: nat)

  /** An argument of `api.parser`: a function, or any other value. */
  datatype Arg = Callable(f: Callback) | NotCallable

  datatype ParserEntry = ParserEntry(predict: Callback, token: Callback)

  /** The index `Array.prototype.splice` inserts at: the end when `pos` is not
      a number; otherwise a negative `pos` counts from the end and the index
      is clamped to the list. */
  function SpliceIndex(len: nat, pos: Option<int>): (k: nat)
    ensures k <= len
    ensures pos.None? ==> k == len
    ensures pos.Some? && 0 <= pos.value <= len ==> k == pos.value
    ensures pos.Some? && -(len as int) <= pos.value < 0 ==> k == len + pos.value
  {
    match pos
    case None => len
    case Some(p) =>
      if p < 0 then (if len + p < 0 then 0 else len + p)
      else if p > len then len
      else p
  }

  /** `parsers` after `api.parser(predict, token, pos)`: one entry inserted
      when both are functions, nothing otherwise. */
  function AddParser(parsers: seq<ParserEntry>, predict: Arg, token: Arg, pos: Option<int>): (r: seq<ParserEntry>)
    ensures !(predict.Callable? && token.Callable?) ==> r == parsers
    ensures predict.Callable? && token.Callable? ==>
              var k := SpliceIndex(|parsers|, pos);
              && |r| == |parsers| + 1
              && r[k] == ParserEntry(predict.f, token.f)
              && r[..k] == parsers[..k] && r[k + 1..] == parsers[k..]
  {
    if predict.Callable? && token.Callable? then
      var k := SpliceIndex(|parsers|, pos);
      parsers[..k] + [ParserEntry(predict.f, token.f)] + parsers[k..]
    else
      parsers
  }

  /** Registering a parser never loses one: the old list is the new one with
      the new entry taken out. */
  lemma {:induction false} AddParserKeepsEntries(parsers: seq<ParserEntry>, predict: Arg, token: Arg, pos: Option<int>)
    ensures multiset(AddParser(parsers, predict, token, pos)) ==
              multiset(parsers) + (if predict.Callable? && token.Callable?
                                   then multiset{ParserEntry(predict.f, token.f)} else multiset{})
  {
    if predict.Callable? && token.Callable? {
      var k := SpliceIndex(|parsers|, pos);
      assert parsers == parsers[..k] + parsers[k..];
    }
  }
}
