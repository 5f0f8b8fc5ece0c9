/** The variable substitution `parse` performs before tokenizing:
    `input.replace(/\$([\w\d]+)/g, ...)`. A binding is given as the text the
    bound value converts to; a name bound to null or undefined is a name
    without a binding. */
module Substitution {
  import opened Core
  import opened Chars

  /** The end of the run of name characters that starts at `i`. */
  function WordEnd(s: string, i: nat): (j: nat)
    requires i <= |s|
    ensures i <= j <= |s|
    ensures forall k :: i <= k < j ==> IsWordChar(s[k])
    ensures j < |s| ==> !IsWordChar(s[j])
    decreases |s| - i
  {
    if i < |s| && IsWordChar(s[i]) then WordEnd(s, i + 1) else i
  }

  /** A reference starts at the front of `s`: `$` and at least one name character. */
  predicate StartsReference(s: string)
  {
    |s| > 1 && s[0] == '$' && IsWordChar(s[1])
  }

  /** The names `s` refers to, each `$` followed by the longest run of name
      characters, read from left to right without overlapping. */
  function Names(s: string): set<string>
    decreases |s|
  {
    if s == [] then {}
    else if StartsReference(s) then
      var n := WordEnd(s, 1);
      {s[1..n]} + Names(s[n..])
    else Names(s[1..])
  }

  /** The names `s` refers to, in the order they occur. */
  function Refs(s: string): (refs: seq<string>)
    ensures forall x :: x in refs <==> x in Names(s)
    decreases |s|
  {
    if s == [] then []
    else if StartsReference(s) then
      var n := WordEnd(s, 1);
      [s[1..n]] + Refs(s[n..])
    else Refs(s[1..])
  }

  /** Each reference is replaced by the text of its binding, left to right;
      the first reference without a binding aborts the substitution. */
  function Substitute(s: string, vars: map<string, string>): (r: Result<string>)
    ensures r.Err? ==> r.error.UndefinedVariable? && r.error.name in Names(s) && r.error.name !in vars
    decreases |s|
  {
    if s == [] then Ok([])
    else if StartsReference(s) then
      var n := WordEnd(s, 1);
      var name := s[1..n];
      if name !in vars then Err(UndefinedVariable(name))
      else
        var rest :- Substitute(s[n..], vars);
        Ok(vars[name] + rest)
    else
      var rest :- Substitute(s[1..], vars);
      Ok([s[0]] + rest)
  }

  /** Substitution succeeds exactly when every name referred to is bound. */
  lemma {:induction false} SubstituteOkIff(s: string, vars: map<string, string>)
    ensures Substitute(s, vars).Ok? <==> Names(s) <= vars.Keys
    decreases |s|
  {
    if s != [] {
      if StartsReference(s) {
        var n := WordEnd(s, 1);
        SubstituteOkIff(s[n..], vars);
      } else {
        SubstituteOkIff(s[1..], vars);
      }
    }
  }

  /** Text without `$` is left as it is, whatever the bindings. */
  lemma {:induction false} SubstituteWithoutReferences(s: string, vars: map<string, string>)
    requires '$' !in s
    ensures Substitute(s, vars) == Ok(s)
    decreases |s|
  {
    if s != [] {
      assert s[0] != '$';
      assert '$' !in s[1..] by {
        forall i | 0 <= i < |s| - 1 ensures s[1..][i] != '$' {
          assert s[1..][i] == s[i + 1];
        }
      }
      SubstituteWithoutReferences(s[1..], vars);
      assert [s[0]] + s[1..] == s;
    }
  }

  /** A reference is replaced whole: `$x1` is the name `x1`, never `x`. */
  lemma {:induction false} ReferenceIsLongestName(name: string, rest: string, vars: map<string, string>)
    requires |name| > 0 && (forall i :: 0 <= i < |name| ==> IsWordChar(name[i]))
    requires rest == [] || !IsWordChar(rest[0])
    requires name in vars
    ensures Substitute("$" + name + rest, vars) ==
              (var tail :- Substitute(rest, vars); Ok(vars[name] + tail))
  {
    var s := "$" + name + rest;
    var n := |name| + 1;
    WordEndOfRun(s, 1, n);
    assert s[1..n] == name;
    assert s[n..] == rest;
  }

  lemma {:induction false} WordEndOfRun(s: string, i: nat, n: nat)
    requires i <= n <= |s|
    requires forall k :: i <= k < n ==> IsWordChar(s[k])
    requires n == |s| || !IsWordChar(s[n])
    ensures WordEnd(s, i) == n
    decreases n - i
  {
    if i < n {
      WordEndOfRun(s, i + 1, n);
    }
  }
  /** The replacement stops at the first reference from the left that has no
      binding: every reference before it is bound. */
  lemma {:induction false} SubstituteFailsAtFirst(s: string, vars: map<string, string>)
    requires Substitute(s, vars).Err?
    ensures exists i :: 0 <= i < |Refs(s)| && Refs(s)[i] == Substitute(s, vars).error.name
                        && Refs(s)[i] !in vars && (forall j :: 0 <= j < i ==> Refs(s)[j] in vars)
    decreases |s|
  {
    var name := Substitute(s, vars).error.name;
    if StartsReference(s) {
      var n := WordEnd(s, 1);
      if s[1..n] !in vars {
        assert Refs(s)[0] == name;
      } else {
        SubstituteFailsAtFirst(s[n..], vars);
        var i :| 0 <= i < |Refs(s[n..])| && Refs(s[n..])[i] == name
                 && Refs(s[n..])[i] !in vars && (forall j :: 0 <= j < i ==> Refs(s[n..])[j] in vars);
        assert Refs(s)[i + 1] == name;
        assert forall j :: 0 < j < i + 1 ==> Refs(s)[j] == Refs(s[n..])[j - 1];
      }
    } else {
      assert Refs(s) == Refs(s[1..]);
      assert Substitute(s, vars) == Substitute(s[1..], vars);
      SubstituteFailsAtFirst(s[1..], vars);
    }
  }
}
