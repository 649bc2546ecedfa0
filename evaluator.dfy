/**
  The tree evaluator of jsonpath.c (`evaluateAST`, `execSelectorChain`,
  `execWildcard`, `execRecursiveArrayWalk`): it walks a value along the AST
  chain and appends every match to the result array.

  The reference results are the functions `EvalChain`, `SelectorChain`,
  `Wildcard` and `Walk`; the methods append to a `Results` object exactly
  what those functions return. A match is appended as a copy of the value.

  Only chains of the node kinds the evaluator handles are accepted
  (`Evaluable`): on any other kind `evaluateAST` spins forever, and the
  recursive walk reads the selector name of the node after `..`.
*/
module Evaluator {
  import opened Wrappers
  import opened Ast
  import opened Values

  /**
    The chains `evaluateAST` runs to completion: every node is ROOT, `..`, a
    selector or a wildcard, and every `..` is followed by a selector.
  */
  predicate Evaluable(chain: seq<AstNode>)
    decreases |chain|
  {
    |chain| == 0 ||
      (&& chain[0].kind in {Root, Recurse, Selector, WildCard}
       && (chain[0].kind == Recurse ==> |chain| > 1 && chain[1].kind == Selector)
       && Evaluable(chain[1..]))
  }

  /** The name a selector node looks up (`d_selector.value`). */
  function Name(n: AstNode): string
  {
    if n.data.SelectorData? then n.data.value else ""
  }

  /**
    `evaluateAST` (jsonpath.c:143-167): ROOT passes the value on to the rest
    of the chain, `..` starts a recursive walk with the selector after it, and
    a selector or wildcard takes over the rest of the chain. A chain that ends
    after ROOT matches nothing.
  */
  function EvalChain(v: Value, chain: seq<AstNode>): seq<Value>
    requires Evaluable(chain)
    decreases v, |chain|, 3
  {
    if |chain| == 0 then []
    else
      match chain[0].kind
      case Root => EvalChain(v, chain[1..])
      case Recurse => Walk(v, chain[1..])
      case Selector => SelectorChain(v, chain)
      case WildCard => Wildcard(v, chain)
  }

  /**
    `execSelectorChain` (jsonpath.c:177-199): look the selector's name up in
    an array value; the value found is the match when the selector ends the
    chain, and is evaluated against the rest of the chain otherwise.
  */
  function SelectorChain(v: Value, chain: seq<AstNode>): seq<Value>
    requires Evaluable(chain) && |chain| > 0 && chain[0].kind == Selector
    decreases v, |chain|, 2
  {
    match Child(v, Name(chain[0]))
    case None => []
    case Some(w) =>
      assert w < v by { MemberSmaller(v, Name(chain[0])); }
      if |chain| == 1 then [w] else EvalChain(w, chain[1..])
  }

  /** A value found under a key is smaller than the array holding it. */
  lemma MemberSmaller(v: Value, name: string)
    requires Child(v, name).Some?
    ensures Child(v, name).value < v
  {
    var k :| 0 <= k < |v.members| && v.members[k] == (StrKey(name), Child(v, name).value);
    assert v.members[k] in v.members;
  }

  /**
    `execWildcard` (jsonpath.c:202-218): every member of an array, in
    iteration order. C iterates `HASH_OF` of any value and crashes on a
    scalar; a value that is not an array has no members here.
  */
  function Wildcard(v: Value, chain: seq<AstNode>): seq<Value>
    requires Evaluable(chain) && |chain| > 0
    decreases v, |chain|, 2
  {
    if v.Arr? then WildcardFrom(v, 0, chain) else []
  }

  /**
    The members of `v` from position `i` on: as matches when the wildcard
    ends the chain, evaluated against the rest of the chain when they are
    arrays, and passed over otherwise.
  */
  function WildcardFrom(v: Value, i: nat, chain: seq<AstNode>): seq<Value>
    requires v.Arr? && i <= |v.members| && Evaluable(chain) && |chain| > 0
    decreases v, |chain|, 1, |v.members| - i
  {
    if i == |v.members| then []
    else
      var m := v.members[i].1;
      assert m < v by { assert v.members[i] in v.members; }
      MemberMatches(m, chain) + WildcardFrom(v, i + 1, chain)
  }

  /**
    What one member `m` contributes to a wildcard: itself when the wildcard
    ends the chain, the rest of the chain evaluated from it when it is an
    array, and nothing otherwise.
  */
  function MemberMatches(m: Value, chain: seq<AstNode>): seq<Value>
    requires Evaluable(chain) && |chain| > 0
    decreases m, |chain|, 0
  {
    if |chain| == 1 then [m] else if m.Arr? then EvalChain(m, chain[1..]) else []
  }

  /**
    `execRecursiveArrayWalk` (jsonpath.c:220-242): at an array, first the
    selector chain applied to it, then the walk of each of its members in
    order; values that are not arrays contribute nothing.
  */
  function Walk(v: Value, chain: seq<AstNode>): seq<Value>
    requires Evaluable(chain) && |chain| > 0 && chain[0].kind == Selector
    decreases v, |chain|, 3
  {
    if v.Arr? then SelectorChain(v, chain) + WalkFrom(v, 0, chain) else []
  }

  function WalkFrom(v: Value, i: nat, chain: seq<AstNode>): seq<Value>
    requires v.Arr? && i <= |v.members| && Evaluable(chain) && |chain| > 0 && chain[0].kind == Selector
    decreases v, |chain|, 2, |v.members| - i
  {
    if i == |v.members| then []
    else
      var m := v.members[i].1;
      assert m < v by { assert v.members[i] in v.members; }
      Walk(m, chain) + WalkFrom(v, i + 1, chain)
  }

  /** The walk of member `i` followed by the walk of the later members. */
  lemma WalkFromStep(before: seq<Value>, v: Value, i: nat, chain: seq<AstNode>)
    requires v.Arr? && i < |v.members| && Evaluable(chain) && |chain| > 0 && chain[0].kind == Selector
    ensures v.members[i].1 < v
    ensures (before + Walk(v.members[i].1, chain)) + WalkFrom(v, i + 1, chain) == before + WalkFrom(v, i, chain)
  {
    assert v.members[i] in v.members;
  }

  /** The result array `return_value`, appended to in place. */
  class Results {
    var items: seq<Value>

    constructor ()
      ensures items == []
    {
      items := [];
    }

    /** `copyToReturnResult` (jsonpath.c:169-175). */
    method Add(v: Value)
      modifies this
      ensures items == old(items) + [v]
    {
      items := items + [v];
    }
  }

  /** `evaluateAST`: appends `EvalChain(v, chain)` to `out`. */
  method EvaluateAst(v: Value, chain: seq<AstNode>, out: Results)
    requires Evaluable(chain)
    modifies out
    ensures out.items == old(out.items) + EvalChain(v, chain)
    decreases v, |chain|, 3
  {
    var i := 0;
    while i < |chain|
      invariant 0 <= i <= |chain|
      invariant Evaluable(chain[i..])
      invariant EvalChain(v, chain[i..]) == EvalChain(v, chain)
      invariant out.items == old(out.items)
      decreases |chain| - i
    {
      var rest := chain[i..];
      assert rest[1..] == chain[i + 1..];
      match chain[i].kind {
        case Root =>
          i := i + 1;
        case Recurse =>
          ExecRecursiveArrayWalk(v, chain[i + 1..], out);
          return;
        case Selector =>
          ExecSelectorChain(v, rest, out);
          return;
        case WildCard =>
          ExecWildcard(v, rest, out);
          return;
      }
    }
  }

  /** `execSelectorChain`: appends `SelectorChain(v, chain)` to `out`. */
  method ExecSelectorChain(v: Value, chain: seq<AstNode>, out: Results)
    requires Evaluable(chain) && |chain| > 0 && chain[0].kind == Selector
    modifies out
    ensures out.items == old(out.items) + SelectorChain(v, chain)
    decreases v, |chain|, 2
  {
    if !v.Arr? {
      return;
    }
    var found := Lookup(v.members, Name(chain[0]));
    if found.None? {
      return;
    }
    var w := found.value;
    MemberSmaller(v, Name(chain[0]));
    if |chain| > 1 {
      EvaluateAst(w, chain[1..], out);
    } else {
      out.Add(w);
    }
  }

  /** `execWildcard`: appends `Wildcard(v, chain)` to `out`. */
  method ExecWildcard(v: Value, chain: seq<AstNode>, out: Results)
    requires Evaluable(chain) && |chain| > 0
    modifies out
    ensures out.items == old(out.items) + Wildcard(v, chain)
    decreases v, |chain|, 2
  {
    if !v.Arr? {
      return;
    }
    var i := 0;
    while i < |v.members|
      invariant 0 <= i <= |v.members|
      invariant out.items + WildcardFrom(v, i, chain) == old(out.items) + WildcardFrom(v, 0, chain)
      decreases |v.members| - i
    {
      var data := v.members[i].1;
      assert data < v by { assert v.members[i] in v.members; }
      ghost var before := out.items;
      if |chain| == 1 {
        out.Add(data);
      } else if data.Arr? {
        EvaluateAst(data, chain[1..], out);
      }
      WildcardFromStep(before, v, i, chain);
      i := i + 1;
    }
  }

  /** What member `i` contributes to a wildcard, followed by the later members. */
  lemma WildcardFromStep(before: seq<Value>, v: Value, i: nat, chain: seq<AstNode>)
    requires v.Arr? && i < |v.members| && Evaluable(chain) && |chain| > 0
    ensures (before + MemberMatches(v.members[i].1, chain)) + WildcardFrom(v, i + 1, chain) == before + WildcardFrom(v, i, chain)
  {
    var here, later := MemberMatches(v.members[i].1, chain), WildcardFrom(v, i + 1, chain);
    assert WildcardFrom(v, i, chain) == here + later;
    assert (before + here) + later == before + (here + later);
  }

  /** `execRecursiveArrayWalk`: appends `Walk(v, chain)` to `out`. */
  method ExecRecursiveArrayWalk(v: Value, chain: seq<AstNode>, out: Results)
    requires Evaluable(chain) && |chain| > 0 && chain[0].kind == Selector
    modifies out
    ensures out.items == old(out.items) + Walk(v, chain)
    decreases v, |chain|, 3
  {
    if !v.Arr? {
      return;
    }
    ExecSelectorChain(v, chain, out);
    ghost var start := out.items;
    var i := 0;
    while i < |v.members|
      invariant 0 <= i <= |v.members|
      invariant out.items + WalkFrom(v, i, chain) == start + WalkFrom(v, 0, chain)
      decreases |v.members| - i
    {
      var data := v.members[i].1;
      assert data < v by { assert v.members[i] in v.members; }
      ghost var before := out.items;
      ExecRecursiveArrayWalk(data, chain, out);
      WalkFromStep(before, v, i, chain);
      i := i + 1;
    }
    assert out.items == start + WalkFrom(v, 0, chain);
  }
}
