/**
  Properties of the tree evaluator: what a selector, a wildcard and a
  recursive walk contribute, a path of selectors as the lookup of its labels,
  and the pre-order of the recursive walk.
*/
module EvaluatorProperties {
  import opened Wrappers
  import opened Ast
  import opened Values
  import opened Predicates
  import opened Evaluator

  /** ROOT passes the value on to the rest of the chain unchanged. */
  lemma RootPassesThrough(v: Value, chain: seq<AstNode>)
    requires Evaluable(chain) && |chain| > 0 && chain[0].kind == Root
    ensures EvalChain(v, chain) == EvalChain(v, chain[1..])
  {
  }

  /**
    A selector on a value that is not an array, or whose name is missing,
    matches nothing; as the last node it matches the value found, once;
    otherwise the rest of the chain is evaluated from the value found.
  */
  lemma SelectorCases(v: Value, chain: seq<AstNode>)
    requires Evaluable(chain) && |chain| > 0 && chain[0].kind == Selector
    ensures !v.Arr? ==> EvalChain(v, chain) == []
    ensures v.Arr? && Lookup(v.members, Name(chain[0])).None? ==> EvalChain(v, chain) == []
    ensures v.Arr? && Lookup(v.members, Name(chain[0])).Some? ==>
      EvalChain(v, chain) ==
        if |chain| == 1 then [Lookup(v.members, Name(chain[0])).value]
        else EvalChain(Lookup(v.members, Name(chain[0])).value, chain[1..])
  {
  }

  /** The names of a chain of selectors. */
  function Names(chain: seq<AstNode>): (r: seq<string>)
    ensures |r| == |chain|
    ensures forall k :: 0 <= k < |chain| ==> r[k] == Name(chain[k])
  {
    seq(|chain|, k requires 0 <= k < |chain| => Name(chain[k]))
  }

  predicate AllSelectors(chain: seq<AstNode>)
  {
    forall k :: 0 <= k < |chain| ==> chain[k].kind == Selector
  }

  /**
    A chain of selectors follows their names from the value: it matches the
    one value the labels lead to, or nothing.
  */
  lemma {:induction false} SelectorPath(v: Value, chain: seq<AstNode>)
    requires |chain| > 0 && AllSelectors(chain)
    ensures Evaluable(chain)
    ensures EvalChain(v, chain) == match FollowLabels(v, Names(chain)) case Some(w) => [w] case None => []
    decreases |chain|
  {
    var rest := chain[1..];
    assert AllSelectors(rest) by {
      assert forall k :: 0 <= k < |rest| ==> rest[k] == chain[k + 1];
    }
    if |rest| > 0 {
      SelectorPath(v, rest);
    }
    assert Evaluable(chain);
    var names := Names(chain);
    assert names[1..] == Names(rest);
    match Child(v, Name(chain[0]))
    case None =>
    case Some(w) =>
      if |rest| > 0 {
        SelectorPath(w, rest);
      } else {
        assert names[1..] == [];
      }
  }

  /** A query `$` followed by selectors matches the value its labels lead to, or nothing. */
  lemma RootedSelectorPath(v: Value, chain: seq<AstNode>)
    requires |chain| > 1 && chain[0].kind == Root && AllSelectors(chain[1..])
    ensures Evaluable(chain)
    ensures EvalChain(v, chain) == match FollowLabels(v, Names(chain[1..])) case Some(w) => [w] case None => []
  {
    SelectorPath(v, chain[1..]);
  }

  /** The values of an array's members in iteration order; a value that is not an array has none. */
  function MemberValues(v: Value): (r: seq<Value>)
    ensures |r| == if v.Arr? then |v.members| else 0
    ensures v.Arr? ==> forall k :: 0 <= k < |v.members| ==> r[k] == v.members[k].1
  {
    if v.Arr? then seq(|v.members|, k requires 0 <= k < |v.members| => v.members[k].1) else []
  }

  lemma {:induction false} WildcardFromLast(v: Value, i: nat, chain: seq<AstNode>)
    requires v.Arr? && i <= |v.members| && Evaluable(chain) && |chain| == 1
    ensures WildcardFrom(v, i, chain) == MemberValues(v)[i..]
    decreases |v.members| - i
  {
    if i < |v.members| {
      WildcardFromLast(v, i + 1, chain);
      assert MemberValues(v)[i..] == [MemberValues(v)[i]] + MemberValues(v)[i + 1..];
    }
  }

  /** A wildcard that ends the chain matches every member value, in iteration order. */
  lemma WildcardLast(v: Value, n: AstNode)
    requires n.kind == WildCard
    ensures Evaluable([n])
    ensures EvalChain(v, [n]) == MemberValues(v)
  {
    assert Evaluable([n]) by {
      assert [n][1..] == [];
    }
    if v.Arr? {
      WildcardFromLast(v, 0, [n]);
    }
  }

  /**
    A wildcard with a successor in the chain descends only into the members
    that are arrays: a value is matched exactly when the rest of the chain
    matches it from one of those members; scalar members contribute nothing.
  */
  lemma {:induction false} WildcardFromDescends(v: Value, i: nat, chain: seq<AstNode>, x: Value)
    requires v.Arr? && i <= |v.members| && Evaluable(chain) && |chain| > 1
    ensures x in WildcardFrom(v, i, chain) <==>
      exists k :: i <= k < |v.members| && v.members[k].1.Arr? && x in EvalChain(v.members[k].1, chain[1..])
    decreases |v.members| - i
  {
    if i < |v.members| {
      WildcardFromDescends(v, i + 1, chain, x);
      var m := v.members[i].1;
      if x in EvalChain(m, chain[1..]) && m.Arr? {
        assert i <= i < |v.members| && v.members[i].1.Arr? && x in EvalChain(v.members[i].1, chain[1..]);
      }
    }
  }

  lemma WildcardDescends(v: Value, chain: seq<AstNode>, x: Value)
    requires Evaluable(chain) && |chain| > 1 && chain[0].kind == WildCard
    ensures x in EvalChain(v, chain) <==>
      v.Arr? && exists k :: 0 <= k < |v.members| && v.members[k].1.Arr? && x in EvalChain(v.members[k].1, chain[1..])
  {
    if v.Arr? {
      WildcardFromDescends(v, 0, chain, x);
    }
  }

  /**
    The arrays within a value in pre-order: the value itself when it is an
    array, then the arrays within each of its members, in iteration order.
  */
  function ArraysIn(v: Value): seq<Value>
    decreases v, 1
  {
    if v.Arr? then [v] + ArraysFrom(v, 0) else []
  }

  function ArraysFrom(v: Value, i: nat): seq<Value>
    requires v.Arr? && i <= |v.members|
    decreases v, 0, |v.members| - i
  {
    if i == |v.members| then []
    else
      var m := v.members[i].1;
      assert m < v by { assert v.members[i] in v.members; }
      ArraysIn(m) + ArraysFrom(v, i + 1)
  }

  /** The selector chain applied to each value of `ws` in turn, the matches concatenated. */
  function SelectAll(ws: seq<Value>, chain: seq<AstNode>): seq<Value>
    requires Evaluable(chain) && |chain| > 0 && chain[0].kind == Selector
    decreases |ws|
  {
    if |ws| == 0 then [] else SelectorChain(ws[0], chain) + SelectAll(ws[1..], chain)
  }

  lemma {:induction false} SelectAllAppend(a: seq<Value>, b: seq<Value>, chain: seq<AstNode>)
    requires Evaluable(chain) && |chain| > 0 && chain[0].kind == Selector
    ensures SelectAll(a + b, chain) == SelectAll(a, chain) + SelectAll(b, chain)
    decreases |a|
  {
    if |a| == 0 {
      assert a + b == b;
    } else {
      assert (a + b)[1..] == a[1..] + b;
      SelectAllAppend(a[1..], b, chain);
    }
  }

  /**
    The recursive walk is the selector chain applied to every array within
    the value, in pre-order: a node before its members, members in order.
  */
  lemma {:induction false} WalkPreOrder(v: Value, chain: seq<AstNode>)
    requires Evaluable(chain) && |chain| > 0 && chain[0].kind == Selector
    ensures Walk(v, chain) == SelectAll(ArraysIn(v), chain)
    decreases v, 1
  {
    if v.Arr? {
      WalkFromPreOrder(v, 0, chain);
      SelectAllAppend([v], ArraysFrom(v, 0), chain);
      assert SelectAll([v], chain) == SelectorChain(v, chain);
    }
  }

  lemma {:induction false} WalkFromPreOrder(v: Value, i: nat, chain: seq<AstNode>)
    requires v.Arr? && i <= |v.members| && Evaluable(chain) && |chain| > 0 && chain[0].kind == Selector
    ensures WalkFrom(v, i, chain) == SelectAll(ArraysFrom(v, i), chain)
    decreases v, 0, |v.members| - i
  {
    if i < |v.members| {
      var m := v.members[i].1;
      assert m < v by { assert v.members[i] in v.members; }
      WalkPreOrder(m, chain);
      WalkFromPreOrder(v, i + 1, chain);
      SelectAllAppend(ArraysIn(m), ArraysFrom(v, i + 1), chain);
    }
  }

  /** `..name` matches, in pre-order, the `name` member of every array within the value. */
  lemma DeepScanPreOrder(v: Value, chain: seq<AstNode>)
    requires Evaluable(chain) && |chain| > 1 && chain[0].kind == Recurse
    ensures chain[1].kind == Selector
    ensures EvalChain(v, chain) == SelectAll(ArraysIn(v), chain[1..])
  {
    WalkPreOrder(v, chain[1..]);
  }
}
