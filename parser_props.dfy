/**
  Properties of the parser model: the precedence tiers, the cases of
  `push_operator` and the ordering it keeps on the operator stack, what a `)`
  and a filter `]` emit, the `[?`/`]` balance that decides "Missing filter
  end ]", the length of the chain, and the index lists and slices
  `parse_filter_list` builds.
*/
module ParserProperties {
  import opened Wrappers
  import Lexer
  import opened Ast
  import opened NodeStack
  import opened Numerals
  import opened Parser

  /** ISSET binds tightest, then the orderings and `=~`, then `==`/`!=`, then `&&`, then `||`. */
  lemma PrecedenceTiers(t: AstType)
    requires IsOperatorKind(t)
    ensures Precedence(t) == 10000 <==> t == Isset
    ensures Precedence(t) == 1000 <==> t in {AstType.Lt, AstType.Lte, AstType.Gt, AstType.Gte, AstType.Rgxp}
    ensures Precedence(t) == 900 <==> t in {AstType.Eq, Ne}
    ensures Precedence(t) == 800 <==> t == AstType.And
    ensures Precedence(t) == 700 <==> t == AstType.Or
  {
  }

  /** The one unary operator is the one that binds tighter than every other. */
  lemma UnaryBindsTightest(t: AstType)
    requires IsOperatorKind(t)
    ensures IsUnary(t) <==> forall u :: IsOperatorKind(u) && u != t ==> Precedence(u) < Precedence(t)
  {
    if !IsUnary(t) {
      assert IsOperatorKind(Isset) && Isset != t && Precedence(Isset) >= Precedence(t);
    }
  }

  /** `push_operator` keeps the incoming operator unless it is weaker than the operator on top. */
  predicate Drops(ops: seq<AstNode>, cur: AstNode)
    requires OperatorStack(ops) && IsOperatorKind(cur.kind)
  {
    |ops| > 0 && ops[|ops| - 1].kind != ParenLeft && Precedence(cur.kind) < Precedence(ops[|ops| - 1].kind)
  }

  /**
    The cases of `push_operator`: nothing is emitted exactly when the stack is
    empty, has `(` on top or has a weaker operator on top, and then the
    operator is pushed. Otherwise the top is emitted and, at equal
    precedence, replaced by the operator; at lower precedence the operator is
    lost. No other node appears or disappears.
  */
  lemma PushOperatorCases(ops: seq<AstNode>, cur: AstNode)
    requires OperatorStack(ops) && IsOperatorKind(cur.kind)
    ensures var r := PushOperatorSpec(ops, cur);
      r.1.None? <==> (|ops| == 0 || ops[|ops| - 1].kind == ParenLeft || Precedence(cur.kind) > Precedence(ops[|ops| - 1].kind))
    ensures var r := PushOperatorSpec(ops, cur);
      r.1.None? ==> r.0 == ops + [cur]
    ensures var r := PushOperatorSpec(ops, cur);
      r.1.Some? ==> r.1.value == ops[|ops| - 1] && r.0[..|ops| - 1] == ops[..|ops| - 1]
    ensures var r := PushOperatorSpec(ops, cur);
      multiset(r.0) + multiset(Emitted(r.1)) == multiset(ops) + (if Drops(ops, cur) then multiset{} else multiset{cur})
  {
    var r := PushOperatorSpec(ops, cur);
    if r.1.Some? {
      var n := |ops|;
      assert ops == ops[..n - 1] + [ops[n - 1]];
    }
  }

  /** A prefix of an ascending stack is ascending. */
  lemma AscendingPrefix(ops: seq<AstNode>, j: nat)
    requires OperatorStack(ops) && Ascending(ops) && j <= |ops|
    ensures OperatorStack(ops[..j]) && Ascending(ops[..j])
  {
    assert forall k :: 0 <= k < j ==> ops[..j][k] == ops[k];
  }

  /** `push_operator` keeps the precedences in each parenthesised segment strictly increasing. */
  lemma PushOperatorAscending(ops: seq<AstNode>, cur: AstNode)
    requires OperatorStack(ops) && Ascending(ops) && IsOperatorKind(cur.kind)
    ensures Ascending(PushOperatorSpec(ops, cur).0)
  {
    var n := |ops|;
    var r := PushOperatorSpec(ops, cur).0;
    if n == 0 || ops[n - 1].kind == ParenLeft || Precedence(cur.kind) > Precedence(ops[n - 1].kind) {
      assert r == ops + [cur];
      assert forall k :: 0 <= k < n ==> r[k] == ops[k];
    } else {
      AscendingPrefix(ops, n - 1);
      if Precedence(cur.kind) == Precedence(ops[n - 1].kind) {
        assert r == ops[..n - 1] + [cur];
        assert forall k :: 0 <= k < n - 1 ==> r[k] == ops[k];
      }
    }
  }

  /**
    A `)` that does not follow a selector pops the operators above the
    topmost `(`, top first, and discards that `(`.
  */
  lemma {:induction false} PopToParenShape(ops: seq<AstNode>, j: nat)
    requires j < |ops| && ops[j].kind == ParenLeft
    requires forall k :: j < k < |ops| ==> ops[k].kind != ParenLeft
    ensures PopToParen(ops) == (Reverse(ops[j + 1..]), ops[..j])
    decreases |ops|
  {
    var n := |ops|;
    if j == n - 1 {
      assert ops[j + 1..] == [];
    } else {
      var front := ops[..n - 1];
      PopToParenShape(front, j);
      assert front[j + 1..] == ops[j + 1..n - 1];
      assert front[..j] == ops[..j];
      var seg := ops[j + 1..];
      assert seg[|seg| - 1] == ops[n - 1];
      assert seg[..|seg| - 1] == ops[j + 1..n - 1];
    }
  }

  /** With no `(` on the stack, a `)` empties it, top first. */
  lemma {:induction false} PopToParenWithoutParen(ops: seq<AstNode>)
    requires forall k :: 0 <= k < |ops| ==> ops[k].kind != ParenLeft
    ensures PopToParen(ops) == (Reverse(ops), [])
    decreases |ops|
  {
    if |ops| > 0 {
      PopToParenWithoutParen(ops[..|ops| - 1]);
    }
  }

  /** A `)` right after a selector is the ISSET test of that selector and leaves the stack alone. */
  lemma ParenCloseAfterSelector(text: string, st: ParseState)
    requires OperatorStack(st.ops) && EndsInSelector(st.chain)
    ensures SimpleStep(Lexer.ParenClose, text, st) == Ok(st.(chain := st.chain + [Bare(Isset)]))
  {
  }

  /** Any other `)` closes the topmost `(`: the operators above it go to the chain, top first. */
  lemma ParenCloseAfterOperand(text: string, st: ParseState, j: nat)
    requires OperatorStack(st.ops) && !EndsInSelector(st.chain)
    requires j < |st.ops| && st.ops[j].kind == ParenLeft
    requires forall k :: j < k < |st.ops| ==> st.ops[k].kind != ParenLeft
    ensures SimpleStep(Lexer.ParenClose, text, st) ==
      Ok(ParseState(st.chain + Reverse(st.ops[j + 1..]), st.ops[..j], st.depth))
  {
    PopToParenShape(st.ops, j);
  }

  /**
    A filter `]` appends EXPR_END, then every stacked node, the last pushed
    first, and leaves the stack empty and one `[?` fewer open.
  */
  lemma ExprEndDrains(text: string, st: ParseState)
    requires OperatorStack(st.ops)
    ensures var r := SimpleStep(Lexer.ExprEnd, text, st);
      && r.Ok? && r.value.ops == [] && r.value.depth == st.depth - 1
      && |r.value.chain| == |st.chain| + 1 + |st.ops|
      && r.value.chain[..|st.chain| + 1] == st.chain + [Bare(ExprEnd)]
      && var drained := r.value.chain[|st.chain| + 1..];
        forall k :: 0 <= k < |drained| ==> drained[k] == st.ops[|st.ops| - 1 - k]
  {
    var r := SimpleStep(Lexer.ExprEnd, text, st);
    var c := st.chain + [Bare(ExprEnd)];
    assert r.value.chain == c + Reverse(st.ops);
    assert r.value.chain[..|c|] == c;
    assert r.value.chain[|c|..] == Reverse(st.ops);
  }

  /** A selector node looks up its token's text, in the current node's scope exactly when it came from `@`. */
  lemma SelectorScope(tok: Lexer.TokenKind, text: string, st: ParseState)
    requires OperatorStack(st.ops) && (tok == Lexer.Node || tok == Lexer.CurNode)
    ensures SimpleStep(tok, text, st) == Ok(st.(chain := st.chain + [AstNode(Selector, SelectorData(text, tok == Lexer.CurNode))]))
  {
  }

  /**
    A literal fails with "Buffer size exceeded" exactly when its text and
    terminator do not fit a `PARSE_BUF_LEN` buffer; otherwise one literal
    node holding the text is appended, with `true` and `false` renamed.
  */
  lemma LiteralStep(tok: Lexer.TokenKind, text: string, st: ParseState)
    requires OperatorStack(st.ops) && (tok == Lexer.Literal || tok == Lexer.LiteralBool)
    ensures SimpleStep(tok, text, st).Err? <==> |text| >= PARSE_BUF_LEN
    ensures SimpleStep(tok, text, st).Ok? ==>
      SimpleStep(tok, text, st).value == st.(chain := st.chain + [
        if tok == Lexer.Literal then AstNode(Literal, LiteralData(text))
        else AstNode(LiteralBool, LiteralData(BoolLiteralText(text)))])
  {
  }

  /** Boolean literal texts: `true` and `false` become the literal markers; any other text is kept. */
  lemma BoolLiteralMapping(text: string)
    ensures BoolLiteralText(text) == LiteralTrue <==> text == "true" || text == LiteralTrue
    ensures BoolLiteralText(text) == LiteralFalse <==> text == "false" || text == LiteralFalse
    ensures text != "true" && text != "false" ==> BoolLiteralText(text) == text
  {
  }

  /** A list step never leaves fewer index slots than `:` seen. */
  lemma {:induction false} ListSlotsCoverSlices(toks: seq<Lexer.TokenKind>, vals: seq<string>, i: nat, st: ListState)
    requires |toks| == |vals| && i <= |toks| && st.slices <= |st.indexes|
    ensures FilterListFrom(toks, vals, i, st).0.slices <= |FilterListFrom(toks, vals, i, st).0.indexes|
    ensures |st.indexes| <= |FilterListFrom(toks, vals, i, st).0.indexes|
    decreases |toks| - i
  {
    if i < |toks| && toks[i] != Lexer.ExprEnd {
      ListSlotsCoverSlices(toks, vals, i + 1, ListStep(st, toks[i], vals[i]));
    }
  }

  /** The `atoi` values of the literal tokens among `toks[i..j]`, in order. */
  function LiteralValues(toks: seq<Lexer.TokenKind>, vals: seq<string>, i: nat, j: nat): seq<int>
    requires |toks| == |vals| && i <= j <= |toks|
    decreases j - i
  {
    if i == j then []
    else (if toks[i] == Lexer.Literal then [Atoi(vals[i])] else []) + LiteralValues(toks, vals, i + 1, j)
  }

  /** One list token other than `:`: a literal adds its `atoi` value, a `,` makes an index list. */
  lemma ListStepNoSlice(st: ListState, tok: Lexer.TokenKind, text: string)
    requires tok != Lexer.Slice
    ensures var r := ListStep(st, tok, text);
      && r.indexes == st.indexes + (if tok == Lexer.Literal then [Atoi(text)] else [])
      && r.slices == st.slices
      && (r.kind == IndexList <==> st.kind == IndexList || tok == Lexer.ChildSep)
      && (r.kind != IndexList ==> r.kind == st.kind)
  {
  }

  /** Without `:` before its `]`, a list appends the `atoi` value of each literal in order. */
  lemma {:induction false} NoSliceIndexes(toks: seq<Lexer.TokenKind>, vals: seq<string>, i: nat, st: ListState)
    requires |toks| == |vals| && i <= |toks|
    requires forall k :: i <= k < FilterListFrom(toks, vals, i, st).1 ==> toks[k] != Lexer.Slice
    ensures var r := FilterListFrom(toks, vals, i, st);
      r.0.indexes == st.indexes + LiteralValues(toks, vals, i, r.1) && r.0.slices == st.slices
    decreases |toks| - i
  {
    if i < |toks| && toks[i] != Lexer.ExprEnd {
      var st' := ListStep(st, toks[i], vals[i]);
      ListStepNoSlice(st, toks[i], vals[i]);
      assert FilterListFrom(toks, vals, i, st) == FilterListFrom(toks, vals, i + 1, st');
      NoSliceIndexes(toks, vals, i + 1, st');
      var r := FilterListFrom(toks, vals, i + 1, st');
      assert FilterListFrom(toks, vals, i, st) == r;
      var here := if toks[i] == Lexer.Literal then [Atoi(vals[i])] else [];
      assert LiteralValues(toks, vals, i, r.1) == here + LiteralValues(toks, vals, i + 1, r.1);
      assert st.indexes + here + LiteralValues(toks, vals, i + 1, r.1) == st.indexes + (here + LiteralValues(toks, vals, i + 1, r.1));
    }
  }

  /** Without `:` before its `]`, a list becomes an index list exactly when a `,` occurs before the `]`. */
  lemma {:induction false} NoSliceKind(toks: seq<Lexer.TokenKind>, vals: seq<string>, i: nat, st: ListState)
    requires |toks| == |vals| && i <= |toks|
    requires forall k :: i <= k < FilterListFrom(toks, vals, i, st).1 ==> toks[k] != Lexer.Slice
    ensures var r := FilterListFrom(toks, vals, i, st);
      && (r.0.kind == IndexList <==> st.kind == IndexList || exists k :: i <= k < r.1 && toks[k] == Lexer.ChildSep)
      && (r.0.kind != IndexList ==> r.0.kind == st.kind)
    decreases |toks| - i
  {
    if i < |toks| && toks[i] != Lexer.ExprEnd {
      var st' := ListStep(st, toks[i], vals[i]);
      ListStepNoSlice(st, toks[i], vals[i]);
      assert FilterListFrom(toks, vals, i, st) == FilterListFrom(toks, vals, i + 1, st');
      NoSliceKind(toks, vals, i + 1, st');
      var r := FilterListFrom(toks, vals, i + 1, st');
      assert FilterListFrom(toks, vals, i, st) == r;
      if toks[i] == Lexer.ChildSep {
        assert i <= i < r.1 && toks[i] == Lexer.ChildSep;
      }
    }
  }

  /**
    Without `:` before its `]`, a list holds the `atoi` value of each literal in order, and
    it is an index list exactly when a `,` occurs before the `]` (or it
    already was one).
  */
  lemma IndexListValues(toks: seq<Lexer.TokenKind>, vals: seq<string>, i: nat, st: ListState)
    requires |toks| == |vals| && i <= |toks|
    requires forall k :: i <= k < FilterListFrom(toks, vals, i, st).1 ==> toks[k] != Lexer.Slice
    ensures var r := FilterListFrom(toks, vals, i, st);
      && r.0.indexes == st.indexes + LiteralValues(toks, vals, i, r.1)
      && r.0.slices == st.slices
      && (r.0.kind == IndexList <==> st.kind == IndexList || exists k :: i <= k < r.1 && toks[k] == Lexer.ChildSep)
      && (r.0.kind != IndexList ==> r.0.kind == st.kind)
  {
    NoSliceIndexes(toks, vals, i, st);
    NoSliceKind(toks, vals, i, st);
  }

  /** `[:b]`: the missing lower bound of a slice is INT_MAX. */
  lemma SliceWithoutStart(b: string)
    ensures FilterListFrom([Lexer.Slice, Lexer.Literal, Lexer.ExprEnd], ["", b, ""], 0, EmptyList)
      == (ListState(IndexSlice, [INT_MAX, Atoi(b)], 1), 2)
  {
    var t, v := [Lexer.Slice, Lexer.Literal, Lexer.ExprEnd], ["", b, ""];
    var s1 := ListState(IndexSlice, [INT_MAX], 1);
    var s2 := ListState(IndexSlice, [INT_MAX, Atoi(b)], 1);
    assert ListStep(EmptyList, Lexer.Slice, "") == s1;
    assert ListStep(s1, Lexer.Literal, b) == s2;
    assert FilterListFrom(t, v, 2, s2) == (s2, 2);
    assert FilterListFrom(t, v, 1, s1) == (s2, 2);
  }

  /** `[a:b]`: both bounds are the literals' values. */
  lemma SliceWithBounds(a: string, b: string)
    ensures FilterListFrom([Lexer.Literal, Lexer.Slice, Lexer.Literal, Lexer.ExprEnd], [a, "", b, ""], 0, EmptyList)
      == (ListState(IndexSlice, [Atoi(a), Atoi(b)], 1), 3)
  {
    var t, v := [Lexer.Literal, Lexer.Slice, Lexer.Literal, Lexer.ExprEnd], [a, "", b, ""];
    var s1 := ListState(IndexSlice, [Atoi(a)], 0);
    var s2 := ListState(IndexSlice, [Atoi(a)], 1);
    var s3 := ListState(IndexSlice, [Atoi(a), Atoi(b)], 1);
    assert ListStep(EmptyList, Lexer.Literal, a) == s1;
    assert ListStep(s1, Lexer.Slice, "") == s2;
    assert ListStep(s2, Lexer.Literal, b) == s3;
    assert FilterListFrom(t, v, 3, s3) == (s3, 3);
    assert FilterListFrom(t, v, 2, s2) == (s3, 3);
    assert FilterListFrom(t, v, 1, s1) == (s3, 3);
  }

  /** `[a::]`: the second `:` with no bound before it adds an INT_MAX slot. */
  lemma SliceWithSecondColon(a: string)
    ensures FilterListFrom([Lexer.Literal, Lexer.Slice, Lexer.Slice, Lexer.ExprEnd], [a, "", "", ""], 0, EmptyList)
      == (ListState(IndexSlice, [Atoi(a), INT_MAX], 2), 3)
  {
    var t, v := [Lexer.Literal, Lexer.Slice, Lexer.Slice, Lexer.ExprEnd], [a, "", "", ""];
    var s1 := ListState(IndexSlice, [Atoi(a)], 0);
    var s2 := ListState(IndexSlice, [Atoi(a)], 1);
    var s3 := ListState(IndexSlice, [Atoi(a), INT_MAX], 2);
    assert ListStep(EmptyList, Lexer.Literal, a) == s1;
    assert ListStep(s1, Lexer.Slice, "") == s2;
    assert ListStep(s2, Lexer.Slice, "") == s3;
    assert FilterListFrom(t, v, 3, s3) == (s3, 3);
    assert FilterListFrom(t, v, 2, s2) == (s3, 3);
    assert FilterListFrom(t, v, 1, s1) == (s3, 3);
  }

  /** `[a,b]`: a `,` makes an index list of the literals' values. */
  lemma IndexListOfTwo(a: string, b: string)
    ensures FilterListFrom([Lexer.Literal, Lexer.ChildSep, Lexer.Literal, Lexer.ExprEnd], [a, "", b, ""], 0, EmptyList)
      == (ListState(IndexList, [Atoi(a), Atoi(b)], 0), 3)
  {
    var t, v := [Lexer.Literal, Lexer.ChildSep, Lexer.Literal, Lexer.ExprEnd], [a, "", b, ""];
    var s1 := ListState(IndexSlice, [Atoi(a)], 0);
    var s2 := ListState(IndexList, [Atoi(a)], 0);
    var s3 := ListState(IndexList, [Atoi(a), Atoi(b)], 0);
    assert ListStep(EmptyList, Lexer.Literal, a) == s1;
    assert ListStep(s1, Lexer.ChildSep, "") == s2;
    assert ListStep(s2, Lexer.Literal, b) == s3;
    assert FilterListFrom(t, v, 3, s3) == (s3, 3);
    assert FilterListFrom(t, v, 2, s2) == (s3, 3);
    assert FilterListFrom(t, v, 1, s1) == (s3, 3);
  }

  /** Whether a `,` occurs among `toks[i..m]`. */
  predicate CommaIn(toks: seq<Lexer.TokenKind>, i: nat, m: nat)
  {
    exists k :: i <= k < m && k < |toks| && toks[k] == Lexer.ChildSep
  }

  /** The list state after a stretch `toks[i..m]` with no `:` and no `]`. */
  function AfterNoSlice(toks: seq<Lexer.TokenKind>, vals: seq<string>, i: nat, m: nat, st: ListState): ListState
    requires |toks| == |vals| && i <= m <= |toks|
  {
    ListState(if st.kind == IndexList || CommaIn(toks, i, m) then IndexList else st.kind,
      st.indexes + LiteralValues(toks, vals, i, m), st.slices)
  }

  /** One token of such a stretch moves the start of the stretch on. */
  lemma AfterNoSliceStep(toks: seq<Lexer.TokenKind>, vals: seq<string>, i: nat, m: nat, st: ListState)
    requires |toks| == |vals| && i < m <= |toks| && toks[i] != Lexer.Slice
    ensures AfterNoSlice(toks, vals, i + 1, m, ListStep(st, toks[i], vals[i])) == AfterNoSlice(toks, vals, i, m, st)
  {
    var st' := ListStep(st, toks[i], vals[i]);
    ListStepNoSlice(st, toks[i], vals[i]);
    var here := if toks[i] == Lexer.Literal then [Atoi(vals[i])] else [];
    assert LiteralValues(toks, vals, i, m) == here + LiteralValues(toks, vals, i + 1, m);
    assert st'.indexes + LiteralValues(toks, vals, i + 1, m) == st.indexes + LiteralValues(toks, vals, i, m);
    if toks[i] == Lexer.ChildSep {
      assert CommaIn(toks, i, m);
    }
    if CommaIn(toks, i, m) && !CommaIn(toks, i + 1, m) {
      var k :| i <= k < m && k < |toks| && toks[k] == Lexer.ChildSep;
      assert k == i;
    }
  }

  /** `toks[i..m]` holds neither a `:` nor a `]`. */
  predicate PlainStretch(toks: seq<Lexer.TokenKind>, i: nat, m: nat)
    requires i <= m <= |toks|
  {
    forall k :: i <= k < m ==> toks[k] != Lexer.Slice && toks[k] != Lexer.ExprEnd
  }

  /** An empty stretch leaves the list state as it is. */
  lemma AfterEmptyStretch(toks: seq<Lexer.TokenKind>, vals: seq<string>, i: nat, st: ListState)
    requires |toks| == |vals| && i <= |toks|
    ensures AfterNoSlice(toks, vals, i, i, st) == st
  {
    assert st.indexes + LiteralValues(toks, vals, i, i) == st.indexes;
    assert !CommaIn(toks, i, i);
  }

  /**
    A stretch `toks[i..m]` of a list with no `:` and no `]` adds the `atoi`
    value of each literal in order, and makes an index list exactly when it
    holds a `,`; the list then goes on at `m`.
  */
  lemma {:induction false} NoSlicePrefix(toks: seq<Lexer.TokenKind>, vals: seq<string>, i: nat, m: nat, st: ListState)
    requires |toks| == |vals| && i <= m <= |toks|
    requires PlainStretch(toks, i, m)
    ensures FilterListFrom(toks, vals, i, st) == FilterListFrom(toks, vals, m, AfterNoSlice(toks, vals, i, m, st))
    decreases m - i
  {
    if i == m {
      AfterEmptyStretch(toks, vals, i, st);
    } else {
      assert toks[i] != Lexer.ExprEnd && PlainStretch(toks, i + 1, m);
      var st' := ListStep(st, toks[i], vals[i]);
      assert FilterListFrom(toks, vals, i, st) == FilterListFrom(toks, vals, i + 1, st');
      NoSlicePrefix(toks, vals, i + 1, m, st');
      AfterNoSliceStep(toks, vals, i, m, st);
    }
  }

  /**
    The first `:` of a list, at token `m`, after a stretch with no `:` and no
    `]`: the list goes on after it as a slice whose slots are the stretch's
    literals, or INT_MAX when there are none.
  */
  lemma FirstSliceAt(toks: seq<Lexer.TokenKind>, vals: seq<string>, i: nat, m: nat)
    requires |toks| == |vals| && i <= m < |toks| && toks[m] == Lexer.Slice
    requires PlainStretch(toks, i, m)
    ensures var before := LiteralValues(toks, vals, i, m);
      FilterListFrom(toks, vals, i, EmptyList)
      == FilterListFrom(toks, vals, m + 1, ListState(IndexSlice, if before == [] then [INT_MAX] else before, 1))
  {
    var before := LiteralValues(toks, vals, i, m);
    NoSlicePrefix(toks, vals, i, m, EmptyList);
    var s := AfterNoSlice(toks, vals, i, m, EmptyList);
    assert s.indexes == before && s.slices == 0;
    var t := ListStep(s, Lexer.Slice, vals[m]);
    assert t == ListState(IndexSlice, if before == [] then [INT_MAX] else before, 1);
    assert FilterListFrom(toks, vals, m, s) == FilterListFrom(toks, vals, m + 1, t);
  }

  /**
    A list with one `:`, at token `m`: the literals before it give the lower
    bound, or INT_MAX when there are none, and the literals after it follow;
    the node is a slice unless a `,` comes after the `:`.
  */
  lemma OneSlice(toks: seq<Lexer.TokenKind>, vals: seq<string>, i: nat, m: nat)
    requires |toks| == |vals| && i <= m < |toks| && toks[m] == Lexer.Slice
    requires PlainStretch(toks, i, m)
    requires forall k :: m < k < FilterListFrom(toks, vals, i, EmptyList).1 ==> toks[k] != Lexer.Slice
    ensures var r := FilterListFrom(toks, vals, i, EmptyList);
      var before := LiteralValues(toks, vals, i, m);
      && r.0.slices == 1
      && r.0.indexes == (if before == [] then [INT_MAX] else before) + LiteralValues(toks, vals, m + 1, r.1)
      && (r.0.kind == IndexList <==> exists k :: m < k < r.1 && toks[k] == Lexer.ChildSep)
  {
    var before := LiteralValues(toks, vals, i, m);
    var t := ListState(IndexSlice, if before == [] then [INT_MAX] else before, 1);
    FirstSliceAt(toks, vals, i, m);
    IndexListValues(toks, vals, m + 1, t);
  }

  /** A token other than `(`, `)` and `]` leaves the operator stack as it is. */
  lemma SimpleStepKeepsOps(tok: Lexer.TokenKind, text: string, st: ParseState)
    requires OperatorStack(st.ops)
    requires tok != Lexer.ParenOpen && tok != Lexer.ParenClose && tok != Lexer.ExprEnd
    ensures SimpleStep(tok, text, st).Ok? ==> SimpleStep(tok, text, st).value.ops == st.ops
  {
  }

  /** A token that is neither an operator nor a `[` keeps each parenthesised segment ascending. */
  lemma SimpleStepAscending(tok: Lexer.TokenKind, text: string, st: ParseState)
    requires OperatorStack(st.ops) && Ascending(st.ops)
    ensures SimpleStep(tok, text, st).Ok? ==> Ascending(SimpleStep(tok, text, st).value.ops)
  {
    if tok == Lexer.ParenOpen {
      assert forall k :: 0 <= k < |st.ops| ==> (st.ops + [Bare(ParenLeft)])[k] == st.ops[k];
    } else if tok == Lexer.ParenClose {
      if !EndsInSelector(st.chain) {
        AscendingPrefix(st.ops, |PopToParen(st.ops).1|);
      }
    } else if tok != Lexer.ExprEnd {
      SimpleStepKeepsOps(tok, text, st);
    }
  }

  /** Every parse step keeps each parenthesised segment of the operator stack ascending. */
  lemma StepAscending(toks: seq<Lexer.TokenKind>, vals: seq<string>, i: nat, st: ParseState)
    requires |toks| == |vals| && i < |toks| && OperatorStack(st.ops) && Ascending(st.ops)
    ensures Step(toks, vals, i, st).Ok? ==> Ascending(Step(toks, vals, i, st).value.0.ops)
  {
    if toks[i] != Lexer.FilterStart {
      match OperatorKind(toks[i])
      case Some(k) =>
        PushOperatorAscending(st.ops, Bare(k));
      case None =>
        SimpleStepAscending(toks[i], vals[i], st);
    }
  }
}
