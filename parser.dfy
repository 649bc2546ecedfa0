/**
  The query parser (src/jsonpath/parser.c): `build_parse_tree` turns the
  token buffer into a chain of AST nodes, using a shunting-yard operator
  stack (`push_operator`) for the filter expressions and `parse_filter_list`
  for the contents of an index list or slice.

  The caller's buffers are two sequences of equal length: the token kinds and
  their literal texts. The reference behaviour is the function `Build`, which
  folds `Step` over the tokens; the methods work as the C code does, on a
  `NodeStack.Stack`, and are proved to compute `Build`.

  Deviations from the C text, which is in the middle of a refactoring:
  - `d_list.count` of a new node is never set in C; it is taken to start at 0,
    and an index slot that is counted without being written holds 0.
  - `lex_tok[*lex_idx + 1]` is read past the last token when `[` ends the
    query; that slot is taken to hold neither a literal nor a slice.
  - A `)` with no node before it inspects the uninitialised type of `head`;
    it is taken not to be a selector.
*/
module Parser {
  import opened Wrappers
  import Lexer
  import opened Ast
  import opened NodeStack
  import opened Numerals

  const PARSE_BUF_LEN: nat := 50
  const INT_MAX: int := 2147483647

  const BufferSizeExceeded: string := "Buffer size exceeded"
  const MissingFilterEnd: string := "Missing filter end ]"

  /** `get_operator_precedence` (parser.c:416-449), for the kinds it has a value for. */
  function Precedence(t: AstType): nat
    requires IsOperatorKind(t)
  {
    match t
    case Isset => 10000
    case Lt => 1000
    case Lte => 1000
    case Gt => 1000
    case Gte => 1000
    case Rgxp => 1000
    case Ne => 900
    case Eq => 900
    case And => 800
    case Or => 700
  }

  /** `is_unary` (parser.c:410-413). */
  predicate IsUnary(t: AstType)
  {
    t == Isset
  }

  /** Every node on the operator stack is an operator or a `(`. */
  predicate OperatorStack(ops: seq<AstNode>)
  {
    forall k :: 0 <= k < |ops| ==> IsOperatorKind(ops[k].kind) || ops[k].kind == ParenLeft
  }

  /**
    Within each parenthesised segment of the operator stack, precedence
    strictly increases from bottom to top.
  */
  predicate Ascending(ops: seq<AstNode>)
    requires OperatorStack(ops)
  {
    forall k :: 0 < k < |ops| && ops[k - 1].kind != ParenLeft && ops[k].kind != ParenLeft ==>
      Precedence(ops[k - 1].kind) < Precedence(ops[k].kind)
  }

  /**
    `push_operator` (parser.c:20-46) on the stacked nodes `ops`: the new stack
    and the node emitted to the chain, if any.
  */
  function PushOperatorSpec(ops: seq<AstNode>, cur: AstNode): (r: (seq<AstNode>, Option<AstNode>))
    requires OperatorStack(ops) && IsOperatorKind(cur.kind)
    ensures OperatorStack(r.0)
    ensures |r.0| <= |ops| + 1
    ensures r.1.Some? ==> |r.0| <= |ops| && IsOperatorKind(r.1.value.kind)
  {
    if |ops| == 0 || ops[|ops| - 1].kind == ParenLeft then (ops + [cur], None)
    else
      var top := ops[|ops| - 1];
      if Precedence(cur.kind) > Precedence(top.kind) then (ops + [cur], None)
      else if Precedence(cur.kind) < Precedence(top.kind) then (ops[..|ops| - 1], Some(top))
      else (ops[..|ops| - 1] + [cur], Some(top))
  }

  /** `push_operator`: pushes, swaps or pops as `PushOperatorSpec` says. */
  method PushOperator(s: Stack, cur: AstNode) returns (emitted: Option<AstNode>)
    requires s.Valid() && s.size < STACK_MAX
    requires OperatorStack(s.Elements()) && IsOperatorKind(cur.kind)
    modifies s, s.data
    ensures s.Valid() && s.data == old(s.data)
    ensures (s.Elements(), emitted) == PushOperatorSpec(old(s.Elements()), cur)
  {
    if s.size == 0 || s.Top().kind == ParenLeft {
      s.Push(cur);
      return None;
    }
    var tmp := s.Top();
    if Precedence(cur.kind) > Precedence(tmp.kind) {
      s.Push(cur);
      return None;
    }
    if Precedence(cur.kind) < Precedence(tmp.kind) {
      s.Pop();
    } else {
      s.Pop();
      s.Push(cur);
    }
    return Some(tmp);
  }

  /** The elements of a sequence in reverse order. */
  function Reverse<T>(xs: seq<T>): (r: seq<T>)
    ensures |r| == |xs|
    ensures forall k :: 0 <= k < |xs| ==> r[k] == xs[|xs| - 1 - k]
  {
    if |xs| == 0 then [] else [xs[|xs| - 1]] + Reverse(xs[..|xs| - 1])
  }

  /**
    The loop of a `)` that does not follow a selector (parser.c:116-124): pop
    nodes onto the chain until a `(` is popped or the stack is empty. The
    result is the emitted nodes and the remaining stack.
  */
  function PopToParen(ops: seq<AstNode>): (r: (seq<AstNode>, seq<AstNode>))
    ensures |r.0| + |r.1| <= |ops|
    ensures r.1 == ops[..|r.1|]
    decreases |ops|
  {
    if |ops| == 0 then ([], [])
    else if ops[|ops| - 1].kind == ParenLeft then ([], ops[..|ops| - 1])
    else
      var rest := PopToParen(ops[..|ops| - 1]);
      ([ops[|ops| - 1]] + rest.0, rest.1)
  }

  /** One pop of the `)` loop: a `(` on top ends it, with the nodes emitted so far. */
  lemma PopToParenStop(emitted: seq<AstNode>, ops: seq<AstNode>)
    requires |ops| > 0 && ops[|ops| - 1].kind == ParenLeft
    ensures (emitted + PopToParen(ops).0, PopToParen(ops).1) == (emitted, ops[..|ops| - 1])
  {
    assert emitted + [] == emitted;
  }

  /** One pop of the `)` loop: any other node on top is emitted after those emitted so far. */
  lemma PopToParenStep(emitted: seq<AstNode>, ops: seq<AstNode>)
    requires |ops| > 0 && ops[|ops| - 1].kind != ParenLeft
    ensures (emitted + PopToParen(ops).0, PopToParen(ops).1) ==
      ((emitted + [ops[|ops| - 1]]) + PopToParen(ops[..|ops| - 1]).0, PopToParen(ops[..|ops| - 1]).1)
  {
    var last, rest := ops[|ops| - 1], PopToParen(ops[..|ops| - 1]);
    assert PopToParen(ops) == ([last] + rest.0, rest.1);
    assert emitted + ([last] + rest.0) == (emitted + [last]) + rest.0;
  }

  /** Pop to the first `(` as `PopToParen` says, returning the popped operators. */
  method PopUntilParen(s: Stack) returns (emitted: seq<AstNode>)
    requires s.Valid()
    modifies s
    ensures s.Valid() && s.data == old(s.data)
    ensures (emitted, s.Elements()) == PopToParen(old(s.Elements()))
  {
    emitted := [];
    assert emitted + PopToParen(s.Elements()).0 == PopToParen(s.Elements()).0;
    while s.size > 0
      invariant s.Valid() && s.data == old(s.data)
      invariant PopToParen(old(s.Elements())) ==
        (emitted + PopToParen(s.Elements()).0, PopToParen(s.Elements()).1)
      decreases s.size
    {
      ghost var ops := s.Elements();
      var tmp := s.Top();
      s.Pop();
      if tmp.kind == ParenLeft {
        PopToParenStop(emitted, ops);
        return;
      }
      PopToParenStep(emitted, ops);
      emitted := emitted + [tmp];
    }
    assert emitted + PopToParen(s.Elements()).0 == emitted;
  }

  /** Pop every node onto the chain, top first (parser.c:220-224). */
  method Drain(s: Stack) returns (emitted: seq<AstNode>)
    requires s.Valid()
    modifies s
    ensures s.Valid() && s.data == old(s.data)
    ensures emitted == Reverse(old(s.Elements())) && s.Elements() == []
  {
    emitted := [];
    while s.size > 0
      invariant s.Valid() && s.data == old(s.data)
      invariant Reverse(old(s.Elements())) == emitted + Reverse(s.Elements())
      decreases s.size
    {
      emitted := emitted + [s.Top()];
      s.Pop();
    }
  }

  /**
    The state `parse_filter_list` keeps in the node it fills: its kind, the
    index slots written so far (their number is `d_list.count`) and the
    number of `:` seen.
  */
  datatype ListState = ListState(kind: AstType, indexes: seq<int>, slices: nat)

  /** The effect of one token inside a `[...]` list (parser.c:253-284). */
  function ListStep(st: ListState, tok: Lexer.TokenKind, text: string): ListState
  {
    match tok
    case ChildSep => st.(kind := IndexList)
    case Slice =>
      var sc := st.slices + 1;
      if sc > |st.indexes| then
        // the first and second `:` fill an unwritten slot with INT_MAX; a
        // third one counts a slot it does not write
        ListState(IndexSlice, st.indexes + [if sc <= 2 then INT_MAX else 0], sc)
      else ListState(IndexSlice, st.indexes, sc)
    case Literal => st.(indexes := st.indexes + [Atoi(text)])
    case _ => st
  }

  /**
    `parse_filter_list` from token `i`: the final list state and the index at
    which it stopped, which is the first `]` or the end of the tokens.
  */
  function FilterListFrom(toks: seq<Lexer.TokenKind>, vals: seq<string>, i: nat, st: ListState): (r: (ListState, nat))
    requires |toks| == |vals| && i <= |toks|
    ensures i <= r.1 <= |toks|
    ensures r.1 < |toks| ==> toks[r.1] == Lexer.ExprEnd
    decreases |toks| - i
  {
    if i == |toks| || toks[i] == Lexer.ExprEnd then (st, i)
    else FilterListFrom(toks, vals, i + 1, ListStep(st, toks[i], vals[i]))
  }

  /** The list state of a node just allocated by the FILTER_START case (parser.c:96). */
  const EmptyList: ListState := ListState(IndexSlice, [], 0)

  /** `parse_filter_list`: fill the state of a list node starting at token `i`. */
  method ParseFilterList(toks: seq<Lexer.TokenKind>, vals: seq<string>, i0: nat) returns (st: ListState, i: nat)
    requires |toks| == |vals| && i0 <= |toks|
    ensures (st, i) == FilterListFrom(toks, vals, i0, EmptyList)
  {
    st := EmptyList;
    i := i0;
    while i < |toks|
      invariant i0 <= i <= |toks|
      invariant FilterListFrom(toks, vals, i, st) == FilterListFrom(toks, vals, i0, EmptyList)
      decreases |toks| - i
    {
      if toks[i] == Lexer.ExprEnd {
        return;
      } else if toks[i] == Lexer.ChildSep {
        st := st.(kind := IndexList);
      } else if toks[i] == Lexer.Slice {
        st := st.(kind := IndexSlice, slices := st.slices + 1);
        if st.slices > |st.indexes| {
          if st.slices == 1 {
            st := st.(indexes := st.indexes + [INT_MAX]);
          } else if st.slices == 2 {
            st := st.(indexes := st.indexes + [INT_MAX]);
          } else {
            st := st.(indexes := st.indexes + [0]);
          }
        }
      } else if toks[i] == Lexer.Literal {
        st := st.(indexes := st.indexes + [Atoi(vals[i])]);
      }
      i := i + 1;
    }
  }

  /** The node `[...]` list parsing appends. */
  function ListNode(st: ListState): AstNode
  {
    AstNode(st.kind, ListData(st.indexes))
  }

  /** `jp_str_cpy` into a `PARSE_BUF_LEN` buffer fails when the text and its terminator do not fit. */
  predicate Overflows(text: string)
  {
    |text| + 1 > PARSE_BUF_LEN
  }

  /** The literal text stored for a boolean literal (parser.c:145-150). */
  function BoolLiteralText(text: string): string
  {
    if text == "true" then LiteralTrue else if text == "false" then LiteralFalse else text
  }

  /** Whether the last node of the chain is a selector (`cur->type == AST_SELECTOR`). */
  predicate EndsInSelector(chain: seq<AstNode>)
  {
    |chain| > 0 && chain[|chain| - 1].kind == Selector
  }

  /**
    The parser's state between tokens: the chain built so far, the operator
    stack and `expr_start_count`.
  */
  datatype ParseState = ParseState(chain: seq<AstNode>, ops: seq<AstNode>, depth: int)

  /** The parse state before the first token. */
  const Start: ParseState := ParseState([], [], 0)

  /**
    An operator token (parser.c:152-214): `push_operator` on a new node of
    kind `k`, linking the node it returns, if any, to the chain.
  */
  function OperatorStep(st: ParseState, k: AstType): (r: ParseState)
    requires OperatorStack(st.ops) && IsOperatorKind(k)
    ensures OperatorStack(r.ops) && |r.ops| <= |st.ops| + 1
    ensures |r.chain| + |r.ops| <= |st.chain| + |st.ops| + 1
  {
    var pushed := PushOperatorSpec(st.ops, Bare(k));
    match pushed.1
    case Some(n) => ParseState(st.chain + [n], pushed.0, st.depth)
    case None => ParseState(st.chain, pushed.0, st.depth)
  }

  /** The AST kind of an operator token that goes through `push_operator`. */
  function OperatorKind(tok: Lexer.TokenKind): (k: Option<AstType>)
    ensures k.Some? ==> IsOperatorKind(k.value) && k.value != Isset
  {
    match tok
    case Lt => Some(AstType.Lt)
    case Lte => Some(AstType.Lte)
    case Gt => Some(AstType.Gt)
    case Gte => Some(AstType.Gte)
    case Neq => Some(Ne)
    case Eq => Some(AstType.Eq)
    case Or => Some(AstType.Or)
    case And => Some(AstType.And)
    case Rgxp => Some(AstType.Rgxp)
    case _ => None
  }

  /**
    A token that is neither an operator nor a `[` list opener, with its
    literal text (parser.c:68-92, 102-151, 215-230).
  */
  function SimpleStep(tok: Lexer.TokenKind, text: string, st: ParseState): (r: Result<ParseState, string>)
    requires OperatorStack(st.ops)
    ensures r.Ok? ==> OperatorStack(r.value.ops) && |r.value.ops| <= |st.ops| + 1
    ensures r.Ok? ==> |r.value.chain| + |r.value.ops| <= |st.chain| + |st.ops| + 1
    ensures r.Err? ==> r.error == BufferSizeExceeded
  {
    var chain, ops, depth := st.chain, st.ops, st.depth;
    match tok
    case WildCard => Ok(st.(chain := chain + [Bare(WildCard)]))
    case Root => Ok(st.(chain := chain + [Bare(Root)]))
    case DeepScan => Ok(st.(chain := chain + [Bare(Recurse)]))
    case Node => Ok(st.(chain := chain + [AstNode(Selector, SelectorData(text, false))]))
    case CurNode => Ok(st.(chain := chain + [AstNode(Selector, SelectorData(text, true))]))
    case ExprStart => Ok(ParseState(chain + [Bare(ExprStart)], ops, depth + 1))
    case ParenOpen => Ok(st.(ops := ops + [Bare(ParenLeft)]))
    case ParenClose =>
      if EndsInSelector(chain) then Ok(st.(chain := chain + [Bare(Isset)]))
      else
        var p := PopToParen(ops);
        Ok(ParseState(chain + p.0, p.1, depth))
    case Literal =>
      if Overflows(text) then Err(BufferSizeExceeded)
      else Ok(st.(chain := chain + [AstNode(Literal, LiteralData(text))]))
    case LiteralBool =>
      if Overflows(text) then Err(BufferSizeExceeded)
      else Ok(st.(chain := chain + [AstNode(LiteralBool, LiteralData(BoolLiteralText(text)))]))
    case ExprEnd =>
      Ok(ParseState(chain + [Bare(ExprEnd)] + Reverse(ops), [], depth - 1))
    case _ => Ok(st)
  }

  /**
    One iteration of the token loop of `build_parse_tree` (parser.c:67-231) at
    token `i`: the new state and the index at which the loop increments,
    which is past `i` only when a `[...]` list was consumed (parser.c:93-101).
  */
  function Step(toks: seq<Lexer.TokenKind>, vals: seq<string>, i: nat, st: ParseState): (r: Result<(ParseState, nat), string>)
    requires |toks| == |vals| && i < |toks| && OperatorStack(st.ops)
    ensures r.Ok? ==> i <= r.value.1 <= |toks| && OperatorStack(r.value.0.ops)
    ensures r.Ok? ==> |r.value.0.ops| <= |st.ops| + 1
    ensures r.Ok? ==> |r.value.0.chain| + |r.value.0.ops| <= |st.chain| + |st.ops| + (if r.value.1 < |toks| then r.value.1 + 1 else |toks|) - i
    ensures r.Err? ==> r.error == BufferSizeExceeded
  {
    if toks[i] == Lexer.FilterStart then
      if i + 1 < |toks| && (toks[i + 1] == Lexer.Literal || toks[i + 1] == Lexer.Slice) then
        var l := FilterListFrom(toks, vals, i + 1, EmptyList);
        Ok((st.(chain := st.chain + [ListNode(l.0)]), l.1))
      else Ok((st, i))
    else match OperatorKind(toks[i])
      case Some(k) => Ok((OperatorStep(st, k), i))
      case None =>
        match SimpleStep(toks[i], vals[i], st)
        case Ok(st') => Ok((st', i))
        case Err(m) => Err(m)
  }

  /** The node `push_operator` returns, as a sequence of zero or one nodes. */
  function Emitted(e: Option<AstNode>): seq<AstNode>
  {
    if e.Some? then [e.value] else []
  }

  /** The nodes a `)` pops onto the chain are operators of the stack. */
  lemma {:induction false} PopToParenOperators(ops: seq<AstNode>)
    requires OperatorStack(ops)
    ensures forall k :: 0 <= k < |PopToParen(ops).0| ==> IsOperatorKind(PopToParen(ops).0[k].kind)
    decreases |ops|
  {
    if |ops| > 0 && ops[|ops| - 1].kind != ParenLeft {
      PopToParenOperators(ops[..|ops| - 1]);
    }
  }

  /** A list node is an index list or a slice, whatever tokens it consumed. */
  lemma {:induction false} ListKinds(toks: seq<Lexer.TokenKind>, vals: seq<string>, i: nat, st: ListState)
    requires |toks| == |vals| && i <= |toks| && (st.kind == IndexSlice || st.kind == IndexList)
    ensures FilterListFrom(toks, vals, i, st).0.kind == IndexSlice || FilterListFrom(toks, vals, i, st).0.kind == IndexList
    decreases |toks| - i
  {
    if i < |toks| && toks[i] != Lexer.ExprEnd {
      ListKinds(toks, vals, i + 1, ListStep(st, toks[i], vals[i]));
    }
  }

  /** The number of nodes of kind `t` in a chain. */
  function Count(chain: seq<AstNode>, t: AstType): nat
  {
    if |chain| == 0 then 0
    else Count(chain[..|chain| - 1], t) + (if chain[|chain| - 1].kind == t then 1 else 0)
  }

  lemma {:induction false} CountAppend(a: seq<AstNode>, b: seq<AstNode>, t: AstType)
    ensures Count(a + b, t) == Count(a, t) + Count(b, t)
    decreases |b|
  {
    if |b| == 0 {
      assert a + b == a;
    } else {
      assert (a + b)[..|a + b| - 1] == a + b[..|b| - 1];
      CountAppend(a, b[..|b| - 1], t);
    }
  }

  lemma {:induction false} CountAbsent(xs: seq<AstNode>, t: AstType)
    requires forall k :: 0 <= k < |xs| ==> xs[k].kind != t
    ensures Count(xs, t) == 0
    decreases |xs|
  {
    if |xs| > 0 {
      CountAbsent(xs[..|xs| - 1], t);
    }
  }

  /** `expr_start_count` is the number of `[?` nodes in the chain less the number of `]` nodes. */
  predicate Balanced(st: ParseState)
  {
    st.depth == Count(st.chain, ExprStart) - Count(st.chain, ExprEnd)
  }

  /** Adding nodes that are neither EXPR_START nor EXPR_END keeps the count. */
  lemma AppendInert(st: ParseState, xs: seq<AstNode>)
    requires Balanced(st)
    requires forall k :: 0 <= k < |xs| ==> xs[k].kind != ExprStart && xs[k].kind != ExprEnd
    ensures Balanced(ParseState(st.chain + xs, st.ops, st.depth))
  {
    CountAppend(st.chain, xs, ExprStart);
    CountAppend(st.chain, xs, ExprEnd);
    CountAbsent(xs, ExprStart);
    CountAbsent(xs, ExprEnd);
  }

  /** Operators and parentheses count neither as EXPR_START nor as EXPR_END, in either order. */
  lemma DrainedInert(ops: seq<AstNode>)
    requires OperatorStack(ops)
    ensures Count(Reverse(ops), ExprStart) == 0 && Count(Reverse(ops), ExprEnd) == 0
  {
    var r := Reverse(ops);
    assert forall k :: 0 <= k < |r| ==> r[k].kind != ExprStart && r[k].kind != ExprEnd by {
      forall k | 0 <= k < |r|
        ensures r[k].kind != ExprStart && r[k].kind != ExprEnd
      {
        assert r[k] == ops[|ops| - 1 - k];
      }
    }
    CountAbsent(r, ExprStart);
    CountAbsent(r, ExprEnd);
  }

  /** A filter `]` closes one `[?`: the drained operators hold neither EXPR_START nor EXPR_END. */
  lemma ExprEndBalanced(text: string, st: ParseState)
    requires OperatorStack(st.ops) && Balanced(st)
    ensures Balanced(SimpleStep(Lexer.ExprEnd, text, st).value)
  {
    var chain := st.chain;
    var end := [Bare(ExprEnd)];
    var drained := Reverse(st.ops);
    assert SimpleStep(Lexer.ExprEnd, text, st).value.chain == chain + (end + drained);
    DrainedInert(st.ops);
    assert Count(end, ExprEnd) == 1 && Count(end, ExprStart) == 0 by {
      assert end[..0] == [];
    }
    CountAppend(end, drained, ExprStart);
    CountAppend(end, drained, ExprEnd);
    CountAppend(chain, end + drained, ExprStart);
    CountAppend(chain, end + drained, ExprEnd);
  }

  /** A `)` adds ISSET or popped operators, neither of which is EXPR_START or EXPR_END. */
  lemma ParenCloseBalanced(text: string, st: ParseState)
    requires OperatorStack(st.ops) && Balanced(st)
    ensures Balanced(SimpleStep(Lexer.ParenClose, text, st).value)
  {
    var r := SimpleStep(Lexer.ParenClose, text, st).value;
    if EndsInSelector(st.chain) {
      assert r.chain == st.chain + [Bare(Isset)] && r.depth == st.depth;
      AppendInert(st, [Bare(Isset)]);
    } else {
      assert r.chain == st.chain + PopToParen(st.ops).0 && r.depth == st.depth;
      PopToParenOperators(st.ops);
      AppendInert(st, PopToParen(st.ops).0);
    }
  }

  /** A token other than `[?`, `]` and `)` appends at most one node, neither EXPR_START nor EXPR_END. */
  lemma SimpleStepInert(tok: Lexer.TokenKind, text: string, st: ParseState)
    requires OperatorStack(st.ops)
    requires tok != Lexer.ExprStart && tok != Lexer.ExprEnd && tok != Lexer.ParenClose
    ensures SimpleStep(tok, text, st).Ok? ==>
      var r := SimpleStep(tok, text, st).value;
      r.depth == st.depth && |st.chain| <= |r.chain| <= |st.chain| + 1 && r.chain[..|st.chain|] == st.chain &&
      forall k :: |st.chain| <= k < |r.chain| ==> r.chain[k].kind != ExprStart && r.chain[k].kind != ExprEnd
  {
  }

  /** A filter `[?` opens one more filter. */
  lemma ExprStartBalanced(text: string, st: ParseState)
    requires OperatorStack(st.ops) && Balanced(st)
    ensures Balanced(SimpleStep(Lexer.ExprStart, text, st).value)
  {
    CountAppend(st.chain, [Bare(ExprStart)], ExprStart);
    CountAppend(st.chain, [Bare(ExprStart)], ExprEnd);
  }

  /** The other tokens add no EXPR_START and no EXPR_END. */
  lemma InertBalanced(tok: Lexer.TokenKind, text: string, st: ParseState)
    requires OperatorStack(st.ops) && Balanced(st)
    requires tok != Lexer.ExprStart && tok != Lexer.ExprEnd && tok != Lexer.ParenClose
    ensures SimpleStep(tok, text, st).Ok? ==> Balanced(SimpleStep(tok, text, st).value)
  {
    SimpleStepInert(tok, text, st);
    if SimpleStep(tok, text, st).Ok? {
      var r := SimpleStep(tok, text, st).value;
      var xs := r.chain[|st.chain|..];
      assert r.chain == st.chain + xs;
      AppendInert(st, xs);
    }
  }

  /** Every token keeps `expr_start_count` equal to the open `[?` in the chain. */
  lemma SimpleStepBalanced(tok: Lexer.TokenKind, text: string, st: ParseState)
    requires OperatorStack(st.ops) && Balanced(st)
    ensures SimpleStep(tok, text, st).Ok? ==> Balanced(SimpleStep(tok, text, st).value)
  {
    if tok == Lexer.ExprStart {
      ExprStartBalanced(text, st);
    } else if tok == Lexer.ExprEnd {
      ExprEndBalanced(text, st);
    } else if tok == Lexer.ParenClose {
      ParenCloseBalanced(text, st);
    } else {
      InertBalanced(tok, text, st);
    }
  }

  /** Every iteration of the token loop keeps `expr_start_count` equal to the open `[?` in the chain. */
  lemma StepBalanced(toks: seq<Lexer.TokenKind>, vals: seq<string>, i: nat, st: ParseState)
    requires |toks| == |vals| && i < |toks| && OperatorStack(st.ops)
    ensures Balanced(st) && Step(toks, vals, i, st).Ok? ==> Balanced(Step(toks, vals, i, st).value.0)
  {
    if Balanced(st) {
      if toks[i] == Lexer.FilterStart {
        if i + 1 < |toks| && (toks[i + 1] == Lexer.Literal || toks[i + 1] == Lexer.Slice) {
          var l := FilterListFrom(toks, vals, i + 1, EmptyList);
          assert l.0.kind == IndexSlice || l.0.kind == IndexList by { ListKinds(toks, vals, i + 1, EmptyList); }
          AppendInert(st, [ListNode(l.0)]);
        }
      } else {
        match OperatorKind(toks[i])
        case Some(k) =>
          var pushed := PushOperatorSpec(st.ops, Bare(k));
          AppendInert(st, Emitted(pushed.1));
        case None =>
          SimpleStepBalanced(toks[i], vals[i], st);
      }
    }
  }

  /**
    The token loop of `build_parse_tree` from token `i` in state `st`: the
    state after the last token, or the error that ended the loop. It adds at
    most one node (to the chain or the stack) per token, and keeps
    `expr_start_count` equal to the `[?` nodes of the chain less its `]` nodes.
  */
  function RunFrom(toks: seq<Lexer.TokenKind>, vals: seq<string>, i: nat, st: ParseState): (r: Result<ParseState, string>)
    requires |toks| == |vals| && OperatorStack(st.ops)
    ensures r.Ok? ==> OperatorStack(r.value.ops)
    ensures r.Err? ==> r.error == BufferSizeExceeded
    ensures r.Ok? ==> |r.value.chain| + |r.value.ops| <= |st.chain| + |st.ops| + (if i <= |toks| then |toks| - i else 0)
    ensures r.Ok? && Balanced(st) ==> Balanced(r.value)
    decreases |toks| - i, 1
  {
    if i >= |toks| then Ok(st)
    else
      StepBalanced(toks, vals, i, st);
      RunAfter(toks, vals, i, Step(toks, vals, i, st))
  }

  /**
    The token loop after the iteration at token `i` gave `next`: its error,
    or the rest of the loop from the token after the one it stopped at.
  */
  function RunAfter(toks: seq<Lexer.TokenKind>, vals: seq<string>, i: nat, next: Result<(ParseState, nat), string>): (r: Result<ParseState, string>)
    requires |toks| == |vals| && i < |toks|
    requires next.Ok? ==> i <= next.value.1 <= |toks| && OperatorStack(next.value.0.ops)
    requires next.Err? ==> next.error == BufferSizeExceeded
    ensures r.Ok? ==> next.Ok? && OperatorStack(r.value.ops)
    ensures r.Err? ==> r.error == BufferSizeExceeded
    ensures r.Ok? && next.Ok? ==>
      |r.value.chain| + |r.value.ops| <= |next.value.0.chain| + |next.value.0.ops| + (if next.value.1 < |toks| then |toks| - next.value.1 - 1 else 0)
    ensures r.Ok? && next.Ok? && Balanced(next.value.0) ==> Balanced(r.value)
    decreases |toks| - i, 0
  {
    match next
    case Err(m) => Err(m)
    case Ok((st', j)) => RunFrom(toks, vals, j + 1, st')
  }

  /** After a step that succeeded, the loop goes on from the token after the one the step stopped at. */
  lemma RunAfterOk(toks: seq<Lexer.TokenKind>, vals: seq<string>, i: nat, next: Result<(ParseState, nat), string>)
    requires |toks| == |vals| && i < |toks|
    requires next.Ok? && i <= next.value.1 <= |toks| && OperatorStack(next.value.0.ops)
    ensures RunAfter(toks, vals, i, next) == RunFrom(toks, vals, next.value.1 + 1, next.value.0)
  {
  }

  /** The loop at a token that exists is one step, then the rest of the loop. */
  lemma RunFromUnfold(toks: seq<Lexer.TokenKind>, vals: seq<string>, i: nat, st: ParseState)
    requires |toks| == |vals| && i < |toks| && OperatorStack(st.ops)
    ensures RunFrom(toks, vals, i, st) == RunAfter(toks, vals, i, Step(toks, vals, i, st))
  {
  }

  /** One step of the token loop, after which the loop goes on from the next token. */
  lemma RunFromStep(toks: seq<Lexer.TokenKind>, vals: seq<string>, i: nat, st: ParseState, st': ParseState, j: nat)
    requires |toks| == |vals| && i < |toks| && OperatorStack(st.ops)
    requires Step(toks, vals, i, st) == Ok((st', j))
    ensures RunFrom(toks, vals, i, st) == RunFrom(toks, vals, j + 1, st')
  {
    RunFromUnfold(toks, vals, i, st);
    RunAfterOk(toks, vals, i, Ok((st', j)));
  }

  /** A token that is neither an operator nor a `[` moves the token loop on by one, in the state `SimpleStep` gives. */
  lemma RunFromSimple(toks: seq<Lexer.TokenKind>, vals: seq<string>, i: nat, st: ParseState, st': ParseState)
    requires |toks| == |vals| && i < |toks| && OperatorStack(st.ops)
    requires toks[i] != Lexer.FilterStart && OperatorKind(toks[i]).None?
    requires SimpleStep(toks[i], vals[i], st) == Ok(st')
    ensures RunFrom(toks, vals, i, st) == RunFrom(toks, vals, i + 1, st')
  {
    RunFromStep(toks, vals, i, st, st', i);
  }

  /** A `[` that no literal or `:` follows adds nothing, and the loop goes on at the next token. */
  lemma RunFromBracket(toks: seq<Lexer.TokenKind>, vals: seq<string>, i: nat, st: ParseState)
    requires |toks| == |vals| && i < |toks| && OperatorStack(st.ops)
    requires toks[i] == Lexer.FilterStart
    requires i + 1 < |toks| ==> !toks[i + 1].Literal? && !toks[i + 1].Slice?
    ensures RunFrom(toks, vals, i, st) == RunFrom(toks, vals, i + 1, st)
  {
    RunFromStep(toks, vals, i, st, st, i);
  }

  /** A step that fails ends the token loop with its error. */
  lemma RunFromErr(toks: seq<Lexer.TokenKind>, vals: seq<string>, i: nat, st: ParseState)
    requires |toks| == |vals| && i < |toks| && OperatorStack(st.ops)
    requires Step(toks, vals, i, st).Err?
    ensures RunFrom(toks, vals, i, st) == Err(Step(toks, vals, i, st).error)
  {
    assert RunFrom(toks, vals, i, st) == RunAfter(toks, vals, i, Step(toks, vals, i, st));
  }

  /**
    `build_parse_tree` (parser.c:49-241): the chain linked after `head`, or
    the error message; the loop must end with every `[?` closed. A parsed
    chain has no more nodes than tokens, so it fits the `STACK_MAX` operand
    stack of `evaluate_postfix_expression`, and as many `[?` nodes as `]`
    nodes; "Missing filter end ]" is reported exactly when the loop completes
    with the two counts apart.
  */
  function Build(toks: seq<Lexer.TokenKind>, vals: seq<string>): (r: Result<seq<AstNode>, string>)
    requires |toks| == |vals|
    ensures r.Err? ==> r.error == BufferSizeExceeded || r.error == MissingFilterEnd
    ensures r.Ok? ==> |r.value| <= |toks|
    ensures r.Ok? ==> Count(r.value, ExprStart) == Count(r.value, ExprEnd)
    ensures r == Err(MissingFilterEnd) <==>
      && RunFrom(toks, vals, 0, Start).Ok?
      && Count(RunFrom(toks, vals, 0, Start).value.chain, ExprStart) != Count(RunFrom(toks, vals, 0, Start).value.chain, ExprEnd)
  {
    match RunFrom(toks, vals, 0, Start)
    case Err(m) => Err(m)
    case Ok(st) => if st.depth != 0 then Err(MissingFilterEnd) else Ok(st.chain)
  }

  /**
    An operator token in the imperative parser: `push_operator`, then link the
    returned node, if any, after `cur`.
  */
  method OperatorToken(s: Stack, chain: seq<AstNode>, depth: int, k: AstType) returns (chain': seq<AstNode>)
    requires s.Valid() && s.size < STACK_MAX
    requires OperatorStack(s.Elements()) && IsOperatorKind(k)
    modifies s, s.data
    ensures s.Valid() && s.data == old(s.data)
    ensures OperatorStep(ParseState(chain, old(s.Elements()), depth), k) == ParseState(chain', s.Elements(), depth)
  {
    var tmp := PushOperator(s, Bare(k));
    chain' := chain;
    if tmp.Some? {
      chain' := chain + [tmp.value];
    }
  }

  /** A token for `SimpleStep`, on the stack `s`. */
  method SimpleToken(s: Stack, tok: Lexer.TokenKind, text: string, chain: seq<AstNode>, depth: int)
    returns (r: Result<(seq<AstNode>, int), string>)
    requires s.Valid() && s.size < STACK_MAX && OperatorStack(s.Elements())
    modifies s, s.data
    ensures s.Valid() && s.data == old(s.data)
    ensures SimpleStep(tok, text, ParseState(chain, old(s.Elements()), depth)) ==
      match r
      case Ok((c, d)) => Ok(ParseState(c, s.Elements(), d))
      case Err(m) => Err(m)
  {
    match tok {
      case WildCard =>
        return Ok((chain + [Bare(WildCard)], depth));
      case Root =>
        return Ok((chain + [Bare(Root)], depth));
      case DeepScan =>
        return Ok((chain + [Bare(Recurse)], depth));
      case Node =>
        return Ok((chain + [AstNode(Selector, SelectorData(text, false))], depth));
      case CurNode =>
        return Ok((chain + [AstNode(Selector, SelectorData(text, true))], depth));
      case ExprStart =>
        return Ok((chain + [Bare(ExprStart)], depth + 1));
      case ParenOpen =>
        s.Push(Bare(ParenLeft));
        return Ok((chain, depth));
      case ParenClose =>
        if EndsInSelector(chain) {
          return Ok((chain + [Bare(Isset)], depth));
        }
        var out := PopUntilParen(s);
        return Ok((chain + out, depth));
      case Literal =>
        if Overflows(text) {
          return Err(BufferSizeExceeded);
        }
        return Ok((chain + [AstNode(Literal, LiteralData(text))], depth));
      case LiteralBool =>
        if Overflows(text) {
          return Err(BufferSizeExceeded);
        }
        return Ok((chain + [AstNode(LiteralBool, LiteralData(BoolLiteralText(text)))], depth));
      case ExprEnd =>
        var out := Drain(s);
        return Ok((chain + [Bare(ExprEnd)] + out, depth - 1));
      case _ =>
        return Ok((chain, depth));
    }
  }

  /**
    One iteration of the token loop of `build_parse_tree` on the stack `s`:
    the new chain and `expr_start_count`, and the index at which the loop
    increments, or the error message.
  */
  method ParseStep(s: Stack, toks: seq<Lexer.TokenKind>, vals: seq<string>, i: nat, chain: seq<AstNode>, depth: int)
    returns (r: Result<(seq<AstNode>, int, nat), string>)
    requires |toks| == |vals| && i < |toks|
    requires s.Valid() && s.size < STACK_MAX && OperatorStack(s.Elements())
    modifies s, s.data
    ensures s.Valid() && s.data == old(s.data)
    ensures Step(toks, vals, i, ParseState(chain, old(s.Elements()), depth)) ==
      match r
      case Ok((c, d, j)) => Ok((ParseState(c, s.Elements(), d), j))
      case Err(m) => Err(m)
  {
    if toks[i] == Lexer.FilterStart {
      if i + 1 < |toks| && (toks[i + 1] == Lexer.Literal || toks[i + 1] == Lexer.Slice) {
        var l, j := ParseFilterList(toks, vals, i + 1);
        return Ok((chain + [ListNode(l)], depth, j));
      }
      // a `[` before anything else (a wildcard) emits nothing
      return Ok((chain, depth, i));
    }
    var k := OperatorKind(toks[i]);
    if k.Some? {
      var c := OperatorToken(s, chain, depth, k.value);
      return Ok((c, depth, i));
    }
    var res := SimpleToken(s, toks[i], vals[i], chain, depth);
    match res {
      case Ok((c, d)) =>
        return Ok((c, d, i));
      case Err(m) =>
        return Err(m);
    }
  }

  /**
    `build_parse_tree` (parser.c:49-241). The token buffer holds at most
    `PARSE_BUF_LEN` tokens, so the operator stack never outgrows `STACK_MAX`.
  */
  method BuildParseTree(toks: seq<Lexer.TokenKind>, vals: seq<string>) returns (r: Result<seq<AstNode>, string>)
    requires |toks| == |vals| <= PARSE_BUF_LEN
    ensures r == Build(toks, vals)
  {
    var s := new Stack();
    var chain: seq<AstNode> := [];
    var depth := 0;
    var i := 0;
    while i < |toks|
      invariant s.Valid() && fresh(s.data)
      invariant OperatorStack(s.Elements()) && |s.Elements()| <= i
      invariant RunFrom(toks, vals, i, ParseState(chain, s.Elements(), depth)) == RunFrom(toks, vals, 0, Start)
      decreases |toks| - i
    {
      ghost var before := ParseState(chain, s.Elements(), depth);
      var res := ParseStep(s, toks, vals, i, chain, depth);
      match res {
        case Err(m) =>
          RunFromErr(toks, vals, i, before);
          return Err(m);
        case Ok((c, d, j)) =>
          RunFromStep(toks, vals, i, before, ParseState(c, s.Elements(), d), j);
          chain, depth := c, d;
          i := j + 1;
      }
    }
    if depth != 0 {
      return Err(MissingFilterEnd);
    }
    return Ok(chain);
  }
}
