/**
  Evaluation of a filter expression in postfix order
  (src/jsonpath/parser.c:288-413): the operator classification switches and
  `evaluate_postfix_expression`, which runs a postfix chain on an operand
  stack.

  In this snapshot the callbacks are declared on `expr_operator` but applied
  to AST nodes; an operand is what the callbacks read of a node
  (`OperandOf`). `get_token_type` is declared on a node and called with its
  type; the model takes the type. The temporary results `op_true` and
  `op_false` are nodes of kind `Bool`; the C code sets `op_true`'s flag twice
  where the second assignment is meant for `op_false`, and the model gives
  `op_false` the flag false.
*/
module Postfix {
  import opened Wrappers
  import opened Ast
  import opened Values
  import opened Predicates
  import opened NodeStack
  import opened Parser

  /** The `operator_type` classes. */
  datatype OperatorType = TypeOperator | TypeParen | TypeOperand

  /**
    `get_token_type` (parser.c:288-311). The kinds its switch does not list
    fall off the end of the function in C; here they have no class.
  */
  function GetTokenType(t: AstType): (r: Option<OperatorType>)
    ensures r == Some(TypeOperator) <==> IsOperatorKind(t)
    ensures r == Some(TypeOperand) <==> t == Literal || t == LiteralBool || t == AstType.Bool
  {
    match t
    case Eq => Some(TypeOperator)
    case Ne => Some(TypeOperator)
    case Lt => Some(TypeOperator)
    case Lte => Some(TypeOperator)
    case Gt => Some(TypeOperator)
    case Gte => Some(TypeOperator)
    case Or => Some(TypeOperator)
    case And => Some(TypeOperator)
    case Isset => Some(TypeOperator)
    case Rgxp => Some(TypeOperator)
    case ParenLeft => Some(TypeParen)
    case ParenRight => Some(TypeParen)
    case Literal => Some(TypeOperand)
    case LiteralBool => Some(TypeOperand)
    case Bool => Some(TypeOperand)
    case _ => None
  }

  /**
    `exec_cb_by_token` (parser.c:376-408): the callback of an operator kind;
    every other kind has none (the C code prints an error and falls off).
  */
  function ExecCbByToken(t: AstType): (r: Option<Callback>)
    ensures r.Some? <==> IsOperatorKind(t)
  {
    match t
    case Eq => Some(CbEq)
    case Ne => Some(CbNeq)
    case Lt => Some(CbLt)
    case Lte => Some(CbLte)
    case Gt => Some(CbGt)
    case Gte => Some(CbGte)
    case Isset => Some(CbIsset)
    case Or => Some(CbOr)
    case And => Some(CbAnd)
    case Rgxp => Some(CbRgxp)
    case _ => None
  }

  /**
    What the callbacks read of a node: the text of a literal or selector and
    the flag of a temporary result. A literal's `value_bool` is never set
    in C; it is taken to be false.
  */
  function OperandOf(n: AstNode): Operand
  {
    match n.data
    case LiteralData(v) => Operand(v, false)
    case SelectorData(v, _) => Operand(v, false)
    case BoolData(b) => Operand("", b)
    case _ => Operand("", false)
  }

  /** The temporary `op_true` or `op_false`. */
  function BoolNode(b: bool): (n: AstNode)
    ensures OperandOf(n).valueBool == b && GetTokenType(n.kind) == Some(TypeOperand)
  {
    AstNode(AstType.Bool, BoolData(b))
  }

  /** Applying operator `op` to the left and right operand nodes. */
  function ApplyOperator(h: Host, op: AstType, lh: AstNode, rh: AstNode): (r: AstNode)
    requires IsOperatorKind(op)
    ensures r.kind == AstType.Bool && GetTokenType(r.kind) == Some(TypeOperand)
  {
    BoolNode(Apply(ExecCbByToken(op).value, h, OperandOf(lh), OperandOf(rh)))
  }

  /** The number of operands an operator pops: one for ISSET, two otherwise. */
  function Arity(op: AstType): nat
  {
    if IsUnary(op) then 1 else 2
  }

  /**
    An operator on the operand stack `st`: ISSET takes the top entry as both
    operands; the others pop the right and then the left operand. Either way
    one result is pushed. `None` when the stack holds too few entries.
  */
  function Reduce(h: Host, op: AstType, st: seq<AstNode>): (r: Option<seq<AstNode>>)
    requires IsOperatorKind(op)
    ensures r.Some? ==> |r.value| <= |st|
  {
    if IsUnary(op) then
      if |st| == 0 then None
      else
        var x := st[|st| - 1];
        Some(st[..|st| - 1] + [ApplyOperator(h, op, x, x)])
    else if |st| < 2 then None
    else
      var rh, lh := st[|st| - 1], st[|st| - 2];
      Some(st[..|st| - 2] + [ApplyOperator(h, op, lh, rh)])
  }

  /**
    An operator fails exactly when the stack holds fewer operands than it
    takes; otherwise it replaces them by one operand and keeps the stack
    below them.
  */
  lemma ReduceShape(h: Host, op: AstType, st: seq<AstNode>)
    requires IsOperatorKind(op)
    ensures Reduce(h, op, st).Some? <==> |st| >= Arity(op)
    ensures Reduce(h, op, st).Some? ==>
      var r := Reduce(h, op, st).value;
      && |r| == |st| - Arity(op) + 1
      && r[..|st| - Arity(op)] == st[..|st| - Arity(op)]
      && GetTokenType(r[|st| - Arity(op)].kind) == Some(TypeOperand)
  {
  }

  /** `Reduce` on the stack `s`, reporting whether it held enough operands. */
  method ReduceStack(s: Stack, h: Host, op: AstType) returns (ok: bool)
    requires s.Valid() && IsOperatorKind(op)
    modifies s, s.data
    ensures s.Valid() && s.data == old(s.data)
    ensures ok == Reduce(h, op, old(s.Elements())).Some?
    ensures ok ==> s.Elements() == Reduce(h, op, old(s.Elements())).value
  {
    ghost var e := s.Elements();
    if s.size == 0 {
      return false;
    }
    var rh := s.Top();
    var lh := rh;
    if !IsUnary(op) {
      s.Pop();
      if s.size == 0 {
        return false;
      }
      lh := s.Top();
      assert lh == e[|e| - 2] && s.Elements()[..|e| - 2] == e[..|e| - 2];
    }
    s.Pop();
    ghost var rest := s.Elements();
    assert Reduce(h, op, e) == Some(rest + [ApplyOperator(h, op, lh, rh)]);
    s.Push(ApplyOperator(h, op, lh, rh));
    return true;
  }

  /**
    The reference run of `evaluate_postfix_expression` on the rest of a chain
    with operand stack `st` (bottom first): operands are pushed, an operator
    pops its operands and pushes its result, nodes of other kinds are passed
    over, and at the end or at EXPR_END the flag of the top of the stack is
    the result. `None` stands for reading an empty stack, which the C code
    does not guard against.
  */
  function PostfixRun(h: Host, chain: seq<AstNode>, st: seq<AstNode>): Option<bool>
    decreases |chain|
  {
    if |chain| == 0 || chain[0].kind == ExprEnd then
      if |st| == 0 then None else Some(OperandOf(st[|st| - 1]).valueBool)
    else
      var n := chain[0];
      if IsOperatorKind(n.kind) then
        match Reduce(h, n.kind, st)
        case None => None
        case Some(st') => PostfixRun(h, chain[1..], st')
      else if GetTokenType(n.kind) == Some(TypeOperand) then PostfixRun(h, chain[1..], st + [n])
      else PostfixRun(h, chain[1..], st)
  }

  /** The operand stack after one node that is not EXPR_END, or `None` when an operator lacks operands. */
  function PostfixNext(h: Host, n: AstNode, st: seq<AstNode>): (r: Option<seq<AstNode>>)
    ensures r.Some? ==> |r.value| <= |st| + 1
  {
    if IsOperatorKind(n.kind) then Reduce(h, n.kind, st)
    else if GetTokenType(n.kind) == Some(TypeOperand) then Some(st + [n])
    else Some(st)
  }

  /** Running from a node that is not EXPR_END is running the rest on the stack that node leaves. */
  lemma PostfixRunUnfold(h: Host, chain: seq<AstNode>, i: nat, st: seq<AstNode>)
    requires i < |chain| && chain[i].kind != ExprEnd
    ensures PostfixRun(h, chain[i..], st) ==
      match PostfixNext(h, chain[i], st)
      case None => None
      case Some(st') => PostfixRun(h, chain[i + 1..], st')
  {
    assert chain[i..][0] == chain[i];
    assert chain[i..][1..] == chain[i + 1..];
  }

  /** One node of the `evaluate_postfix_expression` loop on the stack `s`, as `PostfixNext` says. */
  method PostfixNode(s: Stack, h: Host, n: AstNode) returns (ok: bool)
    requires s.Valid() && s.size < STACK_MAX
    modifies s, s.data
    ensures s.Valid() && s.data == old(s.data)
    ensures ok == PostfixNext(h, n, old(s.Elements())).Some?
    ensures ok ==> s.Elements() == PostfixNext(h, n, old(s.Elements())).value
  {
    var ty := GetTokenType(n.kind);
    if ty == Some(TypeOperator) {
      ok := ReduceStack(s, h, n.kind);
    } else if ty == Some(TypeOperand) {
      s.Push(n);
      ok := true;
    } else {
      ok := true;
    }
  }

  /**
    `evaluate_postfix_expression` (parser.c:313-374) on an operand stack of
    `STACK_MAX` slots; the chain fits, as every node pushes at most one entry.
  */
  method EvaluatePostfixExpression(h: Host, chain: seq<AstNode>) returns (r: Option<bool>)
    requires |chain| <= STACK_MAX
    ensures r == PostfixRun(h, chain, [])
  {
    var s := new Stack();
    var i := 0;
    while i < |chain| && chain[i].kind != ExprEnd
      invariant 0 <= i <= |chain|
      invariant s.Valid() && fresh(s.data) && s.size <= i
      invariant PostfixRun(h, chain[i..], s.Elements()) == PostfixRun(h, chain, [])
      decreases |chain| - i
    {
      PostfixRunUnfold(h, chain, i, s.Elements());
      var ok := PostfixNode(s, h, chain[i]);
      if !ok {
        return None;
      }
      i := i + 1;
    }
    if s.size == 0 {
      return None;
    }
    return Some(OperandOf(s.Top()).valueBool);
  }

  /** A filter expression as a tree: the structure a well-formed postfix chain encodes. */
  datatype Expr =
    | Leaf(n: AstNode)
    | Unary(op: AstNode, e: Expr)
    | Binary(op: AstNode, l: Expr, r: Expr)

  predicate WellFormed(e: Expr)
  {
    match e
    case Leaf(n) => GetTokenType(n.kind) == Some(TypeOperand)
    case Unary(op, x) => op.kind == Isset && WellFormed(x)
    case Binary(op, l, r) => IsOperatorKind(op.kind) && !IsUnary(op.kind) && WellFormed(l) && WellFormed(r)
  }

  /** The postfix chain of a tree: operands first, then their operator. */
  function ToPostfix(e: Expr): seq<AstNode>
  {
    match e
    case Leaf(n) => [n]
    case Unary(op, x) => ToPostfix(x) + [op]
    case Binary(op, l, r) => ToPostfix(l) + ToPostfix(r) + [op]
  }

  /** The node a tree leaves on the operand stack: a leaf itself, or the result of its operator. */
  function EvalTree(h: Host, e: Expr): AstNode
    requires WellFormed(e)
  {
    match e
    case Leaf(n) => n
    case Unary(op, x) =>
      var v := EvalTree(h, x);
      ApplyOperator(h, op.kind, v, v)
    case Binary(op, l, r) => ApplyOperator(h, op.kind, EvalTree(h, l), EvalTree(h, r))
  }

  /** No node of a well-formed tree's postfix chain is an EXPR_END. */
  lemma {:induction false} NoExprEnd(e: Expr)
    requires WellFormed(e)
    ensures forall k :: 0 <= k < |ToPostfix(e)| ==> ToPostfix(e)[k].kind != ExprEnd
  {
    match e
    case Leaf(n) =>
    case Unary(op, x) =>
      NoExprEnd(x);
    case Binary(op, l, r) =>
      NoExprEnd(l);
      NoExprEnd(r);
  }

  /** ISSET on top of an operand replaces it with the result for that operand as both sides. */
  lemma UnaryRun(h: Host, op: AstNode, rest: seq<AstNode>, st: seq<AstNode>, v: AstNode)
    requires op.kind == Isset
    ensures PostfixRun(h, [op] + rest, st + [v]) == PostfixRun(h, rest, st + [ApplyOperator(h, op.kind, v, v)])
  {
    assert ([op] + rest)[1..] == rest;
    assert (st + [v])[..|st + [v]| - 1] == st;
  }

  /** A binary operator on top of two operands replaces them with its result. */
  lemma BinaryRun(h: Host, op: AstNode, rest: seq<AstNode>, st: seq<AstNode>, lv: AstNode, rv: AstNode)
    requires IsOperatorKind(op.kind) && !IsUnary(op.kind)
    ensures PostfixRun(h, [op] + rest, st + [lv] + [rv]) == PostfixRun(h, rest, st + [ApplyOperator(h, op.kind, lv, rv)])
  {
    assert ([op] + rest)[1..] == rest;
    var st2 := st + [lv] + [rv];
    assert st2[..|st2| - 2] == st && st2[|st2| - 1] == rv && st2[|st2| - 2] == lv;
  }

  /**
    Running the postfix chain of a well-formed tree pushes exactly the tree's
    value on the operand stack and leaves the stack below it untouched.
  */
  lemma {:induction false} PostfixOfTree(h: Host, e: Expr, rest: seq<AstNode>, st: seq<AstNode>)
    requires WellFormed(e)
    ensures PostfixRun(h, ToPostfix(e) + rest, st) == PostfixRun(h, rest, st + [EvalTree(h, e)])
    decreases e
  {
    match e
    case Leaf(n) =>
      assert ([n] + rest)[1..] == rest;
    case Unary(op, x) =>
      assert ToPostfix(e) + rest == ToPostfix(x) + ([op] + rest);
      PostfixOfTree(h, x, [op] + rest, st);
      UnaryRun(h, op, rest, st, EvalTree(h, x));
    case Binary(op, l, r) =>
      assert ToPostfix(e) + rest == ToPostfix(l) + (ToPostfix(r) + ([op] + rest));
      PostfixOfTree(h, l, ToPostfix(r) + ([op] + rest), st);
      PostfixOfTree(h, r, [op] + rest, st + [EvalTree(h, l)]);
      BinaryRun(h, op, rest, st, EvalTree(h, l), EvalTree(h, r));
  }

  /**
    A chain that is the postfix form of a well-formed tree, ended by
    EXPR_END, evaluates to the flag of the tree's value.
  */
  lemma PostfixEvaluatesTree(h: Host, e: Expr, end: AstNode)
    requires WellFormed(e) && end.kind == ExprEnd
    ensures PostfixRun(h, ToPostfix(e) + [end], []) == Some(OperandOf(EvalTree(h, e)).valueBool)
  {
    PostfixOfTree(h, e, [end], []);
    assert [] + [EvalTree(h, e)] == [EvalTree(h, e)];
  }
}
