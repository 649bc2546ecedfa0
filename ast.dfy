/**
  The parse tree of a query (src/jsonpath/parser.h).

  The C code links `struct ast_node` values through their `next` links;
  the model holds such a chain as a sequence of nodes, in link order. The
  union `ast_node_data` becomes `NodeData`, one variant per member the parser
  writes.
*/
module Ast {
  /** The texts that stand for the boolean literals `true` and `false` in an operand. */
  const LiteralTrue: string := "JP_LITERAL_TRUE"
  const LiteralFalse: string := "JP_LITERAL_FALSE"

  /** The node kinds of `enum ast_type`, in declaration order. */
  datatype AstType =
    | And | Bool | Eq | ExprEnd | ExprStart | Filter | Gt | Gte | IndexList
    | IndexSlice | Isset | LiteralBool | Literal | Lt | Lte | Ne | Or
    | ParenLeft | ParenRight | Recurse | Rgxp | Root | Selector | WildCard

  /**
    The payload of a node.
    - SelectorData: `d_selector.value` and `d_selector.child_scope`.
    - LiteralData: `d_literal.value`.
    - ListData: `d_list.indexes[0 .. d_list.count]`; the count is the length.
    - BoolData: the `value_bool` of the temporary true/false operands built by
      `evaluate_postfix_expression`.
  */
  datatype NodeData =
    | NoData
    | SelectorData(value: string, childScope: bool)
    | LiteralData(value: string)
    | ListData(indexes: seq<int>)
    | BoolData(valueBool: bool)

  datatype AstNode = AstNode(kind: AstType, data: NodeData)

  /** A node of a kind that carries no payload (`ast_alloc_node` alone). */
  function Bare(kind: AstType): (n: AstNode)
    ensures n.kind == kind && n.data == NoData
  {
    AstNode(kind, NoData)
  }

  /** The kinds `push_operator` and `evaluate_postfix_expression` treat as operators. */
  predicate IsOperatorKind(t: AstType)
  {
    t.Eq? || t.Ne? || t.Lt? || t.Lte? || t.Gt? || t.Gte? || t.Or? || t.And? || t.Isset? || t.Rgxp?
  }
}
