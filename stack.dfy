/**
  The fixed-capacity node stack of src/jsonpath/stack.h: an array of
  `STACK_MAX` slots and a fill count. The C operations do not check the
  bounds (the header carries a "todo" for it); here `Push` and `Pop` require
  room and an element, and the callers prove that they provide them.
*/
module NodeStack {
  import opened Ast

  const STACK_MAX: nat := 100

  class Stack {
    var data: array<AstNode>
    var size: nat

    predicate Valid()
      reads this
    {
      data.Length == STACK_MAX && size <= STACK_MAX
    }

    /** The stacked nodes, bottom first. */
    function Elements(): seq<AstNode>
      reads this, data
      requires Valid()
    {
      data[..size]
    }

    /** `stack_init`: an empty stack. */
    constructor ()
      ensures Valid() && Elements() == [] && fresh(data)
    {
      data := new AstNode[STACK_MAX](_ => Bare(Root));
      size := 0;
    }

    /** `stack_top`: the most recently pushed node. */
    function Top(): (n: AstNode)
      reads this, data
      requires Valid() && size > 0
      ensures n == Elements()[|Elements()| - 1]
    {
      data[size - 1]
    }

    /** `stack_push`. */
    method Push(n: AstNode)
      requires Valid() && size < STACK_MAX
      modifies this, data
      ensures Valid() && data == old(data)
      ensures Elements() == old(Elements()) + [n]
    {
      data[size] := n;
      size := size + 1;
    }

    /** `stack_pop`. */
    method Pop()
      requires Valid() && size > 0
      modifies this
      ensures Valid() && data == old(data)
      ensures Elements() == old(Elements())[..old(size) - 1]
    {
      size := size - 1;
    }
  }
}
