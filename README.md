# A verified model of the php-jsonpath query engine

This project models the JSONPath engine of the php-jsonpath extension in
Dafny and proves properties of the model. A query such as `$.store..price`
or `$.a[?(@.b == 1)]` goes through three stages:

- **Lexer** (`src/jsonpath/lexer.c`). `scan` moves a cursor through the
  query and yields one token per call: ROOT, `@`, `*`, `..`, a NODE name,
  the bracket and filter tokens, the comparison and boolean operators,
  parentheses, string, numeric and boolean literals, or an error with a
  message and a position.
- **Parser** (`src/jsonpath/parser.c`).
  - `build_parse_tree` turns the token buffer into a chain of AST nodes.
    Inside `[?( … )]` it uses a shunting-yard operator stack
    (`push_operator`) to produce postfix order.
  - `parse_filter_list` turns `[1,2]` and `[a:b]` into index-list and slice
    nodes.
  - `evaluate_postfix_expression` runs a postfix filter chain on an operand
    stack.
- **Evaluator** (`jsonpath.c`).
  - `scanTokens` fills the fixed token buffers.
  - `evaluateAST`, `execSelectorChain`, `execWildcard` and
    `execRecursiveArrayWalk` walk a PHP array along the chain and append each
    match to the result array. `find` answers `false` when nothing matched.
  - The `compare_*` callbacks, `resolvePropertySelectorValue`,
    `resolveIssetSelector` and `is_scalar` are the operand helpers of filter
    expressions.

## How the model is organised

- **Lexer.** Each step of the lexer is a pure function (`Lexer.ScanSpec`,
  `Lexer.QuotedLiteral`, …). Each loop of the C code is a method that moves a
  cursor through the query as the C code does, and is proved to compute its
  function.
- **Parser.** The parser follows the same pattern. `Parser.Build` folds
  `Parser.Step` over the tokens, and `Parser.BuildParseTree` is proved to
  compute it. The method works on `NodeStack.Stack`, a class over an array
  of `STACK_MAX` slots, as the C code works on its `stack`.
- **Evaluator.** The C functions append to the PHP result array in place.
  The model does the same with `Evaluator.Results`, whose methods are proved
  to append what `Evaluator.EvalChain` and its companions return.
- **Data.** A PHP array is an ordered sequence of key/value pairs
  (`Values.Value`). The host services the engine calls into are the fields
  of `Values.Host`: `compare_function`, the PCRE calls and
  `zend_make_printable_zval`.
- **Properties.** The `*_props.dfy` files state what the source promises
  about these functions, as lemmas, and prove them.

### Disagreements between the C files

This snapshot of the C code is in the middle of a refactoring, and several
calls do not match the declarations they call. The model joins them as
follows:

- `scan` is declared with three parameters and a `bool` result, but
  `scanTokens` calls it with four and reads a token kind. The model takes a
  recognised token's kind and LEX_ERR for a failure with a message. An
  unannotated `return false` is 0, which is LEX_NOT_FOUND. So a `-` that no
  digit follows ends the token scan silently.
- `tok->len = p - tok->len` in the `extract_*` helpers is read as
  `p - tok->start`.
- `op_false.value_bool` is false. The C code assigns `op_true`'s flag twice.
- A new node's `d_list.count` is never set in C; the model starts it at 0.
- When `[` is the last token, `lex_tok[*lex_idx + 1]` reads past the tokens.
  The model takes that slot to be neither a literal nor a slice.
- A `)` with no node before it reads the uninitialised type of `head`. The
  model takes that type not to be a selector.
- `get_token_type` and the callbacks are applied to node kinds and operands
  as their call sites use them.

### Behaviours kept as the code has them

- `push_operator` with an incoming operator of lower precedence than the top
  of the stack emits the top and does not push the incoming operator. For
  example, the `&&` in `?(@.a == 1 && @.b == 2)` is lost.
- `$.a[*]` is refused with "Missing filter end ]". The `[` before `*` opens
  nothing (`Parser.RunFromBracket`), but its `]` counts as a filter end
  (`ParserProperties.ExprEndDrains`), so the loop ends with
  `expr_start_count` at -1 (`Parser.Build`).
- The `(` of a parenthesised selector, as in `(@.a)`, stays on the operator
  stack until the filter's `]`, which drains it into the chain.

## Model

| member | source | states |
|---|---|---|
| Lexer.Scan | src/jsonpath/lexer.c:39-253 | one call of `scan` from a cursor yields exactly what the reference step function gives: a token with its text and the cursor after it, the end of input, a failure with message and position, or a silent failure |
| Lexer.ExtractUnboundedLiteral | src/jsonpath/lexer.c:289-298 | the cursor loop yields the span the reference definition gives: it starts after the leading blanks and stays within the query |
| Lexer.ExtractBooleanLiteral | src/jsonpath/lexer.c:324-333 | a boolean literal is extracted with the same span as an unbounded literal |
| Lexer.ExtractUnboundedNumericLiteral | src/jsonpath/lexer.c:301-321 | the cursor loop yields the reference span of an optional `-`, digits, and a fraction only when a digit follows the `.` |
| Lexer.ExtractQuotedLiteral | src/jsonpath/lexer.c:256-286 | the cursor loop yields the reference span of the quoted text, or "Missing opening quote in string literal" when no quote starts it |
| Lexer.ScanDot | src/jsonpath/lexer.c:51-75 | the `.` case moves the cursor as the reference step does |
| Lexer.ScanBracket | src/jsonpath/lexer.c:76-121 | the `[` case moves the cursor and reports errors as the reference step does |
| Lexer.ScanBracketName | src/jsonpath/lexer.c:82-111 | a quoted name in brackets moves the cursor past the closing `]`, or fails with the message and position of the missing quote or bracket, as the reference step does |
| Lexer.ScanOperator | src/jsonpath/lexer.c:134-195 | the operator cases move the cursor and report errors as the reference step does |
| Lexer.ScanLiteral | src/jsonpath/lexer.c:202-246 | the literal cases move the cursor and report errors as the reference step does |
| Lexer.ScanQuoted | src/jsonpath/lexer.c:202-215 | a quoted literal moves the cursor past its closing quote, or fails with the quote error, as the reference step does |
| Lexer.ScanBoolean | src/jsonpath/lexer.c:219-224 | a `t` or `f` moves the cursor to the end of the identifier, as the reference step does |
| Lexer.ScanNumeric | src/jsonpath/lexer.c:225-246 | a numeric literal moves the cursor to its end, as the reference step does |
| Lexer.SkipBlanks | src/jsonpath/lexer.c:79 | the blank-skipping loop stops at the first character that is not a space |
| Lexer.SkipDigits | src/jsonpath/lexer.c:311 | the digit loop stops at the first character that is not a digit |
| LexerProperties.InertRunSkipped | src/jsonpath/lexer.c:44-47 | a run of characters with no case does not change what `scan` yields |
| LexerProperties.InertTailNotFound | src/jsonpath/lexer.c:42-44 | at the end of input, or after only skipped characters, `scan` reports LEX_NOT_FOUND |
| LexerProperties.ScanAdvances | src/jsonpath/lexer.c:44-252 | a token found lies strictly past the cursor, and the end is reported at the terminator |
| LexerProperties.DotCases | src/jsonpath/lexer.c:51-75 | `..` is DEEP_SCAN; at `.[` and `.*` the dot is passed over and scanning continues at the next character; any other `.x` is NODE, whose text is the maximal identifier after the blanks that follow the dot |
| LexerProperties.OperatorErrors | src/jsonpath/lexer.c:145-195 | `!` without `=`, a single `&` and a single `\|` fail with their messages at the position after the operator; the doubled forms are NEQ, AND, OR |
| LexerProperties.ComparisonTokens | src/jsonpath/lexer.c:134-173 | `<=` and `>=` are single LTE/GTE tokens, bare `<` and `>` are LT/GT, `==` is EQ, `=~` is RGXP, and any other `=` is skipped with its successor |
| LexerProperties.BracketQuotedName | src/jsonpath/lexer.c:76-111 | `[` with a quoted name is NODE when only blanks come before `]`, and fails with "Missing closing ] bracket" otherwise |
| LexerProperties.BracketOpens | src/jsonpath/lexer.c:112-119 | `[?` is EXPR_START; `[` before anything else is FILTER_START with the cursor on that character |
| LexerProperties.NumericTextIsNumeral | src/jsonpath/lexer.c:225-246 | the text a numeric scan covers is an optional `-`, digits, and optionally `.` and digits |
| LexerProperties.UnsignedPart | src/jsonpath/lexer.c:311-318 | the digits, with the fraction when there is one, form a non-empty unsigned numeral within the text |
| LexerProperties.FractionPart | src/jsonpath/lexer.c:314-318 | digits, a `.` and further digits form an unsigned numeral |
| LexerProperties.ScanAtLiteral | src/jsonpath/lexer.c:202-249 | at the start of a literal, `scan` yields the token, the failure or the silent rejection the literal case decides |
| LexerProperties.NumericLiteralShape | src/jsonpath/lexer.c:301-321 | the numeric literal is maximal: no digit follows it, and a `.` after it is not followed by a digit |
| LexerProperties.DashWithoutDigitRejected | src/jsonpath/lexer.c:225-228 | a `-` not followed by a digit makes `scan` fail without a message |
| LexerProperties.QuotedRunsToEnd | src/jsonpath/lexer.c:281 | with no quote of its kind, no NUL and no backslash before the last character, the quoted-literal loop runs to the terminator |
| LexerProperties.QuotedLiteralToEnd | src/jsonpath/lexer.c:256-286 | such a literal spans the whole rest of the query |
| LexerProperties.UnclosedQuotedLiteral | src/jsonpath/lexer.c:202-215 | such a literal is a LITERAL holding the rest of the query, with the cursor one place past the terminator |
| LexerProperties.UnclosedBracketName | src/jsonpath/lexer.c:82-94 | such a name in brackets fails with "Missing closing ] bracket" at one place past the terminator, which is two places past the query's last character |
| LexerProperties.QuotedEndFacts | src/jsonpath/lexer.c:281 | every character before the end of a quoted literal continues it; the end is the terminator, the quote, or follows a backslash |
| LexerProperties.QuotedLiteralExtent | src/jsonpath/lexer.c:256-286 | a quoted literal starts after its opening quote and contains no quote of its kind and no backslash before its last character |
| LexerProperties.BooleanLiteral | src/jsonpath/lexer.c:219-224 | `t` and `f` start a LITERAL_BOOL whose text is the identifier that follows |
| Numerals.AtoiNatToString | src/jsonpath/parser.c:279 | `atoi` reads back the decimal text of any integer, negative ones included |
| Numerals.DecimalValueOfNatToString | src/jsonpath/parser.c:279 | the decimal digits of a number denote that number |
| Numerals.Atoi | src/jsonpath/parser.c:279 | no contract of its own: `atoi` skips leading blanks, takes an optional sign and the leading digits, and is 0 without digits; `Numerals.AtoiNatToString` proves it reads back every decimal text |
| NodeStack.Stack.Push | src/jsonpath/stack.h:8-20 | pushing adds the node on top and keeps the nodes below it |
| NodeStack.Stack.Pop | src/jsonpath/stack.h:8-20 | popping removes exactly the top node |
| NodeStack.Stack.Top | src/jsonpath/stack.h:8-20 | the top is the last node pushed and not popped |
| NodeStack.Stack.constructor | src/jsonpath/stack.h:18 | `stack_init` gives an empty stack over a fresh array of STACK_MAX slots |
| Parser.PushOperatorSpec | src/jsonpath/parser.c:20-46 | the operator stack keeps only operators and `(`, grows by at most one, and an emitted node is an operator |
| Parser.PushOperator | src/jsonpath/parser.c:20-46 | the method changes the stack and emits the node as the reference function says |
| Parser.PopToParen | src/jsonpath/parser.c:116-124 | the stack left by a `)` is a prefix of the stack before it |
| Parser.PopUntilParen | src/jsonpath/parser.c:116-124 | the method pops and emits the nodes as the reference function says |
| Parser.Drain | src/jsonpath/parser.c:219-224 | a filter end emits every stacked node top first and empties the stack |
| Parser.FilterListFrom | src/jsonpath/parser.c:243-286 | the list scan stops at the first `]`, or at the end of the tokens |
| Parser.ParseFilterList | src/jsonpath/parser.c:243-286 | the method fills the list node as the reference function says |
| Parser.OperatorKind | src/jsonpath/parser.c:152-214 | the tokens sent to `push_operator` are the binary operators |
| Parser.Precedence | src/jsonpath/parser.c:416-449 | no contract of its own: the precedence table; `ParserProperties.PrecedenceTiers` and `ParserProperties.UnaryBindsTightest` state its tiers |
| Parser.IsUnary | src/jsonpath/parser.c:410-414 | no contract of its own: `is_unary` holds for ISSET only; `ParserProperties.UnaryBindsTightest` proves it holds of exactly the operator that binds tightest |
| Parser.ListStep | src/jsonpath/parser.c:253-284 | no contract of its own: one list token; `ParserProperties.ListStepNoSlice`, `ParserProperties.OneSlice` and `ParserProperties.ListSlotsCoverSlices` state its effect |
| Parser.SimpleStep | src/jsonpath/parser.c:68-151 | a token keeps the stack an operator stack, adds at most one node in all, and fails only with "Buffer size exceeded" |
| Parser.Step | src/jsonpath/parser.c:65-231 | one iteration of the token loop moves the index forward and adds at most one node per token it consumes |
| Parser.RunFrom | src/jsonpath/parser.c:65-232 | the token loop fails only with "Buffer size exceeded", keeps the stack an operator stack, adds at most one node per token, and keeps `expr_start_count` equal to the `[?` nodes less the `]` nodes of the chain |
| Parser.RunAfter | src/jsonpath/parser.c:65-232 | after an iteration, the loop ends with that iteration's error or goes on from the token after the one it stopped at, with the same bound on added nodes and the same count of open `[?` |
| Parser.RunFromStep | src/jsonpath/parser.c:65-232 | after a successful iteration, the loop goes on from the next index with the new state |
| Parser.RunFromSimple | src/jsonpath/parser.c:68-92 | a token that is neither an operator nor `[` moves the loop on by one token, in the state the single-token step gives |
| Parser.RunFromBracket | src/jsonpath/parser.c:93-101 | a `[` that no literal or `:` follows adds nothing, and the loop goes on at the next token |
| Parser.Build | src/jsonpath/parser.c:49-241 | `build_parse_tree` fails only with "Buffer size exceeded" or "Missing filter end ]"; "Missing filter end ]" is reported exactly when the loop completes with the chain's `[?` and `]` counts apart; a parsed chain has equal counts and no more nodes than tokens, so it fits the STACK_MAX operand stack |
| Parser.OperatorToken | src/jsonpath/parser.c:152-214 | an operator token updates the stack and the chain as the reference step says |
| Parser.SimpleToken | src/jsonpath/parser.c:68-151 | the other tokens update the stack and the chain as the reference step says |
| Parser.ParseStep | src/jsonpath/parser.c:67-231 | one loop iteration updates the stack, chain and index as the reference step says |
| Parser.BuildParseTree | src/jsonpath/parser.c:49-241 | the imperative parser, on a STACK_MAX stack that never overflows, computes the reference chain or error |
| ParserProperties.PrecedenceTiers | src/jsonpath/parser.c:416-449 | ISSET 10000, then LT/LTE/GT/GTE/RGXP 1000, EQ/NE 900, AND 800, OR 700 |
| ParserProperties.UnaryBindsTightest | src/jsonpath/parser.c:410-449 | the one unary operator, ISSET, binds tighter than every other operator |
| ParserProperties.PushOperatorCases | src/jsonpath/parser.c:20-46 | nothing is emitted exactly when the stack is empty, has `(` on top, or has a weaker top, and then the operator is pushed; otherwise the top is emitted and replaced at equal precedence, and the operator is lost at lower precedence |
| ParserProperties.PushOperatorAscending | src/jsonpath/parser.c:20-46 | precedences stay strictly increasing within each parenthesised segment of the stack |
| ParserProperties.SimpleStepKeepsOps | src/jsonpath/parser.c:68-151 | a token other than `(`, `)` and `]` leaves the operator stack as it is |
| ParserProperties.SimpleStepAscending | src/jsonpath/parser.c:107-126 | a token that is neither an operator nor `[` keeps each parenthesised segment of the stack ascending |
| ParserProperties.StepAscending | src/jsonpath/parser.c:107-126 | every token keeps each parenthesised segment of the operator stack ascending |
| ParserProperties.PopToParenShape | src/jsonpath/parser.c:116-124 | a `)` emits the operators above the topmost `(`, top first, and discards that `(` |
| ParserProperties.PopToParenWithoutParen | src/jsonpath/parser.c:116-124 | with no `(` stacked, a `)` empties the stack, top first |
| ParserProperties.ParenCloseAfterSelector | src/jsonpath/parser.c:110-113 | a `)` right after a selector appends ISSET and pops nothing |
| ParserProperties.ParenCloseAfterOperand | src/jsonpath/parser.c:114-125 | any other `)` appends the operators above the topmost `(`, top first, and removes them and that `(` from the stack |
| ParserProperties.ExprEndDrains | src/jsonpath/parser.c:215-227 | a filter `]` appends EXPR_END and then the stacked nodes in LIFO order, empties the stack and closes one `[?` |
| ParserProperties.SelectorScope | src/jsonpath/parser.c:81-92 | a selector holds its token's text and its `child_scope` is true exactly when it came from `@` |
| ParserProperties.LiteralStep | src/jsonpath/parser.c:127-150 | a literal fails with "Buffer size exceeded" exactly when it does not fit the buffer; otherwise it appends one literal node |
| ParserProperties.BoolLiteralMapping | src/jsonpath/parser.c:145-150 | `true` becomes JP_LITERAL_TRUE, `false` becomes JP_LITERAL_FALSE, and other text is unchanged |
| Parser.CountAppend | src/jsonpath/parser.c:102-106 | node counts add up over concatenated chains |
| Parser.SimpleStepBalanced | src/jsonpath/parser.c:102-227 | every token keeps `expr_start_count` equal to the `[?` nodes minus the `]` nodes of the chain |
| Parser.ExprStartBalanced | src/jsonpath/parser.c:102-106 | a `[?` adds one EXPR_START node and raises `expr_start_count` by one, keeping the count |
| Parser.SimpleStepInert | src/jsonpath/parser.c:68-151 | a token other than `[?`, `]` and `)` appends at most one node, which is neither EXPR_START nor EXPR_END, and leaves `expr_start_count` as it is |
| Parser.InertBalanced | src/jsonpath/parser.c:68-151 | those tokens keep `expr_start_count` equal to the `[?` nodes less the `]` nodes |
| Parser.ExprEndBalanced | src/jsonpath/parser.c:215-227 | a filter `]` lowers `expr_start_count` by one and adds exactly one EXPR_END node and no EXPR_START |
| Parser.ParenCloseBalanced | src/jsonpath/parser.c:110-126 | a `)` adds neither EXPR_START nor EXPR_END nodes |
| Parser.DrainedInert | src/jsonpath/parser.c:219-224 | the nodes drained from the operator stack include no EXPR_START or EXPR_END |
| Parser.RunFromErr | src/jsonpath/parser.c:131-143 | an iteration that fails ends the loop with its error |
| Parser.StepBalanced | src/jsonpath/parser.c:65-231 | every loop iteration, list parsing included, keeps that count |
| Parser.ListKinds | src/jsonpath/parser.c:94-98 | a list node is an index list or a slice (INDEX_SLICE by default) |
| ParserProperties.ListSlotsCoverSlices | src/jsonpath/parser.c:260-276 | a list never has fewer index slots than `:` seen, and slots are only added |
| ParserProperties.ListStepNoSlice | src/jsonpath/parser.c:253-284 | a list token other than `:` adds the `atoi` value of a literal, turns the list into an index list at `,`, and leaves the `:` count as it is |
| ParserProperties.NoSliceIndexes | src/jsonpath/parser.c:253-284 | with no `:` before its `]`, the list appends the `atoi` value of every literal before the `]`, in order |
| ParserProperties.NoSliceKind | src/jsonpath/parser.c:253-284 | with no `:` before its `]`, the list becomes an index list exactly when a `,` comes before the `]`, and otherwise keeps its kind |
| ParserProperties.IndexListValues | src/jsonpath/parser.c:253-284 | with no `:` before its `]`, the list holds the `atoi` value of every literal in order, and it is an index list exactly when a `,` came before the `]` |
| ParserProperties.AfterNoSliceStep | src/jsonpath/parser.c:253-284 | a token other than `:` at the start of a stretch moves the stretch on without changing the state it leads to |
| ParserProperties.NoSlicePrefix | src/jsonpath/parser.c:253-284 | a stretch of a list with no `:` and no `]` appends its literals' `atoi` values in order and makes an index list exactly when it holds a `,`; the list then continues from the end of the stretch |
| ParserProperties.FirstSliceAt | src/jsonpath/parser.c:260-280 | the first `:` of a list makes it a slice whose slots so far are the earlier literals' `atoi` values, or INT_MAX when there are none |
| ParserProperties.OneSlice | src/jsonpath/parser.c:253-284 | in any list with a single `:`, the literals before it are the first slots, or INT_MAX when there are none; the literals after it follow in order; the node is a slice unless a `,` follows the `:` |
| ParserProperties.SliceWithoutStart | src/jsonpath/parser.c:264-275 | `[:b]` is a slice whose missing start is INT_MAX |
| ParserProperties.SliceWithBounds | src/jsonpath/parser.c:260-280 | `[a:b]` is a slice of the two literals' values |
| ParserProperties.SliceWithSecondColon | src/jsonpath/parser.c:264-275 | `[a::]` is a slice with an INT_MAX slot for the second `:` |
| ParserProperties.IndexListOfTwo | src/jsonpath/parser.c:256-280 | `[a,b]` is an index list of the two literals' values |
| Postfix.GetTokenType | src/jsonpath/parser.c:288-311 | the operator class is exactly the ten operators, and the operand class is exactly literals and booleans |
| Postfix.ExecCbByToken | src/jsonpath/parser.c:376-408 | an operator kind, and only an operator kind, has a callback |
| Postfix.BoolNode | src/jsonpath/parser.c:320-329 | the temporary true/false nodes are operands carrying their flag |
| Postfix.OperandOf | src/jsonpath/parser.c:342-352 | no contract of its own: the text and flag a callback reads from a literal, a selector or a temporary |
| Postfix.ApplyOperator | src/jsonpath/parser.c:354-359 | applying an operator's callback yields an AST_BOOL temporary, which is an operand |
| Postfix.Reduce | src/jsonpath/parser.c:340-360 | applying an operator never grows the operand stack |
| Postfix.ReduceShape | src/jsonpath/parser.c:340-360 | an operator fails exactly when the stack holds fewer operands than it takes (one for ISSET, two otherwise); otherwise it removes that many from the top, keeps the stack below them, and pushes one operand |
| Postfix.ReduceStack | src/jsonpath/parser.c:340-360 | the operand stack becomes what the reference reduction gives, and the method fails exactly when the reduction does |
| Postfix.PostfixNext | src/jsonpath/parser.c:339-365 | one node grows the operand stack by at most one entry |
| Postfix.PostfixRunUnfold | src/jsonpath/parser.c:331-368 | a node before EXPR_END leaves the stack `PostfixNext` gives, and the loop goes on from the next node |
| Postfix.PostfixNode | src/jsonpath/parser.c:339-365 | one loop iteration changes the operand stack as `PostfixNext` says, and fails exactly when it does |
| Postfix.EvaluatePostfixExpression | src/jsonpath/parser.c:313-374 | the operand-stack loop computes the reference run up to EXPR_END and returns the flag on top of the stack |
| Postfix.NoExprEnd | src/jsonpath/parser.c:331-334 | the postfix form of an expression tree contains no EXPR_END |
| Postfix.PostfixOfTree | src/jsonpath/parser.c:331-368 | running the postfix form of a well-formed tree pushes exactly the tree's value and leaves the stack below untouched |
| Postfix.PostfixEvaluatesTree | src/jsonpath/parser.c:313-374 | a postfix chain ended by EXPR_END evaluates to the flag of its expression tree |
| Values.IsScalar | jsonpath.c:460-475 | a value is scalar exactly when it is false, true, a double, a long or a string |
| Values.Lookup | jsonpath.c:189 | a name is found exactly when some member has that string key, and what is found is the value of a member with that key |
| Values.Child | jsonpath.c:185-191 | only an array has members to look up |
| Predicates.CompareLt | jsonpath.c:320-334 | no contract of its own: `compare_lt` holds when the host comparison is negative; `Predicates.ComparisonTrichotomy` relates it to `eq` and `gt` |
| Predicates.CompareGt | jsonpath.c:336-350 | no contract of its own: `compare_gt` holds when the host comparison is positive; `Predicates.ComparisonTrichotomy` relates it to `lt` and `eq` |
| Predicates.CompareEq | jsonpath.c:394-408 | no contract of its own: `compare_eq` holds when the host comparison is zero; `Predicates.ComparisonTrichotomy` relates it to `lt` and `gt` |
| Predicates.CompareAnd | jsonpath.c:384-387 | no contract of its own: the `and` of the two flags; `Predicates.LogicalCallbacks` states its laws |
| Predicates.CompareOr | jsonpath.c:389-392 | no contract of its own: the `or` of the two flags; `Predicates.LogicalCallbacks` states its laws |
| Predicates.CompareLte | jsonpath.c:352-366 | `lte` is the negation of `gt` under the same host comparison |
| Predicates.CompareGte | jsonpath.c:368-382 | `gte` is the negation of `lt` |
| Predicates.CompareNeq | jsonpath.c:410-424 | `neq` is the negation of `eq` |
| Predicates.CompareIsset | jsonpath.c:426-429 | `isset` is the `and` of the flags, and `isset(x,x)` is `x`'s flag |
| Predicates.CompareRgxp | jsonpath.c:431-458 | a pattern that does not compile never matches, and a match needs a positive match count |
| Predicates.ComparisonTrichotomy | jsonpath.c:320-424 | exactly one of lt, eq, gt holds, and lte, gte, neq are the matching disjunctions |
| Predicates.LogicalCallbacks | jsonpath.c:384-392 | `and` and `or` are commutative and dual |
| Predicates.FollowLabels | jsonpath.c:255-260 | a label path of one label or more resolves only from an array |
| Predicates.FollowLabelsAppend | jsonpath.c:255-260 | following a label path in two parts is following the first and then the second |
| Predicates.PropertyValue | jsonpath.c:247-300 | the value changes only when the data is an array and every label resolves to a scalar |
| Predicates.ScalarText | jsonpath.c:267-299 | no contract of its own: the text stored for a scalar: JP_LITERAL_TRUE/FALSE for booleans, a string as it is, and the host's printable form otherwise |
| Predicates.ExprOperator.ResolvePropertySelectorValue | jsonpath.c:247-300 | the labels are followed one after another; the operand's text becomes the scalar's text, with booleans as JP_LITERAL_TRUE/FALSE, and nothing else changes |
| Predicates.ExprOperator.ResolveIssetSelector | jsonpath.c:304-318 | `value_bool` becomes true exactly when every label resolves, and nothing else changes |
| Evaluator.Results.Add | jsonpath.c:169-175 | a match is appended to the result array |
| Evaluator.EvaluateAst | jsonpath.c:143-167 | the chain's matches are appended to the result array |
| Evaluator.ExecSelectorChain | jsonpath.c:177-199 | the selector's matches are appended to the result array |
| Evaluator.ExecWildcard | jsonpath.c:202-218 | the wildcard's matches are appended in iteration order |
| Evaluator.ExecRecursiveArrayWalk | jsonpath.c:220-242 | the recursive walk's matches are appended in walk order |
| EvaluatorProperties.RootPassesThrough | jsonpath.c:152-154 | ROOT passes the data unchanged to the rest of the chain |
| EvaluatorProperties.SelectorCases | jsonpath.c:185-198 | a selector on a non-array or a missing key matches nothing; as the last node it matches the value found, once; otherwise evaluation continues from that value |
| EvaluatorProperties.SelectorPath | jsonpath.c:177-199 | a chain of selectors matches the one value its names lead to, or nothing |
| EvaluatorProperties.RootedSelectorPath | jsonpath.c:143-199 | `$` followed by selectors matches the value the labels lead to, or nothing |
| EvaluatorProperties.WildcardLast | jsonpath.c:209-216 | a final wildcard matches every member value in iteration order |
| EvaluatorProperties.WildcardDescends | jsonpath.c:209-216 | a wildcard with a successor descends only into array members; a value matches exactly when the rest of the chain matches it from one of them |
| EvaluatorProperties.WildcardFromDescends | jsonpath.c:209-216 | the same holds for the members from any position on |
| EvaluatorProperties.SelectAllAppend | jsonpath.c:227-241 | selecting over a concatenation of values concatenates the matches |
| EvaluatorProperties.WalkPreOrder | jsonpath.c:220-242 | the recursive walk applies the selector chain to every array within the data, in pre-order: a node before its children, children in order; non-arrays contribute nothing |
| EvaluatorProperties.WalkFromPreOrder | jsonpath.c:227-241 | the walk of the members from any position on follows the same pre-order |
| EvaluatorProperties.DeepScanPreOrder | jsonpath.c:155-158 | `..name` matches the `name` member of every array within the data, in pre-order |
| JsonPath.StoredText | jsonpath.c:119-132 | only NODE, LITERAL and LITERAL_BOOL tokens keep a text |
| JsonPath.PositionMessage | jsonpath.c:126 | no contract of its own: the lexer message followed by " at position " and the decimal offset; `Numerals.AtoiNatToString` proves the offset reads back |
| JsonPath.TokensFrom | jsonpath.c:102-141 | the token buffers never exceed PARSE_BUF_LEN and only grow |
| JsonPath.ScanTokens | jsonpath.c:102-141 | the token and text buffers are filled, and the count or the exception message is reported, as the reference says |
| JsonPath.Tokenize | jsonpath.c:53-59 | the buffers `find` declares hold the tokens and texts of the whole query, or the exception message, as the reference says |
| JsonPath.Answer | jsonpath.c:76-99 | evaluating into an empty result array gives the chain's matches, and false when there are none |
| JsonPath.Find | jsonpath.c:50-99 | `find` returns the reference outcome of tokenizing, parsing and evaluating the query |
| JsonPathProperties.TokensFromLexed | jsonpath.c:111-138 | from any cursor, `scanTokens` gives the too-long error, the lexer's error or the tokens, as the unlimited lexing decides |
| JsonPathProperties.TokensFromStep | jsonpath.c:111-135 | a token found with a free slot is stored, its text kept only for NODE and literals, and scanning goes on after it |
| JsonPathProperties.TokensFromFound | jsonpath.c:111-135 | storing a token keeps the limited scan in step with the unlimited lexing |
| JsonPathProperties.TokensFromStops | jsonpath.c:111 | when the lexer reports the end, both keep the tokens stored so far |
| JsonPathProperties.ExpectedCons | jsonpath.c:119-135 | storing one token before the rest is the same as lexing it first |
| JsonPathProperties.TokenLimit | jsonpath.c:111-138 | a query of more than PARSE_BUF_LEN tokens, or of exactly PARSE_BUF_LEN followed by an error, is too long; otherwise a lexer error is reported with its position, or the tokens are returned with the texts of NODE and literal tokens only |
| JsonPathProperties.FindNeverEmptyMatches | jsonpath.c:96-99 | `find` returns false, never an empty array, when nothing matched; otherwise it returns the chain's matches |
| JsonPathProperties.ScanRootDotName | src/jsonpath/lexer.c:44-75 | `scan` finds ROOT and NODE `a` in `$.a`, and then the end |
| JsonPathProperties.LexRootDotName | jsonpath.c:102-141 | `$.a` is tokenized into ROOT and NODE `a`, with only the NODE keeping a text |

## Left out

- PHP module plumbing is not modelled: argument parsing, exception objects,
  module start-up and shutdown, and `phpinfo`. A thrown exception becomes the
  message in a `Result` or `Outcome`.
- `compare_function`, the PCRE functions and `zend_make_printable_zval` are
  foreign. They are uninterpreted fields of `Values.Host`.
- Zval copying, reference counts and `emalloc`/`efree` are memory
  management and are not modelled. A match is appended as a copied value.
- PHP objects and zval types other than null, booleans, longs, doubles,
  strings and arrays are not modelled.
- Evaluation of filters, index lists and slices is not modelled, because
  `evaluateAST` has no case for those nodes. `Evaluator.Evaluable` restricts
  evaluation to ROOT, `..`, selectors and wildcards, with every `..`
  followed by a selector. `find` on any other chain is `Unsupported`; this
  includes the common `$..*` and a query ending in `..`.
- The AST_FILTER branch of `evaluateAST` is not modelled. It reads a member
  that the node union does not have, and the parser never builds that node.
- The `visible` debug table and the `printf` diagnostics are not modelled.
- `safe_string.h` and `jp_str_cpy` are not part of this model. A copy fails
  when the text and its terminator do not fit the `PARSE_BUF_LEN` buffer.
- `lexer.h` and stack.c are not part of this model.
  - The size of `err.msg` is not known, so the `snprintf` truncation of the
    "at position" message is not modelled.
- JsonPath.PositionMessage: `snprintf` writes the message into `err.msg`
  while reading `err.msg` as its `%s` argument (jsonpath.c:126). Source
  and destination overlap, which is undefined in C on every lexer error.
  The model gives the evidently intended text: the message, " at
  position " and the offset.
  - The stack functions are modelled from their declarations in `stack.h`.
- Lexer.Scan: the unbounded `strcpy` of a literal into the 50-byte
  `buffer` is not modelled; the model keeps the whole text.
- Parser.ListStep: a list node has only three index slots
  (`d_list.indexes[3]`), and writing more overflows the array. The model
  keeps every index.
- Numerals.Atoi: behaviour outside the `int` range (undefined in C) is not
  modelled; the model gives the exact integer.
- NodeStack.Stack.Push: `STACK_MAX` is a precondition. The C stack does not
  check it; the model proves the parser and the postfix evaluator never
  exceed it.
- Postfix.EvaluatePostfixExpression: reading an empty operand stack is
  undefined in C and is `None` in the model.
- Postfix.GetTokenType, Postfix.ExecCbByToken: the kinds their switches
  leave out fall off the end in C and have no result (`None`) in the model.
- Evaluator.ExecWildcard: a scalar given to the wildcard has no members in
  the model; the C code iterates `HASH_OF` of it.
- Evaluator.EvaluateAst: the model requires `Evaluable` chains. Outside
  them the C code does not complete:
  - A filter, an index list, a slice or any other node with no case in the
    switch is never stepped over, so `evaluateAST` spins forever.
  - `..` followed by `*` (`$..*`) hands the WILD_CARD node to
    `execSelectorChain`, which looks up its `d_selector.value`. For a
    wild-card node that field is never written (`ast_alloc_node` only sets
    `next`, `type` and `type_s`), so the read is undefined.
  - `..` at the end of the chain passes NULL to `execRecursiveArrayWalk`;
    on an array it reaches `execSelectorChain`, which dereferences it.
  - `..` followed by another kind of node reads that node's
    `d_selector.value` in the same way.
- JsonPath.Find: on a parse error the model answers `ParseFailure`. The C
  code raises the exception but then evaluates the partial chain, and the
  caller sees the exception only if that evaluation ends. It need not end:
  `$.a[*]` fails with "Missing filter end ]" and leaves the chain ROOT,
  SELECTOR `a`, WILD_CARD, EXPR_END. On `{"a": [[1]]}` the wildcard hands
  EXPR_END to `evaluateAST`, which has no case for it and spins forever; on
  `{"a": 1}` the wildcard iterates the NULL `HASH_OF` of a long.
- JsonPath.Find: a query that adds no node to the chain (`""`, `"abc"`,
  `"("`) leaves the local `head.next` uninitialised, and `find` evaluates it
  (undefined in C). The model evaluates the empty chain, which matches
  nothing, so it answers `NoMatches`.
- Lexer.Ch: a query is a sequence of characters, while the C code walks the
  bytes of `j_path`. Cursor positions, the "at position" offset of
  `JsonPath.PositionMessage` and the lengths `Parser.Overflows` compares
  with `PARSE_BUF_LEN` count characters. They equal the C byte counts only
  for ASCII queries: for `é!` the model reports position 2, and C reports
  position 3 on UTF-8 input.
- Lexer.ScanQuoted, Lexer.ScanBracketName: a quoted literal that reaches
  the end of the query without its closing quote ends at the terminator.
  The cursor step then passes the terminator: `*p += len + 1` followed by
  the loop's `(*p)++`, or `*p += len + 2` for a quoted name in brackets.
  The C code then reads beyond the string (undefined). The model reads NUL
  there. So `'abc` (four characters) is LITERAL `abc` with the cursor at 5
  and lexing ends, and `['abc` (five characters) fails with "Missing
  closing ] bracket" at position 6. A backslash ends a literal at the
  character after it, so `'a\b'` read from its last quote reaches the same
  case: LITERAL with empty text and the cursor at 6.
  `LexerProperties.UnclosedQuotedLiteral` and
  `LexerProperties.UnclosedBracketName` state these cursors for every query
  whose last quoted literal runs to the end.
- Lexer.ScanOperator: a `=` as the last character moves the cursor two
  places, past the terminator, and the C loop then reads beyond the string
  (undefined). The model reads NUL there, so lexing ends.
- Parser.ListStep: a third or later `:` with no slot left raises
  `d_list.count` but writes no slot, so C leaves that slot uninitialised.
  The model writes 0 there.
- Predicates.FollowLabels: `resolvePropertySelectorValue` and
  `resolveIssetSelector` look a label up through `HASH_OF` of the value
  reached so far, which is NULL when that value is a scalar (undefined in
  C). `resolveIssetSelector` does not check that its first value is an
  array either. The model treats a label under a scalar as missing.
- Predicates.ExprOperator.ResolvePropertySelectorValue: the scalar's text
  is copied into the `PARSE_BUF_LEN` buffer `value` with no bound, which
  overflows it for texts of 50 bytes or more. The model keeps the whole
  text.
- Predicates.ExprOperator.ResolvePropertySelectorValue: with no labels,
  the C code tests an uninitialised `data` with `is_scalar` (undefined). The
  model leaves the operand unchanged.
