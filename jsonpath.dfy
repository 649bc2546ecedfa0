/**
  The query entry points of jsonpath.c: `scanTokens`, which runs the lexer
  over the whole query into a token buffer of `PARSE_BUF_LEN` entries, and
  the engine part of `PHP_METHOD(JsonPath, find)`: tokenize, parse, evaluate,
  and answer false when nothing matched.

  In this snapshot `scan` is defined with three parameters returning a flag
  (lexer.c:39) but called with four returning a token kind (jsonpath.c:111).
  The model joins them as follows: a recognised token is its kind, the end
  of the input is LEX_NOT_FOUND, a failure with a message is LEX_ERR, and the
  one `return false` without a message (a `-` not followed by a digit) is
  the value 0, which is LEX_NOT_FOUND, so scanning stops there silently.
*/
module JsonPath {
  import opened Wrappers
  import Lexer
  import LexerProperties
  import opened Numerals
  import opened Ast
  import opened Parser
  import opened Values
  import opened Evaluator

  const TooLong: string := "The query is too long. Token count exceeds PARSE_BUF_LEN."

  /** The literal text `scanTokens` keeps for a token: only NODE, LITERAL and LITERAL_BOOL have one. */
  function StoredText(k: Lexer.TokenKind, text: string): (r: string)
    ensures r != "" ==> k == Lexer.Node || k == Lexer.Literal || k == Lexer.LiteralBool
  {
    if k == Lexer.Node || k == Lexer.Literal || k == Lexer.LiteralBool then text else ""
  }

  /** The exception message for a lexer error: the message and the offset of the error in the query. */
  function PositionMessage(msg: string, pos: nat): string
  {
    msg + " at position " + NatToString(pos)
  }

  /** A measure that falls with every token the lexer finds. */
  function Remaining(q: string, p: nat): nat
  {
    if p <= |q| then |q| - p + 1 else 0
  }

  /**
    `scanTokens` (jsonpath.c:102-141) from cursor `p`, with the tokens and
    texts stored so far: the complete buffers, or the exception message.
    The token count is checked before a token (or error) is looked at.
  */
  function TokensFrom(q: string, p: nat, kinds: seq<Lexer.TokenKind>, texts: seq<string>): (r: Result<(seq<Lexer.TokenKind>, seq<string>), string>)
    requires |kinds| == |texts| <= PARSE_BUF_LEN
    ensures r.Ok? ==> |r.value.0| == |r.value.1| <= PARSE_BUF_LEN
    ensures r.Ok? ==> kinds <= r.value.0 && texts <= r.value.1
    decreases Remaining(q, p)
  {
    match Lexer.ScanSpec(q, p)
    case NotFound(_) => Ok((kinds, texts))
    case Rejected => Ok((kinds, texts))
    case Failed(m, pos) =>
      if |kinds| >= PARSE_BUF_LEN then Err(TooLong) else Err(PositionMessage(m, pos))
    case Found(k, t, n) =>
      if |kinds| >= PARSE_BUF_LEN then Err(TooLong)
      else
        LexerProperties.ScanAdvances(q, p);
        assert Lexer.Ch(q, p) != Lexer.NUL;
        TokensFrom(q, n, kinds + [k], texts + [StoredText(k, t)])
  }

  /** The token buffers of a whole query. */
  function Tokens(q: string): Result<(seq<Lexer.TokenKind>, seq<string>), string>
  {
    TokensFrom(q, 0, [], [])
  }

  /**
    `scanTokens`: fill the caller's buffers of `PARSE_BUF_LEN` slots, one
    `scan` per token, and report the token count or the exception message.
  */
  method ScanTokens(q: string, tok: array<Lexer.TokenKind>, lits: array<string>) returns (r: Result<nat, string>)
    requires tok.Length == PARSE_BUF_LEN && lits.Length == PARSE_BUF_LEN
    modifies tok, lits
    ensures match Tokens(q)
      case Ok((kinds, texts)) => r == Ok(|kinds|) && tok[..|kinds|] == kinds && lits[..|texts|] == texts
      case Err(m) => r == Err(m)
  {
    var p := 0;
    var i := 0;
    ghost var kinds: seq<Lexer.TokenKind> := [];
    ghost var texts: seq<string> := [];
    while true
      invariant i == |kinds| == |texts| <= PARSE_BUF_LEN
      invariant tok[..i] == kinds && lits[..i] == texts
      invariant TokensFrom(q, p, kinds, texts) == Tokens(q)
      decreases Remaining(q, p)
    {
      var cur := Lexer.Scan(q, p);
      if cur.NotFound? || cur.Rejected? {
        break;
      }
      if i >= PARSE_BUF_LEN {
        return Err(TooLong);
      }
      match cur {
        case Failed(m, pos) =>
          return Err(PositionMessage(m, pos));
        case Found(k, t, n) =>
          LexerProperties.ScanAdvances(q, p);
          tok[i] := k;
          lits[i] := StoredText(k, t);
          kinds := kinds + [k];
          texts := texts + [StoredText(k, t)];
          i := i + 1;
          p := n;
      }
    }
    return Ok(i);
  }

  /**
    The token buffers `find` declares (jsonpath.c:53-59), filled by
    `scanTokens`: the stored tokens and texts, or the exception message.
  */
  method Tokenize(q: string) returns (r: Result<(seq<Lexer.TokenKind>, seq<string>), string>)
    ensures r == Tokens(q)
    ensures r.Ok? ==> |r.value.0| == |r.value.1| <= PARSE_BUF_LEN
  {
    var tok := new Lexer.TokenKind[PARSE_BUF_LEN](_ => Lexer.Root);
    var lits := new string[PARSE_BUF_LEN](_ => "");
    var count := ScanTokens(q, tok, lits);
    if count.Err? {
      return Err(count.error);
    }
    return Ok((tok[..count.value], lits[..count.value]));
  }

  /**
    What `find` gives back for a query: the matches, `false` when there are
    none, or the exception a lexer or parser error throws. `Unsupported`
    stands for chains the evaluator does not complete: those with filters,
    index lists or slices, on which `evaluateAST` spins, and those with a
    `..` not followed by a selector (`$..*`, or a final `..`), for which
    `execSelectorChain` reads a selector name the node does not hold.
  */
  datatype Outcome =
    | Matches(values: seq<Value>)
    | NoMatches
    | LexFailure(msg: string)
    | ParseFailure(msg: string)
    | Unsupported

  /** The reference outcome of a query on a value. */
  function FindSpec(q: string, v: Value): Outcome
  {
    match Tokens(q)
    case Err(m) => LexFailure(m)
    case Ok((kinds, texts)) =>
      match Build(kinds, texts)
      case Err(m) => ParseFailure(m)
      case Ok(chain) =>
        if !Evaluable(chain) then Unsupported
        else
          var found := EvalChain(v, chain);
          if |found| == 0 then NoMatches else Matches(found)
  }

  /**
    The engine part of `find` (jsonpath.c:50-99). On a parse error the model
    answers `ParseFailure`. The C code raises the exception but goes on to
    evaluate the partial chain: the caller sees the exception only when that
    evaluation ends, and it may instead spin forever or read through a NULL
    table (`$.a[*]` on `{"a": [[1]]}` or on `{"a": 1}`).
  */
  method Find(q: string, v: Value) returns (r: Outcome)
    ensures r == FindSpec(q, v)
  {
    var lexed := Tokenize(q);
    if lexed.Err? {
      return LexFailure(lexed.error);
    }
    var tree := BuildParseTree(lexed.value.0, lexed.value.1);
    if tree.Err? {
      return ParseFailure(tree.error);
    }
    var chain := tree.value;
    if !Evaluable(chain) {
      return Unsupported;
    }
    r := Answer(v, chain);
  }

  /**
    The last part of `find` (jsonpath.c:80-99): evaluate the chain into an
    empty result array, and answer false when nothing was added to it.
  */
  method Answer(v: Value, chain: seq<AstNode>) returns (r: Outcome)
    requires Evaluable(chain)
    ensures r == if |EvalChain(v, chain)| == 0 then NoMatches else Matches(EvalChain(v, chain))
  {
    var results := new Results();
    EvaluateAst(v, chain, results);
    if |results.items| == 0 {
      return NoMatches;
    }
    return Matches(results.items);
  }
}
