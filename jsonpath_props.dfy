/**
  Properties of the query entry points: the token limit of `scanTokens`
  against a lexing of the whole query without a limit, the literal texts it
  keeps, the empty-result rule of `find`, and a query lexed token by token.
*/
module JsonPathProperties {
  import opened Wrappers
  import Lexer
  import LexerProperties
  import opened Ast
  import opened Parser
  import opened Values
  import opened Evaluator
  import opened JsonPath

  /** Every token of a query up to its end, and the failure that stopped the lexer, if any. */
  datatype Lexed = Lexed(tokens: seq<(Lexer.TokenKind, string)>, failure: Option<(string, nat)>)

  /** `scan` repeated from cursor `p` with no limit on the number of tokens. */
  function LexFrom(q: string, p: nat): Lexed
    decreases Remaining(q, p)
  {
    match Lexer.ScanSpec(q, p)
    case NotFound(_) => Lexed([], None)
    case Rejected => Lexed([], None)
    case Failed(m, pos) => Lexed([], Some((m, pos)))
    case Found(k, t, n) =>
      LexerProperties.ScanAdvances(q, p);
      var rest := LexFrom(q, n);
      Lexed([(k, t)] + rest.tokens, rest.failure)
  }

  function Kinds(ts: seq<(Lexer.TokenKind, string)>): (r: seq<Lexer.TokenKind>)
    ensures |r| == |ts| && forall k :: 0 <= k < |ts| ==> r[k] == ts[k].0
  {
    seq(|ts|, k requires 0 <= k < |ts| => ts[k].0)
  }

  /** The texts `scanTokens` stores: the lexeme of a NODE or literal, and "" for every other token. */
  function Stored(ts: seq<(Lexer.TokenKind, string)>): (r: seq<string>)
    ensures |r| == |ts|
    ensures forall k :: 0 <= k < |ts| ==>
      r[k] == if ts[k].0 in {Lexer.Node, Lexer.Literal, Lexer.LiteralBool} then ts[k].1 else ""
  {
    seq(|ts|, k requires 0 <= k < |ts| => StoredText(ts[k].0, ts[k].1))
  }

  /** The outcome of `scanTokens` from a cursor, given the tokens already stored. */
  function Expected(kinds: seq<Lexer.TokenKind>, texts: seq<string>, l: Lexed): Result<(seq<Lexer.TokenKind>, seq<string>), string>
  {
    var n := |kinds| + |l.tokens|;
    if n > PARSE_BUF_LEN || (n == PARSE_BUF_LEN && l.failure.Some?) then Err(TooLong)
    else if l.failure.Some? then Err(PositionMessage(l.failure.value.0, l.failure.value.1))
    else Ok((kinds + Kinds(l.tokens), texts + Stored(l.tokens)))
  }

  /** A token found with room left is stored, and `scanTokens` goes on after it. */
  lemma TokensFromStep(q: string, p: nat, kinds: seq<Lexer.TokenKind>, texts: seq<string>, k: Lexer.TokenKind, t: string, n: nat)
    requires |kinds| == |texts| < PARSE_BUF_LEN
    requires Lexer.ScanSpec(q, p) == Lexer.Found(k, t, n)
    ensures TokensFrom(q, p, kinds, texts) == TokensFrom(q, n, kinds + [k], texts + [StoredText(k, t)])
  {
  }

  /** One token found with room left: both sides step to the next cursor. */
  lemma TokensFromFound(q: string, p: nat, kinds: seq<Lexer.TokenKind>, texts: seq<string>, k: Lexer.TokenKind, t: string, n: nat)
    requires |kinds| == |texts| < PARSE_BUF_LEN
    requires Lexer.ScanSpec(q, p) == Lexer.Found(k, t, n)
    requires TokensFrom(q, n, kinds + [k], texts + [StoredText(k, t)]) == Expected(kinds + [k], texts + [StoredText(k, t)], LexFrom(q, n))
    ensures TokensFrom(q, p, kinds, texts) == Expected(kinds, texts, LexFrom(q, p))
  {
    var rest := LexFrom(q, n);
    assert LexFrom(q, p) == Lexed([(k, t)] + rest.tokens, rest.failure);
    ExpectedCons(kinds, texts, k, t, rest);
  }

  /** Storing one more token before an unlimited lexing is the same as lexing it first. */
  lemma ExpectedCons(kinds: seq<Lexer.TokenKind>, texts: seq<string>, k: Lexer.TokenKind, t: string, rest: Lexed)
    ensures Expected(kinds + [k], texts + [StoredText(k, t)], rest) == Expected(kinds, texts, Lexed([(k, t)] + rest.tokens, rest.failure))
  {
    var ts := rest.tokens;
    KindsCons(k, t, ts);
    StoredCons(k, t, ts);
    assert kinds + [k] + Kinds(ts) == kinds + ([k] + Kinds(ts));
    assert texts + [StoredText(k, t)] + Stored(ts) == texts + ([StoredText(k, t)] + Stored(ts));
  }

  lemma KindsCons(k: Lexer.TokenKind, t: string, ts: seq<(Lexer.TokenKind, string)>)
    ensures Kinds([(k, t)] + ts) == [k] + Kinds(ts)
  {
    var a, b := Kinds([(k, t)] + ts), [k] + Kinds(ts);
    forall j | 0 <= j < |a|
      ensures a[j] == b[j]
    {
      if j > 0 {
        assert ([(k, t)] + ts)[j] == ts[j - 1];
      }
    }
  }

  lemma StoredCons(k: Lexer.TokenKind, t: string, ts: seq<(Lexer.TokenKind, string)>)
    ensures Stored([(k, t)] + ts) == [StoredText(k, t)] + Stored(ts)
  {
    var a, b := Stored([(k, t)] + ts), [StoredText(k, t)] + Stored(ts);
    forall j | 0 <= j < |a|
      ensures a[j] == b[j]
    {
      if j > 0 {
        assert ([(k, t)] + ts)[j] == ts[j - 1];
      }
    }
  }

  /** The lexer stops without a failure: both sides keep the tokens stored so far. */
  lemma TokensFromStops(q: string, p: nat, kinds: seq<Lexer.TokenKind>, texts: seq<string>)
    requires |kinds| == |texts| <= PARSE_BUF_LEN
    requires Lexer.ScanSpec(q, p).NotFound? || Lexer.ScanSpec(q, p).Rejected?
    ensures TokensFrom(q, p, kinds, texts) == Expected(kinds, texts, LexFrom(q, p))
  {
    assert LexFrom(q, p) == Lexed([], None);
    assert kinds + [] == kinds && texts + [] == texts;
  }

  lemma {:induction false} TokensFromLexed(q: string, p: nat, kinds: seq<Lexer.TokenKind>, texts: seq<string>)
    requires |kinds| == |texts| <= PARSE_BUF_LEN
    ensures TokensFrom(q, p, kinds, texts) == Expected(kinds, texts, LexFrom(q, p))
    decreases Remaining(q, p)
  {
    var sc := Lexer.ScanSpec(q, p);
    if sc.NotFound? || sc.Rejected? {
      TokensFromStops(q, p, kinds, texts);
    } else if sc.Found? && |kinds| < PARSE_BUF_LEN {
      LexerProperties.ScanAdvances(q, p);
      TokensFromLexed(q, sc.next, kinds + [sc.kind], texts + [StoredText(sc.kind, sc.text)]);
      TokensFromFound(q, p, kinds, texts, sc.kind, sc.text, sc.next);
    }
  }

  /**
    `scanTokens` refuses a query of more than `PARSE_BUF_LEN` tokens, and one
    of exactly `PARSE_BUF_LEN` tokens followed by a lexer error, as too long;
    otherwise a lexer error is reported with its position, and a query that
    lexes completely yields its tokens with the texts of NODE and literal
    tokens only.
  */
  lemma TokenLimit(q: string)
    ensures var l := LexFrom(q, 0);
      Tokens(q) ==
        if |l.tokens| > PARSE_BUF_LEN || (|l.tokens| == PARSE_BUF_LEN && l.failure.Some?) then Err(TooLong)
        else if l.failure.Some? then Err(PositionMessage(l.failure.value.0, l.failure.value.1))
        else Ok((Kinds(l.tokens), Stored(l.tokens)))
  {
    TokensFromLexed(q, 0, [], []);
    var l := LexFrom(q, 0);
    assert [] + Kinds(l.tokens) == Kinds(l.tokens);
    assert [] + Stored(l.tokens) == Stored(l.tokens);
  }

  /** `find` answers false, never an empty array, when nothing matched. */
  lemma FindNeverEmptyMatches(q: string, v: Value)
    ensures FindSpec(q, v) != Matches([])
    ensures FindSpec(q, v).Matches? || FindSpec(q, v).NoMatches? ==>
      Tokens(q).Ok? && Build(Tokens(q).value.0, Tokens(q).value.1).Ok? &&
      var chain := Build(Tokens(q).value.0, Tokens(q).value.1).value;
      Evaluable(chain) &&
      (FindSpec(q, v) == if EvalChain(v, chain) == [] then NoMatches else Matches(EvalChain(v, chain)))
  {
  }

  /** The tokens `scan` finds in `$.a`. */
  lemma ScanRootDotName()
    ensures Lexer.ScanSpec("$.a", 0) == Lexer.Found(Lexer.Root, "", 1)
    ensures Lexer.ScanSpec("$.a", 1) == Lexer.Found(Lexer.Node, "a", 3)
    ensures Lexer.ScanSpec("$.a", 3) == Lexer.NotFound(3)
  {
  }

  /** `$.a` lexes to ROOT and NODE `a`. */
  lemma LexRootDotName()
    ensures Tokens("$.a") == Ok(([Lexer.Root, Lexer.Node], ["", "a"]))
  {
    var q := "$.a";
    ScanRootDotName();
    var k1, t1 := [Lexer.Root], [""];
    var k2, t2 := [Lexer.Root, Lexer.Node], ["", "a"];
    assert TokensFrom(q, 3, k2, t2) == Ok((k2, t2));
    assert k1 + [Lexer.Node] == k2 && t1 + [StoredText(Lexer.Node, "a")] == t2;
    TokensFromStep(q, 1, k1, t1, Lexer.Node, "a", 3);
    assert [] + [Lexer.Root] == k1 && [] + [StoredText(Lexer.Root, "")] == t1;
    TokensFromStep(q, 0, [], [], Lexer.Root, "", 1);
  }
}
