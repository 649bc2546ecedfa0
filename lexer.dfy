/**
  The query lexer (src/jsonpath/lexer.c).

  A query is a C string: the model reads it through `Ch`, which yields NUL at
  and beyond the end of the sequence (and the C loops stop at an embedded NUL
  just as they stop at the terminator). A cursor is an index into the query.

  The reference behaviour is given by pure functions (`SkipSpaces`,
  `IdentEnd`, `QuotedLiteral`, `StepAt`, `ScanSpec`, ...); the methods
  (`Scan`, `ExtractQuotedLiteral`, ...) move a cursor through the query as the
  C code does, and are proved equal to those functions.
*/
module Lexer {
  import opened Wrappers

  /** Token kinds produced by `scan` (the `visible` table plus AND/OR). */
  datatype TokenKind =
    | Root | CurNode | WildCard | DeepScan | Node | ExprEnd | Slice | ChildSep
    | ExprStart | Eq | Neq | Lt | Lte | Gt | Gte | Rgxp | ParenOpen | ParenClose
    | Literal | LiteralBool | FilterStart | And | Or

  /** The extent of a literal inside the query: `tok->start` and `tok->len`. */
  datatype Span = Span(start: nat, len: nat)

  datatype LexError = LexError(msg: string, pos: nat)

  /**
    Outcome of one call of `scan`.
    - Found: a token, its literal text ("" for kinds without a literal) and
      the cursor after it.
    - NotFound: the end of the input was reached without a token (LEX_NOT_FOUND).
    - Failed: `err->msg` and `err->pos` were set and `false` returned.
    - Rejected: `false` was returned without setting `err` (a `-` that is
      not followed by a digit).
  */
  datatype ScanResult =
    | Found(kind: TokenKind, text: string, next: nat)
    | NotFound(next: nat)
    | Failed(msg: string, pos: nat)
    | Rejected

  const NUL: char := 0 as char

  const MissingOpeningQuote: string := "Missing opening quote in string literal"
  const MissingClosingBracket: string := "Missing closing ] bracket"
  const BangMissingEq: string := "! operator missing ="
  const AndMustBeDouble: string := "'And' operator must be double &&"
  const OrMustBeDouble: string := "'Or' operator must be double ||"

  /** The character under a cursor; NUL at and past the string's terminator. */
  function Ch(s: string, i: nat): (c: char)
    ensures c != NUL ==> i < |s| && c == s[i]
  {
    if i < |s| then s[i] else NUL
  }

  /** `isdigit`, `isspace` and `ispunct` in the C locale. */
  predicate IsDigit(c: char) { '0' <= c <= '9' }

  predicate IsSpace(c: char) { c == ' ' || (9 <= c as int <= 13) }

  predicate IsPunct(c: char)
  {
    var n := c as int;
    (33 <= n <= 47) || (58 <= n <= 64) || (91 <= n <= 96) || (123 <= n <= 126)
  }

  predicate IsQuote(c: char) { c == '\'' || c == '"' }

  /** A character the unbounded-literal loop continues over. */
  predicate IsIdentChar(c: char)
  {
    c != NUL && !IsSpace(c) && (c == '_' || c == '-' || !IsPunct(c))
  }

  /** The first cursor at or after `i` that is not a blank (' ' only). */
  function SkipSpaces(s: string, i: nat): (r: nat)
    decreases |s| - i
    ensures i <= r
    ensures i <= |s| ==> r <= |s|
    ensures Ch(s, r) != ' '
    ensures forall k :: i <= k < r ==> Ch(s, k) == ' '
  {
    if Ch(s, i) == ' ' then SkipSpaces(s, i + 1) else i
  }

  /** The first cursor at or after `i` that does not continue an identifier. */
  function IdentEnd(s: string, i: nat): (r: nat)
    decreases |s| - i
    ensures i <= r
    ensures i <= |s| ==> r <= |s|
    ensures forall k :: i <= k < r ==> IsIdentChar(Ch(s, k))
    ensures !IsIdentChar(Ch(s, r))
  {
    if IsIdentChar(Ch(s, i)) then IdentEnd(s, i + 1) else i
  }

  /** The first cursor at or after `i` that is not a decimal digit. */
  function DigitsEnd(s: string, i: nat): (r: nat)
    decreases |s| - i
    ensures i <= r
    ensures i <= |s| ==> r <= |s|
    ensures forall k :: i <= k < r ==> IsDigit(Ch(s, k))
    ensures !IsDigit(Ch(s, r))
  {
    if IsDigit(Ch(s, i)) then DigitsEnd(s, i + 1) else i
  }

  /**
    The end of a quoted literal whose text starts at `i` (just after the
    opening quote `q`): the first NUL, the first `q`, or the first character
    that follows a backslash.
  */
  function QuotedEnd(s: string, i: nat, q: char): (r: nat)
    requires 1 <= i
    decreases |s| - i
    ensures i <= r
    ensures i <= |s| ==> r <= |s|
  {
    if Ch(s, i) != NUL && Ch(s, i) != q && Ch(s, i - 1) != '\\' then QuotedEnd(s, i + 1, q) else i
  }

  /** The end of a numeric literal starting at `i`: `-`? digits (`.` digit digits*)?. */
  function NumericEnd(s: string, i: nat): (r: nat)
    ensures i <= r
    ensures i <= |s| ==> r <= |s|
  {
    var j := if Ch(s, i) == '-' then i + 1 else i;
    var k := DigitsEnd(s, j);
    if Ch(s, k) != NUL && Ch(s, k + 1) != NUL && Ch(s, k) == '.' && IsDigit(Ch(s, k + 1))
    then DigitsEnd(s, k + 1)
    else k
  }

  /** Spans of the `extract_*` helpers (with `tok->len` computed as `p - tok->start`). */
  function UnboundedLiteral(s: string, p: nat): (sp: Span)
    ensures p <= |s| ==> sp.start + sp.len <= |s|
  {
    var start := SkipSpaces(s, p);
    Span(start, IdentEnd(s, start) - start)
  }

  function NumericLiteral(s: string, p: nat): (sp: Span)
    ensures p <= |s| ==> sp.start + sp.len <= |s|
  {
    var start := SkipSpaces(s, p);
    Span(start, NumericEnd(s, start) - start)
  }

  function QuotedLiteral(s: string, p: nat): (r: Result<Span, LexError>)
    ensures r.Ok? ==> r.value.start + r.value.len <= |s|
  {
    var j := SkipSpaces(s, p);
    if IsQuote(Ch(s, j)) then
      Ok(Span(j + 1, QuotedEnd(s, j + 1, Ch(s, j)) - (j + 1)))
    else
      Err(LexError(MissingOpeningQuote, j))
  }

  /** The text a span designates. */
  function Text(s: string, sp: Span): string
    requires sp.start + sp.len <= |s|
  {
    s[sp.start..sp.start + sp.len]
  }

  /** What one pass of `scan`'s loop does with the character under the cursor. */
  datatype Step =
    | Emit(kind: TokenKind, text: string, next: nat)
    | Skip(next: nat)
    | Fail(msg: string, pos: nat)
    | Reject

  /** The characters that are a token by themselves (lexer.c:48-50, 122-133, 196-201, 216-218). */
  function Punctuator(c: char): Option<TokenKind>
  {
    if c == '$' then Some(Root)
    else if c == ']' then Some(ExprEnd)
    else if c == '@' then Some(CurNode)
    else if c == ':' then Some(Slice)
    else if c == ',' then Some(ChildSep)
    else if c == '(' then Some(ParenOpen)
    else if c == ')' then Some(ParenClose)
    else if c == '*' then Some(WildCard)
    else None
  }

  predicate IsOperatorStart(c: char)
  {
    c == '=' || c == '!' || c == '>' || c == '<' || c == '&' || c == '|'
  }

  predicate IsLiteralStart(c: char)
  {
    IsQuote(c) || c == 't' || c == 'f' || c == '-' || IsDigit(c)
  }

  /** The `.` case (lexer.c:51-75). */
  function StepDot(s: string, i: nat): (st: Step)
    requires Ch(s, i) == '.'
    ensures st.Emit? || st.Skip?
    ensures st.Emit? ==> i < st.next
    ensures st.Skip? ==> i < st.next
  {
    var c1 := Ch(s, i + 1);
    if c1 == '.' then Emit(DeepScan, "", i + 1)
    else if c1 == '[' || c1 == '*' then Skip(i + 1)
    else
      // The cursor is moved by the literal's length from just after the
      // dot, so blanks skipped by the literal scan are not accounted for.
      var sp := UnboundedLiteral(s, i + 1);
      Emit(Node, Text(s, sp), i + 1 + sp.len)
  }

  /** The `[` case (lexer.c:76-121). */
  function StepBracket(s: string, i: nat): (st: Step)
    requires Ch(s, i) == '['
    ensures st.Emit? || st.Fail?
    ensures st.Emit? ==> i < st.next
  {
    var j := SkipSpaces(s, i + 1);
    var c1 := Ch(s, j);
    if IsQuote(c1) then
      match QuotedLiteral(s, j)
      case Err(e) => Fail(e.msg, e.pos)
      case Ok(sp) =>
        var k := SkipSpaces(s, j + sp.len + 2);
        if Ch(s, k) != ']' then Fail(MissingClosingBracket, k)
        else Emit(Node, Text(s, sp), k + 1)
    else if c1 == '?' then Emit(ExprStart, "", j + 1)
    else Emit(FilterStart, "", j)
  }

  /** The comparison and boolean operators (lexer.c:134-195). */
  function StepOperator(s: string, i: nat): (st: Step)
    requires IsOperatorStart(Ch(s, i))
    ensures st.Emit? ==> i < st.next
    ensures st.Skip? ==> i < st.next
  {
    var c := Ch(s, i);
    var c1 := Ch(s, i + 1);
    if c == '=' then
      if c1 == '=' then Emit(Eq, "", i + 2)
      else if c1 == '~' then Emit(Rgxp, "", i + 2)
      else Skip(i + 2)
    else if c == '!' then
      if c1 != '=' then Fail(BangMissingEq, i + 1) else Emit(Neq, "", i + 2)
    else if c == '>' then
      if c1 == '=' then Emit(Gte, "", i + 2) else Emit(Gt, "", i + 1)
    else if c == '<' then
      if c1 == '=' then Emit(Lte, "", i + 2) else Emit(Lt, "", i + 1)
    else if c == '&' then
      if c1 != '&' then Fail(AndMustBeDouble, i + 1) else Emit(And, "", i + 2)
    else
      if c1 != '|' then Fail(OrMustBeDouble, i + 1) else Emit(Or, "", i + 2)
  }

  /** Quoted, boolean and numeric literals (lexer.c:202-215, 219-246). */
  function StepLiteral(s: string, i: nat): (st: Step)
    requires IsLiteralStart(Ch(s, i))
    ensures !st.Skip?
    ensures st.Emit? ==> i < st.next
  {
    var c := Ch(s, i);
    if IsQuote(c) then
      match QuotedLiteral(s, i)
      case Err(e) => Fail(e.msg, e.pos)
      case Ok(sp) => Emit(Literal, Text(s, sp), i + sp.len + 2)
    else if c == 't' || c == 'f' then
      var sp := UnboundedLiteral(s, i);
      assert IdentEnd(s, i) == IdentEnd(s, i + 1);
      Emit(LiteralBool, Text(s, sp), i + sp.len)
    else if c == '-' && !IsDigit(Ch(s, i + 1)) then Reject
    else
      var sp := NumericLiteral(s, i);
      assert sp.len >= 1 by {
        assert c == '-' ==> DigitsEnd(s, i + 1) >= i + 1;
        assert IsDigit(c) ==> DigitsEnd(s, i) == DigitsEnd(s, i + 1);
      }
      Emit(Literal, Text(s, sp), i + sp.len)
  }

  /**
    One pass of the `while` loop of `scan` at cursor `i`, cursor advance
    included (lexer.c:46-249); any other character is skipped.
  */
  function StepAt(s: string, i: nat): (st: Step)
    requires Ch(s, i) != NUL
    ensures st.Emit? ==> i < st.next
    ensures st.Skip? ==> i < st.next
  {
    var c := Ch(s, i);
    if Punctuator(c).Some? then Emit(Punctuator(c).value, "", i + 1)
    else if c == '.' then StepDot(s, i)
    else if c == '[' then StepBracket(s, i)
    else if IsOperatorStart(c) then StepOperator(s, i)
    else if IsLiteralStart(c) then StepLiteral(s, i)
    else Skip(i + 1)
  }

  /** The reference result of `scan` from cursor `p`: run `StepAt` until it decides. */
  function ScanSpec(s: string, p: nat): ScanResult
    decreases |s| - p
  {
    if Ch(s, p) == NUL then NotFound(p)
    else match StepAt(s, p)
      case Emit(k, t, n) => Found(k, t, n)
      case Skip(n) => ScanSpec(s, n)
      case Fail(m, pos) => Failed(m, pos)
      case Reject => Rejected
  }

  /** `extract_unbounded_literal` (lexer.c:289-298). */
  method ExtractUnboundedLiteral(s: string, p0: nat) returns (sp: Span)
    ensures sp == UnboundedLiteral(s, p0)
  {
    var start := SkipBlanks(s, p0);
    var p := start;
    while Ch(s, p) != NUL && !IsSpace(Ch(s, p)) && (Ch(s, p) == '_' || Ch(s, p) == '-' || !IsPunct(Ch(s, p)))
      invariant start <= p && IdentEnd(s, p) == IdentEnd(s, start)
      decreases |s| - p
    {
      p := p + 1;
    }
    sp := Span(start, p - start);
  }

  /**
    `extract_boolean_literal` (lexer.c:324-333): its body is the same loop as
    `extract_unbounded_literal`, so it delegates to it.
  */
  method ExtractBooleanLiteral(s: string, p0: nat) returns (sp: Span)
    ensures sp == UnboundedLiteral(s, p0)
  {
    sp := ExtractUnboundedLiteral(s, p0);
  }

  /** A loop that moves the cursor past blanks, as `scan` and the `extract_*` helpers do. */
  method SkipBlanks(s: string, p0: nat) returns (p: nat)
    ensures p == SkipSpaces(s, p0)
  {
    p := p0;
    while Ch(s, p) != NUL && Ch(s, p) == ' '
      invariant p0 <= p && SkipSpaces(s, p) == SkipSpaces(s, p0)
      decreases |s| - p
    {
      p := p + 1;
    }
  }

  /** A `while (isdigit(*p)) p++;` loop. */
  method SkipDigits(s: string, p0: nat) returns (p: nat)
    ensures p == DigitsEnd(s, p0)
  {
    p := p0;
    while IsDigit(Ch(s, p))
      invariant p0 <= p && DigitsEnd(s, p) == DigitsEnd(s, p0)
      decreases |s| - p
    {
      p := p + 1;
    }
  }

  /** `extract_unbounded_numeric_literal` (lexer.c:301-321). */
  method ExtractUnboundedNumericLiteral(s: string, p0: nat) returns (sp: Span)
    ensures sp == NumericLiteral(s, p0)
  {
    var start := SkipBlanks(s, p0);
    var p := start;
    if Ch(s, p) == '-' {
      p := p + 1;
    }
    p := SkipDigits(s, p);
    if Ch(s, p) != NUL && Ch(s, p + 1) != NUL && Ch(s, p) == '.' && IsDigit(Ch(s, p + 1)) {
      p := SkipDigits(s, p + 1);
    }
    sp := Span(start, p - start);
  }

  /** `extract_quoted_literal` (lexer.c:256-286). */
  method ExtractQuotedLiteral(s: string, p0: nat) returns (r: Result<Span, LexError>)
    ensures r == QuotedLiteral(s, p0)
  {
    var p := p0;
    var quoteFound := false;
    var quoteType := NUL;
    while Ch(s, p) != NUL && (IsQuote(Ch(s, p)) || Ch(s, p) == ' ')
      invariant p0 <= p && SkipSpaces(s, p) == SkipSpaces(s, p0)
      invariant !quoteFound
      decreases |s| - p
    {
      if IsQuote(Ch(s, p)) {
        quoteFound := true;
        quoteType := Ch(s, p);
        p := p + 1;
        break;
      }
      p := p + 1;
    }
    if !quoteFound {
      return Err(LexError(MissingOpeningQuote, p));
    }
    var start := p;
    while Ch(s, p) != NUL && Ch(s, p) != quoteType && Ch(s, p - 1) != '\\'
      invariant start <= p && QuotedEnd(s, p, quoteType) == QuotedEnd(s, start, quoteType)
      decreases |s| - p
    {
      p := p + 1;
    }
    // lexer.c:283 writes `p - tok->len`; the extent of the literal is `p - tok->start`.
    r := Ok(Span(start, p - start));
  }

  /** The `.` case of `scan`: the cursor moves of lexer.c:51-75. */
  method ScanDot(s: string, i: nat) returns (st: Step)
    requires Ch(s, i) == '.'
    ensures st == StepDot(s, i)
  {
    var p := i;
    var c1 := Ch(s, p + 1);
    if c1 == '.' {
      st := Emit(DeepScan, "", p + 1);
    } else if c1 == '[' || c1 == '*' {
      // the dot is superfluous before a bracket or a wildcard
      st := Skip(p + 1);
    } else {
      p := p + 1;
      var sp := ExtractUnboundedLiteral(s, p);
      p := p + sp.len - 1;
      st := Emit(Node, s[sp.start..sp.start + sp.len], p + 1);
    }
  }

  /** The `[` case of `scan` (lexer.c:76-121). */
  method ScanBracket(s: string, i: nat) returns (st: Step)
    requires Ch(s, i) == '['
    ensures st == StepBracket(s, i)
  {
    var p := SkipBlanks(s, i + 1);
    var c1 := Ch(s, p);
    if IsQuote(c1) {
      st := ScanBracketName(s, i, p);
    } else if c1 == '?' {
      st := Emit(ExprStart, "", p + 1);
    } else {
      // step back so that the bracket's contents are scanned next
      p := p - 1;
      st := Emit(FilterStart, "", p + 1);
    }
  }

  /** A quoted name in brackets, from its opening quote at `p` (lexer.c:82-111). */
  method ScanBracketName(s: string, i: nat, p: nat) returns (st: Step)
    requires Ch(s, i) == '[' && p == SkipSpaces(s, i + 1) && IsQuote(Ch(s, p))
    ensures st == StepBracket(s, i)
  {
    var q := ExtractQuotedLiteral(s, p);
    match q {
      case Err(e) =>
        return Fail(e.msg, e.pos);
      case Ok(sp) =>
        var k := SkipBlanks(s, p + sp.len + 2);
        if Ch(s, k) != ']' {
          return Fail(MissingClosingBracket, k);
        }
        return Emit(Node, s[sp.start..sp.start + sp.len], k + 1);
    }
  }

  /** The operator cases of `scan` (lexer.c:134-195). */
  method ScanOperator(s: string, i: nat) returns (st: Step)
    requires IsOperatorStart(Ch(s, i))
    ensures st == StepOperator(s, i)
  {
    var p := i;
    var c := Ch(s, p);
    if c == '=' {
      p := p + 1;
      if Ch(s, p) == '=' {
        st := Emit(Eq, "", p + 1);
      } else if Ch(s, p) == '~' {
        st := Emit(Rgxp, "", p + 1);
      } else {
        // no token: the loop's increment also passes over this character
        st := Skip(p + 1);
      }
    } else if c == '!' {
      p := p + 1;
      if Ch(s, p) != '=' {
        return Fail(BangMissingEq, p);
      }
      st := Emit(Neq, "", p + 1);
    } else if c == '>' {
      if Ch(s, p + 1) == '=' {
        p := p + 1;
        st := Emit(Gte, "", p + 1);
      } else {
        st := Emit(Gt, "", p + 1);
      }
    } else if c == '<' {
      if Ch(s, p + 1) == '=' {
        p := p + 1;
        st := Emit(Lte, "", p + 1);
      } else {
        st := Emit(Lt, "", p + 1);
      }
    } else if c == '&' {
      p := p + 1;
      if Ch(s, p) != '&' {
        return Fail(AndMustBeDouble, p);
      }
      st := Emit(And, "", p + 1);
    } else {
      p := p + 1;
      if Ch(s, p) != '|' {
        return Fail(OrMustBeDouble, p);
      }
      st := Emit(Or, "", p + 1);
    }
  }

  /** The literal cases of `scan` (lexer.c:202-215, 219-246). */
  method ScanLiteral(s: string, i: nat) returns (st: Step)
    requires IsLiteralStart(Ch(s, i))
    ensures st == StepLiteral(s, i)
  {
    var c := Ch(s, i);
    if IsQuote(c) {
      st := ScanQuoted(s, i);
    } else if c == 't' || c == 'f' {
      st := ScanBoolean(s, i);
    } else if c == '-' && !IsDigit(Ch(s, i + 1)) {
      st := Reject;
    } else {
      st := ScanNumeric(s, i);
    }
  }

  /** The quote cases (lexer.c:202-215). */
  method ScanQuoted(s: string, i: nat) returns (st: Step)
    requires IsQuote(Ch(s, i))
    ensures st == StepLiteral(s, i)
  {
    var q := ExtractQuotedLiteral(s, i);
    match q {
      case Err(e) => return Fail(e.msg, e.pos);
      case Ok(sp) =>
        var p := i + sp.len + 1;
        return Emit(Literal, s[sp.start..sp.start + sp.len], p + 1);
    }
  }

  /** The `t` and `f` cases (lexer.c:219-224). */
  method ScanBoolean(s: string, i: nat) returns (st: Step)
    requires Ch(s, i) == 't' || Ch(s, i) == 'f'
    ensures st == StepLiteral(s, i)
  {
    var sp := ExtractBooleanLiteral(s, i);
    assert IdentEnd(s, i) == IdentEnd(s, i + 1);
    var p := i + sp.len - 1;
    return Emit(LiteralBool, s[sp.start..sp.start + sp.len], p + 1);
  }

  /** The `-` and digit cases once a digit is known to come (lexer.c:225-246). */
  method ScanNumeric(s: string, i: nat) returns (st: Step)
    requires IsDigit(Ch(s, i)) || (Ch(s, i) == '-' && IsDigit(Ch(s, i + 1)))
    ensures st == StepLiteral(s, i)
  {
    var sp := ExtractUnboundedNumericLiteral(s, i);
    assert sp.len >= 1 by {
      assert Ch(s, i) == '-' ==> DigitsEnd(s, i + 1) >= i + 1;
      assert IsDigit(Ch(s, i)) ==> DigitsEnd(s, i) == DigitsEnd(s, i + 1);
    }
    var p := i + sp.len - 1;
    return Emit(Literal, s[sp.start..sp.start + sp.len], p + 1);
  }

  /**
    `scan` (lexer.c:39-253): move the cursor until a token is recognised, an
    error is found or the input ends. The two failure exits of the source
    are `Failed` (message and position set) and `Rejected` (no message).
  */
  method Scan(s: string, p0: nat) returns (r: ScanResult)
    ensures r == ScanSpec(s, p0)
  {
    var p := p0;
    var kind: Option<TokenKind> := None;
    var text: string := "";
    while Ch(s, p) != NUL && kind.None?
      invariant kind.None? ==> ScanSpec(s, p) == ScanSpec(s, p0) && text == ""
      invariant kind.Some? ==> ScanSpec(s, p0) == Found(kind.value, text, p)
      decreases |s| - p
    {
      var c := Ch(s, p);
      var st: Step;
      if Punctuator(c).Some? {
        st := Emit(Punctuator(c).value, "", p + 1);
      } else if c == '.' {
        st := ScanDot(s, p);
      } else if c == '[' {
        st := ScanBracket(s, p);
      } else if IsOperatorStart(c) {
        st := ScanOperator(s, p);
      } else if IsLiteralStart(c) {
        st := ScanLiteral(s, p);
      } else {
        // a character with no case is passed over
        st := Skip(p + 1);
      }
      assert st == StepAt(s, p);
      match st {
        case Emit(k, t, n) =>
          kind, text, p := Some(k), t, n;
        case Skip(n) =>
          p := n;
        case Fail(m, pos) =>
          return Failed(m, pos);
        case Reject =>
          return Rejected;
      }
    }
    if kind.None? {
      return NotFound(p);
    }
    r := Found(kind.value, text, p);
  }
}
