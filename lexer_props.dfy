/** Properties of the query lexer, stated on `Lexer.ScanSpec` (which `Lexer.Scan` is proved to compute). */
module LexerProperties {
  import opened Wrappers
  import opened Lexer

  /** A character that `scan` passes over without producing a token or an error. */
  predicate Inert(c: char)
  {
    c != NUL && Punctuator(c).None? && c != '.' && c != '[' && !IsOperatorStart(c) && !IsLiteralStart(c)
  }

  /** Characters with no case are skipped: a run of them does not change what `scan` yields. */
  lemma {:induction false} InertRunSkipped(s: string, p: nat, q: nat)
    requires p <= q <= |s|
    requires forall k :: p <= k < q ==> Inert(s[k])
    ensures ScanSpec(s, p) == ScanSpec(s, q)
    decreases q - p
  {
    if p < q {
      assert StepAt(s, p) == Skip(p + 1);
      InertRunSkipped(s, p + 1, q);
    }
  }

  /** At the end of the input, or after nothing but inert characters, `scan` reports LEX_NOT_FOUND. */
  lemma InertTailNotFound(s: string, p: nat)
    requires p <= |s|
    requires forall k :: p <= k < |s| ==> Inert(s[k])
    ensures ScanSpec(s, p) == NotFound(|s|)
  {
    InertRunSkipped(s, p, |s|);
  }

  /** A token always lies strictly after the cursor it was scanned from; the end is reported at a NUL. */
  lemma {:induction false} ScanAdvances(s: string, p: nat)
    ensures ScanSpec(s, p).Found? ==> p < ScanSpec(s, p).next
    ensures ScanSpec(s, p).NotFound? ==> p <= ScanSpec(s, p).next && Ch(s, ScanSpec(s, p).next) == NUL
    decreases |s| - p
  {
    if Ch(s, p) != NUL {
      match StepAt(s, p)
      case Skip(n) => ScanAdvances(s, n);
      case _ =>
    }
  }

  /** `..` yields DEEP_SCAN with the cursor on the second dot; `.[` and `.*` yield nothing; any other `.x` yields NODE. */
  lemma DotCases(s: string, i: nat)
    requires Ch(s, i) == '.'
    ensures Ch(s, i + 1) == '.' ==> ScanSpec(s, i) == Found(DeepScan, "", i + 1)
    ensures Ch(s, i + 1) == '[' || Ch(s, i + 1) == '*' ==> ScanSpec(s, i) == ScanSpec(s, i + 1)
    ensures Ch(s, i + 1) != '.' && Ch(s, i + 1) != '[' && Ch(s, i + 1) != '*' ==>
      var sp := UnboundedLiteral(s, i + 1);
      && sp.start == SkipSpaces(s, i + 1)
      && ScanSpec(s, i) == Found(Node, Text(s, sp), i + 1 + sp.len)
      && (forall k :: sp.start <= k < sp.start + sp.len ==> IsIdentChar(s[k]))
      && !IsIdentChar(Ch(s, sp.start + sp.len))
  {
    var c1 := Ch(s, i + 1);
    if c1 != '.' && c1 != '[' && c1 != '*' {
      var sp := UnboundedLiteral(s, i + 1);
      assert StepAt(s, i) == StepDot(s, i);
      assert ScanSpec(s, i) == Found(Node, Text(s, sp), i + 1 + sp.len);
      forall k | sp.start <= k < sp.start + sp.len ensures IsIdentChar(s[k]) {
        assert IsIdentChar(Ch(s, k));
      }
    }
  }

  /** `!`, `&` and `|` without their second character fail, at the position after the operator. */
  lemma OperatorErrors(s: string, i: nat)
    ensures Ch(s, i) == '!' && Ch(s, i + 1) != '=' ==> ScanSpec(s, i) == Failed(BangMissingEq, i + 1)
    ensures Ch(s, i) == '&' && Ch(s, i + 1) != '&' ==> ScanSpec(s, i) == Failed(AndMustBeDouble, i + 1)
    ensures Ch(s, i) == '|' && Ch(s, i + 1) != '|' ==> ScanSpec(s, i) == Failed(OrMustBeDouble, i + 1)
    ensures Ch(s, i) == '!' && Ch(s, i + 1) == '=' ==> ScanSpec(s, i) == Found(Neq, "", i + 2)
    ensures Ch(s, i) == '&' && Ch(s, i + 1) == '&' ==> ScanSpec(s, i) == Found(And, "", i + 2)
    ensures Ch(s, i) == '|' && Ch(s, i + 1) == '|' ==> ScanSpec(s, i) == Found(Or, "", i + 2)
  {
  }

  /**
    `<=` and `>=` are one token each, a bare `<` or `>` is LT or GT, `==` is EQ
    and `=~` is RGXP; any other `=x` yields nothing and passes over `x` too.
  */
  lemma ComparisonTokens(s: string, i: nat)
    ensures Ch(s, i) == '<' ==>
      ScanSpec(s, i) == if Ch(s, i + 1) == '=' then Found(Lte, "", i + 2) else Found(Lt, "", i + 1)
    ensures Ch(s, i) == '>' ==>
      ScanSpec(s, i) == if Ch(s, i + 1) == '=' then Found(Gte, "", i + 2) else Found(Gt, "", i + 1)
    ensures Ch(s, i) == '=' && Ch(s, i + 1) == '=' ==> ScanSpec(s, i) == Found(Eq, "", i + 2)
    ensures Ch(s, i) == '=' && Ch(s, i + 1) == '~' ==> ScanSpec(s, i) == Found(Rgxp, "", i + 2)
    ensures Ch(s, i) == '=' && Ch(s, i + 1) != '=' && Ch(s, i + 1) != '~' ==> ScanSpec(s, i) == ScanSpec(s, i + 2)
  {
  }

  /**
    `[`, blanks, a quoted name: the name must be followed by blanks and `]`,
    and is then a NODE token; otherwise "Missing closing ] bracket" at the
    first character that is not a blank.
  */
  lemma BracketQuotedName(s: string, i: nat)
    requires Ch(s, i) == '['
    requires IsQuote(Ch(s, SkipSpaces(s, i + 1)))
    ensures var j := SkipSpaces(s, i + 1);
      && QuotedLiteral(s, j).Ok?
      && var sp := QuotedLiteral(s, j).value;
      && sp.start == j + 1
      && var k := SkipSpaces(s, j + sp.len + 2);
      && (Ch(s, k) == ']' ==> ScanSpec(s, i) == Found(Node, Text(s, sp), k + 1))
      && (Ch(s, k) != ']' ==> ScanSpec(s, i) == Failed(MissingClosingBracket, k))
  {
  }

  /**
    `[?` is EXPR_START; `[` followed by anything but a quote or `?` is
    FILTER_START, with the cursor left on the bracket's first non-blank content.
  */
  lemma BracketOpens(s: string, i: nat)
    requires Ch(s, i) == '['
    ensures var j := SkipSpaces(s, i + 1);
      && (Ch(s, j) == '?' ==> ScanSpec(s, i) == Found(ExprStart, "", j + 1))
      && (!IsQuote(Ch(s, j)) && Ch(s, j) != '?' ==> ScanSpec(s, i) == Found(FilterStart, "", j))
  {
  }

  predicate AllDigits(t: string)
  {
    forall k :: 0 <= k < |t| ==> IsDigit(t[k])
  }

  /** One or more digits, then optionally `.` and one or more digits. */
  predicate IsUnsignedNumeral(u: string)
  {
    && |u| > 0 && IsDigit(u[0])
    && (AllDigits(u) || exists d :: 0 < d < |u| - 1 && u[d] == '.' && AllDigits(u[..d]) && AllDigits(u[d + 1..]))
  }

  /** An optional `-` followed by an unsigned numeral. */
  predicate IsNumeral(t: string)
  {
    if |t| > 0 && t[0] == '-' then IsUnsignedNumeral(t[1..]) else IsUnsignedNumeral(t)
  }

  /** The text of a maximal run of digits consists of digits. */
  lemma DigitRun(s: string, j: nat)
    requires j <= |s|
    ensures AllDigits(s[j..DigitsEnd(s, j)])
  {
    var run := s[j..DigitsEnd(s, j)];
    forall m | 0 <= m < |run| ensures IsDigit(run[m]) {
      assert run[m] == Ch(s, j + m);
    }
  }

  /** Two digit runs joined by a `.` form an unsigned numeral. */
  lemma FractionNumeral(a: string, b: string)
    requires |a| > 0 && AllDigits(a) && |b| > 0 && AllDigits(b)
    ensures IsUnsignedNumeral(a + "." + b)
  {
    var u := a + "." + b;
    var d := |a|;
    assert u[..d] == a;
    assert u[d + 1..] == b;
    assert u[0] == a[0];
  }

  /** A digit starts a non-empty run of digits within the text. */
  lemma DigitRunNonEmpty(s: string, j: nat)
    requires IsDigit(Ch(s, j))
    ensures j < DigitsEnd(s, j) <= |s| && AllDigits(s[j..DigitsEnd(s, j)])
  {
    assert DigitsEnd(s, j) == DigitsEnd(s, j + 1);
    DigitRun(s, j);
  }

  /** Digits, `.` and digits, each run maximal, form an unsigned numeral. */
  lemma FractionPart(s: string, j: nat, k: nat)
    requires IsDigit(Ch(s, j)) && k == DigitsEnd(s, j)
    requires Ch(s, k) == '.' && IsDigit(Ch(s, k + 1))
    ensures k + 1 < DigitsEnd(s, k + 1) <= |s| && IsUnsignedNumeral(s[j..DigitsEnd(s, k + 1)])
  {
    DigitRunNonEmpty(s, j);
    DigitRunNonEmpty(s, k + 1);
    var e := DigitsEnd(s, k + 1);
    var a, b := s[j..k], s[k + 1..e];
    assert s[j..e] == a + "." + b;
    FractionNumeral(a, b);
  }

  /** The digits-and-fraction part of a numeric literal scan is an unsigned numeral. */
  lemma UnsignedPart(s: string, j: nat)
    requires IsDigit(Ch(s, j))
    ensures var k := DigitsEnd(s, j);
      var e := if Ch(s, k) != NUL && Ch(s, k + 1) != NUL && Ch(s, k) == '.' && IsDigit(Ch(s, k + 1))
               then DigitsEnd(s, k + 1) else k;
      j < e <= |s| && IsUnsignedNumeral(s[j..e])
  {
    var k := DigitsEnd(s, j);
    DigitRunNonEmpty(s, j);
    if Ch(s, k) != NUL && Ch(s, k + 1) != NUL && Ch(s, k) == '.' && IsDigit(Ch(s, k + 1)) {
      FractionPart(s, j, k);
    } else {
      assert s[j..k][0] == s[j];
    }
  }

  /** The text a numeric literal scan covers is a numeral. */
  lemma NumericTextIsNumeral(s: string, i: nat)
    requires IsDigit(Ch(s, i)) || (Ch(s, i) == '-' && IsDigit(Ch(s, i + 1)))
    ensures i < NumericEnd(s, i) <= |s| && IsNumeral(s[i..NumericEnd(s, i)])
  {
    var j := if Ch(s, i) == '-' then i + 1 else i;
    UnsignedPart(s, j);
    var e := NumericEnd(s, i);
    if Ch(s, i) == '-' {
      assert s[i..e][1..] == s[j..e];
    }
  }

  /** At the start of a literal, `scan` ends with what the literal case decides. */
  lemma ScanAtLiteral(s: string, i: nat)
    requires IsLiteralStart(Ch(s, i))
    ensures var st := StepLiteral(s, i);
      && (st.Emit? ==> ScanSpec(s, i) == Found(st.kind, st.text, st.next))
      && (st.Fail? ==> ScanSpec(s, i) == Failed(st.msg, st.pos))
      && (st.Reject? ==> ScanSpec(s, i) == Rejected)
  {
    assert StepAt(s, i) == StepLiteral(s, i);
  }

  /**
    A numeric literal is scanned as a LITERAL whose text is a numeral; the
    fraction is taken only when the `.` is followed by a digit, and the
    literal stops before the next digit.
  */
  lemma NumericLiteralShape(s: string, i: nat)
    requires IsDigit(Ch(s, i)) || (Ch(s, i) == '-' && IsDigit(Ch(s, i + 1)))
    ensures var e := NumericEnd(s, i);
      && i < e <= |s|
      && ScanSpec(s, i) == Found(Literal, s[i..e], e)
      && IsNumeral(s[i..e])
      && !IsDigit(Ch(s, e))
  {
    NumericTextIsNumeral(s, i);
    ScanAtLiteral(s, i);
    assert SkipSpaces(s, i) == i;
  }

  /** A `-` that is not followed by a digit makes `scan` fail without a message. */
  lemma DashWithoutDigitRejected(s: string, i: nat)
    requires Ch(s, i) == '-' && !IsDigit(Ch(s, i + 1))
    ensures ScanSpec(s, i) == Rejected
  {
  }

  /** A quoted literal with no end before the terminator runs to the terminator. */
  lemma {:induction false} QuotedRunsToEnd(s: string, j: nat, q: char)
    requires 1 <= j <= |s| && (j < |s| ==> s[j - 1] != '\\')
    requires forall k :: j <= k < |s| ==> s[k] != NUL && s[k] != q
    requires forall k :: j <= k < |s| - 1 ==> s[k] != '\\'
    ensures QuotedEnd(s, j, q) == |s|
    decreases |s| - j
  {
    if j < |s| {
      QuotedRunsToEnd(s, j + 1, q);
    }
  }

  /** The span of a quoted literal at `i` with no end before the terminator. */
  lemma QuotedLiteralToEnd(s: string, i: nat)
    requires i < |s| && IsQuote(s[i])
    requires forall k :: i < k < |s| ==> s[k] != NUL && s[k] != s[i]
    requires forall k :: i < k < |s| - 1 ==> s[k] != '\\'
    ensures QuotedLiteral(s, i) == Ok(Span(i + 1, |s| - (i + 1)))
  {
    QuotedRunsToEnd(s, i + 1, s[i]);
    assert SkipSpaces(s, i) == i;
  }

  /**
    A quoted literal that reaches the end of the query without its closing
    quote holds the rest of the query, and the cursor is left one place past
    the terminator.
  */
  lemma UnclosedQuotedLiteral(s: string, i: nat)
    requires i < |s| && IsQuote(s[i])
    requires forall k :: i < k < |s| ==> s[k] != NUL && s[k] != s[i]
    requires forall k :: i < k < |s| - 1 ==> s[k] != '\\'
    ensures ScanSpec(s, i) == Found(Literal, s[i + 1..], |s| + 1)
  {
    QuotedLiteralToEnd(s, i);
    ScanAtLiteral(s, i);
    var sp := Span(i + 1, |s| - (i + 1));
    assert Text(s, sp) == s[i + 1..];
  }

  /**
    A quoted name in brackets that reaches the end of the query without its
    closing quote fails the `]` check two places past the terminator.
  */
  lemma UnclosedBracketName(s: string, i: nat)
    requires i + 1 < |s| && s[i] == '[' && IsQuote(s[i + 1])
    requires forall k :: i + 1 < k < |s| ==> s[k] != NUL && s[k] != s[i + 1]
    requires forall k :: i + 1 < k < |s| - 1 ==> s[k] != '\\'
    ensures ScanSpec(s, i) == Failed(MissingClosingBracket, |s| + 1)
  {
    assert SkipSpaces(s, i + 1) == i + 1;
    QuotedLiteralToEnd(s, i + 1);
    BracketQuotedName(s, i);
    assert SkipSpaces(s, |s| + 1) == |s| + 1;
  }

  /** Every character before the end of a quoted literal continues it; the end is a NUL, the quote, or follows a backslash. */
  lemma {:induction false} QuotedEndFacts(s: string, i: nat, q: char)
    requires 1 <= i
    ensures var r := QuotedEnd(s, i, q);
      && (forall k :: i <= k < r ==> Ch(s, k) != NUL && Ch(s, k) != q)
      && (forall k :: i - 1 <= k < r - 1 ==> Ch(s, k) != '\\')
      && (Ch(s, r) == NUL || Ch(s, r) == q || Ch(s, r - 1) == '\\')
    decreases |s| - i
  {
    if Ch(s, i) != NUL && Ch(s, i) != q && Ch(s, i - 1) != '\\' {
      QuotedEndFacts(s, i + 1, q);
    }
  }

  /**
    A quoted literal starts after the opening quote and ends at the first
    matching quote, at the end of the input, or at the first character after
    a backslash; only its last character can be a backslash.
  */
  lemma QuotedLiteralExtent(s: string, i: nat)
    requires IsQuote(Ch(s, i))
    ensures QuotedLiteral(s, i).Ok?
    ensures var sp := QuotedLiteral(s, i).value;
      var e := sp.start + sp.len;
      && sp.start == i + 1
      && ScanSpec(s, i) == Found(Literal, s[i + 1..e], i + sp.len + 2)
      && (forall k :: i + 1 <= k < e ==> s[k] != s[i])
      && (forall k :: i <= k < e - 1 ==> s[k] != '\\')
      && (Ch(s, e) == NUL || Ch(s, e) == s[i] || s[e - 1] == '\\')
  {
    var q := s[i];
    var e := QuotedEnd(s, i + 1, q);
    assert SkipSpaces(s, i) == i;
    assert QuotedLiteral(s, i) == Ok(Span(i + 1, e - (i + 1)));
    QuotedEndFacts(s, i + 1, q);
    ScanAtLiteral(s, i);
    forall k | i + 1 <= k < e ensures s[k] != q {
      assert Ch(s, k) != NUL && Ch(s, k) != q;
    }
    forall k | i <= k < e - 1 ensures s[k] != '\\' {
      assert Ch(s, k) != '\\';
    }
  }

  /** `t` and `f` start a LITERAL_BOOL token whose text is the identifier that follows. */
  lemma BooleanLiteral(s: string, i: nat)
    requires Ch(s, i) == 't' || Ch(s, i) == 'f'
    ensures var e := IdentEnd(s, i);
      && i < e <= |s|
      && ScanSpec(s, i) == Found(LiteralBool, s[i..e], e)
  {
    assert IdentEnd(s, i) == IdentEnd(s, i + 1);
    ScanAtLiteral(s, i);
    assert SkipSpaces(s, i) == i;
  }
}
