/**
 * The recursive-descent parser (src/risp/ast/parser.rs) with one token of
 * lookahead. The `...F` functions are the parser as functions of the parse
 * state (the lexer's cursor and the lookahead token); the `Parser` class
 * runs the same steps in place and each method is proved to follow its
 * function.
 */
module AstParser {
  import opened Wrappers
  import opened Shared
  import opened RustInt
  import opened Numerals
  import opened AstToken
  import opened AstLexer
  import opened Ast

  /** The lexer's cursor and the current (lookahead) token. */
  datatype PState = PState(pos: nat, cur: Token)

  /** A state the lexer can be in: the lookahead lies before the cursor, and EOF only at the end. */
  predicate Wf(src: seq<char>, st: PState) {
    && st.pos <= |src|
    && st.cur.span.start <= st.cur.span.end <= st.pos
    && (st.cur.kind == TokenKind.EOF ==> st.pos == |src|)
  }

  /** Decreases with every token consumed: the unread characters, plus one while the lookahead is not EOF. */
  function Measure(src: seq<char>, st: PState): nat
    requires Wf(src, st)
  {
    |src| - st.pos + (if st.cur.kind == TokenKind.EOF then 0 else 1)
  }

  /** A parse outcome with the state it leaves behind (also after an error, as the objects are left). */
  datatype Parsed<T> = Parsed(result: Result<T, SyntaxError>, st: PState)

  /** `advance`: the lookahead becomes the lexer's next token; a lexer error leaves the lookahead as it was. */
  function AdvanceF(src: seq<char>, st: PState): (r: Parsed<()>)
    requires Wf(src, st)
    ensures Wf(src, r.st) && st.pos <= r.st.pos
    ensures st.cur.kind != TokenKind.EOF ==> Measure(src, r.st) < Measure(src, st)
  {
    var l := LexAt(src, st.pos);
    match l.result
    case Ok(t) => Parsed(Ok(()), PState(l.pos, t))
    case Err(e) => Parsed(Err(e), PState(l.pos, st.cur))
  }

  /** `expect`: advances only when the lookahead has the wanted kind. */
  function ExpectF(src: seq<char>, st: PState, kind: TokenKind): (r: Parsed<()>)
    requires Wf(src, st)
    ensures Wf(src, r.st) && st.pos <= r.st.pos
    ensures st.cur.kind != kind ==> r == Parsed(Err(Expected(kind, st.cur.kind)), st)
    ensures st.cur.kind == kind ==> r == AdvanceF(src, st)
  {
    if st.cur.kind != kind then Parsed(Err(Expected(kind, st.cur.kind)), st)
    else AdvanceF(src, st)
  }

  /** The operator named by an Operator token's text; `None` is the `unreachable!()` arm. */
  function OperatorOf(text: seq<char>): Option<Op> {
    if text == "+" then Some(Plus)
    else if text == "-" then Some(Minus)
    else if text == "*" then Some(Star)
    else if text == "/" then Some(Slash)
    else if text == "=" then Some(Equal)
    else if text == ">" then Some(Greater)
    else if text == "<" then Some(Less)
    else None
  }

  /**
   * The node for an atom token's text. Panics are those of `parse().unwrap()`
   * (an integer text outside `i32`) and `unreachable!()`.
   */
  function AtomNode(kind: TokenKind, content: seq<char>): Result<AstNode, SyntaxError>
    requires kind in {TokenKind.Int, TokenKind.Float, TokenKind.String, TokenKind.Operator, TokenKind.Name}
  {
    if kind == TokenKind.Int then
      match ParseInt(content)
      case Some(n) => if InI32(n) then Ok(AstNode.Int(n as int32)) else Err(Panicked(UnwrapFailed))
      case None => Err(Panicked(UnwrapFailed))
    else if kind == TokenKind.Float then Ok(AstNode.Float(FloatLit(content)))
    else if kind == TokenKind.String then Ok(Str(content))
    else if kind == TokenKind.Name then Ok(AstNode.Name(content))
    else
      match OperatorOf(content)
      case Some(op) => Ok(AstNode.Operator(op))
      case None => Err(Panicked("internal error: entered unreachable code"))
  }

  /** `parse_atom`: reads the lookahead's text, advances, then builds the node. */
  function ParseAtomF(src: seq<char>, st: PState): (r: Parsed<AstNode>)
    requires Wf(src, st)
    ensures Wf(src, r.st) && st.pos <= r.st.pos
    ensures r.result.Ok? ==> Measure(src, r.st) < Measure(src, st)
    decreases Measure(src, st), 1
  {
    var content := src[st.cur.span.start..st.cur.span.end];
    var kind := st.cur.kind;
    var adv := AdvanceF(src, st);
    if adv.result.Err? then Parsed(Err(adv.result.error), adv.st)
    else if kind in {TokenKind.Int, TokenKind.Float, TokenKind.String, TokenKind.Operator, TokenKind.Name} then
      Parsed(AtomNode(kind, content), adv.st)
    else if kind == TokenKind.Quote then
      var e := ParseExprF(src, adv.st);
      match e.result
      case Err(err) => e
      case Ok(Expr(ns)) => Parsed(Ok(List(ns)), e.st)
      case Ok(Name(n)) => Parsed(Ok(Symbol(n)), e.st)
      case Ok(t) => Parsed(Err(CannotQuote(t)), e.st)
    else
      Parsed(Err(UnexpectedToken(kind)), adv.st)
  }

  /** `parse_list`: `(`, then expressions up to `)` or EOF, then `)`. */
  function ParseListF(src: seq<char>, st: PState): (r: Parsed<seq<AstNode>>)
    requires Wf(src, st)
    ensures Wf(src, r.st) && st.pos <= r.st.pos
    ensures r.result.Ok? ==> Measure(src, r.st) < Measure(src, st)
    decreases Measure(src, st), 1
  {
    var open := ExpectF(src, st, OpenParen);
    if open.result.Err? then Parsed(Err(open.result.error), open.st)
    else ListLoopF(src, open.st, [])
  }

  /** The loop of `parse_list` from state `st`, with `acc` already collected. */
  function ListLoopF(src: seq<char>, st: PState, acc: seq<AstNode>): (r: Parsed<seq<AstNode>>)
    requires Wf(src, st)
    ensures Wf(src, r.st) && st.pos <= r.st.pos
    ensures r.result.Ok? ==> Measure(src, r.st) < Measure(src, st)
    ensures r.result.Ok? ==> |acc| <= |r.result.value| && r.result.value[..|acc|] == acc
    decreases Measure(src, st), 3
  {
    if st.cur.kind != CloseParen && st.cur.kind != TokenKind.EOF then
      var e := ParseExprF(src, st);
      if e.result.Err? then Parsed(Err(e.result.error), e.st)
      else ListLoopF(src, e.st, acc + [e.result.value])
    else
      var close := ExpectF(src, st, CloseParen);
      if close.result.Err? then Parsed(Err(close.result.error), close.st)
      else Parsed(Ok(acc), close.st)
  }

  /** `parse_expr`: a parenthesised list becomes `Expr`, EOF is an error, anything else is an atom. */
  function ParseExprF(src: seq<char>, st: PState): (r: Parsed<AstNode>)
    requires Wf(src, st)
    ensures Wf(src, r.st) && st.pos <= r.st.pos
    ensures r.result.Ok? ==> Measure(src, r.st) < Measure(src, st)
    decreases Measure(src, st), 2
  {
    match st.cur.kind
    case OpenParen =>
      var l := ParseListF(src, st);
      if l.result.Err? then Parsed(Err(l.result.error), l.st) else Parsed(Ok(Expr(l.result.value)), l.st)
    case EOF => Parsed(Err(UnexpectedEof), st)
    case _ => ParseAtomF(src, st)
  }

  /** `parse_exprs`: expressions while the LEXER has input left (not while the lookahead is not EOF). */
  function ParseExprsF(src: seq<char>, st: PState, acc: seq<AstNode>): (r: Parsed<seq<AstNode>>)
    requires Wf(src, st)
    ensures Wf(src, r.st)
    ensures r.result.Ok? ==> r.st.pos == |src| && |acc| <= |r.result.value| && r.result.value[..|acc|] == acc
    decreases Measure(src, st)
  {
    if st.pos < |src| then
      var e := ParseExprF(src, st);
      if e.result.Err? then Parsed(Err(e.result.error), e.st)
      else ParseExprsF(src, e.st, acc + [e.result.value])
    else Parsed(Ok(acc), st)
  }

  /** `Parser::new` followed by `parse_exprs`: the whole source as top-level expressions. */
  function ParseSource(src: seq<char>): Result<seq<AstNode>, SyntaxError> {
    var first := LexAt(src, 0);
    match first.result
    case Err(e) => Err(e)
    case Ok(t) => ParseExprsF(src, PState(first.pos, t), []).result
  }

  /** The operator table is one-to-one: each of the seven texts names exactly its operator. */
  lemma OperatorOfText(t: seq<char>, op: Op)
    ensures OperatorOf(t) == Some(op) <==> OpText(op) == t
  {
  }

  /** For an atom token, `parse_atom` advances and returns the node built from the token's text. */
  lemma AtomStep(src: seq<char>, st: PState)
    requires Wf(src, st)
    requires st.cur.kind in {TokenKind.Int, TokenKind.Float, TokenKind.String, TokenKind.Name, TokenKind.Operator}
    requires AdvanceF(src, st).result.Ok?
    ensures ParseAtomF(src, st)
            == Parsed(AtomNode(st.cur.kind, src[st.cur.span.start..st.cur.span.end]), AdvanceF(src, st).st)
  {
  }

  /** The token `next` returns at `p`, and its text. */
  function TokenAt(src: seq<char>, p: nat): Token
    requires p <= |src| && LexAt(src, p).result.Ok?
  {
    LexAt(src, p).result.value
  }

  function TextAt(src: seq<char>, p: nat): seq<char>
    requires p <= |src| && LexAt(src, p).result.Ok?
  {
    var t := TokenAt(src, p);
    src[t.span.start..t.span.end]
  }

  /** A lexed Int token always has text `parse` reads; the one panic left is a value outside `i32`. */
  lemma IntAtom(src: seq<char>, p: nat)
    requires p <= |src| && LexAt(src, p).result.Ok? && TokenAt(src, p).kind == TokenKind.Int
    ensures var r := AtomNode(TokenKind.Int, TextAt(src, p));
            && ParseInt(TextAt(src, p)).Some?
            && (r.Ok? <==> InI32(ParseInt(TextAt(src, p)).value))
            && (r.Ok? ==> r.value.Int? && r.value.i as int == ParseInt(TextAt(src, p)).value)
            && (r.Err? ==> r.error == Panicked(UnwrapFailed))
  {
    IntTokenText(src, p);
  }

  /** A lexed Float token's text is a digit run, a dot and a digit run, kept as the float's literal. */
  lemma FloatAtom(src: seq<char>, p: nat)
    requires p <= |src| && LexAt(src, p).result.Ok? && TokenAt(src, p).kind == TokenKind.Float
    ensures AtomNode(TokenKind.Float, TextAt(src, p)) == Ok(AstNode.Float(FloatLit(TextAt(src, p))))
    ensures IsFloatText(TextAt(src, p))
  {
    FloatTokenText(src, p);
  }

  /** A lexed String token becomes a Str holding the text between the quotes, which holds no quote. */
  lemma StringAtom(src: seq<char>, p: nat)
    requires p <= |src| && LexAt(src, p).result.Ok? && TokenAt(src, p).kind == TokenKind.String
    ensures AtomNode(TokenKind.String, TextAt(src, p)) == Ok(Str(TextAt(src, p)))
    ensures '"' !in TextAt(src, p)
  {
    StringTokenText(src, p);
    var t := TokenAt(src, p);
    var content := TextAt(src, p);
    assert forall k :: 0 <= k < |content| ==> content[k] == src[t.span.start + k];
  }

  /** A lexed Name token becomes a Name holding a non-empty identifier. */
  lemma NameAtom(src: seq<char>, p: nat)
    requires p <= |src| && LexAt(src, p).result.Ok? && TokenAt(src, p).kind == TokenKind.Name
    ensures AtomNode(TokenKind.Name, TextAt(src, p)) == Ok(AstNode.Name(TextAt(src, p)))
    ensures |TextAt(src, p)| > 0 && IsNameStart(TextAt(src, p)[0])
  {
    NameTokenText(src, p);
  }

  /** A lexed Operator token always names one of the seven operators, so `unreachable!()` is never reached. */
  lemma OperatorAtom(src: seq<char>, p: nat)
    requires p <= |src| && LexAt(src, p).result.Ok? && TokenAt(src, p).kind == TokenKind.Operator
    ensures var r := AtomNode(TokenKind.Operator, TextAt(src, p));
            r.Ok? && r.value.Operator? && OpText(r.value.op) == TextAt(src, p)
  {
    OperatorTokenText(src, p);
    var t := TokenAt(src, p);
    assert TextAt(src, p) == [src[t.span.start]];
    OperatorOfChar(src[t.span.start]);
  }

  /** Each operator character names the operator whose text it is. */
  lemma OperatorOfChar(c: char)
    requires c in "+-*/=><"
    ensures OperatorOf([c]).Some? && OpText(OperatorOf([c]).value) == [c]
  {
  }

  /** The quote rule: `'` before a list gives List, before a name gives Symbol, before anything else an error. */
  lemma QuoteRule(src: seq<char>, st: PState)
    requires Wf(src, st) && st.cur.kind == Quote
    requires AdvanceF(src, st).result.Ok?
    ensures var e := ParseExprF(src, AdvanceF(src, st).st).result;
            var r := ParseAtomF(src, st).result;
            && (r.Ok? ==> r.value.List? || r.value.Symbol?)
            && (forall ns :: r == Ok(List(ns)) <==> e == Ok(Expr(ns)))
            && (forall n :: r == Ok(Symbol(n)) <==> e == Ok(AstNode.Name(n)))
            && (e.Ok? && !e.value.Expr? && !e.value.Name? ==> r == Err(CannotQuote(e.value)))
            && (e.Err? ==> r == e)
  {
  }

  /** `)` where an expression should start is an error, and so is the end of input. */
  lemma NoExpressionAtCloseOrEof(src: seq<char>, st: PState)
    requires Wf(src, st)
    ensures st.cur.kind == CloseParen ==>
              var a := AdvanceF(src, st);
              ParseExprF(src, st).result == if a.result.Ok? then Err(UnexpectedToken(CloseParen)) else a.result.PropagateFailure()
    ensures st.cur.kind == TokenKind.EOF ==> ParseExprF(src, st) == Parsed(Err(UnexpectedEof), st)
  {
  }

  /** A list cut off by the end of input fails with "expected CloseParen, found EOF", whatever came before. */
  lemma UnclosedList(src: seq<char>, st: PState, acc: seq<AstNode>)
    requires Wf(src, st) && st.cur.kind == TokenKind.EOF
    ensures ListLoopF(src, st, acc) == Parsed(Err(Expected(CloseParen, TokenKind.EOF)), st)
    ensures Message(ListLoopF(src, st, acc).result.error) == "expected CloseParen, found EOF"
  {
    assert ExpectF(src, st, CloseParen) == Parsed(Err(Expected(CloseParen, TokenKind.EOF)), st);
    assert "expected " + KindName(CloseParen) + ", found " + KindName(TokenKind.EOF) == "expected CloseParen, found EOF";
  }

  /**
   * `src[p..]` starts with the decimal text of `n`, followed by the end of
   * input or by a character that can not continue a number (neither a digit
   * nor `.`).
   */
  predicate IntTextAt(src: seq<char>, p: nat, n: int) {
    var s := IntToString(n);
    && p + |s| <= |src|
    && src[p..p + |s|] == s
    && (p + |s| == |src| || (!IsDigit(src[p + |s|]) && src[p + |s|] != '.'))
  }

  lemma {:induction false} MunchTo(src: seq<char>, i: nat, e: nat, p: char -> bool)
    requires i <= e <= |src|
    requires forall k :: i <= k < e ==> p(src[k])
    requires e == |src| || !p(src[e])
    ensures MunchEnd(src, i, p) == e
    decreases e - i
  {
    if i < e {
      MunchTo(src, i + 1, e, p);
    }
  }

  /** The text of an integer, followed by a separator, lexes to one Int token covering exactly that text. */
  lemma LexIntText(src: seq<char>, p: nat, n: int)
    requires IntTextAt(src, p, n)
    ensures var s := IntToString(n);
            LexAt(src, p) == Lexed(Ok(Token(TokenKind.Int, Span(p, p + |s|))), p + |s|)
  {
    var s := IntToString(n);
    var e := p + |s|;
    var m := if n < 0 then p + 1 else p;
    var d := NatToString(if n < 0 then -n else n);
    assert s == if n < 0 then "-" + d else d;
    assert forall k :: m <= k < e ==> src[k] == d[k - m];
    MunchTo(src, m, e, IsDigit);
    if n < 0 {
      assert src[p] == '-' && IsDigit(src[p + 1]);
    }
  }

  /**
   * `parse_exprs` stops when the lexer runs out, so a token that ends the
   * input is never parsed: the text of an integer parses to nothing, and
   * the same text followed by a space parses to that integer.
   */
  lemma TrailingTokenDropped(n: int32)
    ensures ParseSource(IntToString(n as int)) == Ok([])
    ensures ParseSource(IntToString(n as int) + " ") == Ok([AstNode.Int(n)])
  {
    var s := IntToString(n as int);
    LexIntText(s, 0, n as int);
    var src := s + " ";
    assert src[0..|s|] == s;
    LexIntText(src, 0, n as int);
    ParseIntOfString(n as int);
    assert src[|s|] == ' ';
    assert MunchEnd(src, |s|, IsWhitespace) == |s| + 1;
    assert LexAt(src, |s|) == LexAt(src, |src|);
    var st0 := PState(|s|, Token(TokenKind.Int, Span(0, |s|)));
    var end := PState(|src|, Token(TokenKind.EOF, Span(|src|, |src|)));
    assert AdvanceF(src, st0) == Parsed(Ok(()), end);
    AtomStep(src, st0);
    assert src[0..|s|] == s;
    assert ParseExprF(src, st0) == Parsed(Ok(AstNode.Int(n)), end);
    assert ParseExprsF(src, end, [AstNode.Int(n)]) == Parsed(Ok([AstNode.Int(n)]), end);
    assert [] + [AstNode.Int(n)] == [AstNode.Int(n)];
    assert ParseExprsF(src, st0, []) == ParseExprsF(src, end, [AstNode.Int(n)]);
  }

  class Parser {
    const lexer: Lexer
    var current: Token
    const src: seq<char>

    ghost predicate Valid()
      reads this, lexer
    {
      lexer.Valid() && lexer.source == src && Wf(src, State())
    }

    ghost function State(): PState
      reads this, lexer
    {
      PState(lexer.pos, current)
    }

    constructor Init(lexer: Lexer, current: Token, src: seq<char>)
      ensures this.lexer == lexer && this.current == current && this.src == src
    {
      this.lexer := lexer;
      this.current := current;
      this.src := src;
    }

    /** `Parser::new`: reads one lookahead token; a lexer error is returned. */
    static method New(lexer: Lexer, src: seq<char>) returns (r: Result<Parser, SyntaxError>)
      requires lexer.Valid() && lexer.source == src
      modifies lexer
      ensures lexer.Valid()
      ensures var l := LexAt(src, old(lexer.pos));
              && lexer.pos == l.pos
              && (r.Ok? <==> l.result.Ok?)
              && (r.Err? ==> r.error == l.result.error)
              && (r.Ok? ==> fresh(r.value) && r.value.lexer == lexer && r.value.src == src
                            && r.value.current == l.result.value && r.value.Valid())
    {
      var t :- lexer.Next();
      var p := new Parser.Init(lexer, t, src);
      return Ok(p);
    }

    method Advance() returns (r: Result<(), SyntaxError>)
      requires Valid()
      modifies this, lexer
      ensures Valid() && Parsed(r, State()) == AdvanceF(src, old(State()))
    {
      var t :- lexer.Next();
      current := t;
      return Ok(());
    }

    method Expect(kind: TokenKind) returns (r: Result<(), SyntaxError>)
      requires Valid()
      modifies this, lexer
      ensures Valid() && Parsed(r, State()) == ExpectF(src, old(State()), kind)
    {
      if current.kind != kind {
        return Err(Expected(kind, current.kind));
      }
      r := Advance();
    }

    method ParseAtom() returns (r: Result<AstNode, SyntaxError>)
      requires Valid()
      modifies this, lexer
      ensures Valid() && Parsed(r, State()) == ParseAtomF(src, old(State()))
      decreases Measure(src, State()), 1
    {
      var content := src[current.span.start..current.span.end];
      var kind := current.kind;
      var _ :- Advance();
      if kind in {TokenKind.Int, TokenKind.Float, TokenKind.String, TokenKind.Operator, TokenKind.Name} {
        r := AtomNode(kind, content);
      } else if kind == TokenKind.Quote {
        var e :- ParseExpr();
        match e
        case Expr(ns) => r := Ok(List(ns));
        case Name(n) => r := Ok(Symbol(n));
        case _ => r := Err(CannotQuote(e));
      } else {
        r := Err(UnexpectedToken(kind));
      }
    }

    method ParseList() returns (r: Result<seq<AstNode>, SyntaxError>)
      requires Valid()
      modifies this, lexer
      ensures Valid() && Parsed(r, State()) == ParseListF(src, old(State()))
      decreases Measure(src, State()), 1
    {
      ghost var m0 := Measure(src, State());
      var _ :- Expect(OpenParen);
      var elements: seq<AstNode> := [];
      while current.kind != CloseParen && current.kind != TokenKind.EOF
        invariant Valid() && Measure(src, State()) < m0
        invariant ListLoopF(src, State(), elements) == ParseListF(src, old(State()))
        decreases Measure(src, State())
      {
        var e :- ParseExpr();
        elements := elements + [e];
      }
      var _ :- Expect(CloseParen);
      return Ok(elements);
    }

    method ParseExpr() returns (r: Result<AstNode, SyntaxError>)
      requires Valid()
      modifies this, lexer
      ensures Valid() && Parsed(r, State()) == ParseExprF(src, old(State()))
      decreases Measure(src, State()), 2
    {
      match current.kind
      case OpenParen =>
        var l :- ParseList();
        return Ok(Expr(l));
      case EOF =>
        return Err(UnexpectedEof);
      case _ =>
        r := ParseAtom();
    }

    method ParseExprs() returns (r: Result<seq<AstNode>, SyntaxError>)
      requires Valid()
      modifies this, lexer
      ensures Valid() && Parsed(r, State()) == ParseExprsF(src, old(State()), [])
    {
      var exprs: seq<AstNode> := [];
      while !lexer.Eof()
        invariant Valid()
        invariant ParseExprsF(src, State(), exprs) == ParseExprsF(src, old(State()), [])
        decreases Measure(src, State())
      {
        var e :- ParseExpr();
        exprs := exprs + [e];
      }
      return Ok(exprs);
    }
  }
}
