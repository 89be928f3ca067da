/** Spans and tokens (src/risp/ast/token.rs). A token never holds text; its content is re-sliced from the source. */
module AstToken {

  /** A half-open range of positions in the source. */
  datatype Span = Span(start: nat, end: nat) {

    /** The positions `start..end` that the span covers, in order (empty when `end <= start`). */
    function Range(): (r: seq<nat>)
      ensures |r| == if start <= end then end - start else 0
      ensures forall i :: 0 <= i < |r| ==> r[i] == start + i
    {
      if start <= end then seq(end - start, i requires 0 <= i => start + i) else []
    }
  }

  /** `Span::new`: a span holding exactly the two given positions. */
  function NewSpan(start: nat, end: nat): Span {
    Span(start, end)
  }

  /** The nine kinds of token. */
  datatype TokenKind = Name | Int | Float | String | OpenParen | CloseParen | Quote | Operator | EOF

  /** The kind's name as Rust's derived `Debug` prints it (used in error messages). */
  function KindName(k: TokenKind): string {
    match k
    case Name => "Name"
    case Int => "Int"
    case Float => "Float"
    case String => "String"
    case OpenParen => "OpenParen"
    case CloseParen => "CloseParen"
    case Quote => "Quote"
    case Operator => "Operator"
    case EOF => "EOF"
  }

  /** Distinct kinds print distinctly, so an "expected k, found k'" message identifies both kinds. */
  lemma KindNameInjective(a: TokenKind, b: TokenKind)
    ensures KindName(a) == KindName(b) <==> a == b
  {
  }

  /** A kind and a span, nothing else. */
  datatype Token = Token(kind: TokenKind, span: Span)

  /** A token's content: the source characters under its span. */
  function Content(src: seq<char>, t: Token): (s: seq<char>)
    requires t.span.start <= t.span.end <= |src|
    ensures |s| == t.span.end - t.span.start
    ensures forall i :: 0 <= i < |s| ==> s[i] == src[t.span.Range()[i]]
  {
    src[t.span.start..t.span.end]
  }
}
