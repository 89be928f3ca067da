/**
 * The lexer (src/risp/ast/lexer.rs): a cursor over the source that yields one
 * token per call to `Next`. `LexAt` is the same scan as a function of the
 * source and the cursor position; `Next` is proved to follow it.
 *
 * Positions count characters. The source advances `pos` by each character's
 * UTF-8 width; both agree on ASCII text.
 */
module AstLexer {
  import opened Wrappers
  import opened Numerals
  import opened AstToken
  import Ast

  /** Rust's `char::is_whitespace`: the Unicode White_Space property. */
  predicate IsWhitespace(c: char) {
    var n := c as int;
    (9 <= n <= 13) || n == 32 || n == 0x85 || n == 0xA0 || n == 0x1680
    || (0x2000 <= n <= 0x200A) || n == 0x2028 || n == 0x2029 || n == 0x202F
    || n == 0x205F || n == 0x3000
  }

  predicate IsNameStart(c: char) {
    ('a' <= c <= 'z') || ('A' <= c <= 'Z') || c == '_'
  }

  predicate IsNameChar(c: char) {
    IsNameStart(c) || IsDigit(c)
  }

  predicate NotQuote(c: char) {
    c != '"'
  }

  /** Where the maximal run of characters satisfying `p` that starts at `i` ends. */
  function MunchEnd(src: seq<char>, i: nat, p: char -> bool): (e: nat)
    requires i <= |src|
    ensures i <= e <= |src|
    ensures forall k :: i <= k < e ==> p(src[k])
    ensures e == |src| || !p(src[e])
    decreases |src| - i
  {
    if i < |src| && p(src[i]) then MunchEnd(src, i + 1, p) else i
  }

  /** The outcome of one call to `next`, and where the cursor is afterwards. */
  datatype Lexed = Lexed(result: Result<Token, Ast.SyntaxError>, pos: nat)

  /** The last arm of `next`: single-character tokens, or the character is rejected. */
  function SingleChar(c: char): Result<TokenKind, Ast.SyntaxError> {
    if c == '(' then Ok(OpenParen)
    else if c == ')' then Ok(CloseParen)
    else if c == '*' || c == '/' || c == '>' || c == '<' || c == '=' then Ok(Operator)
    else if c == '\'' then Ok(Quote)
    else Err(Ast.UnexpectedChar(c))
  }

  /** The token `next` returns with the cursor at `pos`. */
  function LexAt(src: seq<char>, pos: nat): (r: Lexed)
    requires pos <= |src|
    ensures pos <= r.pos <= |src|
    ensures r.pos == pos <==> pos == |src|
    ensures r.result.Ok? ==> r.result.value.span.start <= r.result.value.span.end <= r.pos
    ensures r.result.Ok? ==> pos <= r.result.value.span.start
    ensures r.result.Ok? && r.result.value.kind == EOF ==>
              r.pos == |src| && r.result.value.span == Span(|src|, |src|)
    decreases |src| - pos
  {
    if pos == |src| then Lexed(Ok(Token(EOF, Span(pos, pos))), pos)
    else
      var c := src[pos];
      if IsWhitespace(c) then
        LexAt(src, MunchEnd(src, pos, IsWhitespace))
      else if IsDigit(c) then
        var e := MunchEnd(src, pos, IsDigit);
        if e < |src| && src[e] == '.' then
          var f := MunchEnd(src, e + 1, IsDigit);
          Lexed(Ok(Token(Float, Span(pos, f))), f)
        else
          Lexed(Ok(Token(Int, Span(pos, e))), e)
      else if IsNameStart(c) then
        var e := MunchEnd(src, pos, IsNameChar);
        Lexed(Ok(Token(Name, Span(pos, e))), e)
      else if c == '+' || c == '-' then
        if pos + 1 < |src| && IsDigit(src[pos + 1]) then
          var inner := LexAt(src, pos + 1);
          match inner.result
          case Ok(t) => Lexed(Ok(Token(t.kind, Span(pos, inner.pos))), inner.pos)
          case Err(_) => inner
        else
          Lexed(Ok(Token(Operator, Span(pos, pos + 1))), pos + 1)
      else if c == '"' then
        var e := MunchEnd(src, pos + 1, NotQuote);
        Lexed(Ok(Token(String, Span(pos + 1, e))), if e < |src| then e + 1 else e)
      else
        match SingleChar(c)
        case Ok(k) => Lexed(Ok(Token(k, Span(pos, pos + 1))), pos + 1)
        case Err(e) => Lexed(Err(e), pos + 1)
  }

  /** At the end of the source `next` yields a zero-width EOF token and the cursor stays put. */
  lemma LexEof(src: seq<char>, pos: nat)
    requires pos == |src|
    ensures LexAt(src, pos) == Lexed(Ok(Token(EOF, Span(pos, pos))), pos)
  {
  }

  /** A whitespace run is consumed and never emitted: the result is the token that follows the run. */
  lemma LexSkipsWhitespace(src: seq<char>, pos: nat)
    requires pos < |src| && IsWhitespace(src[pos])
    ensures var e := MunchEnd(src, pos, IsWhitespace);
            pos < e && (e == |src| || !IsWhitespace(src[e])) && LexAt(src, pos) == LexAt(src, e)
  {
  }

  /** Where the characters of a token begin: a String token's span starts after its opening quote. */
  function LexemeStart(t: Token): int {
    if t.kind == String then t.span.start - 1 else t.span.start
  }

  /**
   * Everything `next` skips before a token is whitespace, the token's first
   * character is not, and every token other than a String or EOF ends exactly
   * where the cursor stops.
   */
  lemma {:induction false} LexConsumes(src: seq<char>, pos: nat)
    requires pos <= |src|
    ensures var r := LexAt(src, pos);
            r.result.Ok? ==>
              var t := r.result.value;
              && pos <= LexemeStart(t) <= |src|
              && (forall k :: pos <= k < LexemeStart(t) ==> IsWhitespace(src[k]))
              && (t.kind != EOF ==> LexemeStart(t) < |src| && !IsWhitespace(src[LexemeStart(t)]))
              && (t.kind != String ==> t.span.end == r.pos)
    decreases |src| - pos
  {
    if pos < |src| && IsWhitespace(src[pos]) {
      LexConsumes(src, MunchEnd(src, pos, IsWhitespace));
    }
  }

  /** An Int token is an optional sign and a maximal digit run not followed by `.`: exactly what `parse` accepts. */
  lemma {:induction false} IntTokenText(src: seq<char>, pos: nat)
    requires pos <= |src|
    ensures var r := LexAt(src, pos);
            r.result.Ok? && r.result.value.kind == Int ==>
              var sp := r.result.value.span;
              && IsIntLiteral(src[sp.start..sp.end])
              && (sp.end == |src| || (!IsDigit(src[sp.end]) && src[sp.end] != '.'))
    decreases |src| - pos
  {
    if pos < |src| {
      var c := src[pos];
      if IsWhitespace(c) {
        IntTokenText(src, MunchEnd(src, pos, IsWhitespace));
      } else if IsDigit(c) {
        var e := MunchEnd(src, pos, IsDigit);
        assert AllDigits(src[pos..e]);
      } else if (c == '+' || c == '-') && pos + 1 < |src| && IsDigit(src[pos + 1]) {
        var e := MunchEnd(src, pos + 1, IsDigit);
        var s := src[pos..e];
        assert s[1..] == src[pos + 1..e];
        assert AllDigits(s[1..]);
      }
    }
  }

  /** The text of a Float token: an optional sign, digits, a dot, and optional digits. */
  predicate IsFloatText(s: seq<char>) {
    var body := if |s| > 0 && (s[0] == '+' || s[0] == '-') then s[1..] else s;
    exists d :: 1 <= d < |body| && body[d] == '.' && AllDigits(body[..d]) && AllDigits(body[d + 1..])
  }

  /** A Float token is a digit run, a dot and a maximal digit run, possibly signed. */
  lemma {:induction false} FloatTokenText(src: seq<char>, pos: nat)
    requires pos <= |src|
    ensures var r := LexAt(src, pos);
            r.result.Ok? && r.result.value.kind == Float ==>
              var sp := r.result.value.span;
              IsFloatText(src[sp.start..sp.end]) && (sp.end == |src| || !IsDigit(src[sp.end]))
    decreases |src| - pos
  {
    if pos < |src| {
      var c := src[pos];
      if IsWhitespace(c) {
        FloatTokenText(src, MunchEnd(src, pos, IsWhitespace));
      } else if IsDigit(c) {
        UnsignedFloat(src, pos);
      } else if (c == '+' || c == '-') && pos + 1 < |src| && IsDigit(src[pos + 1]) {
        UnsignedFloat(src, pos + 1);
        var r := LexAt(src, pos + 1);
        if r.result.value.kind == Float {
          var s := src[pos..r.pos];
          assert s[1..] == src[pos + 1..r.pos];
        }
      }
    }
  }

  lemma UnsignedFloat(src: seq<char>, pos: nat)
    requires pos < |src| && IsDigit(src[pos])
    ensures var r := LexAt(src, pos);
            r.result.Ok? && r.result.value.span == Span(pos, r.pos)
            && (r.result.value.kind == Float ==>
                  var s := src[pos..r.pos];
                  s[0] != '+' && s[0] != '-' && IsFloatText(s) && (r.pos == |src| || !IsDigit(src[r.pos])))
            && (r.result.value.kind == Int || r.result.value.kind == Float)
  {
    var e := MunchEnd(src, pos, IsDigit);
    if e < |src| && src[e] == '.' {
      var f := MunchEnd(src, e + 1, IsDigit);
      var s := src[pos..f];
      var d := e - pos;
      assert s[0] == src[pos];
      assert 1 <= d;
      assert s[..d] == src[pos..e];
      assert s[d + 1..] == src[e + 1..f];
      assert s[d] == '.';
      assert AllDigits(s[..d]) && AllDigits(s[d + 1..]);
    }
  }

  /** A Name token is a letter or `_` followed by the maximal run of letters, digits and `_`. */
  lemma {:induction false} NameTokenText(src: seq<char>, pos: nat)
    requires pos <= |src|
    ensures var r := LexAt(src, pos);
            r.result.Ok? && r.result.value.kind == Name ==>
              var sp := r.result.value.span;
              && sp.start < sp.end && IsNameStart(src[sp.start])
              && (forall k :: sp.start <= k < sp.end ==> IsNameChar(src[k]))
              && (sp.end == |src| || !IsNameChar(src[sp.end]))
    decreases |src| - pos
  {
    if pos < |src| && IsWhitespace(src[pos]) {
      NameTokenText(src, MunchEnd(src, pos, IsWhitespace));
    } else if pos + 1 < |src| && (src[pos] == '+' || src[pos] == '-') && IsDigit(src[pos + 1]) {
      UnsignedFloat(src, pos + 1);
    }
  }

  /** An Operator token is one of the seven operator characters, alone. */
  lemma {:induction false} OperatorTokenText(src: seq<char>, pos: nat)
    requires pos <= |src|
    ensures var r := LexAt(src, pos);
            r.result.Ok? && r.result.value.kind == Operator ==>
              var sp := r.result.value.span;
              sp.end == sp.start + 1 && src[sp.start] in "+-*/=><"
    decreases |src| - pos
  {
    if pos < |src| && IsWhitespace(src[pos]) {
      OperatorTokenText(src, MunchEnd(src, pos, IsWhitespace));
    } else if pos + 1 < |src| && (src[pos] == '+' || src[pos] == '-') && IsDigit(src[pos + 1]) {
      UnsignedFloat(src, pos + 1);
    }
  }

  /** `+` or `-` before a digit joins the number: the kind is the number's, the span starts at the sign. */
  lemma SignFolds(src: seq<char>, pos: nat)
    requires pos + 1 < |src| && (src[pos] == '+' || src[pos] == '-') && IsDigit(src[pos + 1])
    ensures var r := LexAt(src, pos);
            var inner := LexAt(src, pos + 1);
            r.pos == inner.pos && r.result.Ok? && inner.result.Ok?
            && r.result.value == Token(inner.result.value.kind, Span(pos, inner.pos))
            && (r.result.value.kind == Int || r.result.value.kind == Float)
  {
    UnsignedFloat(src, pos + 1);
  }

  /** A sign followed by anything but a digit is a one-character Operator token. */
  lemma SignAlone(src: seq<char>, pos: nat)
    requires pos < |src| && (src[pos] == '+' || src[pos] == '-')
    requires pos + 1 == |src| || !IsDigit(src[pos + 1])
    ensures LexAt(src, pos) == Lexed(Ok(Token(Operator, Span(pos, pos + 1))), pos + 1)
  {
  }

  /**
   * A String token's span covers only what lies between the quotes, with no
   * quote inside; the closing quote is consumed, and an unterminated string
   * runs to the end of the source without an error.
   */
  lemma {:induction false} StringTokenText(src: seq<char>, pos: nat)
    requires pos <= |src|
    ensures var r := LexAt(src, pos);
            r.result.Ok? && r.result.value.kind == String ==>
              var sp := r.result.value.span;
              && 1 <= sp.start && src[sp.start - 1] == '"'
              && (forall k :: sp.start <= k < sp.end ==> src[k] != '"')
              && (if sp.end < |src| then src[sp.end] == '"' && r.pos == sp.end + 1 else r.pos == |src|)
    decreases |src| - pos
  {
    if pos < |src| && IsWhitespace(src[pos]) {
      StringTokenText(src, MunchEnd(src, pos, IsWhitespace));
    } else if pos + 1 < |src| && (src[pos] == '+' || src[pos] == '-') && IsDigit(src[pos + 1]) {
      UnsignedFloat(src, pos + 1);
    }
  }

  /** An unterminated string is not an error. */
  lemma UnterminatedString(src: seq<char>, pos: nat)
    requires pos < |src| && src[pos] == '"'
    requires forall k :: pos < k < |src| ==> src[k] != '"'
    ensures LexAt(src, pos) == Lexed(Ok(Token(String, Span(pos + 1, |src|))), |src|)
  {
    assert MunchEnd(src, pos + 1, NotQuote) == |src|;
  }

  /** Parentheses and the quote are one-character tokens; a character no rule accepts is consumed and rejected. */
  lemma SingleCharTokens(src: seq<char>, pos: nat)
    requires pos < |src|
    requires var c := src[pos];
             !IsWhitespace(c) && !IsDigit(c) && !IsNameStart(c) && c != '+' && c != '-' && c != '"'
    ensures var c := src[pos];
            var r := LexAt(src, pos);
            && r.pos == pos + 1
            && (c == '(' ==> r.result == Ok(Token(OpenParen, Span(pos, pos + 1))))
            && (c == ')' ==> r.result == Ok(Token(CloseParen, Span(pos, pos + 1))))
            && (c == '\'' ==> r.result == Ok(Token(Quote, Span(pos, pos + 1))))
            && (c in "*/><=" ==> r.result == Ok(Token(Operator, Span(pos, pos + 1))))
            && (c !in "()'*/><=" ==> r.result == Err(Ast.UnexpectedChar(c)))
  {
  }

  /** `Lexer`: the characters not yet consumed and the position of the first of them. */
  class Lexer {
    ghost const source: seq<char>
    var chars: seq<char>
    var pos: nat

    ghost predicate Valid()
      reads this
    {
      pos <= |source| && chars == source[pos..]
    }

    constructor (source: seq<char>)
      ensures Valid() && this.source == source && pos == 0
    {
      this.source := source;
      chars := source;
      pos := 0;
    }

    /** The character under the cursor, or `'\0'` at the end of the source. */
    function CurrentChar(): (c: char)
      reads this
      requires Valid()
      ensures c == if pos < |source| then source[pos] else '\0'
    {
      if chars == [] then '\0' else chars[0]
    }

    function Eof(): (b: bool)
      reads this
      requires Valid()
      ensures b <==> pos == |source|
    {
      chars == []
    }

    method Adv()
      requires Valid()
      modifies this
      ensures Valid() && pos == if old(pos) < |source| then old(pos) + 1 else old(pos)
    {
      if chars != [] {
        chars := chars[1..];
        pos := pos + 1;
      }
    }

    /** Consumes the maximal run of characters satisfying `p` and returns its span. */
    method TakeWhile(p: char -> bool) returns (span: Span)
      requires Valid()
      modifies this
      ensures Valid() && pos == MunchEnd(source, old(pos), p)
      ensures span == Span(old(pos), pos)
    {
      var start := pos;
      while true
        invariant Valid() && start <= pos
        invariant MunchEnd(source, start, p) == MunchEnd(source, pos, p)
        decreases |chars|
      {
        if chars != [] && p(chars[0]) {
          chars := chars[1..];
          pos := pos + 1;
        } else {
          return Span(start, pos);
        }
      }
    }

    /** The digit arm of `next`: an Int, or a Float when a `.` follows the digits. */
    method Number() returns (t: Token)
      requires Valid() && pos < |source| && IsDigit(source[pos])
      modifies this
      ensures Valid() && Lexed(Ok(t), pos) == LexAt(source, old(pos))
    {
      var start := pos;
      var _ := TakeWhile(IsDigit);
      if chars != [] && chars[0] == '.' {
        Adv();
        var _ := TakeWhile(IsDigit);
        t := Token(Float, Span(start, pos));
      } else {
        t := Token(Int, Span(start, pos));
      }
    }

    /** The string arm of `next`: the span between the quotes; the closing quote is consumed. */
    method Quoted() returns (t: Token)
      requires Valid() && pos < |source| && source[pos] == '"'
      modifies this
      ensures Valid() && Lexed(Ok(t), pos) == LexAt(source, old(pos))
    {
      Adv();
      var span := TakeWhile(NotQuote);
      t := Token(String, span);
      Adv();
    }

    /** Scans one token; the cursor ends where `LexAt` says. */
    method Next() returns (r: Result<Token, Ast.SyntaxError>)
      requires Valid()
      modifies this
      ensures Valid() && Lexed(r, pos) == LexAt(source, old(pos))
      decreases |chars|
    {
      var start := pos;
      var c := CurrentChar();
      if c == '\0' && Eof() {
        r := Ok(Token(EOF, Span(start, pos)));
      } else if IsWhitespace(c) {
        var _ := TakeWhile(IsWhitespace);
        r := Next();
      } else if IsDigit(c) {
        var t := Number();
        r := Ok(t);
      } else if IsNameStart(c) {
        var _ := TakeWhile(IsNameChar);
        r := Ok(Token(Name, Span(start, pos)));
      } else if c == '+' || c == '-' {
        Adv();
        if chars != [] && IsDigit(chars[0]) {
          var t :- Next();
          r := Ok(Token(t.kind, Span(start, pos)));
        } else {
          r := Ok(Token(Operator, Span(start, pos)));
        }
      } else if c == '"' {
        var t := Quoted();
        r := Ok(t);
      } else {
        Adv();
        var kind :- SingleChar(c);
        r := Ok(Token(kind, Span(start, pos)));
      }
    }
  }
}
