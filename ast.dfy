/** The syntax tree and the syntax error (src/risp/ast/mod.rs). */
module Ast {
  import opened Shared
  import opened RustInt
  import opened Numerals
  import opened AstToken

  datatype AstNode =
    | Int(i: int32)
    | Float(f: FloatVal)
    | Name(name: string)
    | Symbol(sym: string)
    | Str(s: string)
    | Operator(op: Op)
    | Expr(nodes: seq<AstNode>)
    | List(elems: seq<AstNode>)

  /**
   * Why lexing or parsing stopped. The source carries only a message;
   * `Message` gives that message for each reason. `Panicked` stands for a
   * process abort inside the parser (`parse().unwrap()` on an integer literal
   * outside `i32`, or `unreachable!()`), with the panic's message.
   */
  datatype SyntaxError =
    | UnexpectedChar(c: char)
    | Expected(want: TokenKind, found: TokenKind)
    | CannotQuote(node: AstNode)
    | UnexpectedToken(kind: TokenKind)
    | UnexpectedEof
    | Panicked(reason: string)

  function Message(e: SyntaxError): string {
    match e
    case UnexpectedChar(c) => "did not expect character '" + [c] + "'"
    case Expected(want, found) => "expected " + KindName(want) + ", found " + KindName(found)
    case CannotQuote(node) => NodeDebug(node) + " can not be quoted"
    case UnexpectedToken(kind) => "unexpected " + KindName(kind) + " while parsing atom"
    case UnexpectedEof => "unexpected EOF while parsing atom"
    case Panicked(reason) => reason
  }

  /** Rust's derived `Debug` of a node, with strings quoted but not escaped and floats shown by their literal text. */
  function NodeDebug(n: AstNode): string {
    match n
    case Int(i) => "Int(" + IntToString(i as int) + ")"
    case Float(f) => "Float(" + FloatDebug(f) + ")"
    case Name(s) => "Name(\"" + s + "\")"
    case Symbol(s) => "Symbol(\"" + s + "\")"
    case Str(s) => "Str(\"" + s + "\")"
    case Operator(op) => "Operator(" + OpDebug(op) + ")"
    case Expr(ns) => "Expr([" + NodesDebug(ns) + "])"
    case List(ns) => "List([" + NodesDebug(ns) + "])"
  }

  function NodesDebug(ns: seq<AstNode>): string {
    if ns == [] then ""
    else if |ns| == 1 then NodeDebug(ns[0])
    else NodeDebug(ns[0]) + ", " + NodesDebug(ns[1..])
  }

  function FloatDebug(f: FloatVal): string {
    match f
    case FloatLit(text) => text
    case _ => "<f64>"
  }

  /** True when no quoted form (`Symbol` or `List`) occurs in the tree: neither evaluator has an arm for them. */
  predicate NoQuoted(n: AstNode) {
    match n
    case Symbol(_) => false
    case List(_) => false
    case Expr(ns) => forall i :: 0 <= i < |ns| ==> NoQuoted(ns[i])
    case _ => true
  }

  predicate AllNoQuoted(ns: seq<AstNode>) {
    forall i :: 0 <= i < |ns| ==> NoQuoted(ns[i])
  }

  /** A size for termination arguments: every node counts at least one. */
  function Size(n: AstNode): (s: nat)
    ensures s >= 1
  {
    match n
    case Expr(ns) => 1 + SizeAll(ns)
    case List(ns) => 1 + SizeAll(ns)
    case _ => 1
  }

  function SizeAll(ns: seq<AstNode>): nat {
    if ns == [] then 0 else SizeAll(ns[..|ns| - 1]) + Size(ns[|ns| - 1])
  }

  lemma {:induction false} SizeAllPrefix(ns: seq<AstNode>, i: nat)
    requires i <= |ns|
    ensures SizeAll(ns[..i]) <= SizeAll(ns)
    ensures i < |ns| ==> SizeAll(ns[..i]) + Size(ns[i]) <= SizeAll(ns)
    decreases |ns|
  {
    if i < |ns| {
      var m := ns[..|ns| - 1];
      assert ns[..|ns| - 1] == m;
      if i < |ns| - 1 {
        SizeAllPrefix(m, i);
        assert m[..i] == ns[..i];
        assert m[i] == ns[i];
      } else {
        assert m == ns[..i];
      }
    } else {
      assert ns[..i] == ns;
    }
  }

  lemma {:induction false} SizeAllTail(ns: seq<AstNode>)
    requires |ns| >= 1
    ensures SizeAll(ns[1..]) + Size(ns[0]) == SizeAll(ns)
    decreases |ns|
  {
    if |ns| > 1 {
      var m := ns[..|ns| - 1];
      SizeAllTail(m);
      assert m[1..] == ns[1..][..|ns| - 2];
      assert m[0] == ns[0];
    } else {
      assert ns[1..] == [];
      assert ns[..0] == [];
    }
  }
}
