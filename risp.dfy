/** The front end's entry point (src/risp.rs): source text to top-level expressions. */
module Risp {
  import opened Wrappers
  import opened Ast
  import opened AstLexer
  import opened AstParser

  /** `to_ast`: a lexer over the text, a parser over that lexer, then every top-level expression. */
  method ToAst(text: string) returns (r: Result<seq<AstNode>, SyntaxError>)
    ensures r == ParseSource(text)
  {
    var lexer := new Lexer(text);
    var parser :- Parser.New(lexer, text);
    r := parser.ParseExprs();
  }
}
