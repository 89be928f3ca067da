/** The operator enum shared by the parser and both evaluators (src/risp/shared.rs). */
module Shared {

  datatype Op = Plus | Minus | Star | Slash | Equal | Greater | Less

  /** The four operators evaluated as a left fold. */
  predicate IsArith(op: Op) {
    op == Plus || op == Minus || op == Star || op == Slash
  }

  /** The three operators evaluated by pairwise chaining. */
  predicate IsRelational(op: Op) {
    !IsArith(op)
  }

  /** The comparison a relational operator makes on two integers. */
  predicate Holds(rel: Op, a: int, b: int) {
    if rel == Equal then a == b else if rel == Greater then a > b else a < b
  }

  /** The source text of each operator, as written by the repr/display of an operator value. */
  function OpText(op: Op): string {
    match op
    case Plus => "+"
    case Minus => "-"
    case Star => "*"
    case Slash => "/"
    case Equal => "="
    case Greater => ">"
    case Less => "<"
  }

  /** The variant name printed by Rust's derived `Debug` for `Op`. */
  function OpDebug(op: Op): string {
    match op
    case Plus => "Plus"
    case Minus => "Minus"
    case Star => "Star"
    case Slash => "Slash"
    case Equal => "Equal"
    case Greater => "Greater"
    case Less => "Less"
  }

  lemma OpTextInjective(a: Op, b: Op)
    ensures OpText(a) == OpText(b) <==> a == b
  {
  }

  /**
   * An f64 is kept symbolic: the literal it was parsed from, an i32 promoted
   * with `as f64`, or the arithmetic that produced it. Which operand pairings
   * are defined is modelled; IEEE values are not.
   */
  datatype FloatVal =
    | FloatLit(text: string)
    | FloatOfInt(n: int)
    | FloatArith(op: Op, lhs: FloatVal, rhs: FloatVal)

  /**
   * Host floating-point behaviour the model does not define: comparison
   * (`==`, `>`, `<` on f64, selected by an Equal/Greater/Less operator) and
   * formatting (`to_string` / `{:?}` of an f64).
   */
  datatype FloatHost = FloatHost(compare: (Op, FloatVal, FloatVal) -> bool, show: FloatVal -> string)

  /** The error kinds a raised interpreter error carries (src/risp/vm/mod.rs). */
  datatype ErrorKind = NameError | TypeError | ValueError

  function KindDebug(k: ErrorKind): string {
    match k
    case NameError => "NameError"
    case TypeError => "TypeError"
    case ValueError => "ValueError"
  }

  /** `n` copies of `a`: the length is `n * |a|`, it starts with `a` and repeats with period `|a|`. */
  function RepeatNat<T>(a: seq<T>, n: nat): (r: seq<T>)
    ensures |r| == |a| * n
    ensures n > 0 ==> r[..|a|] == a
    ensures forall i :: |a| <= i < |r| ==> r[i] == r[i - |a|]
  {
    if n == 0 then [] else
      var rest := RepeatNat(a, n - 1);
      assert |a| * n == |a| * (n - 1) + |a|;
      assert forall i :: |a| <= i < |rest| + |a| ==> (a + rest)[i] == (a + rest)[i - |a|] by {
        assert (a + rest)[|a|..] == rest;
      }
      a + rest
  }
}
