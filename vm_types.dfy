/**
 * Values of the AST-walking interpreter (src/risp/vm/types.rs and the error
 * type of src/risp/vm/mod.rs) and its binary operators.
 */
module VmTypes {
  import opened Wrappers
  import opened Shared
  import opened RustInt
  import opened Numerals
  import Ast

  /**
   * How an evaluation fails: a `RuntimeError`, a Rust panic (which aborts
   * the process; `msg` is what Rust prints), or the iteration bound of a
   * `while` loop running out (the source has no such bound).
   */
  datatype VmError =
    | Raised(kind: ErrorKind, msg: string)
    | Panic(msg: string)
    | OutOfFuel

  /** `{:?}` of a `RuntimeError`: the kind, a colon and the message. */
  function ErrorDebug(kind: ErrorKind, msg: string): string {
    KindDebug(kind) + ": " + msg
  }

  /** The native functions and macros the default frame binds. */
  datatype NativeFn = Print | Println | Input | Set
  datatype NativeMacro = BlockMacro | IfMacro | WhileMacro

  datatype Value =
    | Int(i: int32)
    | Bool(b: bool)
    | Float(f: FloatVal)
    | Str(s: string)
    | List(items: seq<Value>)
    | RustFn(native: NativeFn)
    | RustMacro(mac: NativeMacro)
    | RispFn(params: seq<string>, body: Ast.AstNode)
    | Operator(op: Op)
    | Symbol(name: string)
    | Null

  function TypeName(v: Value): string {
    match v
    case Int(_) => "int"
    case Bool(_) => "bool"
    case Float(_) => "float"
    case Str(_) => "str"
    case List(_) => "list"
    case RustFn(_) => "rustfn"
    case RispFn(_, _) => "rispfn"
    case RustMacro(_) => "rustmacro"
    case Operator(_) => "operator"
    case Symbol(_) => "symbol"
    case Null => "null"
  }

  /** Each variant has its own type name. */
  lemma TypeNameDistinct(a: Value, b: Value)
    ensures TypeName(a) == TypeName(b) <==>
              (&& a.Int? == b.Int? && a.Bool? == b.Bool? && a.Float? == b.Float?
               && a.Str? == b.Str? && a.List? == b.List? && a.RustFn? == b.RustFn? && a.RispFn? == b.RispFn?
               && a.RustMacro? == b.RustMacro? && a.Operator? == b.Operator? && a.Symbol? == b.Symbol?)
  {
  }

  /** `repr`: numbers and booleans in their usual text, strings raw, a list as `[]` whatever it holds. */
  function Repr(host: FloatHost, v: Value): string {
    match v
    case Int(a) => IntToString(a as int)
    case Bool(a) => BoolToString(a)
    case Float(a) => host.show(a)
    case Str(a) => a
    case List(_) => "[]"
    case RustFn(_) => "<Rust Function>"
    case RustMacro(_) => "<Rust Macro>"
    case RispFn(_, _) => "<Risp Function>"
    case Operator(a) => OpText(a)
    case Symbol(s) => "<Symbol " + s + ">"
    case Null => "null"
  }

  /** `display` is `repr`. */
  function Display(host: FloatHost, v: Value): string {
    Repr(host, v)
  }

  /** An integer's text reads back as the same integer, and an operator's text names it. */
  lemma ReprReadsBack(host: FloatHost, v: Value)
    ensures v.Int? ==> ParseInt(Repr(host, v)) == Some(v.i as int)
    ensures v.Operator? ==> forall op :: Repr(host, v) == OpText(op) <==> op == v.op
  {
    if v.Int? {
      ParseIntOfString(v.i as int);
    }
    if v.Operator? {
      forall op ensures Repr(host, v) == OpText(op) <==> op == v.op {
        OpTextInjective(op, v.op);
      }
    }
  }

  /** The error `oneside_binary_op` returns for a pairing it does not handle. */
  const Unsupported: VmError := Raised(TypeError, "")

  /** `a.repeat(n as usize)`: a negative count wraps to a huge length, and a non-empty string then aborts. */
  function Repeat(a: string, n: int32): (r: Result<string, VmError>)
    ensures n >= 0 ==> r.Ok? && |r.value| == |a| * n as int
    ensures n > 0 ==> r.Ok? && r.value[..|a|] == a
    ensures r.Ok? ==> forall i :: |a| <= i < |r.value| ==> r.value[i] == r.value[i - |a|]
    ensures n < 0 ==> r == (if a == [] then Ok([]) else Err(Panic("capacity overflow")))
  {
    if n < 0 then (if a == [] then Ok([]) else Err(Panic("capacity overflow")))
    else Ok(RepeatNat(a, n as nat))
  }

  /** An arithmetic or relational step on two numbers already of one type. */
  function IntStep(op: Op, a: int32, b: int32): (r: Result<Value, VmError>)
    ensures IsRelational(op) ==> r.Ok? && r.value.Bool?
    ensures IsArith(op) ==> r.Ok? ==> r.value.Int?
  {
    if op == Equal then Ok(Bool(a == b))
    else if op == Greater then Ok(Bool(a > b))
    else if op == Less then Ok(Bool(a < b))
    else match Arith(op, a, b)
      case Ok(n) => Ok(Int(n))
      case Err(msg) => Err(Panic(msg))
  }

  function FloatStep(host: FloatHost, op: Op, a: FloatVal, b: FloatVal): (r: Value)
    ensures IsRelational(op) ==> r.Bool?
    ensures IsArith(op) ==> r.Float?
  {
    if IsRelational(op) then Bool(host.compare(op, a, b)) else Float(FloatArith(op, a, b))
  }

  /**
   * `oneside_binary_op`: int with int, bool with int (the bool as 0 or 1),
   * float with int (the int converted), string `+` string and string `*`
   * int. Every other pairing is the untyped TypeError.
   */
  function OnesideBinaryOp(host: FloatHost, lhs: Value, rhs: Value, op: Op): Result<Value, VmError> {
    match (lhs, rhs)
    case (Int(a), Int(b)) => IntStep(op, a, b)
    case (Bool(a), Int(b)) => IntStep(op, if a then 1 else 0, b)
    case (Float(a), Int(b)) => Ok(FloatStep(host, op, a, FloatOfInt(b as int)))
    case (Str(a), Str(b)) => if op == Plus then Ok(Str(a + b)) else Err(Unsupported)
    case (Str(a), Int(b)) =>
      if op == Star then
        match Repeat(a, b)
        case Ok(s) => Ok(Str(s))
        case Err(e) => Err(e)
      else Err(Unsupported)
    case _ => Err(Unsupported)
  }

  /** Which pairings `oneside_binary_op` handles, and what it yields on each. */
  lemma OnesideDomain(host: FloatHost, lhs: Value, rhs: Value, op: Op)
    ensures var r := OnesideBinaryOp(host, lhs, rhs, op);
            && (r == Err(Unsupported) <==>
                  !(rhs.Int? && (lhs.Int? || lhs.Bool? || lhs.Float?))
                  && !(lhs.Str? && rhs.Str? && op == Plus)
                  && !(lhs.Str? && rhs.Int? && op == Star))
            && (r.Ok? && IsRelational(op) ==> r.value.Bool?)
            && (r.Ok? && IsArith(op) && lhs.Float? ==> r.value.Float?)
            && (r.Ok? && IsArith(op) && (lhs.Int? || lhs.Bool?) ==> r.value.Int?)
            && (r.Ok? && lhs.Str? ==> r.value.Str?)
            && (r.Err? && r != Err(Unsupported) ==> r.error.Panic?)
  {
  }

  /**
   * `binary_op`: when one side does not handle the pairing, the operands are
   * swapped and the SAME operator is tried again. A panic is not retried.
   */
  function BinaryOp(host: FloatHost, lhs: Value, rhs: Value, op: Op): Result<Value, VmError> {
    match OnesideBinaryOp(host, lhs, rhs, op)
    case Err(Raised(_, _)) => OnesideBinaryOp(host, rhs, lhs, op)
    case r => r
  }

  /** A relational operator yields a Bool whenever it yields anything. */
  lemma RelationalYieldsBool(host: FloatHost, lhs: Value, rhs: Value, op: Op)
    requires IsRelational(op)
    ensures BinaryOp(host, lhs, rhs, op).Ok? ==> BinaryOp(host, lhs, rhs, op).value.Bool?
  {
    OnesideDomain(host, lhs, rhs, op);
    OnesideDomain(host, rhs, lhs, op);
  }

  /**
   * With an int and a bool, float or string (only the int is handled on
   * the right), operand order is lost: `(- 1 true)` computes `true - 1`,
   * and `(< 1 2.5)` asks whether 2.5 < 1.
   */
  lemma MixedOperandsSwap(host: FloatHost, n: int32, other: Value, op: Op)
    requires other.Bool? || other.Float? || other.Str?
    ensures BinaryOp(host, Int(n), other, op) == OnesideBinaryOp(host, other, Int(n), op)
    ensures BinaryOp(host, other, Int(n), op) == OnesideBinaryOp(host, other, Int(n), op) || OnesideBinaryOp(host, other, Int(n), op) == Err(Unsupported)
  {
  }

  /** Two ints are combined in order, with checked `i32` arithmetic whose overflow panics. */
  lemma IntArithmetic(host: FloatHost, a: int32, b: int32, op: Op)
    requires IsArith(op)
    ensures var r := BinaryOp(host, Int(a), Int(b), op);
            && (r.Ok? ==> r.value.Int? && (op != Slash ==> r.value.i as int == Exact(op, a as int, b as int)))
            && (r.Ok? && op == Slash ==> r.value.i as int == TruncDiv(a as int, b as int))
            && (op != Slash ==> (r.Ok? <==> InI32(Exact(op, a as int, b as int))))
            && (op == Slash ==> (r.Ok? <==> b != 0 && !(a as int == I32_MIN && b == -1)))
            && (r.Err? ==> r.error.Panic?)
  {
    if op == Slash && b != 0 {
      DivOverflowOnlyAtMin(a, b);
    }
  }

  /** Neither order handles the pairing: the error is the untyped TypeError. */
  lemma BinaryOpUnsupported(host: FloatHost, lhs: Value, rhs: Value, op: Op)
    ensures BinaryOp(host, lhs, rhs, op) == Err(Unsupported) <==>
              OnesideBinaryOp(host, lhs, rhs, op) == Err(Unsupported) && OnesideBinaryOp(host, rhs, lhs, op) == Err(Unsupported)
  {
    OnesideDomain(host, lhs, rhs, op);
  }
}
