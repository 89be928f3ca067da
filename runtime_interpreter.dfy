/**
 * The interpreter of the runtime snapshot (src/risp/runtime/interpreter.rs)
 * with its special forms (src/risp/runtime/macros.rs).
 *
 * An operator step first asks the left operand's primary method and, when
 * that answers `None`, the right operand's reflected method (or, for a
 * comparison, the right operand's mirrored comparison). The symbol table is
 * the only state; the native functions do I/O, so what they return comes
 * from the host's `io` function.
 */
module RuntimeInterpreter {
  import opened Wrappers
  import opened Shared
  import opened RustInt
  import opened Numerals
  import opened Ast
  import opened RuntimeTypes

  /** A raised error, or a Rust panic (which aborts the process) with its message. */
  datatype RuntimeError = Raised(kind: ErrorKind, msg: string) | Panic(msg: string)

  type Frame = map<string, WrappedType>

  /** What the model leaves to the host: f64 behaviour and the values the I/O natives return. */
  datatype Host = Host(float: FloatHost, io: (Native, seq<WrappedType>) -> seq<WrappedType>)

  /** A result together with the symbol table it leaves behind (also after an error). */
  datatype Step<T> = Step(result: Result<T, RuntimeError>, frame: Frame)


  /** The symbol table `Interpreter::new` starts from: the natives, the four special forms and the two booleans. */
  function DefaultFrame(): (f: Frame)
    ensures f.Keys == {"println", "print", "input", "set", "list", "block", "if", "true", "false"}
    ensures f["println"] == RustFn(Println) && f["print"] == RustFn(Print) && f["input"] == RustFn(Input)
    ensures f["set"] == RustMacro(SetMacro) && f["list"] == RustMacro(ListMacro)
    ensures f["block"] == RustMacro(BlockMacro) && f["if"] == RustMacro(IfMacro)
    ensures f["true"] == Bool(true) && f["false"] == Bool(false)
  {
    map["println" := RustFn(Println), "print" := RustFn(Print), "input" := RustFn(Input),
        "set" := RustMacro(SetMacro), "list" := RustMacro(ListMacro),
        "block" := RustMacro(BlockMacro), "if" := RustMacro(IfMacro),
        "true" := Bool(true), "false" := Bool(false)]
  }

  /** `get_name`: the bound value, or a NameError naming the missing name. */
  function GetNameF(frame: Frame, name: string): (r: Result<WrappedType, RuntimeError>)
    ensures r.Ok? <==> name in frame
    ensures r.Ok? ==> r.value == frame[name]
    ensures r.Err? ==> r.error == Raised(NameError, name + " is not defined")
  {
    if name in frame then Ok(frame[name]) else Err(Raised(NameError, name + " is not defined"))
  }

  /** How `call_rustfn` turns the returned vector into one value. */
  function Collapse(vs: seq<WrappedType>): (v: WrappedType)
    ensures |vs| == 0 ==> v == Null
    ensures |vs| == 1 ==> v == vs[0]
    ensures |vs| > 1 ==> v == WrappedType.List(vs)
  {
    if |vs| == 0 then Null else if |vs| == 1 then vs[0] else WrappedType.List(vs)
  }

  // ---------------------------------------------------------------------
  // Operators

  /** The TypeError of a pairing neither operand implements. */
  function InvalidOperands(op: Op, left: WrappedType, right: WrappedType): RuntimeError {
    Raised(TypeError, "invalid operand types for " + OpText(op) + ": " + TypeName(left) + " and " + TypeName(right))
  }

  /** One step of `call_operator`: `left.primary(right)`, else `right.alternate(left)`, else the TypeError. */
  function ApplyOp(op: Op, left: WrappedType, right: WrappedType): Result<WrappedType, RuntimeError>
    requires IsArith(op)
  {
    match Primary(left, op, right)
    case Defined(v) => Ok(v)
    case Aborts(m) => Err(Panic(m))
    case Undefined =>
      match Reflected(right, op, left)
      case Defined(v) => Ok(v)
      case Aborts(m) => Err(Panic(m))
      case Undefined => Err(InvalidOperands(op, left, right))
  }

  /** The comparison asked of the right operand when the left one has none: `=` stays `=`, `>` and `<` swap. */
  function Mirror(rel: Op): (m: Op)
    requires IsRelational(rel)
    ensures IsRelational(m)
    ensures forall a: int, b: int {:trigger Holds(m, b, a)} :: Holds(m, b, a) == Holds(rel, a, b)
  {
    if rel == Greater then Less else if rel == Less then Greater else Equal
  }

  /** One window of `call_boolean_op`. */
  function ApplyRel(host: FloatHost, rel: Op, left: WrappedType, right: WrappedType): Result<bool, RuntimeError>
    requires IsRelational(rel)
  {
    match Compare(host, left, rel, right)
    case Some(b) => Ok(b)
    case None =>
      match Compare(host, right, Mirror(rel), left)
      case Some(b) => Ok(b)
      case None => Err(InvalidOperands(rel, left, right))
  }

  /** `call_operator` for `+ - * /`: a left fold of `ApplyOp`, stopping at the first error. */
  function FoldF(op: Op, left: WrappedType, rest: seq<WrappedType>): Result<WrappedType, RuntimeError>
    requires IsArith(op)
    decreases |rest|
  {
    if rest == [] then Ok(left)
    else
      var l :- ApplyOp(op, left, rest[0]);
      FoldF(op, l, rest[1..])
  }

  /** `call_boolean_op`: every window is compared and its answer replaces the running result. */
  function ChainF(host: FloatHost, rel: Op, res: bool, args: seq<WrappedType>): Result<bool, RuntimeError>
    requires IsRelational(rel)
    decreases |args|
  {
    if |args| < 2 then Ok(res)
    else
      var r :- ApplyRel(host, rel, args[0], args[1]);
      ChainF(host, rel, r, args[1..])
  }

  function CallOperatorF(host: FloatHost, op: Op, args: seq<WrappedType>): Result<WrappedType, RuntimeError> {
    if IsRelational(op) then
      var b :- ChainF(host, op, true, args);
      Ok(Bool(b))
    else if args == [] then Err(Raised(TypeError, "expected at least 1 argument"))
    else FoldF(op, args[0], args[1..])
  }

  // ---------------------------------------------------------------------
  // Evaluation

  /** `eval`. Quoted nodes are excluded: `eval` has no arm for them. */
  function EvalF(h: Host, frame: Frame, node: AstNode): Step<WrappedType>
    requires NoQuoted(node)
    decreases Size(node), 0
  {
    match node
    case Name(name) => Step(GetNameF(frame, name), frame)
    case Int(n) => Step(Ok(WrappedType.Int(n)), frame)
    case Float(f) => Step(Ok(WrappedType.Float(f)), frame)
    case Str(s) => Step(Ok(WrappedType.Str(s)), frame)
    case Operator(op) => Step(Ok(WrappedType.Operator(op)), frame)
    case Expr(nodes) =>
      if nodes == [] then Step(Err(Raised(ValueError, "expression is empty")), frame)
      else
        SizeAllTail(nodes);
        var head := EvalF(h, frame, nodes[0]);
        if head.result.Err? then head
        else if head.result.value.RustMacro? then MacroF(h, head.frame, head.result.value.mac, nodes[1..])
        else
          var func := head.result.value;
          var args := ArgsF(h, head.frame, nodes[1..], []);
          if args.result.Err? then Step(Err(args.result.error), args.frame)
          else if func.RustFn? then Step(Ok(Collapse(h.io(func.native, args.result.value))), args.frame)
          else if func.Operator? then Step(CallOperatorF(h.float, func.op, args.result.value), args.frame)
          else Step(Err(Raised(TypeError, TypeName(func) + " is not callable")), args.frame)
    case Symbol(_) => assert false; Step(Ok(Null), frame)
    case List(_) => assert false; Step(Ok(Null), frame)
  }

  /** Evaluating nodes in order after the values `acc`: one value per node, the first error stops. */
  function ArgsF(h: Host, frame: Frame, nodes: seq<AstNode>, acc: seq<WrappedType>): (r: Step<seq<WrappedType>>)
    requires AllNoQuoted(nodes)
    ensures r.result.Ok? ==> |r.result.value| == |acc| + |nodes| && r.result.value[..|acc|] == acc
    decreases SizeAll(nodes), 1
  {
    if nodes == [] then Step(Ok(acc), frame)
    else
      SizeAllTail(nodes);
      var e := EvalF(h, frame, nodes[0]);
      if e.result.Err? then Step(Err(e.result.error), e.frame)
      else
        var r := ArgsF(h, e.frame, nodes[1..], acc + [e.result.value]);
        assert r.result.Ok? ==> r.result.value[..|acc|] == (acc + [e.result.value])[..|acc|];
        r
  }

  function MacroF(h: Host, frame: Frame, mac: Macro, nodes: seq<AstNode>): Step<WrappedType>
    requires AllNoQuoted(nodes)
    decreases SizeAll(nodes), 4
  {
    match mac
    case SetMacro => SetF(h, frame, nodes)
    case ListMacro => ListF(h, frame, nodes)
    case BlockMacro => BlockF(h, frame, nodes, Null)
    case IfMacro => IfF(h, frame, nodes)
  }

  /**
   * `set`: exactly two nodes, the first a bare name (checked before anything
   * is evaluated). The second is evaluated and its value bound and returned;
   * an error there is unwrapped, which panics.
   */
  function SetF(h: Host, frame: Frame, nodes: seq<AstNode>): Step<WrappedType>
    requires AllNoQuoted(nodes)
    decreases SizeAll(nodes), 3
  {
    if |nodes| != 2 then Step(Err(Raised(ValueError, "expected 2 arguments, found " + IntToString(|nodes|))), frame)
    else if !nodes[0].Name? then Step(Err(Raised(ValueError, "first argument must eb a name")), frame)
    else
      SizeAllPrefix(nodes, 1);
      var e := EvalF(h, frame, nodes[1]);
      match e.result
      case Ok(v) => Step(Ok(v), e.frame[nodes[0].name := v])
      case Err(Panic(m)) => Step(Err(Panic(m)), e.frame)
      case Err(Raised(_, _)) => Step(Err(Panic(UnwrapFailed)), e.frame)
  }

  /** `list`: every node in order, collected into a List. */
  function ListF(h: Host, frame: Frame, nodes: seq<AstNode>): Step<WrappedType>
    requires AllNoQuoted(nodes)
    decreases SizeAll(nodes), 3
  {
    var a := ArgsF(h, frame, nodes, []);
    if a.result.Err? then Step(Err(a.result.error), a.frame)
    else Step(Ok(WrappedType.List(a.result.value)), a.frame)
  }

  /** `block`: every node in turn; the value is the last one's, or Null for none. */
  function BlockF(h: Host, frame: Frame, nodes: seq<AstNode>, res: WrappedType): Step<WrappedType>
    requires AllNoQuoted(nodes)
    decreases SizeAll(nodes), 1
  {
    if nodes == [] then Step(Ok(res), frame)
    else
      SizeAllTail(nodes);
      var e := EvalF(h, frame, nodes[0]);
      if e.result.Err? then e
      else BlockF(h, e.frame, nodes[1..], e.result.value)
  }

  /** `if_else`: two or three nodes; only `Bool(true)` selects the first branch. */
  function IfF(h: Host, frame: Frame, nodes: seq<AstNode>): Step<WrappedType>
    requires AllNoQuoted(nodes)
    decreases SizeAll(nodes), 1
  {
    if |nodes| != 2 && |nodes| != 3 then Step(Err(Raised(ValueError, "Incorrect number of arguments")), frame)
    else
      SizeAllPrefix(nodes, 0);
      SizeAllPrefix(nodes, 1);
      SizeAllPrefix(nodes, |nodes| - 1);
      var c := EvalF(h, frame, nodes[0]);
      if c.result.Err? then c
      else if c.result.value == Bool(true) then EvalF(h, c.frame, nodes[1])
      else if |nodes| == 2 then Step(Ok(Null), c.frame)
      else EvalF(h, c.frame, nodes[2])
  }

  // ---------------------------------------------------------------------
  // The interpreter object

  class Interpreter {
    var frame: Frame
    const host: Host

    /** `Interpreter::new`, with the host's float and I/O behaviour. */
    constructor (host: Host)
      ensures frame == DefaultFrame() && this.host == host
    {
      frame := DefaultFrame();
      this.host := host;
    }

    method GetName(name: string) returns (r: Result<WrappedType, RuntimeError>)
      ensures r == GetNameF(frame, name)
    {
      if name in frame {
        return Ok(frame[name]);
      }
      return Err(Raised(NameError, name + " is not defined"));
    }

    /** `set_name`: inserts or replaces one binding. */
    method SetName(name: string, value: WrappedType)
      modifies this
      ensures frame == old(frame)[name := value]
    {
      frame := frame[name := value];
    }

    method CallRustFn(f: Native, params: seq<WrappedType>) returns (r: Result<WrappedType, RuntimeError>)
      ensures r == Ok(Collapse(host.io(f, params)))
    {
      var result := host.io(f, params);
      if |result| == 0 {
        r := Ok(Null);
      } else if |result| == 1 {
        r := Ok(result[0]);
      } else {
        r := Ok(WrappedType.List(result));
      }
    }

    method CallOperator(op: Op, operands: seq<WrappedType>) returns (r: Result<WrappedType, RuntimeError>)
      ensures r == CallOperatorF(host.float, op, operands)
    {
      if IsRelational(op) {
        r := CallBooleanOp(op, operands);
        return;
      }
      if |operands| == 0 {
        return Err(Raised(TypeError, "expected at least 1 argument"));
      }
      var left := operands[0];
      var i := 1;
      while i < |operands|
        invariant 1 <= i <= |operands|
        invariant FoldF(op, left, operands[i..]) == CallOperatorF(host.float, op, operands)
      {
        var right := operands[i];
        var p := Primary(left, op, right);
        if p.Defined? {
          left := p.value;
        } else if p.Aborts? {
          return Err(Panic(p.reason));
        } else {
          var a := Reflected(right, op, left);
          if a.Defined? {
            left := a.value;
          } else if a.Aborts? {
            return Err(Panic(a.reason));
          } else {
            return Err(InvalidOperands(op, left, right));
          }
        }
        i := i + 1;
      }
      return Ok(left);
    }

    method CallBooleanOp(op: Op, operands: seq<WrappedType>) returns (r: Result<WrappedType, RuntimeError>)
      requires IsRelational(op)
      ensures r == CallOperatorF(host.float, op, operands)
    {
      var res := true;
      var i := 0;
      while i + 1 < |operands|
        invariant 0 <= i <= |operands|
        invariant i + 1 >= |operands| ==> ChainF(host.float, op, res, operands[i..]) == Ok(res)
        invariant ChainF(host.float, op, res, operands[i..]) == ChainF(host.float, op, true, operands)
      {
        var left := operands[i];
        var right := operands[i + 1];
        var p := Compare(host.float, left, op, right);
        if p.Some? {
          res := p.value;
        } else {
          var a := Compare(host.float, right, Mirror(op), left);
          if a.Some? {
            res := a.value;
          } else {
            return Err(InvalidOperands(op, left, right));
          }
        }
        i := i + 1;
      }
      return Ok(Bool(res));
    }

    method Eval(node: AstNode) returns (r: Result<WrappedType, RuntimeError>)
      requires NoQuoted(node)
      modifies this
      ensures Step(r, frame) == EvalF(host, old(frame), node)
      decreases Size(node), 0
    {
      match node
      case Name(name) => r := GetName(name);
      case Int(n) => r := Ok(WrappedType.Int(n));
      case Float(f) => r := Ok(WrappedType.Float(f));
      case Str(s) => r := Ok(WrappedType.Str(s));
      case Operator(op) => r := Ok(WrappedType.Operator(op));
      case Expr(nodes) =>
        if nodes == [] {
          return Err(Raised(ValueError, "expression is empty"));
        }
        SizeAllTail(nodes);
        var func :- Eval(nodes[0]);
        if func.RustMacro? {
          r := CallMacro(this, func.mac, nodes[1..]);
          return;
        }
        ghost var f1 := frame;
        var rest := nodes[1..];
        var params: seq<WrappedType> := [];
        var i := 0;
        while i < |rest|
          invariant 0 <= i <= |rest|
          invariant ArgsF(host, frame, rest[i..], params) == ArgsF(host, f1, rest, [])
        {
          SizeAllPrefix(nodes, i + 1);
          var v :- Eval(rest[i]);
          params := params + [v];
          i := i + 1;
        }
        if func.RustFn? {
          r := CallRustFn(func.native, params);
        } else if func.Operator? {
          r := CallOperator(func.op, params);
        } else {
          r := Err(Raised(TypeError, TypeName(func) + " is not callable"));
        }
    }
  }

  // ---------------------------------------------------------------------
  // The special forms as procedures on an interpreter

  method CallMacro(inter: Interpreter, mac: Macro, nodes: seq<AstNode>) returns (r: Result<WrappedType, RuntimeError>)
    requires AllNoQuoted(nodes)
    modifies inter
    ensures Step(r, inter.frame) == MacroF(inter.host, old(inter.frame), mac, nodes)
    decreases SizeAll(nodes), 4
  {
    match mac
    case SetMacro => r := SetForm(inter, nodes);
    case ListMacro => r := ListForm(inter, nodes);
    case BlockMacro => r := Block(inter, nodes);
    case IfMacro => r := IfElse(inter, nodes);
  }

  method SetForm(inter: Interpreter, nodes: seq<AstNode>) returns (r: Result<WrappedType, RuntimeError>)
    requires AllNoQuoted(nodes)
    modifies inter
    ensures Step(r, inter.frame) == SetF(inter.host, old(inter.frame), nodes)
    decreases SizeAll(nodes), 3
  {
    if |nodes| != 2 {
      return Err(Raised(ValueError, "expected 2 arguments, found " + IntToString(|nodes|)));
    }
    if !nodes[0].Name? {
      return Err(Raised(ValueError, "first argument must eb a name"));
    }
    SizeAllPrefix(nodes, 1);
    var e := inter.Eval(nodes[1]);
    match e
    case Ok(value) =>
      inter.SetName(nodes[0].name, value);
      r := Ok(value);
    case Err(Panic(m)) => r := Err(Panic(m));
    case Err(Raised(_, _)) => r := Err(Panic(UnwrapFailed));
  }

  method ListForm(inter: Interpreter, nodes: seq<AstNode>) returns (r: Result<WrappedType, RuntimeError>)
    requires AllNoQuoted(nodes)
    modifies inter
    ensures Step(r, inter.frame) == ListF(inter.host, old(inter.frame), nodes)
    decreases SizeAll(nodes), 3
  {
    var elems: seq<WrappedType> := [];
    var i := 0;
    while i < |nodes|
      invariant 0 <= i <= |nodes|
      invariant ArgsF(inter.host, inter.frame, nodes[i..], elems) == ArgsF(inter.host, old(inter.frame), nodes, [])
    {
      SizeAllPrefix(nodes, i);
      var v :- inter.Eval(nodes[i]);
      elems := elems + [v];
      i := i + 1;
    }
    return Ok(WrappedType.List(elems));
  }

  method Block(inter: Interpreter, nodes: seq<AstNode>) returns (r: Result<WrappedType, RuntimeError>)
    requires AllNoQuoted(nodes)
    modifies inter
    ensures Step(r, inter.frame) == BlockF(inter.host, old(inter.frame), nodes, Null)
    decreases SizeAll(nodes), 1
  {
    var res := Null;
    var i := 0;
    while i < |nodes|
      invariant 0 <= i <= |nodes|
      invariant BlockF(inter.host, inter.frame, nodes[i..], res) == BlockF(inter.host, old(inter.frame), nodes, Null)
    {
      SizeAllPrefix(nodes, i);
      res :- inter.Eval(nodes[i]);
      i := i + 1;
    }
    return Ok(res);
  }

  method IfElse(inter: Interpreter, nodes: seq<AstNode>) returns (r: Result<WrappedType, RuntimeError>)
    requires AllNoQuoted(nodes)
    modifies inter
    ensures Step(r, inter.frame) == IfF(inter.host, old(inter.frame), nodes)
    decreases SizeAll(nodes), 1
  {
    var hasElse;
    if |nodes| == 2 {
      hasElse := false;
    } else if |nodes| == 3 {
      hasElse := true;
    } else {
      return Err(Raised(ValueError, "Incorrect number of arguments"));
    }
    SizeAllPrefix(nodes, 0);
    SizeAllPrefix(nodes, 1);
    SizeAllPrefix(nodes, |nodes| - 1);
    var c :- inter.Eval(nodes[0]);
    if c == Bool(true) {
      r := inter.Eval(nodes[1]);
    } else if !hasElse {
      r := Ok(Null);
    } else {
      r := inter.Eval(nodes[2]);
    }
  }
}
