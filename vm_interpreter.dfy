/**
 * The AST-walking interpreter (src/risp/vm/interpreter.rs) with the special
 * forms of src/risp/stdlib/macros.rs.
 *
 * The symbol table is the only state evaluation changes. The `...F`
 * functions evaluate over a table and return the new one; the `Interpreter`
 * class and the macro methods do the same in place and are proved to follow
 * them. `print`, `println` and `input` do I/O: what they return comes from
 * the host's `io` function.
 */
module VmInterpreter {
  import opened Wrappers
  import opened Shared
  import opened RustInt
  import opened Numerals
  import opened Ast
  import AstLexer
  import opened VmTypes

  type Frame = map<string, Value>

  /** What the model leaves to the host: f64 behaviour and the values the I/O natives return. */
  datatype Host = Host(float: FloatHost, io: (NativeFn, seq<Value>) -> seq<Value>)

  /** A result together with the symbol table it leaves behind (also after an error). */
  datatype Step<T> = Step(result: Result<T, VmError>, frame: Frame)

  /** The symbol table `Interpreter::new` starts from: the natives, the macros and the two booleans. */
  function DefaultFrame(): (f: Frame)
    ensures f.Keys == {"println", "print", "input", "set", "block", "if", "while", "true", "false"}
    ensures f["println"] == RustFn(Println) && f["print"] == RustFn(Print) && f["input"] == RustFn(Input)
    ensures f["set"] == RustFn(Set)
    ensures f["block"] == RustMacro(BlockMacro) && f["if"] == RustMacro(IfMacro) && f["while"] == RustMacro(WhileMacro)
    ensures f["true"] == Value.Bool(true) && f["false"] == Value.Bool(false)
  {
    map["println" := RustFn(Println), "print" := RustFn(Print), "input" := RustFn(Input),
        "set" := RustFn(Set), "block" := RustMacro(BlockMacro), "if" := RustMacro(IfMacro),
        "while" := RustMacro(WhileMacro), "true" := Value.Bool(true), "false" := Value.Bool(false)]
  }

  /** `get_name`: the bound value, or a NameError naming the missing name. */
  function GetNameF(frame: Frame, name: string): (r: Result<Value, VmError>)
    ensures r.Ok? <==> name in frame
    ensures r.Ok? ==> r.value == frame[name]
    ensures r.Err? ==> r.error == Raised(NameError, name + " is not defined")
  {
    if name in frame then Ok(frame[name]) else Err(Raised(NameError, name + " is not defined"))
  }

  /** A name just set reads back as the value set; every other name reads as before. */
  lemma SetThenGet(frame: Frame, name: string, value: Value, other: string)
    ensures GetNameF(frame[name := value], name) == Ok(value)
    ensures other != name ==> GetNameF(frame[name := value], other) == GetNameF(frame, other)
  {
  }

  // ---------------------------------------------------------------------
  // Native functions

  /**
   * A native function call: `set` binds a symbol to a value and returns
   * that value; the I/O natives return what the host says.
   */
  function NativeF(h: Host, frame: Frame, f: NativeFn, args: seq<Value>): Step<seq<Value>> {
    match f
    case Set =>
      if |args| != 2 then Step(Err(Raised(ValueError, "expected 2 arguments, found " + IntToString(|args|))), frame)
      else if args[0].Symbol? then Step(Ok([args[1]]), frame[args[0].name := args[1]])
      else Step(Err(Raised(ValueError, "first argument must be a name")), frame)
    case _ => Step(Ok(h.io(f, args)), frame)
  }

  /** How `call_rustfn` turns the returned vector into one value. */
  function Collapse(vs: seq<Value>): (v: Value)
    ensures |vs| == 0 ==> v == Null
    ensures |vs| == 1 ==> v == vs[0]
    ensures |vs| > 1 ==> v == Value.List(vs)
  {
    if |vs| == 0 then Null else if |vs| == 1 then vs[0] else Value.List(vs)
  }

  function CallRustFnF(h: Host, frame: Frame, f: NativeFn, args: seq<Value>): Step<Value> {
    var n := NativeF(h, frame, f, args);
    match n.result
    case Ok(vs) => Step(Ok(Collapse(vs)), n.frame)
    case Err(e) => Step(Err(e), n.frame)
  }

  // ---------------------------------------------------------------------
  // Operators

  /** `call_operator` for `+ - * /`: a left fold of `binary_op`, stopping at the first error. */
  function FoldF(h: Host, op: Op, left: Value, rest: seq<Value>): Result<Value, VmError>
    decreases |rest|
  {
    if rest == [] then Ok(left)
    else
      var l :- BinaryOp(h.float, left, rest[0], op);
      FoldF(h, op, l, rest[1..])
  }

  /**
   * `call_boolean_op`: `binary_op` on every adjacent pair, AND-ing the Bool
   * results; a non-Bool result leaves the running result as it was, and an
   * error stops the chain.
   */
  function ChainF(h: Host, op: Op, res: bool, args: seq<Value>): Result<bool, VmError>
    decreases |args|
  {
    if |args| < 2 then Ok(res)
    else
      var v :- BinaryOp(h.float, args[0], args[1], op);
      ChainF(h, op, if v.Bool? then res && v.b else res, args[1..])
  }

  function CallOperatorF(h: Host, op: Op, args: seq<Value>): Result<Value, VmError> {
    if IsRelational(op) then
      var b :- ChainF(h, op, true, args);
      Ok(Value.Bool(b))
    else if args == [] then Err(Raised(TypeError, "expected at least 1 argument"))
    else FoldF(h, op, args[0], args[1..])
  }

  // ---------------------------------------------------------------------
  // Evaluation

  /**
   * `eval`. Every evaluation of a `while` iteration's body costs one unit of
   * `fuel`; with none left the loop stops with `OutOfFuel`. Quoted nodes
   * are excluded: `eval` has no arm for them.
   */
  function EvalF(h: Host, frame: Frame, node: AstNode, fuel: nat): Step<Value>
    requires NoQuoted(node)
    decreases fuel, Size(node), 0
  {
    match node
    case Name(name) => Step(GetNameF(frame, name), frame)
    case Int(n) => Step(Ok(Value.Int(n)), frame)
    case Float(f) => Step(Ok(Value.Float(f)), frame)
    case Str(s) => Step(Ok(Value.Str(s)), frame)
    case Operator(op) => Step(Ok(Value.Operator(op)), frame)
    case Expr(nodes) =>
      if nodes == [] then Step(Err(Raised(ValueError, "expression is empty")), frame)
      else
        SizeAllTail(nodes);
        var head := EvalF(h, frame, nodes[0], fuel);
        if head.result.Err? then head
        else if head.result.value.RustMacro? then MacroF(h, head.frame, head.result.value.mac, nodes[1..], fuel)
        else
          var func := head.result.value;
          var args := ArgsF(h, head.frame, nodes[1..], [], fuel);
          if args.result.Err? then Step(Err(args.result.error), args.frame)
          else if func.RustFn? then CallRustFnF(h, args.frame, func.native, args.result.value)
          else if func.Operator? then Step(CallOperatorF(h, func.op, args.result.value), args.frame)
          else Step(Err(Raised(TypeError, TypeName(func) + " is not callable")), args.frame)
    case Symbol(_) => assert false; Step(Ok(Null), frame)
    case List(_) => assert false; Step(Ok(Null), frame)
  }

  /** The argument loop of `eval`: `acc` holds the values so far, in order. */
  function ArgsF(h: Host, frame: Frame, nodes: seq<AstNode>, acc: seq<Value>, fuel: nat): Step<seq<Value>>
    requires AllNoQuoted(nodes)
    decreases fuel, SizeAll(nodes), 1
  {
    if nodes == [] then Step(Ok(acc), frame)
    else
      SizeAllTail(nodes);
      var e := EvalF(h, frame, nodes[0], fuel);
      if e.result.Err? then Step(Err(e.result.error), e.frame)
      else ArgsF(h, e.frame, nodes[1..], acc + [e.result.value], fuel)
  }

  function MacroF(h: Host, frame: Frame, mac: NativeMacro, nodes: seq<AstNode>, fuel: nat): Step<Value>
    requires AllNoQuoted(nodes)
    decreases fuel, SizeAll(nodes), 4
  {
    match mac
    case BlockMacro => BlockF(h, frame, nodes, Null, fuel)
    case IfMacro => IfF(h, frame, nodes, fuel)
    case WhileMacro =>
      if |nodes| < 1 then Step(Err(Raised(ValueError, "Not enough arguments")), frame)
      else WhileF(h, frame, nodes, Null, fuel)
  }

  /** `block`: every node in turn; the value is the last one's, or Null for none. */
  function BlockF(h: Host, frame: Frame, nodes: seq<AstNode>, res: Value, fuel: nat): Step<Value>
    requires AllNoQuoted(nodes)
    decreases fuel, SizeAll(nodes), 1
  {
    if nodes == [] then Step(Ok(res), frame)
    else
      SizeAllTail(nodes);
      var e := EvalF(h, frame, nodes[0], fuel);
      if e.result.Err? then e
      else BlockF(h, e.frame, nodes[1..], e.result.value, fuel)
  }

  /** `if_else`: two or three nodes; only `Bool(true)` selects the first branch. */
  function IfF(h: Host, frame: Frame, nodes: seq<AstNode>, fuel: nat): Step<Value>
    requires AllNoQuoted(nodes)
    decreases fuel, SizeAll(nodes), 1
  {
    if |nodes| != 2 && |nodes| != 3 then Step(Err(Raised(ValueError, "Incorrect number of arguments")), frame)
    else
      SizeAllPrefix(nodes, 0);
      SizeAllPrefix(nodes, 1);
      SizeAllPrefix(nodes, |nodes| - 1);
      var c := EvalF(h, frame, nodes[0], fuel);
      if c.result.Err? then c
      else if c.result.value == Value.Bool(true) then EvalF(h, c.frame, nodes[1], fuel)
      else if |nodes| == 2 then Step(Ok(Null), c.frame)
      else EvalF(h, c.frame, nodes[2], fuel)
  }

  /**
   * `while_loop` from an iteration on: the condition is `nodes[0]`, and each
   * iteration runs `block` over ALL the nodes, the condition included. The
   * value is the last iteration's, or Null when the body never ran.
   */
  function WhileF(h: Host, frame: Frame, nodes: seq<AstNode>, value: Value, fuel: nat): Step<Value>
    requires |nodes| >= 1 && AllNoQuoted(nodes)
    decreases fuel, SizeAll(nodes), 3
  {
    SizeAllPrefix(nodes, 0);
    var c := EvalF(h, frame, nodes[0], fuel);
    if c.result.Err? then c
    else if c.result.value != Value.Bool(true) then Step(Ok(value), c.frame)
    else if fuel == 0 then Step(Err(OutOfFuel), c.frame)
    else
      var b := BlockF(h, c.frame, nodes, Null, fuel - 1);
      if b.result.Err? then b
      else WhileF(h, b.frame, nodes, b.result.value, fuel - 1)
  }

  // ---------------------------------------------------------------------
  // The interpreter object

  class Interpreter {
    var frame: Frame
    const host: Host

    /** `Interpreter::new`, with the host's float and I/O behaviour. */
    constructor (host: Host)
      ensures frame == DefaultFrame() && this.host == host
    {
      frame := DefaultFrame();
      this.host := host;
    }

    method GetName(name: string) returns (r: Result<Value, VmError>)
      ensures r == GetNameF(frame, name)
    {
      if name in frame {
        return Ok(frame[name]);
      }
      return Err(Raised(NameError, name + " is not defined"));
    }

    /** `set_name`: inserts or replaces one binding. */
    method SetName(name: string, value: Value)
      modifies this
      ensures frame == old(frame)[name := value]
    {
      frame := frame[name := value];
    }

    method CallRustFn(f: NativeFn, args: seq<Value>) returns (r: Result<Value, VmError>)
      modifies this
      ensures Step(r, frame) == CallRustFnF(host, old(frame), f, args)
    {
      var vs :- CallNative(this, f, args);
      if |vs| == 0 {
        r := Ok(Null);
      } else if |vs| == 1 {
        r := Ok(vs[0]);
      } else {
        r := Ok(Value.List(vs));
      }
    }

    method CallOperator(op: Op, operands: seq<Value>) returns (r: Result<Value, VmError>)
      ensures r == CallOperatorF(host, op, operands)
    {
      if IsRelational(op) {
        r := CallBooleanOp(op, operands);
        return;
      }
      if |operands| == 0 {
        return Err(Raised(TypeError, "expected at least 1 argument"));
      }
      var left := operands[0];
      var i := 1;
      while i < |operands|
        invariant 1 <= i <= |operands|
        invariant FoldF(host, op, left, operands[i..]) == CallOperatorF(host, op, operands)
      {
        left :- BinaryOp(host.float, left, operands[i], op);
        i := i + 1;
      }
      return Ok(left);
    }

    method CallBooleanOp(op: Op, operands: seq<Value>) returns (r: Result<Value, VmError>)
      requires IsRelational(op)
      ensures r == CallOperatorF(host, op, operands)
    {
      var res := true;
      var i := 0;
      while i + 1 < |operands|
        invariant 0 <= i <= |operands|
        invariant i + 1 >= |operands| ==> ChainF(host, op, res, operands[i..]) == Ok(res)
        invariant ChainF(host, op, res, operands[i..]) == ChainF(host, op, true, operands)
      {
        var v :- BinaryOp(host.float, operands[i], operands[i + 1], op);
        if v.Bool? {
          res := res && v.b;
        }
        i := i + 1;
      }
      return Ok(Value.Bool(res));
    }

    method Eval(node: AstNode, fuel: nat) returns (r: Result<Value, VmError>)
      requires NoQuoted(node)
      modifies this
      ensures Step(r, frame) == EvalF(host, old(frame), node, fuel)
      decreases fuel, Size(node), 0
    {
      match node
      case Name(name) => r := GetName(name);
      case Int(n) => r := Ok(Value.Int(n));
      case Float(f) => r := Ok(Value.Float(f));
      case Str(s) => r := Ok(Value.Str(s));
      case Operator(op) => r := Ok(Value.Operator(op));
      case Expr(nodes) =>
        if nodes == [] {
          return Err(Raised(ValueError, "expression is empty"));
        }
        SizeAllTail(nodes);
        var func :- Eval(nodes[0], fuel);
        if func.RustMacro? {
          r := CallMacro(this, func.mac, nodes[1..], fuel);
          return;
        }
        ghost var f1 := frame;
        var rest := nodes[1..];
        var args: seq<Value> := [];
        var i := 0;
        while i < |rest|
          invariant 0 <= i <= |rest|
          invariant ArgsF(host, frame, rest[i..], args, fuel) == ArgsF(host, f1, rest, [], fuel)
        {
          SizeAllPrefix(nodes, i + 1);
          var v :- Eval(rest[i], fuel);
          args := args + [v];
          i := i + 1;
        }
        if func.RustFn? {
          r := CallRustFn(func.native, args);
        } else if func.Operator? {
          r := CallOperator(func.op, args);
        } else {
          r := Err(Raised(TypeError, TypeName(func) + " is not callable"));
        }
    }
  }

  // ---------------------------------------------------------------------
  // Natives and macros as procedures on an interpreter

  method CallNative(inter: Interpreter, f: NativeFn, args: seq<Value>) returns (r: Result<seq<Value>, VmError>)
    modifies inter
    ensures Step(r, inter.frame) == NativeF(inter.host, old(inter.frame), f, args)
  {
    match f
    case Set =>
      if |args| != 2 {
        return Err(Raised(ValueError, "expected 2 arguments, found " + IntToString(|args|)));
      }
      if args[0].Symbol? {
        inter.SetName(args[0].name, args[1]);
        r := Ok([args[1]]);
      } else {
        r := Err(Raised(ValueError, "first argument must be a name"));
      }
    case _ =>
      r := Ok(inter.host.io(f, args));
  }

  method CallMacro(inter: Interpreter, mac: NativeMacro, nodes: seq<AstNode>, fuel: nat) returns (r: Result<Value, VmError>)
    requires AllNoQuoted(nodes)
    modifies inter
    ensures Step(r, inter.frame) == MacroF(inter.host, old(inter.frame), mac, nodes, fuel)
    decreases fuel, SizeAll(nodes), 4
  {
    match mac
    case BlockMacro => r := Block(inter, nodes, fuel);
    case IfMacro => r := IfElse(inter, nodes, fuel);
    case WhileMacro => r := WhileLoop(inter, nodes, fuel);
  }

  method Block(inter: Interpreter, nodes: seq<AstNode>, fuel: nat) returns (r: Result<Value, VmError>)
    requires AllNoQuoted(nodes)
    modifies inter
    ensures Step(r, inter.frame) == BlockF(inter.host, old(inter.frame), nodes, Null, fuel)
    decreases fuel, SizeAll(nodes), 1
  {
    var res := Null;
    var i := 0;
    while i < |nodes|
      invariant 0 <= i <= |nodes|
      invariant BlockF(inter.host, inter.frame, nodes[i..], res, fuel)
                == BlockF(inter.host, old(inter.frame), nodes, Null, fuel)
    {
      SizeAllPrefix(nodes, i);
      res :- inter.Eval(nodes[i], fuel);
      i := i + 1;
    }
    return Ok(res);
  }

  method IfElse(inter: Interpreter, nodes: seq<AstNode>, fuel: nat) returns (r: Result<Value, VmError>)
    requires AllNoQuoted(nodes)
    modifies inter
    ensures Step(r, inter.frame) == IfF(inter.host, old(inter.frame), nodes, fuel)
    decreases fuel, SizeAll(nodes), 1
  {
    var hasElse;
    if |nodes| == 2 {
      hasElse := false;
    } else if |nodes| == 3 {
      hasElse := true;
    } else {
      return Err(Raised(ValueError, "Incorrect number of arguments"));
    }
    SizeAllPrefix(nodes, 0);
    SizeAllPrefix(nodes, 1);
    SizeAllPrefix(nodes, |nodes| - 1);
    var c :- inter.Eval(nodes[0], fuel);
    if c == Value.Bool(true) {
      r := inter.Eval(nodes[1], fuel);
    } else if !hasElse {
      r := Ok(Null);
    } else {
      r := inter.Eval(nodes[2], fuel);
    }
  }

  method WhileLoop(inter: Interpreter, nodes: seq<AstNode>, fuel: nat) returns (r: Result<Value, VmError>)
    requires AllNoQuoted(nodes)
    modifies inter
    ensures Step(r, inter.frame) == MacroF(inter.host, old(inter.frame), WhileMacro, nodes, fuel)
    decreases fuel, SizeAll(nodes), 3
  {
    if |nodes| < 1 {
      return Err(Raised(ValueError, "Not enough arguments"));
    }
    var value := Null;
    var f: nat := fuel;
    while true
      invariant f <= fuel
      invariant WhileF(inter.host, inter.frame, nodes, value, f)
                == WhileF(inter.host, old(inter.frame), nodes, Null, fuel)
      decreases f
    {
      var again;
      again, r := WhileRound(inter, nodes, value, f);
      if !again {
        return;
      }
      value := r.value;
      f := f - 1;
    }
  }

  /**
   * One round of the loop: the condition, then (when it is `true`) the block.
   * Either the loop is over with `r` as its result, or it goes on with `r`'s
   * value and one unit less fuel.
   */
  method WhileRound(inter: Interpreter, nodes: seq<AstNode>, value: Value, f: nat) returns (again: bool, r: Result<Value, VmError>)
    requires |nodes| >= 1 && AllNoQuoted(nodes)
    modifies inter
    ensures again ==> f > 0 && r.Ok?
                      && WhileF(inter.host, inter.frame, nodes, r.value, f - 1)
                         == WhileF(inter.host, old(inter.frame), nodes, value, f)
    ensures !again ==> Step(r, inter.frame) == WhileF(inter.host, old(inter.frame), nodes, value, f)
    decreases f, SizeAll(nodes), 2
  {
    SizeAllPrefix(nodes, 0);
    again := false;
    var c := inter.Eval(nodes[0], f);
    if c.Err? {
      return false, Err(c.error);
    }
    if c.value != Value.Bool(true) {
      return false, Ok(value);
    }
    if f == 0 {
      return false, Err(OutOfFuel);
    }
    r := Block(inter, nodes, f - 1);
    again := r.Ok?;
  }
}
