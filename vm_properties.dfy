/** Properties of the AST-walking interpreter's evaluation functions. */
module VmProperties {
  import opened Wrappers
  import opened Shared
  import opened RustInt
  import opened Ast
  import opened VmTypes
  import opened VmInterpreter

  /**
   * On integers a comparison chain holds exactly when every adjacent pair
   * compares: `(< 1 2 3)` is `1 < 2 and 2 < 3`.
   */
  lemma {:induction false} IntChain(h: Host, op: Op, res: bool, args: seq<Value>)
    requires IsRelational(op)
    requires forall i :: 0 <= i < |args| ==> args[i].Int?
    ensures ChainF(h, op, res, args)
            == Ok(res && forall i :: 0 <= i < |args| - 1 ==> Holds(op, args[i].i as int, args[i + 1].i as int))
    decreases |args|
  {
    if |args| >= 2 {
      var v := BinaryOp(h.float, args[0], args[1], op).value;
      assert v == Value.Bool(Holds(op, args[0].i as int, args[1].i as int));
      IntChain(h, op, res && v.b, args[1..]);
      assert forall i :: 0 <= i < |args| - 2 ==> args[1..][i] == args[i + 1];
    }
  }

  lemma IntComparison(h: Host, op: Op, args: seq<Value>)
    requires IsRelational(op)
    requires forall i :: 0 <= i < |args| ==> args[i].Int?
    ensures CallOperatorF(h, op, args)
            == Ok(Value.Bool(forall i :: 0 <= i < |args| - 1 ==> Holds(op, args[i].i as int, args[i + 1].i as int)))
  {
    IntChain(h, op, true, args);
  }

  /** Worked examples: `(+ 1 2 3 4)` is 10, `(- 10 1 2)` is 7, `(/ 7 -2)` truncates to -3, `(+)` is an error. */
  lemma ArithmeticExamples(h: Host)
    ensures CallOperatorF(h, Plus, [Value.Int(1), Value.Int(2), Value.Int(3), Value.Int(4)]) == Ok(Value.Int(10))
    ensures CallOperatorF(h, Minus, [Value.Int(10), Value.Int(1), Value.Int(2)]) == Ok(Value.Int(7))
    ensures CallOperatorF(h, Slash, [Value.Int(7), Value.Int(-2)]) == Ok(Value.Int(-3))
    ensures CallOperatorF(h, Plus, []) == Err(Raised(TypeError, "expected at least 1 argument"))
    ensures CallOperatorF(h, Less, []) == Ok(Value.Bool(true))
  {
    assert BinaryOp(h.float, Value.Int(1), Value.Int(2), Plus) == Ok(Value.Int(3));
    assert BinaryOp(h.float, Value.Int(3), Value.Int(3), Plus) == Ok(Value.Int(6));
    assert BinaryOp(h.float, Value.Int(6), Value.Int(4), Plus) == Ok(Value.Int(10));
    assert FoldF(h, Plus, Value.Int(6), [Value.Int(4)]) == Ok(Value.Int(10));
    assert FoldF(h, Plus, Value.Int(3), [Value.Int(3), Value.Int(4)]) == Ok(Value.Int(10));
    assert FoldF(h, Plus, Value.Int(1), [Value.Int(2), Value.Int(3), Value.Int(4)]) == Ok(Value.Int(10));
    assert BinaryOp(h.float, Value.Int(10), Value.Int(1), Minus) == Ok(Value.Int(9));
    assert BinaryOp(h.float, Value.Int(9), Value.Int(2), Minus) == Ok(Value.Int(7));
    assert FoldF(h, Minus, Value.Int(9), [Value.Int(2)]) == Ok(Value.Int(7));
    assert FoldF(h, Minus, Value.Int(10), [Value.Int(1), Value.Int(2)]) == Ok(Value.Int(7));
    assert TruncDiv(7, -2) == -3;
    assert BinaryOp(h.float, Value.Int(7), Value.Int(-2), Slash) == Ok(Value.Int(-3));
    assert FoldF(h, Slash, Value.Int(7), [Value.Int(-2)]) == Ok(Value.Int(-3));
  }

  /** Evaluating arguments takes one node at a time, left to right. */
  lemma ArgsCons(h: Host, frame: Frame, node: AstNode, rest: seq<AstNode>, acc: seq<Value>, v: Value, fuel: nat)
    requires NoQuoted(node) && AllNoQuoted(rest)
    requires EvalF(h, frame, node, fuel) == Step(Ok(v), frame)
    ensures AllNoQuoted([node] + rest)
    ensures ArgsF(h, frame, [node] + rest, acc, fuel) == ArgsF(h, frame, rest, acc + [v], fuel)
  {
    assert ([node] + rest)[0] == node && ([node] + rest)[1..] == rest;
  }

  /** The arguments `1 2 3 4` evaluate to themselves in any table. */
  lemma SumArgs(h: Host, frame: Frame, fuel: nat)
    ensures ArgsF(h, frame, [AstNode.Int(1), AstNode.Int(2), AstNode.Int(3), AstNode.Int(4)], [], fuel)
            == Step(Ok([Value.Int(1), Value.Int(2), Value.Int(3), Value.Int(4)]), frame)
  {
    var vs := [Value.Int(1), Value.Int(2), Value.Int(3), Value.Int(4)];
    ArgsCons(h, frame, AstNode.Int(4), [], vs[..3], Value.Int(4), fuel);
    ArgsCons(h, frame, AstNode.Int(3), [AstNode.Int(4)], vs[..2], Value.Int(3), fuel);
    ArgsCons(h, frame, AstNode.Int(2), [AstNode.Int(3), AstNode.Int(4)], vs[..1], Value.Int(2), fuel);
    ArgsCons(h, frame, AstNode.Int(1), [AstNode.Int(2), AstNode.Int(3), AstNode.Int(4)], [], Value.Int(1), fuel);
    assert [AstNode.Int(4)] + [] == [AstNode.Int(4)];
    assert [AstNode.Int(3)] + [AstNode.Int(4)] == [AstNode.Int(3), AstNode.Int(4)];
    assert [AstNode.Int(2)] + [AstNode.Int(3), AstNode.Int(4)] == [AstNode.Int(2), AstNode.Int(3), AstNode.Int(4)];
    assert [AstNode.Int(1)] + [AstNode.Int(2), AstNode.Int(3), AstNode.Int(4)]
           == [AstNode.Int(1), AstNode.Int(2), AstNode.Int(3), AstNode.Int(4)];
    assert [] + [Value.Int(1)] == vs[..1] && vs[..1] + [Value.Int(2)] == vs[..2];
    assert vs[..2] + [Value.Int(3)] == vs[..3] && vs[..3] + [Value.Int(4)] == vs;
  }

  /** `(+ 1 2 3 4)` evaluated from its syntax tree, under any symbol table. */
  lemma EvalSum(h: Host, frame: Frame, fuel: nat)
    ensures var e := Expr([AstNode.Operator(Plus), AstNode.Int(1), AstNode.Int(2), AstNode.Int(3), AstNode.Int(4)]);
            EvalF(h, frame, e, fuel) == Step(Ok(Value.Int(10)), frame)
  {
    var nodes := [AstNode.Operator(Plus), AstNode.Int(1), AstNode.Int(2), AstNode.Int(3), AstNode.Int(4)];
    assert nodes[1..] == [AstNode.Int(1), AstNode.Int(2), AstNode.Int(3), AstNode.Int(4)];
    SumArgs(h, frame, fuel);
    ArithmeticExamples(h);
  }

  /** The error kinds: an empty expression, an unbound name and a head that cannot be called. */
  lemma ErrorExamples(h: Host, frame: Frame, fuel: nat)
    requires "x" !in frame
    ensures EvalF(h, frame, Expr([]), fuel) == Step(Err(Raised(ValueError, "expression is empty")), frame)
    ensures EvalF(h, frame, AstNode.Name("x"), fuel) == Step(Err(Raised(NameError, "x is not defined")), frame)
    ensures EvalF(h, frame, Expr([AstNode.Int(1), AstNode.Int(2)]), fuel)
            == Step(Err(Raised(TypeError, "int is not callable")), frame)
  {
    assert "x" + " is not defined" == "x is not defined";
    assert "int" + " is not callable" == "int is not callable";
    var rest := [AstNode.Int(1), AstNode.Int(2)][1..];
    assert rest == [AstNode.Int(2)] && rest[1..] == [];
    assert ArgsF(h, frame, rest[1..], [Value.Int(2)], fuel) == Step(Ok([Value.Int(2)]), frame);
    assert EvalF(h, frame, rest[0], fuel) == Step(Ok(Value.Int(2)), frame);
    assert [] + [Value.Int(2)] == [Value.Int(2)];
    assert ArgsF(h, frame, rest, [], fuel) == Step(Ok([Value.Int(2)]), frame);
  }

  /**
   * `set` is a native function, so its arguments are evaluated before it
   * runs: `(set x 5)` with `x` unbound stops at the NameError for `x`.
   */
  lemma SetUnboundArgument(h: Host, fuel: nat)
    ensures var e := Expr([AstNode.Name("set"), AstNode.Name("x"), AstNode.Int(5)]);
            EvalF(h, DefaultFrame(), e, fuel) == Step(Err(Raised(NameError, "x is not defined")), DefaultFrame())
  {
    var frame := DefaultFrame();
    assert "x" !in frame;
    assert "x" + " is not defined" == "x is not defined";
    var args := [AstNode.Name("set"), AstNode.Name("x"), AstNode.Int(5)][1..];
    assert args == [AstNode.Name("x"), AstNode.Int(5)];
    assert EvalF(h, frame, args[0], fuel) == Step(Err(Raised(NameError, "x is not defined")), frame);
    assert ArgsF(h, frame, args, [], fuel) == Step(Err(Raised(NameError, "x is not defined")), frame);
  }

  /** The arguments `1 2` evaluate to themselves in any table. */
  lemma PairArgs(h: Host, frame: Frame, fuel: nat)
    ensures ArgsF(h, frame, [AstNode.Int(1), AstNode.Int(2)], [], fuel) == Step(Ok([Value.Int(1), Value.Int(2)]), frame)
  {
    ArgsCons(h, frame, AstNode.Int(1), [AstNode.Int(2)], [], Value.Int(1), fuel);
    ArgsCons(h, frame, AstNode.Int(2), [], [Value.Int(1)], Value.Int(2), fuel);
    assert [AstNode.Int(1)] + [AstNode.Int(2)] == [AstNode.Int(1), AstNode.Int(2)];
    assert [AstNode.Int(2)] + [] == [AstNode.Int(2)] && [] + [Value.Int(1)] == [Value.Int(1)];
    assert [Value.Int(1)] + [Value.Int(2)] == [Value.Int(1), Value.Int(2)];
  }

  /** `(set 1 2)` reaches `set` with two Ints and no Symbol to bind, so nothing is bound. */
  lemma SetNonSymbol(h: Host, fuel: nat)
    ensures var e := Expr([AstNode.Name("set"), AstNode.Int(1), AstNode.Int(2)]);
            EvalF(h, DefaultFrame(), e, fuel) == Step(Err(Raised(ValueError, "first argument must be a name")), DefaultFrame())
  {
    var frame := DefaultFrame();
    var args := [AstNode.Name("set"), AstNode.Int(1), AstNode.Int(2)][1..];
    assert args == [AstNode.Int(1), AstNode.Int(2)];
    PairArgs(h, frame, fuel);
  }

  /** A loop whose condition is not `true` at the start runs nothing and yields Null; the condition alone is evaluated. */
  lemma WhileNeverRuns(h: Host, frame: Frame, nodes: seq<AstNode>, fuel: nat)
    requires |nodes| >= 1 && AllNoQuoted(nodes)
    requires var c := EvalF(h, frame, nodes[0], fuel); c.result.Ok? && c.result.value != Value.Bool(true)
    ensures MacroF(h, frame, WhileMacro, nodes, fuel) == Step(Ok(Null), EvalF(h, frame, nodes[0], fuel).frame)
  {
  }

  /** `if` takes the first branch only for `Bool(true)`; any other value, `1` included, selects the second branch or Null. */
  lemma IfSelects(h: Host, frame: Frame, nodes: seq<AstNode>, fuel: nat)
    requires (|nodes| == 2 || |nodes| == 3) && AllNoQuoted(nodes)
    requires EvalF(h, frame, nodes[0], fuel).result.Ok?
    ensures var c := EvalF(h, frame, nodes[0], fuel);
            IfF(h, frame, nodes, fuel)
            == if c.result.value == Value.Bool(true) then EvalF(h, c.frame, nodes[1], fuel)
               else if |nodes| == 2 then Step(Ok(Null), c.frame)
               else EvalF(h, c.frame, nodes[2], fuel)
    ensures |nodes| == 2 && EvalF(h, frame, nodes[0], fuel).result.value == Value.Int(1) ==>
              IfF(h, frame, nodes, fuel) == Step(Ok(Null), EvalF(h, frame, nodes[0], fuel).frame)
  {
  }

  /** No value in the map is a Symbol. */
  ghost predicate SymbolFree(frame: Frame) {
    forall k :: k in frame ==> !frame[k].Symbol?
  }

  ghost predicate NoSymbol(vs: seq<Value>) {
    forall i :: 0 <= i < |vs| ==> !vs[i].Symbol?
  }

  /** The I/O natives return no Symbol (`print` and `println` return nothing, `input` a string). */
  ghost predicate IoSymbolFree(h: Host) {
    forall f, args :: NoSymbol(h.io(f, args))
  }

  lemma DefaultFrameSymbolFree()
    ensures SymbolFree(DefaultFrame())
  {
  }

  lemma OperatorNoSymbol(h: Host, op: Op, args: seq<Value>)
    requires NoSymbol(args)
    ensures CallOperatorF(h, op, args).Ok? ==> !CallOperatorF(h, op, args).value.Symbol?
  {
    if !IsRelational(op) && args != [] {
      FoldNoSymbol(h, op, args[0], args[1..]);
    }
  }

  lemma {:induction false} FoldNoSymbol(h: Host, op: Op, left: Value, rest: seq<Value>)
    requires !left.Symbol?
    ensures FoldF(h, op, left, rest).Ok? ==> !FoldF(h, op, left, rest).value.Symbol?
    decreases |rest|
  {
    if rest != [] {
      var b := BinaryOp(h.float, left, rest[0], op);
      OnesideDomain(h.float, left, rest[0], op);
      OnesideDomain(h.float, rest[0], left, op);
      if b.Ok? {
        assert !b.value.Symbol?;
        FoldNoSymbol(h, op, b.value, rest[1..]);
      }
    }
  }

  /** Without a Symbol among its arguments a native never binds a name and never returns a Symbol. */
  lemma NativeKeepsFrame(h: Host, frame: Frame, f: NativeFn, args: seq<Value>)
    requires IoSymbolFree(h) && NoSymbol(args)
    ensures var r := CallRustFnF(h, frame, f, args);
            r.frame == frame && (r.result.Ok? ==> !r.result.value.Symbol?)
  {
  }

  /**
   * `eval` never produces a Symbol (no such node is evaluated and no
   * operation makes one), so `set`, which binds only a Symbol, always fails:
   * evaluation never changes the symbol table.
   */
  lemma {:induction false} EvalKeepsFrame(h: Host, frame: Frame, node: AstNode, fuel: nat)
    requires IoSymbolFree(h) && NoQuoted(node) && SymbolFree(frame)
    ensures var r := EvalF(h, frame, node, fuel);
            r.frame == frame && (r.result.Ok? ==> !r.result.value.Symbol?)
    decreases fuel, Size(node), 0
  {
    match node
    case Expr(nodes) =>
      if nodes != [] {
        SizeAllTail(nodes);
        EvalKeepsFrame(h, frame, nodes[0], fuel);
        var head := EvalF(h, frame, nodes[0], fuel);
        if head.result.Ok? {
          if head.result.value.RustMacro? {
            MacroKeepsFrame(h, head.frame, head.result.value.mac, nodes[1..], fuel);
          } else {
            ArgsKeepFrame(h, head.frame, nodes[1..], [], fuel);
            var args := ArgsF(h, head.frame, nodes[1..], [], fuel);
            if args.result.Ok? {
              var func := head.result.value;
              if func.RustFn? {
                NativeKeepsFrame(h, args.frame, func.native, args.result.value);
              } else if func.Operator? {
                OperatorNoSymbol(h, func.op, args.result.value);
              }
            }
          }
        }
      }
    case _ =>
  }

  lemma {:induction false} ArgsKeepFrame(h: Host, frame: Frame, nodes: seq<AstNode>, acc: seq<Value>, fuel: nat)
    requires IoSymbolFree(h) && AllNoQuoted(nodes) && SymbolFree(frame) && NoSymbol(acc)
    ensures var r := ArgsF(h, frame, nodes, acc, fuel);
            r.frame == frame && (r.result.Ok? ==> NoSymbol(r.result.value))
    decreases fuel, SizeAll(nodes), 1
  {
    if nodes != [] {
      SizeAllTail(nodes);
      EvalKeepsFrame(h, frame, nodes[0], fuel);
      var e := EvalF(h, frame, nodes[0], fuel);
      if e.result.Ok? {
        ArgsKeepFrame(h, e.frame, nodes[1..], acc + [e.result.value], fuel);
      }
    }
  }

  lemma {:induction false} MacroKeepsFrame(h: Host, frame: Frame, mac: NativeMacro, nodes: seq<AstNode>, fuel: nat)
    requires IoSymbolFree(h) && AllNoQuoted(nodes) && SymbolFree(frame)
    ensures var r := MacroF(h, frame, mac, nodes, fuel);
            r.frame == frame && (r.result.Ok? ==> !r.result.value.Symbol?)
    decreases fuel, SizeAll(nodes), 4
  {
    match mac
    case BlockMacro => BlockKeepsFrame(h, frame, nodes, Null, fuel);
    case IfMacro => IfKeepsFrame(h, frame, nodes, fuel);
    case WhileMacro =>
      if |nodes| >= 1 {
        WhileKeepsFrame(h, frame, nodes, Null, fuel);
      }
  }

  lemma {:induction false} BlockKeepsFrame(h: Host, frame: Frame, nodes: seq<AstNode>, res: Value, fuel: nat)
    requires IoSymbolFree(h) && AllNoQuoted(nodes) && SymbolFree(frame) && !res.Symbol?
    ensures var r := BlockF(h, frame, nodes, res, fuel);
            r.frame == frame && (r.result.Ok? ==> !r.result.value.Symbol?)
    decreases fuel, SizeAll(nodes), 1
  {
    if nodes != [] {
      SizeAllTail(nodes);
      EvalKeepsFrame(h, frame, nodes[0], fuel);
      var e := EvalF(h, frame, nodes[0], fuel);
      if e.result.Ok? {
        BlockKeepsFrame(h, e.frame, nodes[1..], e.result.value, fuel);
      }
    }
  }

  lemma {:induction false} IfKeepsFrame(h: Host, frame: Frame, nodes: seq<AstNode>, fuel: nat)
    requires IoSymbolFree(h) && AllNoQuoted(nodes) && SymbolFree(frame)
    ensures var r := IfF(h, frame, nodes, fuel);
            r.frame == frame && (r.result.Ok? ==> !r.result.value.Symbol?)
    decreases fuel, SizeAll(nodes), 1
  {
    if |nodes| == 2 || |nodes| == 3 {
      SizeAllPrefix(nodes, 0);
      SizeAllPrefix(nodes, 1);
      SizeAllPrefix(nodes, |nodes| - 1);
      EvalKeepsFrame(h, frame, nodes[0], fuel);
      var c := EvalF(h, frame, nodes[0], fuel);
      if c.result.Ok? {
        EvalKeepsFrame(h, c.frame, nodes[1], fuel);
        EvalKeepsFrame(h, c.frame, nodes[|nodes| - 1], fuel);
      }
    }
  }

  lemma {:induction false} WhileKeepsFrame(h: Host, frame: Frame, nodes: seq<AstNode>, value: Value, fuel: nat)
    requires IoSymbolFree(h) && |nodes| >= 1 && AllNoQuoted(nodes) && SymbolFree(frame) && !value.Symbol?
    ensures var r := WhileF(h, frame, nodes, value, fuel);
            r.frame == frame && (r.result.Ok? ==> !r.result.value.Symbol?)
    decreases fuel, SizeAll(nodes), 3
  {
    SizeAllPrefix(nodes, 0);
    EvalKeepsFrame(h, frame, nodes[0], fuel);
    var c := EvalF(h, frame, nodes[0], fuel);
    if c.result.Ok? && c.result.value == Value.Bool(true) && fuel > 0 {
      BlockKeepsFrame(h, c.frame, nodes, Null, fuel - 1);
      var b := BlockF(h, c.frame, nodes, Null, fuel - 1);
      if b.result.Ok? {
        WhileKeepsFrame(h, b.frame, nodes, b.result.value, fuel - 1);
      }
    }
  }

  /**
   * The iteration bound only ever cuts evaluation short: a result that did
   * not run out of fuel is the same with any larger bound.
   */
  lemma {:induction false} EvalFuel(h: Host, frame: Frame, node: AstNode, f: nat, g: nat)
    requires NoQuoted(node) && f <= g
    requires EvalF(h, frame, node, f).result != Err(OutOfFuel)
    ensures EvalF(h, frame, node, g) == EvalF(h, frame, node, f)
    decreases f, Size(node), 0
  {
    match node
    case Expr(nodes) =>
      if nodes != [] {
        SizeAllTail(nodes);
        var head := EvalF(h, frame, nodes[0], f);
        EvalFuel(h, frame, nodes[0], f, g);
        if head.result.Ok? {
          if head.result.value.RustMacro? {
            MacroFuel(h, head.frame, head.result.value.mac, nodes[1..], f, g);
          } else {
            ArgsFuel(h, head.frame, nodes[1..], [], f, g);
          }
        }
      }
    case _ =>
  }

  lemma {:induction false} ArgsFuel(h: Host, frame: Frame, nodes: seq<AstNode>, acc: seq<Value>, f: nat, g: nat)
    requires AllNoQuoted(nodes) && f <= g
    requires ArgsF(h, frame, nodes, acc, f).result != Err(OutOfFuel)
    ensures ArgsF(h, frame, nodes, acc, g) == ArgsF(h, frame, nodes, acc, f)
    decreases f, SizeAll(nodes), 1
  {
    if nodes != [] {
      SizeAllTail(nodes);
      var e := EvalF(h, frame, nodes[0], f);
      EvalFuel(h, frame, nodes[0], f, g);
      if e.result.Ok? {
        ArgsFuel(h, e.frame, nodes[1..], acc + [e.result.value], f, g);
      }
    }
  }

  lemma {:induction false} MacroFuel(h: Host, frame: Frame, mac: NativeMacro, nodes: seq<AstNode>, f: nat, g: nat)
    requires AllNoQuoted(nodes) && f <= g
    requires MacroF(h, frame, mac, nodes, f).result != Err(OutOfFuel)
    ensures MacroF(h, frame, mac, nodes, g) == MacroF(h, frame, mac, nodes, f)
    decreases f, SizeAll(nodes), 4
  {
    match mac
    case BlockMacro => BlockFuel(h, frame, nodes, Null, f, g);
    case IfMacro => IfFuel(h, frame, nodes, f, g);
    case WhileMacro =>
      if |nodes| >= 1 {
        WhileFuel(h, frame, nodes, Null, f, g);
      }
  }

  lemma {:induction false} BlockFuel(h: Host, frame: Frame, nodes: seq<AstNode>, res: Value, f: nat, g: nat)
    requires AllNoQuoted(nodes) && f <= g
    requires BlockF(h, frame, nodes, res, f).result != Err(OutOfFuel)
    ensures BlockF(h, frame, nodes, res, g) == BlockF(h, frame, nodes, res, f)
    decreases f, SizeAll(nodes), 1
  {
    if nodes != [] {
      SizeAllTail(nodes);
      var e := EvalF(h, frame, nodes[0], f);
      EvalFuel(h, frame, nodes[0], f, g);
      if e.result.Ok? {
        BlockFuel(h, e.frame, nodes[1..], e.result.value, f, g);
      }
    }
  }

  lemma {:induction false} IfFuel(h: Host, frame: Frame, nodes: seq<AstNode>, f: nat, g: nat)
    requires AllNoQuoted(nodes) && f <= g
    requires IfF(h, frame, nodes, f).result != Err(OutOfFuel)
    ensures IfF(h, frame, nodes, g) == IfF(h, frame, nodes, f)
    decreases f, SizeAll(nodes), 1
  {
    if |nodes| == 2 || |nodes| == 3 {
      SizeAllPrefix(nodes, 0);
      SizeAllPrefix(nodes, 1);
      SizeAllPrefix(nodes, |nodes| - 1);
      var c := EvalF(h, frame, nodes[0], f);
      EvalFuel(h, frame, nodes[0], f, g);
      if c.result.Ok? {
        if c.result.value == Value.Bool(true) {
          EvalFuel(h, c.frame, nodes[1], f, g);
        } else if |nodes| == 3 {
          EvalFuel(h, c.frame, nodes[2], f, g);
        }
      }
    }
  }

  lemma {:induction false} WhileFuel(h: Host, frame: Frame, nodes: seq<AstNode>, value: Value, f: nat, g: nat)
    requires |nodes| >= 1 && AllNoQuoted(nodes) && f <= g
    requires WhileF(h, frame, nodes, value, f).result != Err(OutOfFuel)
    ensures WhileF(h, frame, nodes, value, g) == WhileF(h, frame, nodes, value, f)
    decreases f, SizeAll(nodes), 3
  {
    SizeAllPrefix(nodes, 0);
    var c := EvalF(h, frame, nodes[0], f);
    EvalFuel(h, frame, nodes[0], f, g);
    if c.result == Ok(Value.Bool(true)) {
      WhileFuelBody(h, frame, nodes, value, f, g);
    }
  }

  /** One more round of the loop, once the condition has come out `true` under both budgets. */
  lemma {:induction false} WhileFuelBody(h: Host, frame: Frame, nodes: seq<AstNode>, value: Value, f: nat, g: nat)
    requires |nodes| >= 1 && AllNoQuoted(nodes) && f <= g
    requires var c := EvalF(h, frame, nodes[0], f);
             c.result == Ok(Value.Bool(true)) && EvalF(h, frame, nodes[0], g) == c
    requires WhileF(h, frame, nodes, value, f).result != Err(OutOfFuel)
    ensures WhileF(h, frame, nodes, value, g) == WhileF(h, frame, nodes, value, f)
    decreases f, SizeAll(nodes), 2
  {
    var c := EvalF(h, frame, nodes[0], f);
    var b := BlockF(h, c.frame, nodes, Null, f - 1);
    BlockFuel(h, c.frame, nodes, Null, f - 1, g - 1);
    if b.result.Ok? {
      WhileFuel(h, b.frame, nodes, b.result.value, f - 1, g - 1);
    }
  }
}
