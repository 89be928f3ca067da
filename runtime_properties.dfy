/** Properties of the runtime snapshot's operator dispatch and evaluation. */
module RuntimeProperties {
  import opened Wrappers
  import opened Shared
  import opened RustInt
  import opened Ast
  import opened RuntimeTypes
  import opened RuntimeInterpreter

  // ---------------------------------------------------------------------
  // Relational chains

  /** Every window of neighbouring operands can be compared. */
  predicate WindowsOk(host: FloatHost, rel: Op, args: seq<WrappedType>)
    requires IsRelational(rel)
  {
    forall i :: 0 <= i < |args| - 1 ==> ApplyRel(host, rel, args[i], args[i + 1]).Ok?
  }

  lemma WindowsOkTail(host: FloatHost, rel: Op, args: seq<WrappedType>)
    requires IsRelational(rel) && |args| >= 2
    ensures WindowsOk(host, rel, args) <==>
              ApplyRel(host, rel, args[0], args[1]).Ok? && WindowsOk(host, rel, args[1..])
  {
    var tail := args[1..];
    assert forall i :: 0 <= i < |tail| ==> tail[i] == args[i + 1];
    if ApplyRel(host, rel, args[0], args[1]).Ok? && WindowsOk(host, rel, tail) {
      forall i | 0 <= i < |args| - 1
        ensures ApplyRel(host, rel, args[i], args[i + 1]).Ok?
      {
        if i > 0 {
          assert ApplyRel(host, rel, tail[i - 1], tail[i]).Ok?;
        }
      }
    }
  }

  /** A comparison chain succeeds exactly when every window can be compared. */
  lemma {:induction false} ChainSucceeds(host: FloatHost, rel: Op, res: bool, args: seq<WrappedType>)
    requires IsRelational(rel)
    ensures ChainF(host, rel, res, args).Ok? <==> WindowsOk(host, rel, args)
    decreases |args|
  {
    if |args| >= 2 {
      WindowsOkTail(host, rel, args);
      var r := ApplyRel(host, rel, args[0], args[1]);
      if r.Ok? {
        ChainSucceeds(host, rel, r.value, args[1..]);
      }
    }
  }

  /**
   * The answer of a successful chain is that of the LAST window alone (true
   * for fewer than two operands): earlier windows are compared and then
   * forgotten.
   */
  lemma {:induction false} ChainLastWindow(host: FloatHost, rel: Op, res: bool, args: seq<WrappedType>)
    requires IsRelational(rel)
    ensures ChainF(host, rel, res, args).Ok? ==>
              ChainF(host, rel, res, args)
              == if |args| < 2 then Ok(res) else ApplyRel(host, rel, args[|args| - 2], args[|args| - 1])
    decreases |args|
  {
    if |args| >= 2 {
      var r := ApplyRel(host, rel, args[0], args[1]);
      if r.Ok? {
        var tail := args[1..];
        ChainLastWindow(host, rel, r.value, tail);
        if |args| > 2 {
          assert tail[|tail| - 2] == args[|args| - 2] && tail[|tail| - 1] == args[|args| - 1];
        }
      }
    }
  }

  /** So `(= 1 2 2)` is true and `(< 3 1 2)` is true: only the last pair decides. */
  lemma ChainExamples(host: FloatHost)
    ensures CallOperatorF(host, Equal, [WrappedType.Int(1), WrappedType.Int(2), WrappedType.Int(2)]) == Ok(Bool(true))
    ensures CallOperatorF(host, Less, [WrappedType.Int(3), WrappedType.Int(1), WrappedType.Int(2)]) == Ok(Bool(true))
    ensures CallOperatorF(host, Greater, [WrappedType.Int(3)]) == Ok(Bool(true))
  {
    ChainLastWindow(host, Equal, true, [WrappedType.Int(1), WrappedType.Int(2), WrappedType.Int(2)]);
    ChainLastWindow(host, Less, true, [WrappedType.Int(3), WrappedType.Int(1), WrappedType.Int(2)]);
  }

  // ---------------------------------------------------------------------
  // Integers and booleans

  predicate Numeric(v: WrappedType) {
    v.Int? || v.Bool?
  }

  /** The i32 an Int or Bool stands for in arithmetic: a Bool is 0 or 1. */
  function NumOf(v: WrappedType): int32
    requires Numeric(v)
  {
    if v.Int? then v.i else B01(v.b)
  }

  /**
   * Any mix of Ints and Bools is combined as i32 arithmetic on the numbers
   * they stand for, in the order written: an Int on the left and a Bool on
   * the right reach the Bool's reflected method, which puts the Int first.
   */
  lemma NumericArithmetic(op: Op, x: WrappedType, y: WrappedType)
    requires IsArith(op) && Numeric(x) && Numeric(y)
    ensures ApplyOp(op, x, y) == match Arith(op, NumOf(x), NumOf(y))
                                 case Ok(n) => Ok(WrappedType.Int(n))
                                 case Err(m) => Err(Panic(m))
  {
  }

  /** Any mix of Ints and Bools compares as the numbers they stand for, false below true. */
  lemma NumericComparison(host: FloatHost, rel: Op, x: WrappedType, y: WrappedType)
    requires IsRelational(rel) && Numeric(x) && Numeric(y)
    ensures ApplyRel(host, rel, x, y) == Ok(Holds(rel, NumOf(x) as int, NumOf(y) as int))
  {
  }

  /** `(- 5 true)` is 4, `(/ true 0)` panics, `(< false true)` holds and `(+ 1 2 3)` is 6. */
  lemma NumericExamples(host: FloatHost)
    ensures CallOperatorF(host, Minus, [WrappedType.Int(5), Bool(true)]) == Ok(WrappedType.Int(4))
    ensures CallOperatorF(host, Slash, [Bool(true), WrappedType.Int(0)]) == Err(Panic("attempt to divide by zero"))
    ensures CallOperatorF(host, Less, [Bool(false), Bool(true)]) == Ok(Bool(true))
    ensures CallOperatorF(host, Plus, [WrappedType.Int(1), WrappedType.Int(2), WrappedType.Int(3)]) == Ok(WrappedType.Int(6))
  {
    NumericArithmetic(Minus, WrappedType.Int(5), Bool(true));
    assert ApplyOp(Minus, WrappedType.Int(5), Bool(true)) == Ok(WrappedType.Int(4));
    assert [WrappedType.Int(5), Bool(true)][1..] == [Bool(true)];
    FoldTwo(Minus, WrappedType.Int(5), Bool(true));
    NumericArithmetic(Plus, WrappedType.Int(1), WrappedType.Int(2));
    NumericArithmetic(Plus, WrappedType.Int(3), WrappedType.Int(3));
    assert FoldF(Plus, WrappedType.Int(3), [WrappedType.Int(3)]) == Ok(WrappedType.Int(6));
    assert [WrappedType.Int(1), WrappedType.Int(2), WrappedType.Int(3)][1..][1..] == [WrappedType.Int(3)];
  }

  /** A fold over two operands is the one step between them. */
  lemma FoldTwo(op: Op, x: WrappedType, y: WrappedType)
    requires IsArith(op)
    ensures FoldF(op, x, [y]) == ApplyOp(op, x, y)
  {
    assert [y][1..] == [];
  }

  // ---------------------------------------------------------------------
  // Operand errors

  /**
   * A step raises (rather than computing or panicking) exactly when neither
   * the left operand's primary method nor the right operand's reflected
   * method is implemented for the pair, and the error names the operator
   * and both type names in the order written.
   */
  lemma OperandTypeError(op: Op, x: WrappedType, y: WrappedType)
    requires IsArith(op)
    ensures (ApplyOp(op, x, y).Err? && ApplyOp(op, x, y).error.Raised?) <==>
              !PrimaryPair(x, op, y) && !ReflectedPair(y, op, x)
    ensures ApplyOp(op, x, y).Err? && ApplyOp(op, x, y).error.Raised? ==>
              ApplyOp(op, x, y).error == InvalidOperands(op, x, y)
  {
    PrimaryDomain(x, op, y);
    ReflectedDomain(y, op, x);
  }

  /** `(+ 1 "a")` and `(- "a" "b")` name their operand types; `(+)` has no operand at all. */
  lemma TypeErrorExamples(host: FloatHost)
    ensures CallOperatorF(host, Plus, [WrappedType.Int(1), WrappedType.Str("a")])
            == Err(Raised(TypeError, "invalid operand types for +: int and str"))
    ensures CallOperatorF(host, Minus, [WrappedType.Str("a"), WrappedType.Str("b")])
            == Err(Raised(TypeError, "invalid operand types for -: str and str"))
    ensures CallOperatorF(host, Plus, []) == Err(Raised(TypeError, "expected at least 1 argument"))
  {
    assert "invalid operand types for " + "+" + ": " + "int" + " and " + "str"
           == "invalid operand types for +: int and str";
    assert "invalid operand types for " + "-" + ": " + "str" + " and " + "str"
           == "invalid operand types for -: str and str";
  }

  // ---------------------------------------------------------------------
  // Strings and lists

  /** Repetition is the same with the count on either side: `(* 3 x)` is `(* x 3)` for a string or a list. */
  lemma RepeatEitherSide(n: int32, x: WrappedType)
    requires x.Str? || x.List?
    ensures ApplyOp(Star, WrappedType.Int(n), x) == ApplyOp(Star, x, WrappedType.Int(n))
  {
  }

  predicate AllLists(vs: seq<WrappedType>) {
    forall i :: 0 <= i < |vs| ==> vs[i].List?
  }

  /** The elements of the lists `vs`, one list after another. */
  function Flatten(vs: seq<WrappedType>): seq<WrappedType>
    requires AllLists(vs)
  {
    if vs == [] then [] else vs[0].items + Flatten(vs[1..])
  }

  lemma {:induction false} ListFold(acc: seq<WrappedType>, rest: seq<WrappedType>)
    requires AllLists(rest)
    ensures FoldF(Plus, WrappedType.List(acc), rest) == Ok(WrappedType.List(acc + Flatten(rest)))
    decreases |rest|
  {
    if rest != [] {
      var next := acc + rest[0].items;
      assert ApplyOp(Plus, WrappedType.List(acc), rest[0]) == Ok(WrappedType.List(next));
      assert AllLists(rest[1..]) by {
        forall i | 0 <= i < |rest[1..]|
          ensures rest[1..][i].List?
        {
          assert rest[1..][i] == rest[i + 1];
        }
      }
      ListFold(next, rest[1..]);
      assert Flatten(rest) == rest[0].items + Flatten(rest[1..]);
      assert next + Flatten(rest[1..]) == acc + Flatten(rest);
    } else {
      assert acc + Flatten(rest) == acc;
    }
  }

  /** `(+ l1 l2 ... lk)` on lists is their concatenation in order. */
  lemma ListSum(host: FloatHost, args: seq<WrappedType>)
    requires |args| >= 1 && AllLists(args)
    ensures CallOperatorF(host, Plus, args) == Ok(WrappedType.List(Flatten(args)))
  {
    ListFold(args[0].items, args[1..]);
  }

  /** `(* "ab" 2)` is "abab", `(* 2 (list 1))` is a two-element list, and `(* "ab" -1)` panics. */
  lemma RepeatExamples(host: FloatHost)
    ensures CallOperatorF(host, Star, [WrappedType.Str("ab"), WrappedType.Int(2)]) == Ok(WrappedType.Str("abab"))
    ensures CallOperatorF(host, Star, [WrappedType.Int(2), WrappedType.List([WrappedType.Int(1)])]) == Ok(WrappedType.List([WrappedType.Int(1), WrappedType.Int(1)]))
    ensures CallOperatorF(host, Star, [WrappedType.Str("ab"), WrappedType.Int(-1)]) == Err(Panic("capacity overflow"))
  {
    assert RepeatNat("ab", 0) == [];
    assert RepeatNat("ab", 1) == "ab";
    assert RepeatNat("ab", 2) == "abab";
    assert RepeatNat([WrappedType.Int(1)], 1) == [WrappedType.Int(1)];
    assert RepeatNat([WrappedType.Int(1)], 2) == [WrappedType.Int(1), WrappedType.Int(1)];
    assert [WrappedType.Str("ab"), WrappedType.Int(2)][1..] == [WrappedType.Int(2)];
    assert ApplyOp(Star, WrappedType.Str("ab"), WrappedType.Int(2)) == Ok(WrappedType.Str("abab"));
    FoldTwo(Star, WrappedType.Str("ab"), WrappedType.Int(2));
    assert [WrappedType.Int(2), WrappedType.List([WrappedType.Int(1)])][1..] == [WrappedType.List([WrappedType.Int(1)])];
    assert ApplyOp(Star, WrappedType.Int(2), WrappedType.List([WrappedType.Int(1)]))
           == Ok(WrappedType.List([WrappedType.Int(1), WrappedType.Int(1)]));
    FoldTwo(Star, WrappedType.Int(2), WrappedType.List([WrappedType.Int(1)]));
  }

  // ---------------------------------------------------------------------
  // Special forms and the symbol table

  /** `(set x e)` evaluates `e`, binds `x` to its value and returns it; a later lookup of `x` gives that value. */
  lemma SetBinds(h: Host, frame: Frame, name: string, e: AstNode)
    requires NoQuoted(e) && EvalF(h, frame, e).result.Ok?
    ensures var r := EvalF(h, frame, e);
            && MacroF(h, frame, SetMacro, [Name(name), e]) == Step(r.result, r.frame[name := r.result.value])
            && GetNameF(MacroF(h, frame, SetMacro, [Name(name), e]).frame, name) == r.result
  {
    var nodes := [Name(name), e];
    assert AllNoQuoted(nodes);
  }

  /**
   * `set` with other than two nodes, or with a first node that is not a
   * bare name, raises a ValueError without evaluating anything; an error
   * while evaluating the value is unwrapped and panics.
   */
  lemma SetErrors(h: Host, frame: Frame, nodes: seq<AstNode>)
    requires AllNoQuoted(nodes)
    ensures |nodes| != 2 ==> (MacroF(h, frame, SetMacro, nodes).result.Err?
                              && MacroF(h, frame, SetMacro, nodes).result.error.Raised?
                              && MacroF(h, frame, SetMacro, nodes).frame == frame)
    ensures |nodes| == 2 && !nodes[0].Name? ==>
              MacroF(h, frame, SetMacro, nodes) == Step(Err(Raised(ValueError, "first argument must eb a name")), frame)
    ensures |nodes| == 2 && nodes[0].Name? && EvalF(h, frame, nodes[1]).result.Err? ==>
              MacroF(h, frame, SetMacro, nodes).result.Err? && MacroF(h, frame, SetMacro, nodes).result.error.Panic?
  {
  }

  /** `(set x 5)` from the default table binds `x` to 5; `x` then evaluates to 5. */
  lemma SetThenLookup(h: Host)
    ensures var f := DefaultFrame()["x" := WrappedType.Int(5)];
            && EvalF(h, DefaultFrame(), Expr([Name("set"), Name("x"), AstNode.Int(5)])) == Step(Ok(WrappedType.Int(5)), f)
            && EvalF(h, f, Name("x")) == Step(Ok(WrappedType.Int(5)), f)
  {
    var nodes := [Name("set"), Name("x"), AstNode.Int(5)];
    assert nodes[1..] == [Name("x"), AstNode.Int(5)];
    SetBinds(h, DefaultFrame(), "x", AstNode.Int(5));
  }

  /** `list`, when it succeeds, holds one value per node. */
  lemma ListLength(h: Host, frame: Frame, nodes: seq<AstNode>)
    requires AllNoQuoted(nodes)
    ensures var r := MacroF(h, frame, ListMacro, nodes);
            r.result.Ok? ==> r.result.value.List? && |r.result.value.items| == |nodes|
  {
  }

  /** Evaluating arguments takes one node at a time, left to right. */
  lemma ArgsCons(h: Host, frame: Frame, node: AstNode, rest: seq<AstNode>, acc: seq<WrappedType>, v: WrappedType)
    requires NoQuoted(node) && AllNoQuoted(rest)
    requires EvalF(h, frame, node) == Step(Ok(v), frame)
    ensures AllNoQuoted([node] + rest)
    ensures ArgsF(h, frame, [node] + rest, acc) == ArgsF(h, frame, rest, acc + [v])
  {
    assert ([node] + rest)[0] == node && ([node] + rest)[1..] == rest;
  }

  /** `(+ 1 2)` is 3 in any table. */
  lemma SumExample(h: Host, f: Frame)
    ensures EvalF(h, f, Expr([AstNode.Operator(Plus), AstNode.Int(1), AstNode.Int(2)])) == Step(Ok(WrappedType.Int(3)), f)
  {
    var sum := Expr([AstNode.Operator(Plus), AstNode.Int(1), AstNode.Int(2)]);
    ArgsCons(h, f, AstNode.Int(2), [], [WrappedType.Int(1)], WrappedType.Int(2));
    ArgsCons(h, f, AstNode.Int(1), [AstNode.Int(2)], [], WrappedType.Int(1));
    assert [AstNode.Int(1)] + [AstNode.Int(2)] == sum.nodes[1..];
    assert [AstNode.Int(2)] + [] == [AstNode.Int(2)];
    assert [] + [WrappedType.Int(1)] + [WrappedType.Int(2)] == [WrappedType.Int(1), WrappedType.Int(2)];
    FoldTwo(Plus, WrappedType.Int(1), WrappedType.Int(2));
    assert [WrappedType.Int(1), WrappedType.Int(2)][1..] == [WrappedType.Int(2)];
  }

  /** The arguments `1 "a" (+ 1 2)` evaluate to 1, "a" and 3 in any table. */
  lemma ListArgsExample(h: Host, f: Frame)
    ensures ArgsF(h, f, [AstNode.Int(1), AstNode.Str("a"), Expr([AstNode.Operator(Plus), AstNode.Int(1), AstNode.Int(2)])], [])
            == Step(Ok([WrappedType.Int(1), WrappedType.Str("a"), WrappedType.Int(3)]), f)
  {
    var sum := Expr([AstNode.Operator(Plus), AstNode.Int(1), AstNode.Int(2)]);
    SumExample(h, f);
    ArgsCons(h, f, sum, [], [WrappedType.Int(1), WrappedType.Str("a")], WrappedType.Int(3));
    ArgsCons(h, f, AstNode.Str("a"), [sum], [WrappedType.Int(1)], WrappedType.Str("a"));
    ArgsCons(h, f, AstNode.Int(1), [AstNode.Str("a"), sum], [], WrappedType.Int(1));
    assert [sum] + [] == [sum];
    assert [AstNode.Str("a")] + [sum] == [AstNode.Str("a"), sum];
    assert [AstNode.Int(1)] + [AstNode.Str("a"), sum] == [AstNode.Int(1), AstNode.Str("a"), sum];
    assert [] + [WrappedType.Int(1)] + [WrappedType.Str("a")] + [WrappedType.Int(3)]
           == [WrappedType.Int(1), WrappedType.Str("a"), WrappedType.Int(3)];
  }

  /** `(list 1 "a" (+ 1 2))` is the list of 1, "a" and 3, in that order. */
  lemma ListExample(h: Host)
    ensures var e := Expr([Name("list"), AstNode.Int(1), AstNode.Str("a"),
                           Expr([AstNode.Operator(Plus), AstNode.Int(1), AstNode.Int(2)])]);
            EvalF(h, DefaultFrame(), e) == Step(Ok(WrappedType.List([WrappedType.Int(1), WrappedType.Str("a"), WrappedType.Int(3)])), DefaultFrame())
  {
    var f := DefaultFrame();
    var sum := Expr([AstNode.Operator(Plus), AstNode.Int(1), AstNode.Int(2)]);
    var e := Expr([Name("list"), AstNode.Int(1), AstNode.Str("a"), sum]);
    ListArgsExample(h, f);
    assert e.nodes[1..] == [AstNode.Int(1), AstNode.Str("a"), sum];
    assert EvalF(h, f, Name("list")) == Step(Ok(RustMacro(ListMacro)), f);
  }

  /** `if` takes the first branch only for `Bool(true)`; any other value, `1` included, selects the second branch or Null. */
  lemma IfSelects(h: Host, frame: Frame, nodes: seq<AstNode>)
    requires (|nodes| == 2 || |nodes| == 3) && AllNoQuoted(nodes)
    requires EvalF(h, frame, nodes[0]).result.Ok?
    ensures var c := EvalF(h, frame, nodes[0]);
            MacroF(h, frame, IfMacro, nodes)
            == if c.result.value == Bool(true) then EvalF(h, c.frame, nodes[1])
               else if |nodes| == 2 then Step(Ok(Null), c.frame)
               else EvalF(h, c.frame, nodes[2])
  {
  }

  /** `block` returns its last node's value, or Null when it has none. */
  lemma BlockLast(h: Host, frame: Frame, nodes: seq<AstNode>)
    requires AllNoQuoted(nodes)
    ensures nodes == [] ==> MacroF(h, frame, BlockMacro, nodes) == Step(Ok(Null), frame)
    ensures |nodes| == 1 ==> MacroF(h, frame, BlockMacro, nodes) == EvalF(h, frame, nodes[0])
  {
    if |nodes| == 1 {
      var e := EvalF(h, frame, nodes[0]);
      assert nodes[1..] == [];
      if e.result.Ok? {
        assert BlockF(h, e.frame, [], e.result.value) == e;
      }
    }
  }

  /**
   * Evaluation never unbinds a name: the only change it makes to the symbol
   * table is a `set` binding, so every name bound before is bound after.
   */
  lemma {:induction false} EvalKeepsNames(h: Host, frame: Frame, node: AstNode)
    requires NoQuoted(node)
    ensures frame.Keys <= EvalF(h, frame, node).frame.Keys
    decreases Size(node), 0
  {
    match node
    case Expr(nodes) =>
      if nodes != [] {
        SizeAllTail(nodes);
        EvalKeepsNames(h, frame, nodes[0]);
        var head := EvalF(h, frame, nodes[0]);
        if head.result.Ok? {
          if head.result.value.RustMacro? {
            MacroKeepsNames(h, head.frame, head.result.value.mac, nodes[1..]);
          } else {
            ArgsKeepNames(h, head.frame, nodes[1..], []);
          }
        }
      }
    case _ =>
  }

  lemma {:induction false} ArgsKeepNames(h: Host, frame: Frame, nodes: seq<AstNode>, acc: seq<WrappedType>)
    requires AllNoQuoted(nodes)
    ensures frame.Keys <= ArgsF(h, frame, nodes, acc).frame.Keys
    decreases SizeAll(nodes), 1
  {
    if nodes != [] {
      SizeAllTail(nodes);
      EvalKeepsNames(h, frame, nodes[0]);
      var e := EvalF(h, frame, nodes[0]);
      if e.result.Ok? {
        ArgsKeepNames(h, e.frame, nodes[1..], acc + [e.result.value]);
      }
    }
  }

  lemma {:induction false} MacroKeepsNames(h: Host, frame: Frame, mac: Macro, nodes: seq<AstNode>)
    requires AllNoQuoted(nodes)
    ensures frame.Keys <= MacroF(h, frame, mac, nodes).frame.Keys
    decreases SizeAll(nodes), 4
  {
    match mac
    case SetMacro =>
      if |nodes| == 2 && nodes[0].Name? {
        SizeAllPrefix(nodes, 1);
        EvalKeepsNames(h, frame, nodes[1]);
      }
    case ListMacro => ArgsKeepNames(h, frame, nodes, []);
    case BlockMacro => BlockKeepsNames(h, frame, nodes, Null);
    case IfMacro =>
      if |nodes| == 2 || |nodes| == 3 {
        SizeAllPrefix(nodes, 0);
        SizeAllPrefix(nodes, 1);
        SizeAllPrefix(nodes, |nodes| - 1);
        EvalKeepsNames(h, frame, nodes[0]);
        var c := EvalF(h, frame, nodes[0]);
        if c.result.Ok? {
          EvalKeepsNames(h, c.frame, nodes[1]);
          EvalKeepsNames(h, c.frame, nodes[|nodes| - 1]);
        }
      }
  }

  lemma {:induction false} BlockKeepsNames(h: Host, frame: Frame, nodes: seq<AstNode>, res: WrappedType)
    requires AllNoQuoted(nodes)
    ensures frame.Keys <= BlockF(h, frame, nodes, res).frame.Keys
    decreases SizeAll(nodes), 1
  {
    if nodes != [] {
      SizeAllTail(nodes);
      EvalKeepsNames(h, frame, nodes[0]);
      var e := EvalF(h, frame, nodes[0]);
      if e.result.Ok? {
        BlockKeepsNames(h, e.frame, nodes[1..], e.result.value);
      }
    }
  }
}
