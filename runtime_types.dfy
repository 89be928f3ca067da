/**
 * Values of the runtime snapshot (src/risp/runtime/types.rs,
 * src/risp/runtime/types/num.rs and src/risp/runtime/types/misc.rs).
 *
 * Each wrapped type answers the operator methods of the `Type` trait: a
 * primary arithmetic method (`add`, `sub`, `mul`, `div`), a reflected one
 * (`radd`, `rsub`, `rmul`, `rdiv`, called on the right operand with the left
 * one as argument) and a comparison (`eq`, `gt`, `lt`). A method a type
 * does not override answers `None`, here `Undefined`. The snapshot writes
 * the comparisons as `equal`, `greater` and `less`; they are taken to be the
 * trait's `eq`, `gt` and `lt`.
 */
module RuntimeTypes {
  import opened Wrappers
  import opened Shared
  import opened RustInt
  import opened Numerals

  /** The native functions of the standard library (src/risp/runtime/rispstd.rs). */
  datatype Native = Print | Println | Input

  /** The special forms of src/risp/runtime/macros.rs. */
  datatype Macro = SetMacro | ListMacro | BlockMacro | IfMacro

  datatype WrappedType =
    | Int(i: int32)
    | Bool(b: bool)
    | Float(f: FloatVal)
    | Str(s: string)
    | List(items: seq<WrappedType>)
    | RustFn(native: Native)
    | RustMacro(mac: Macro)
    | Operator(op: Op)
    | Null

  /**
   * What an operator method answers: a value, `None` (the pairing is not
   * implemented), or a Rust panic inside the method (i32 overflow, division
   * by zero, a repetition count that wraps around) with its message.
   */
  datatype Outcome = Defined(value: WrappedType) | Undefined | Aborts(reason: string)

  function TypeName(v: WrappedType): string {
    match v
    case Int(_) => "int"
    case Bool(_) => "bool"
    case Float(_) => "float"
    case Str(_) => "str"
    case List(_) => "list"
    case RustFn(_) => "rustfn"
    case RustMacro(_) => "rustmacro"
    case Operator(_) => "operator"
    case Null => "null"
  }

  /** Two values have the same type name exactly when they are the same variant. */
  lemma TypeNameDistinct(a: WrappedType, b: WrappedType)
    ensures TypeName(a) == TypeName(b) <==>
              (&& a.Int? == b.Int? && a.Bool? == b.Bool? && a.Float? == b.Float?
               && a.Str? == b.Str? && a.List? == b.List? && a.RustFn? == b.RustFn?
               && a.RustMacro? == b.RustMacro? && a.Operator? == b.Operator?)
  {
  }

  // ---------------------------------------------------------------------
  // Text

  /** The characters `{:?}` writes with a backslash escape. */
  predicate Special(c: char) {
    c == '\t' || c == '\r' || c == '\n' || c == '\\' || c == '"' || c == '\0'
  }

  function EscapeChar(c: char): (r: string)
    ensures Special(c) <==> |r| == 2
    ensures !Special(c) ==> r == [c]
  {
    if c == '\t' then "\\t"
    else if c == '\r' then "\\r"
    else if c == '\n' then "\\n"
    else if c == '\\' then "\\\\"
    else if c == '"' then "\\\""
    else if c == '\0' then "\\0"
    else [c]
  }

  function Escape(s: string): string {
    if s == [] then "" else Escape(s[..|s| - 1]) + EscapeChar(s[|s| - 1])
  }

  /** A string with no character that needs escaping is written as it is. */
  lemma {:induction false} EscapePlain(s: string)
    requires forall i :: 0 <= i < |s| ==> !Special(s[i])
    ensures Escape(s) == s
  {
    if s != [] {
      EscapePlain(s[..|s| - 1]);
      assert s == s[..|s| - 1] + [s[|s| - 1]];
    }
  }

  /** Escaping never shortens a string, and lengthens any string that holds a special character. */
  lemma {:induction false} EscapeLength(s: string)
    ensures |Escape(s)| >= |s|
    ensures (exists i :: 0 <= i < |s| && Special(s[i])) ==> |Escape(s)| > |s|
  {
    if s != [] {
      var init := s[..|s| - 1];
      EscapeLength(init);
      if exists i :: 0 <= i < |s| && Special(s[i]) {
        var i :| 0 <= i < |s| && Special(s[i]);
        if i < |s| - 1 {
          assert init[i] == s[i];
        }
      }
    }
  }

  /**
   * `repr` of every type: numbers and booleans in their usual text, a
   * string in double quotes with `{:?}` escapes, a list as its elements'
   * reprs between brackets, and Null as the empty string.
   */
  function Repr(host: FloatHost, v: WrappedType): string
    decreases v, 1
  {
    match v
    case Int(n) => IntToString(n as int)
    case Bool(b) => BoolToString(b)
    case Float(f) => host.show(f)
    case Str(s) => "\"" + Escape(s) + "\""
    case List(items) => "[" + JoinRepr(host, items) + "]"
    case RustFn(_) => "<Rust Function>"
    case RustMacro(_) => "<Rust Macro>"
    case Operator(op) => OpText(op)
    case Null => ""
  }

  /** The elements' reprs separated by `", "`. */
  function JoinRepr(host: FloatHost, items: seq<WrappedType>): string
    decreases items, 0
  {
    if items == [] then ""
    else if |items| == 1 then Repr(host, items[0])
    else JoinRepr(host, items[..|items| - 1]) + ", " + Repr(host, items[|items| - 1])
  }

  /**
   * Each type's own `display`: a string raw, Null as "Null", a list as its
   * elements' displays, where an element is a `WrappedType` and so is
   * displayed by its repr.
   */
  function InnerDisplay(host: FloatHost, v: WrappedType): string {
    match v
    case Str(s) => s
    case List(items) => "[" + JoinRepr(host, items) + "]"
    case Null => "Null"
    case _ => Repr(host, v)
  }

  /** `WrappedType::display`, which forwards to the inner value's `repr`. */
  function Display(host: FloatHost, v: WrappedType): string {
    Repr(host, v)
  }

  /**
   * Displaying a wrapped value never uses the type's own `display`: a
   * string comes out quoted and Null as the empty string, while their own
   * displays give the raw string and "Null". For the other types the two
   * agree.
   */
  lemma DisplayForwardsToRepr(host: FloatHost, v: WrappedType)
    ensures Display(host, v) == Repr(host, v)
    ensures v.Str? ==> Display(host, v) != InnerDisplay(host, v)
    ensures v.Null? ==> Display(host, v) == "" && InnerDisplay(host, v) == "Null"
    ensures !v.Str? && !v.Null? ==> Display(host, v) == InnerDisplay(host, v)
  {
    if v.Str? {
      EscapeLength(v.s);
      assert |Display(host, v)| == |Escape(v.s)| + 2;
    }
  }

  /** A list shows its elements' reprs: a string quoted, Null as nothing; an empty list is `[]`. */
  lemma ReprExamples(host: FloatHost)
    ensures Repr(host, List([])) == "[]"
    ensures Repr(host, List([Str("a"), Int(1), Null])) == "[\"a\", 1, ]"
  {
    EscapePlain("a");
    assert NatToString(1) == "1";
    assert Repr(host, Int(1)) == "1";
    var items := [Str("a"), Int(1), Null];
    var front := [Str("a"), Int(1)];
    assert items[..|items| - 1] == front;
    assert front[..|front| - 1] == [Str("a")];
    assert JoinRepr(host, [Str("a")]) == "\"a\"";
    assert JoinRepr(host, front) == "\"a\", 1";
    assert JoinRepr(host, items) == "\"a\", 1, ";
  }

  /** `List::repr`: the first element's repr after `[`, every further one after `, `, then `]`. */
  method ListRepr(host: FloatHost, items: seq<WrappedType>) returns (s: string)
    ensures s == Repr(host, List(items))
    decreases items, 0
  {
    s := "[";
    if |items| > 0 {
      var r := ReprOf(host, items[0]);
      s := s + r;
    }
    var i := 1;
    while i < |items|
      invariant 1 <= i
      invariant |items| > 0 ==> i <= |items| && s == "[" + JoinRepr(host, items[..i])
      invariant |items| == 0 ==> s == "["
    {
      assert items[..i + 1][..i] == items[..i];
      var r := ReprOf(host, items[i]);
      s := s + ", " + r;
      i := i + 1;
    }
    if |items| > 0 {
      assert items[..i] == items;
    }
    s := s + "]";
  }

  /** `List::display`: the same walk, with each element's (wrapped) display. */
  method ListDisplay(host: FloatHost, items: seq<WrappedType>) returns (s: string)
    ensures s == InnerDisplay(host, List(items))
  {
    s := "[";
    if |items| > 0 {
      var r := ReprOf(host, items[0]);
      s := s + r;
    }
    var i := 1;
    while i < |items|
      invariant 1 <= i
      invariant |items| > 0 ==> i <= |items| && s == "[" + JoinRepr(host, items[..i])
      invariant |items| == 0 ==> s == "["
    {
      assert items[..i + 1][..i] == items[..i];
      var r := ReprOf(host, items[i]);
      s := s + ", " + r;
      i := i + 1;
    }
    if |items| > 0 {
      assert items[..i] == items;
    }
    s := s + "]";
  }

  /** `WrappedType::repr` (and so `display`), with a list built by `ListRepr`. */
  method ReprOf(host: FloatHost, v: WrappedType) returns (s: string)
    ensures s == Repr(host, v)
    decreases v, 1
  {
    if v.List? {
      s := ListRepr(host, v.items);
    } else {
      s := Repr(host, v);
    }
  }

  // ---------------------------------------------------------------------
  // Arithmetic methods

  /** `b as i32`. */
  function B01(b: bool): int32 {
    if b then 1 else 0
  }

  function IntOutcome(r: Result<int32, string>): Outcome {
    match r
    case Ok(n) => Defined(Int(n))
    case Err(msg) => Aborts(msg)
  }

  /** Int `add`..`div`: only with an Int, with Rust's checked i32 arithmetic. */
  function IntPrimary(n: int32, op: Op, other: WrappedType): Outcome
    requires IsArith(op)
  {
    if other.Int? then IntOutcome(Arith(op, n, other.i)) else Undefined
  }

  /** Bool `add`..`div`: with a Bool or an Int as i32 arithmetic on 0 and 1, with a Float in f64. */
  function BoolPrimary(b: bool, op: Op, other: WrappedType): Outcome
    requires IsArith(op)
  {
    match other
    case Bool(c) => IntOutcome(Arith(op, B01(b), B01(c)))
    case Int(m) => IntOutcome(Arith(op, B01(b), m))
    case Float(f) => Defined(Float(FloatArith(op, FloatOfInt(B01(b) as int), f)))
    case _ => Undefined
  }

  /** Bool `radd`..`rdiv`: the Int or Float argument is the left operand. */
  function BoolReflected(b: bool, op: Op, other: WrappedType): Outcome
    requires IsArith(op)
  {
    match other
    case Int(m) => IntOutcome(Arith(op, m, B01(b)))
    case Float(f) => Defined(Float(FloatArith(op, f, FloatOfInt(B01(b) as int))))
    case _ => Undefined
  }

  /** Float `add`..`div`: with an Int (promoted) or a Float. */
  function FloatPrimary(x: FloatVal, op: Op, other: WrappedType): Outcome
    requires IsArith(op)
  {
    match other
    case Int(m) => Defined(Float(FloatArith(op, x, FloatOfInt(m as int))))
    case Float(y) => Defined(Float(FloatArith(op, x, y)))
    case _ => Undefined
  }

  /** Float `radd`..`rdiv`: only with an Int, which is the left operand. */
  function FloatReflected(x: FloatVal, op: Op, other: WrappedType): Outcome
    requires IsArith(op)
  {
    match other
    case Int(m) => Defined(Float(FloatArith(op, FloatOfInt(m as int), x)))
    case _ => Undefined
  }

  /** `s.repeat(n as usize)`: a negative count wraps to a huge length, which aborts unless `s` is empty. */
  function StrRepeat(s: string, n: int32): (r: Outcome)
    ensures n >= 0 ==> r.Defined? && r.value.Str? && |r.value.s| == |s| * n as int
    ensures n > 0 ==> r.Defined? && r.value.Str? && r.value.s[..|s|] == s
    ensures r.Defined? ==> r.value.Str? && forall i :: |s| <= i < |r.value.s| ==> r.value.s[i] == r.value.s[i - |s|]
    ensures n < 0 ==> r == (if s == [] then Defined(Str("")) else Aborts("capacity overflow"))
  {
    if n < 0 then (if s == [] then Defined(Str("")) else Aborts("capacity overflow"))
    else Defined(Str(RepeatNat(s, n as nat)))
  }

  /** Str `add` with a Str and `mul` with an Int; nothing else. */
  function StrPrimary(s: string, op: Op, other: WrappedType): Outcome
    requires IsArith(op)
  {
    if op == Plus && other.Str? then Defined(Str(s + other.s))
    else if op == Star && other.Int? then StrRepeat(s, other.i)
    else Undefined
  }

  /** Str `rmul` with an Int, the same repetition as `mul`. */
  function StrReflected(s: string, op: Op, other: WrappedType): Outcome
    requires IsArith(op)
  {
    if op == Star && other.Int? then StrRepeat(s, other.i) else Undefined
  }

  /** The first `k` elements of `l` repeated without end (`l.iter().cycle().take(k)`). */
  function CycleTake<T>(l: seq<T>, k: nat): seq<T>
    decreases k
  {
    if l == [] || k == 0 then []
    else if k <= |l| then l[..k]
    else l + CycleTake(l, k - |l|)
  }

  /** Taking `|l| * n` elements of the cycle is `n` whole copies of `l`. */
  lemma {:induction false} CycleTakeWhole<T>(l: seq<T>, n: nat)
    ensures CycleTake(l, |l| * n) == RepeatNat(l, n)
    decreases n
  {
    if l != [] && n > 0 {
      assert |l| * n == |l| * (n - 1) + |l|;
      CycleTakeWhole(l, n - 1);
      if n == 1 {
        assert l[..|l|] == l;
        assert RepeatNat(l, 0) == [];
        assert l + [] == l;
      }
    } else if l == [] {
      assert RepeatNat(l, n) == [];
    }
  }

  /**
   * List repetition by an i32 count cast to usize. A non-negative count
   * gives `n` copies. A negative count wraps: an empty list stays empty, a
   * one-element list asks for more capacity than exists, and a longer one
   * overflows the length product.
   */
  function ListRepeat(l: seq<WrappedType>, n: int32): (r: Outcome)
    ensures n >= 0 ==> r == Defined(List(RepeatNat(l, n as nat)))
    ensures n < 0 ==> (r.Defined? <==> l == [])
  {
    if n >= 0 then
      CycleTakeWhole(l, n as nat);
      Defined(List(CycleTake(l, |l| * n as nat)))
    else if l == [] then Defined(List([]))
    else if |l| == 1 then Aborts("capacity overflow")
    else Aborts("attempt to multiply with overflow")
  }

  /** List `add` with a List (concatenation) and `mul` with an Int; nothing else. */
  function ListPrimary(l: seq<WrappedType>, op: Op, other: WrappedType): Outcome
    requires IsArith(op)
  {
    if op == Plus && other.List? then Defined(List(l + other.items))
    else if op == Star && other.Int? then ListRepeat(l, other.i)
    else Undefined
  }

  /** List `rmul` with an Int, the same repetition as `mul`. */
  function ListReflected(l: seq<WrappedType>, op: Op, other: WrappedType): Outcome
    requires IsArith(op)
  {
    if op == Star && other.Int? then ListRepeat(l, other.i) else Undefined
  }

  /** The forwarded primary method (`add`, `sub`, `mul` or `div` by `op`); the other types keep the `None` default. */
  function Primary(v: WrappedType, op: Op, other: WrappedType): Outcome
    requires IsArith(op)
  {
    match v
    case Int(n) => IntPrimary(n, op, other)
    case Bool(b) => BoolPrimary(b, op, other)
    case Float(x) => FloatPrimary(x, op, other)
    case Str(s) => StrPrimary(s, op, other)
    case List(l) => ListPrimary(l, op, other)
    case _ => Undefined
  }

  /** The forwarded reflected method (`radd`, `rsub`, `rmul` or `rdiv`); Int defines none. */
  function Reflected(v: WrappedType, op: Op, other: WrappedType): Outcome
    requires IsArith(op)
  {
    match v
    case Bool(b) => BoolReflected(b, op, other)
    case Float(x) => FloatReflected(x, op, other)
    case Str(s) => StrReflected(s, op, other)
    case List(l) => ListReflected(l, op, other)
    case _ => Undefined
  }

  /** The pairings for which a primary method is implemented, as a table. */
  predicate PrimaryPair(v: WrappedType, op: Op, other: WrappedType) {
    || (v.Int? && other.Int?)
    || (v.Bool? && (other.Bool? || other.Int? || other.Float?))
    || (v.Float? && (other.Int? || other.Float?))
    || (v.Str? && ((op == Plus && other.Str?) || (op == Star && other.Int?)))
    || (v.List? && ((op == Plus && other.List?) || (op == Star && other.Int?)))
  }

  /** The pairings for which a reflected method is implemented, as a table. */
  predicate ReflectedPair(v: WrappedType, op: Op, other: WrappedType) {
    || (v.Bool? && (other.Int? || other.Float?))
    || (v.Float? && other.Int?)
    || ((v.Str? || v.List?) && op == Star && other.Int?)
  }

  /** A primary method answers `None` exactly off its table. */
  lemma PrimaryDomain(v: WrappedType, op: Op, other: WrappedType)
    requires IsArith(op)
    ensures Primary(v, op, other).Undefined? <==> !PrimaryPair(v, op, other)
  {
  }

  /** A reflected method answers `None` exactly off its table. */
  lemma ReflectedDomain(v: WrappedType, op: Op, other: WrappedType)
    requires IsArith(op)
    ensures Reflected(v, op, other).Undefined? <==> !ReflectedPair(v, op, other)
  {
  }

  /** Int arithmetic gives the exact result, or a panic exactly when that is outside i32 or the divisor is zero. */
  lemma IntArithmetic(a: int32, op: Op, b: int32)
    requires IsArith(op)
    ensures op == Slash && b == 0 ==> Primary(Int(a), op, Int(b)) == Aborts("attempt to divide by zero")
    ensures !(op == Slash && b == 0) ==>
              (Primary(Int(a), op, Int(b)).Defined? <==> InI32(Exact(op, a as int, b as int)))
    ensures Primary(Int(a), op, Int(b)).Defined? ==>
              Primary(Int(a), op, Int(b)).value == Int(Exact(op, a as int, b as int) as int32)
    ensures op == Slash ==> (Primary(Int(a), op, Int(b)).Defined? <==> b != 0 && !(a as int == I32_MIN && b == -1))
  {
    if op == Slash && b != 0 {
      DivOverflowOnlyAtMin(a, b);
    }
  }

  /** List `+` is concatenation: the left list's elements, then the right's. */
  lemma ListConcat(a: seq<WrappedType>, b: seq<WrappedType>)
    ensures var r := Primary(List(a), Plus, List(b));
            r.Defined? && r.value.List? && |r.value.items| == |a| + |b|
            && r.value.items[..|a|] == a && r.value.items[|a|..] == b
  {
    assert (a + b)[..|a|] == a && (a + b)[|a|..] == b;
  }

  /**
   * `l * n` for `n >= 0` has `|l| * n` elements, begins with `l` and repeats
   * with period `|l|`, so element `i` is element `i mod |l|` of `l`. `n * l`
   * is the same list.
   */
  lemma ListRepeatShape(l: seq<WrappedType>, n: int32)
    requires n >= 0
    ensures var r := Primary(List(l), Star, Int(n));
            && r.Defined? && r.value.List?
            && |r.value.items| == |l| * n as int
            && (n > 0 ==> r.value.items[..|l|] == l)
            && (forall i :: |l| <= i < |r.value.items| ==> r.value.items[i] == r.value.items[i - |l|])
            && Reflected(List(l), Star, Int(n)) == r
  {
  }

  // ---------------------------------------------------------------------
  // Comparison methods

  /**
   * The forwarded comparison (`eq`, `gt` or `lt` by `rel`). Int compares
   * with Int; Bool with Bool (false < true) and, as 0 or 1, with Int and
   * Float; Float with Int and Float; Str and List only for equality, a
   * List being equal exactly when the lengths agree and every pair of
   * elements compares equal, a pair that cannot be compared counting as
   * unequal.
   */
  function Compare(host: FloatHost, v: WrappedType, rel: Op, other: WrappedType): Option<bool>
    requires IsRelational(rel)
    decreases v
  {
    match v
    case Int(n) => if other.Int? then Some(Holds(rel, n as int, other.i as int)) else None
    case Bool(b) =>
      (match other
       case Bool(c) => Some(Holds(rel, B01(b) as int, B01(c) as int))
       case Int(m) => Some(Holds(rel, B01(b) as int, m as int))
       case Float(f) => Some(host.compare(rel, FloatOfInt(B01(b) as int), f))
       case _ => None)
    case Float(x) =>
      (match other
       case Int(m) => Some(host.compare(rel, x, FloatOfInt(m as int)))
       case Float(y) => Some(host.compare(rel, x, y))
       case _ => None)
    case Str(s) => if rel == Equal && other.Str? then Some(s == other.s) else None
    case List(l) =>
      if rel == Equal && other.List? then
        Some(|l| == |other.items| &&
             forall i :: 0 <= i < |l| && i < |other.items| ==> Compare(host, l[i], Equal, other.items[i]) == Some(true))
      else None
    case _ => None
  }

  /** The pairings for which a comparison is implemented, as a table. */
  predicate ComparePair(v: WrappedType, rel: Op, other: WrappedType) {
    || (v.Int? && other.Int?)
    || (v.Bool? && (other.Bool? || other.Int? || other.Float?))
    || (v.Float? && (other.Int? || other.Float?))
    || (rel == Equal && ((v.Str? && other.Str?) || (v.List? && other.List?)))
  }

  lemma CompareDomain(host: FloatHost, v: WrappedType, rel: Op, other: WrappedType)
    requires IsRelational(rel)
    ensures Compare(host, v, rel, other).Some? <==> ComparePair(v, rel, other)
  {
  }

  /** A value built from integers, booleans, strings and lists of them. */
  predicate Plain(v: WrappedType) {
    match v
    case Int(_) => true
    case Bool(_) => true
    case Str(_) => true
    case List(l) => forall i :: 0 <= i < |l| ==> Plain(l[i])
    case _ => false
  }

  /** Every plain value, nested lists included, is equal to itself. */
  lemma {:induction false} EqualReflexive(host: FloatHost, v: WrappedType)
    requires Plain(v)
    ensures Compare(host, v, Equal, v) == Some(true)
    decreases v
  {
    if v.List? {
      forall i | 0 <= i < |v.items|
        ensures Compare(host, v.items[i], Equal, v.items[i]) == Some(true)
      {
        EqualReflexive(host, v.items[i]);
      }
    }
  }

  /** Lists of different lengths are unequal, whatever they hold; comparing a list with a non-list gets no answer from the list's `equal` (the caller then tries the other operand's mirrored comparison). */
  lemma ListEqualLength(host: FloatHost, a: seq<WrappedType>, other: WrappedType)
    ensures other.List? && |a| != |other.items| ==> Compare(host, List(a), Equal, other) == Some(false)
    ensures !other.List? ==> Compare(host, List(a), Equal, other) == None
  {
  }
}
