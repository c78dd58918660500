/** The code generator's RPN compiler (scripts/gputop-oa-codegen.py): a stack equation becomes C statements
    that each declare one temporary, and an expression to return.

    Values carry their C type.  How doubles are added, compared and converted is left open: it is whatever
    the functions of `Doubles` say.  Literals of equations count as 64-bit ones.
 */
module RpnCompiler {
  import opened Common
  import opened OaCounters

  // ---------------------------------------------------------------- values

  datatype Value = U64(n: nat) | Double(bits: nat)

  datatype Doubles = Doubles(fromInt: int -> nat, toU64: nat -> nat, add: (nat, nat) -> nat, sub: (nat, nat) -> nat,
                             mul: (nat, nat) -> nat, div: (nat, nat) -> nat,
                             less: (nat, nat) -> bool, zero: nat -> bool)

  datatype CType = UInt64 | CDouble

  function TypeOf(v: Value): CType {
    if v.U64? then UInt64 else CDouble
  }

  function AsDouble(d: Doubles, v: Value): nat {
    if v.U64? then d.fromInt(v.n) else v.bits
  }

  /** What an initialiser of value v leaves in a variable. */
  function Convert(d: Doubles, t: CType, v: Value): Value {
    match t
    case UInt64 => if v.U64? then v else U64(Wrap64(d.toU64(v.bits)))
    case CDouble => Double(AsDouble(d, v))
  }

  /** Bit by bit. */
  function BitwiseAnd(a: nat, b: nat): (v: nat)
    ensures v <= a && v <= b
  {
    if a == 0 || b == 0 then 0 else 2 * BitwiseAnd(a / 2, b / 2) + if a % 2 == 1 && b % 2 == 1 then 1 else 0
  }

  function Pow2(n: nat): (p: nat)
    ensures p > 0
  {
    if n == 0 then 1 else 2 * Pow2(n - 1)
  }

  function Quotient(a: nat, b: nat): nat
    requires b > 0
  {
    a / b
  }

  function Product(a: nat, b: nat): nat {
    a * b
  }

  datatype COp = Add | Sub | Mul | Div | Less | Greater | Shl | Shr | BitAnd

  function Bool(b: bool): Value {
    U64(if b then 1 else 0)
  }

  /** The arithmetic of C: in 64 bits without sign if both operands are, and else in double.
      None is what C leaves undefined or does not compile. */
  function Arith(d: Doubles, o: COp, a: Value, b: Value): Option<Value> {
    if a.U64? && b.U64? then
      match o
      case Add => Some(U64(Wrap64(a.n + b.n)))
      case Sub => Some(U64(Wrap64(a.n - b.n)))
      case Mul => Some(U64(Wrap64(Product(a.n, b.n))))
      case Div => if b.n == 0 then None else Some(U64(Quotient(a.n, b.n)))
      case Less => Some(Bool(a.n < b.n))
      case Greater => Some(Bool(a.n > b.n))
      case Shl => if b.n >= 64 then None else Some(U64(Wrap64(Product(a.n, Pow2(b.n)))))
      case Shr => if b.n >= 64 then None else Some(U64(Quotient(a.n, Pow2(b.n))))
      case BitAnd => Some(U64(BitwiseAnd(a.n, b.n)))
    else
      var x, y := AsDouble(d, a), AsDouble(d, b);
      match o
      case Add => Some(Double(d.add(x, y)))
      case Sub => Some(Double(d.sub(x, y)))
      case Mul => Some(Double(d.mul(x, y)))
      case Div => Some(Double(d.div(x, y)))
      case Less => Some(Bool(d.less(x, y)))
      case Greater => Some(Bool(d.less(y, x)))
      case Shl => None
      case Shr => None
      case BitAnd => None
  }

  // ---------------------------------------------------------------- equations and what they mean

  datatype Op = FAdd | FDiv | FMax | FMul | FSub | Read | ReadReg | UAdd | UDiv | UMul | USub
                | UMin | ShiftLeft | ShiftRight | And

  datatype Token = Literal(v: Value) | Word(w: string) | Variable(name: string) | Operator(op: Op)

  /** What a counter is read from: the device, the other counters of the set, and the accumulator, which
      falls into named parts. */
  datatype Env = Env(d: Doubles, hw: map<string, Value>, counters: map<string, Value>,
                     offsets: map<string, nat>, accumulator: seq<nat>)

  function Lookup(e: Env, name: string): Option<Value> {
    if name in e.hw then Some(e.hw[name]) else if name in e.counters then Some(e.counters[name]) else None
  }

  datatype Item = Val(v: Value) | Name(w: string)

  /** An entry of the accumulator, by the name of its part. */
  function Entry(e: Env, part: string, index: Value): Option<Value> {
    if part in e.offsets && index.U64? && Wrap64(e.offsets[part] + index.n) < |e.accumulator|
    then Some(U64(e.accumulator[Wrap64(e.offsets[part] + index.n)])) else None
  }

  /** What an operator makes of the two values, the one pushed first being a. */
  function Apply(d: Doubles, op: Op, a: Value, b: Value): Option<Value> {
    match op
    case FAdd => var v :- Arith(d, Add, a, b); Some(Convert(d, CDouble, v))
    case FSub => var v :- Arith(d, Sub, a, b); Some(Convert(d, CDouble, v))
    case FMul => var v :- Arith(d, Mul, a, b); Some(Convert(d, CDouble, v))
    case FDiv =>
      var x, y := AsDouble(d, a), AsDouble(d, b);
      Some(Double(if d.zero(y) then d.fromInt(0) else d.div(x, y)))
    case FMax =>
      var x, y := AsDouble(d, a), AsDouble(d, b);
      Some(Double(if d.less(y, x) then x else y))
    case UAdd => var v :- Arith(d, Add, a, b); Some(Convert(d, UInt64, v))
    case USub => var v :- Arith(d, Sub, a, b); Some(Convert(d, UInt64, v))
    case UMul => var v :- Arith(d, Mul, a, b); Some(Convert(d, UInt64, v))
    case UDiv =>
      var x, y := Convert(d, UInt64, a).n, Convert(d, UInt64, b).n;
      Some(U64(if y == 0 then 0 else Quotient(x, y)))
    case UMin =>
      if a.U64? && b.U64? then Some(if a.n < b.n then a else b)
      else
        var x, y := AsDouble(d, a), AsDouble(d, b);
        Some(U64(Wrap64(d.toU64(if d.less(x, y) then x else y))))
    case ShiftLeft => Arith(d, Shl, a, b)
    case ShiftRight => Arith(d, Shr, a, b)
    case And => Arith(d, BitAnd, a, b)
    case Read => None
    case ReadReg => None
  }

  /** An operator takes its operands off the stack and puts its value there. */
  function Operate(e: Env, op: Op, s: seq<Item>): Option<seq<Item>> {
    var n := |s|;
    if op.ReadReg? then
      if n < 1 then None else Some(s[..n - 1] + [Val(U64(0))])
    else if n < 2 || s[n - 1].Name? then None
    else if op.Read? then
      if s[n - 2].Val? then None
      else
        var v :- Entry(e, s[n - 2].w, s[n - 1].v);
        Some(s[..n - 2] + [Val(v)])
    else if s[n - 2].Name? then None
    else
      var v :- Apply(e.d, op, s[n - 2].v, s[n - 1].v);
      Some(s[..n - 2] + [Val(v)])
  }

  /** The stack after the first tokens of an equation. */
  function Evaluate(e: Env, tokens: seq<Token>): Option<seq<Item>> {
    if tokens == [] then Some([])
    else
      var s :- Evaluate(e, tokens[..|tokens| - 1]);
      match tokens[|tokens| - 1]
      case Literal(v) => Some(s + [Val(v)])
      case Word(w) => Some(s + [Name(w)])
      case Variable(name) => var v :- Lookup(e, name); Some(s + [Val(v)])
      case Operator(op) => Operate(e, op, s)
  }

  /** The value of an equation: it must leave just one. */
  function ValueOf(e: Env, tokens: seq<Token>): Option<Value> {
    var s :- Evaluate(e, tokens);
    if |s| == 1 && s[0].Val? then Some(s[0].v) else None
  }

  // ---------------------------------------------------------------- C

  datatype Atom = Temp(id: nat) | Constant(v: Value) | Identifier(w: string) | Field(name: string) | Call(name: string)

  datatype Expr =
    | Use(a: Atom)
    | Bin(o: COp, l: Expr, r: Expr)
    | Cond(c: Expr, t: Expr, f: Expr)
    | Element(part: string, index: Expr)

  /** type tmp<id> = e; */
  datatype Stmt = Let(t: CType, id: nat, e: Expr)

  function ZERO(): Expr {
    Use(Constant(U64(0)))
  }

  function EvalAtom(e: Env, store: seq<Value>, a: Atom): Option<Value> {
    match a
    case Temp(id) => if id < |store| then Some(store[id]) else None
    case Constant(v) => Some(v)
    case Identifier(_) => None
    case Field(name) => if name in e.hw then Some(e.hw[name]) else None
    case Call(name) => if name in e.counters then Some(e.counters[name]) else None
  }

  /** The static type of an expression whose variables have the values of the store. */
  function StaticType(e: Env, store: seq<Value>, x: Expr): CType {
    match x
    case Use(a) => if EvalAtom(e, store, a).Some? then TypeOf(EvalAtom(e, store, a).value) else UInt64
    case Bin(o, l, r) =>
      if o.Less? || o.Greater? then UInt64
      else if StaticType(e, store, l).CDouble? || StaticType(e, store, r).CDouble? then CDouble else UInt64
    case Cond(_, t, f) =>
      if StaticType(e, store, t).CDouble? || StaticType(e, store, f).CDouble? then CDouble else UInt64
    case Element(_, _) => UInt64
  }

  function EvalExpr(e: Env, store: seq<Value>, x: Expr): Option<Value> {
    match x
    case Use(a) => EvalAtom(e, store, a)
    case Bin(o, l, r) =>
      var a :- EvalExpr(e, store, l);
      var b :- EvalExpr(e, store, r);
      Arith(e.d, o, a, b)
    case Cond(c, t, f) =>
      var b :- EvalExpr(e, store, c);
      var v :- EvalExpr(e, store, if (if b.U64? then b.n != 0 else !e.d.zero(b.bits)) then t else f);
      Some(Convert(e.d, StaticType(e, store, x), v))
    case Element(part, index) =>
      var i :- EvalExpr(e, store, index);
      Entry(e, part, i)
  }

  /** Temporaries are declared once each and in order, or it is not C. */
  function RunStmt(e: Env, store: seq<Value>, s: Stmt): Option<seq<Value>> {
    if s.id != |store| then None
    else
      var v :- EvalExpr(e, store, s.e);
      Some(store + [Convert(e.d, s.t, v)])
  }

  function RunCode(e: Env, store: seq<Value>, code: seq<Stmt>): Option<seq<Value>> {
    if code == [] then Some(store)
    else
      var s :- RunCode(e, store, code[..|code| - 1]);
      RunStmt(e, s, code[|code| - 1])
  }

  // ---------------------------------------------------------------- the compiler

  /** Which names are fields of the device, and which are counters of the set. */
  datatype Names = Names(hw: set<string>, counters: set<string>)

  datatype Pushed = Pending(t: Token) | Result(id: nat)

  datatype Compiled = Compiled(stack: seq<Pushed>, code: seq<Stmt>, next: nat)

  /** An operand as C: None for a variable that is not known. */
  function Resolve(k: Names, p: Pushed): Option<Atom> {
    match p
    case Result(id) => Some(Temp(id))
    case Pending(t) =>
      match t
      case Literal(v) => Some(Constant(v))
      case Word(w) => Some(Identifier(w))
      case Variable(name) =>
        if name in k.hw then Some(Field(name)) else if name in k.counters then Some(Call(name)) else None
      case Operator(_) => None
  }

  function Arity(op: Op): nat {
    if op.ReadReg? then 1 else 2
  }

  function Binary(t: CType, id: nat, o: COp, a: Atom, b: Atom): seq<Stmt> {
    [Let(t, id, Bin(o, Use(a), Use(b)))]
  }

  /** Copies of both operands, and then an expression over the copies. */
  function Guarded(t: CType, id: nat, a: Atom, b: Atom, x: Expr): seq<Stmt> {
    [Let(t, id, Use(a)), Let(t, id + 1, Use(b)), Let(t, id + 2, x)]
  }

  function DivideBy(num: Expr, den: Expr): Expr {
    Cond(den, Bin(Div, num, den), ZERO())
  }

  /** The statements for one operator; a is the operand that was pushed first. */
  function Emit(op: Op, id: nat, a: Atom, b: Atom): (code: seq<Stmt>)
    ensures |code| == if op.FDiv? || op.FMax? || op.UDiv? then 3 else 1
  {
    match op
    case FAdd => Binary(CDouble, id, Add, a, b)
    case FSub => Binary(CDouble, id, Sub, a, b)
    case FMul => Binary(CDouble, id, Mul, a, b)
    case FDiv => Guarded(CDouble, id, a, b, DivideBy(Use(Temp(id)), Use(Temp(id + 1))))
    case FMax => Guarded(CDouble, id, a, b,
                         Cond(Bin(Greater, Use(Temp(id)), Use(Temp(id + 1))), Use(Temp(id)), Use(Temp(id + 1))))
    case UAdd => Binary(UInt64, id, Add, a, b)
    case USub => Binary(UInt64, id, Sub, a, b)
    case UMul => Binary(UInt64, id, Mul, a, b)
    case UDiv => Guarded(UInt64, id, a, b, DivideBy(Use(Temp(id)), Use(Temp(id + 1))))
    case UMin => [Let(UInt64, id, Cond(Bin(Less, Use(a), Use(b)), Use(a), Use(b)))]
    case ShiftLeft => Binary(UInt64, id, Shl, a, b)
    case ShiftRight => Binary(UInt64, id, Shr, a, b)
    case And => Binary(UInt64, id, BitAnd, a, b)
    case Read => [Let(UInt64, id, Element(PartOf(a), Use(b)))]
    case ReadReg => [Let(UInt64, id, ZERO())]
  }

  /** The text before `_offset`; only a word of the equation makes it a member of the metric set. */
  function PartOf(a: Atom): string {
    if a.Identifier? then a.w else ""
  }

  function CompileOp(k: Names, s: Compiled, op: Op): Option<Compiled> {
    var n := |s.stack|;
    if n < Arity(op) then None
    else
      var b :- Resolve(k, s.stack[n - 1]);
      var a :- if op.ReadReg? then Some(b) else Resolve(k, s.stack[n - 2]);
      var code := Emit(op, s.next, a, b);
      Some(Compiled(s.stack[..n - Arity(op)] + [Result(s.next + |code| - 1)], s.code + code, s.next + |code|))
  }

  function CompileToken(k: Names, s: Compiled, t: Token): Option<Compiled> {
    if t.Operator? then CompileOp(k, s, t.op) else Some(s.(stack := s.stack + [Pending(t)]))
  }

  function CompileTokens(k: Names, tokens: seq<Token>): Option<Compiled> {
    if tokens == [] then Some(Compiled([], [], 0))
    else
      var s :- CompileTokens(k, tokens[..|tokens| - 1]);
      CompileToken(k, s, tokens[|tokens| - 1])
  }

  /** The statements and the operand to return.  A lone variable that is not known is returned as it is. */
  function CompileEquation(k: Names, tokens: seq<Token>): Option<(seq<Stmt>, Atom)> {
    var s :- CompileTokens(k, tokens);
    if |s.stack| != 1 then None
    else
      var r := Resolve(k, s.stack[0]);
      Some((s.code, if r.Some? then r.value else Identifier("$")))
  }

  /** Calling the generated function. */
  function CallCompiled(e: Env, k: Names, tokens: seq<Token>): Option<Value> {
    var (code, r) :- CompileEquation(k, tokens);
    var store :- RunCode(e, [], code);
    EvalAtom(e, store, r)
  }

  // ---------------------------------------------------------------- the statements of one operator

  lemma RunOne(e: Env, store: seq<Value>, s: Stmt)
    ensures RunCode(e, store, [s]) == RunStmt(e, store, s)
  {
    assert [s][..0] == [];
    assert RunCode(e, store, []) == Some(store);
  }

  lemma {:induction false} RunSum(e: Env, store: seq<Value>, a: seq<Stmt>, b: seq<Stmt>)
    ensures RunCode(e, store, a + b) ==
              if RunCode(e, store, a).None? then None else RunCode(e, RunCode(e, store, a).value, b)
  {
    hide RunStmt;
    if b == [] {
      assert a + b == a;
    } else {
      var n := |b| - 1;
      RunSum(e, store, a, b[..n]);
      assert (a + b)[..|a + b| - 1] == a + b[..n];
    }
  }

  lemma RunGuarded(e: Env, store: seq<Value>, t: CType, a: Atom, b: Atom, x: Expr)
    requires EvalAtom(e, store, a).Some? && EvalAtom(e, store, b).Some?
    ensures var va, vb := EvalAtom(e, store, a).value, EvalAtom(e, store, b).value;
            RunCode(e, store, Guarded(t, |store|, a, b, x))
            == RunStmt(e, store + [Convert(e.d, t, va), Convert(e.d, t, vb)], Let(t, |store| + 2, x))
  {
    hide Convert;
    var id := |store|;
    var s1, s2, s3 := Let(t, id, Use(a)), Let(t, id + 1, Use(b)), Let(t, id + 2, x);
    assert Guarded(t, id, a, b, x) == ([s1] + [s2]) + [s3];
    RunSum(e, store, [s1] + [s2], [s3]);
    RunSum(e, store, [s1], [s2]);
    RunOne(e, store, s1);
    var store1 := store + [Convert(e.d, t, EvalAtom(e, store, a).value)];
    RunOne(e, store1, s2);
    assert EvalAtom(e, store1, b) == EvalAtom(e, store, b);
    var store2 := store1 + [Convert(e.d, t, EvalAtom(e, store, b).value)];
    RunOne(e, store2, s3);
    assert store2 == store + [Convert(e.d, t, EvalAtom(e, store, a).value),
                              Convert(e.d, t, EvalAtom(e, store, b).value)];
  }

  /** They leave the operator's value in the last temporary they declare. */
  ghost predicate Leaves(store: seq<Value>, after: Option<seq<Value>>, n: nat, v: Option<Value>) {
    if v.None? then after.None?
    else after.Some? && |after.value| == |store| + n && n > 0 && store <= after.value
         && after.value[|store| + n - 1] == v.value
  }

  lemma EvalUse(e: Env, store: seq<Value>, a: Atom)
    ensures EvalExpr(e, store, Use(a)) == EvalAtom(e, store, a)
  {
  }

  lemma EvalBin(e: Env, store: seq<Value>, o: COp, a: Atom, b: Atom)
    requires EvalAtom(e, store, a).Some? && EvalAtom(e, store, b).Some?
    ensures EvalExpr(e, store, Bin(o, Use(a), Use(b)))
         == Arith(e.d, o, EvalAtom(e, store, a).value, EvalAtom(e, store, b).value)
  {
    hide Arith, EvalAtom;
    EvalUse(e, store, a);
    EvalUse(e, store, b);
  }

  function Truth(d: Doubles, v: Value): bool {
    if v.U64? then v.n != 0 else !d.zero(v.bits)
  }

  /** c ? t : f, where the arms have the given types. */
  lemma EvalCond(e: Env, store: seq<Value>, c: Expr, t: Expr, f: Expr, v: Value)
    requires EvalExpr(e, store, c) == Some(v)
    ensures EvalExpr(e, store, Cond(c, t, f)) ==
              var w := EvalExpr(e, store, if Truth(e.d, v) then t else f);
              if w.None? then None
              else Some(Convert(e.d,
                                if StaticType(e, store, t).CDouble? || StaticType(e, store, f).CDouble?
                                then CDouble else UInt64,
                                w.value))
  {
    hide Convert, EvalAtom;
  }

  lemma TypeOfUse(e: Env, store: seq<Value>, a: Atom)
    requires EvalAtom(e, store, a).Some?
    ensures StaticType(e, store, Use(a)) == TypeOf(EvalAtom(e, store, a).value)
  {
  }

  lemma TypeOfBin(e: Env, store: seq<Value>, o: COp, a: Atom, b: Atom)
    requires EvalAtom(e, store, a).Some? && EvalAtom(e, store, b).Some? && !o.Less? && !o.Greater?
    ensures StaticType(e, store, Bin(o, Use(a), Use(b)))
         == if EvalAtom(e, store, a).value.Double? || EvalAtom(e, store, b).value.Double? then CDouble else UInt64
  {
    hide EvalAtom;
    TypeOfUse(e, store, a);
    TypeOfUse(e, store, b);
  }

  lemma EmitBinary(e: Env, store: seq<Value>, t: CType, o: COp, a: Atom, b: Atom)
    requires EvalAtom(e, store, a).Some? && EvalAtom(e, store, b).Some?
    ensures var v := Arith(e.d, o, EvalAtom(e, store, a).value, EvalAtom(e, store, b).value);
            Leaves(store, RunCode(e, store, Binary(t, |store|, o, a, b)), 1,
                   if v.None? then None else Some(Convert(e.d, t, v.value)))
  {
    hide Arith, Convert, EvalAtom, RunCode, EvalExpr;
    RunOne(e, store, Let(t, |store|, Bin(o, Use(a), Use(b))));
    EvalBin(e, store, o, a, b);
  }

  /** num ? ... over the two copies, which have the same type. */
  lemma EvalDivide(e: Env, store: seq<Value>, a: Atom, b: Atom)
    requires EvalAtom(e, store, a).Some? && EvalAtom(e, store, b).Some?
    requires TypeOf(EvalAtom(e, store, a).value) == TypeOf(EvalAtom(e, store, b).value)
    ensures var x, y := EvalAtom(e, store, a).value, EvalAtom(e, store, b).value;
            EvalExpr(e, store, DivideBy(Use(a), Use(b))) ==
            Some(if x.U64? then U64(if y.n == 0 then 0 else Quotient(x.n, y.n))
                 else Double(if e.d.zero(y.bits) then e.d.fromInt(0) else e.d.div(x.bits, y.bits)))
  {
    hide EvalAtom, EvalExpr, StaticType;
    EvalUse(e, store, b);
    EvalUse(e, store, Constant(U64(0)));
    assert EvalAtom(e, store, Constant(U64(0))) == Some(U64(0)) by { EvalConstant(e, store, U64(0)); }
    EvalBin(e, store, Div, a, b);
    TypeOfBin(e, store, Div, a, b);
    TypeOfUse(e, store, Constant(U64(0)));
    EvalCond(e, store, Use(b), Bin(Div, Use(a), Use(b)), ZERO(), EvalAtom(e, store, b).value);
  }

  lemma EvalConstant(e: Env, store: seq<Value>, v: Value)
    ensures EvalAtom(e, store, Constant(v)) == Some(v)
  {
  }

  lemma EvalChoice(e: Env, store: seq<Value>, o: COp, a: Atom, b: Atom)
    requires EvalAtom(e, store, a).Some? && EvalAtom(e, store, b).Some? && (o.Less? || o.Greater?)
    ensures var x, y := EvalAtom(e, store, a).value, EvalAtom(e, store, b).value;
            EvalExpr(e, store, Cond(Bin(o, Use(a), Use(b)), Use(a), Use(b))) ==
            Some(Convert(e.d, if x.Double? || y.Double? then CDouble else UInt64,
                         if Truth(e.d, Arith(e.d, o, x, y).value) then x else y))
  {
    hide EvalAtom, EvalExpr, StaticType, Convert;
    EvalUse(e, store, a);
    EvalUse(e, store, b);
    EvalBin(e, store, o, a, b);
    TypeOfUse(e, store, a);
    TypeOfUse(e, store, b);
    EvalCond(e, store, Bin(o, Use(a), Use(b)), Use(a), Use(b),
             Arith(e.d, o, EvalAtom(e, store, a).value, EvalAtom(e, store, b).value).value);
  }

  lemma EvalTemp(e: Env, store: seq<Value>, id: nat)
    requires id < |store|
    ensures EvalAtom(e, store, Temp(id)) == Some(store[id])
  {
  }

  lemma EmitGuarded(e: Env, store: seq<Value>, op: Op, a: Atom, b: Atom)
    requires EvalAtom(e, store, a).Some? && EvalAtom(e, store, b).Some? && (op.FDiv? || op.FMax? || op.UDiv?)
    ensures Leaves(store, RunCode(e, store, Emit(op, |store|, a, b)), 3,
                   Apply(e.d, op, EvalAtom(e, store, a).value, EvalAtom(e, store, b).value))
  {
    hide RunCode, EvalExpr, EvalAtom, Wrap64;
    var va, vb := EvalAtom(e, store, a).value, EvalAtom(e, store, b).value;
    var id, t := |store|, if op.UDiv? then UInt64 else CDouble;
    var x := Emit(op, id, a, b)[2].e;
    RunGuarded(e, store, t, a, b, x);
    var store2 := store + [Convert(e.d, t, va), Convert(e.d, t, vb)];
    assert store2[id] == Convert(e.d, t, va) && store2[id + 1] == Convert(e.d, t, vb);
    EvalTemp(e, store2, id);
    EvalTemp(e, store2, id + 1);
    if op.FMax? {
      EvalChoice(e, store2, Greater, Temp(id), Temp(id + 1));
    } else {
      EvalDivide(e, store2, Temp(id), Temp(id + 1));
    }
  }

  lemma EmitMin(e: Env, store: seq<Value>, a: Atom, b: Atom)
    requires EvalAtom(e, store, a).Some? && EvalAtom(e, store, b).Some?
    ensures Leaves(store, RunCode(e, store, Emit(UMin, |store|, a, b)), 1,
                   Apply(e.d, UMin, EvalAtom(e, store, a).value, EvalAtom(e, store, b).value))
  {
    hide EvalAtom, Wrap64, RunCode, EvalExpr;
    EvalChoice(e, store, Less, a, b);
    RunOne(e, store, Emit(UMin, |store|, a, b)[0]);
  }

  /** For every operator on two values, the statements emitted for it compute it. */
  lemma EmitComputes(e: Env, store: seq<Value>, op: Op, a: Atom, b: Atom)
    requires EvalAtom(e, store, a).Some? && EvalAtom(e, store, b).Some? && !op.Read? && !op.ReadReg?
    ensures Leaves(store, RunCode(e, store, Emit(op, |store|, a, b)), |Emit(op, |store|, a, b)|,
                   Apply(e.d, op, EvalAtom(e, store, a).value, EvalAtom(e, store, b).value))
  {
    hide EvalAtom, RunCode, Leaves;
    var va, vb := EvalAtom(e, store, a).value, EvalAtom(e, store, b).value;
    if op.FDiv? || op.FMax? || op.UDiv? {
      EmitGuarded(e, store, op, a, b);
    } else if op.UMin? {
      EmitMin(e, store, a, b);
    } else {
      var o := if op.FAdd? || op.UAdd? then Add else if op.FSub? || op.USub? then Sub
               else if op.FMul? || op.UMul? then Mul
               else if op.ShiftLeft? then Shl else if op.ShiftRight? then Shr else BitAnd;
      EmitBinary(e, store, if op.FAdd? || op.FSub? || op.FMul? then CDouble else UInt64, o, a, b);
    }
  }

  // ---------------------------------------------------------------- the compiler keeps to the meaning

  /** The names are those the environment knows; no part of the accumulator is without a name. */
  predicate Fitting(e: Env, k: Names) {
    e.hw.Keys == k.hw && e.counters.Keys == k.counters && "" !in e.offsets
  }

  /** What a stack entry of the compiler stands for when the statements so far have run. */
  function Meaning(e: Env, k: Names, store: seq<Value>, p: Pushed): Option<Item> {
    match p
    case Pending(Word(w)) => Some(Name(w))
    case _ =>
      var a :- Resolve(k, p);
      var v :- EvalAtom(e, store, a);
      Some(Val(v))
  }

  function Meanings(e: Env, k: Names, store: seq<Value>, s: seq<Pushed>): Option<seq<Item>> {
    if s == [] then Some([])
    else
      var before :- Meanings(e, k, store, s[..|s| - 1]);
      var x :- Meaning(e, k, store, s[|s| - 1]);
      Some(before + [x])
  }

  /** Compiling, running, and then reading off the stack. */
  function Combined(e: Env, k: Names, c: Option<Compiled>): Option<seq<Item>> {
    var s :- c;
    var store :- RunCode(e, [], s.code);
    Meanings(e, k, store, s.stack)
  }

  ghost predicate InOrder(c: Compiled) {
    && c.next == |c.code|
    && (forall i :: 0 <= i < |c.code| ==> c.code[i].id == i)
    && (forall i :: 0 <= i < |c.stack| && c.stack[i].Result? ==> c.stack[i].id < c.next)
    && (forall i :: 0 <= i < |c.stack| && c.stack[i].Pending? ==> !c.stack[i].t.Operator?)
  }

  lemma {:induction false} RunLength(e: Env, code: seq<Stmt>)
    ensures RunCode(e, [], code).Some? ==> |RunCode(e, [], code).value| == |code|
  {
    hide EvalExpr, Convert;
    if code != [] {
      RunLength(e, code[..|code| - 1]);
    }
  }

  /** Stack entries mean the same when more statements have run. */
  lemma {:induction false} MeaningsKept(e: Env, k: Names, store: seq<Value>, more: seq<Value>, s: seq<Pushed>)
    requires forall i :: 0 <= i < |s| && s[i].Result? ==> s[i].id < |store|
    ensures Meanings(e, k, store + more, s) == Meanings(e, k, store, s)
  {
    if s != [] {
      MeaningsKept(e, k, store, more, s[..|s| - 1]);
    }
  }

  lemma {:induction false} MeaningsLength(e: Env, k: Names, store: seq<Value>, s: seq<Pushed>)
    ensures Meanings(e, k, store, s).Some? ==> |Meanings(e, k, store, s).value| == |s|
  {
    hide Meaning;
    if s != [] {
      MeaningsLength(e, k, store, s[..|s| - 1]);
    }
  }

  /** The top of the stack, and the rest of it. */
  lemma MeaningsPop(e: Env, k: Names, store: seq<Value>, s: seq<Pushed>)
    requires s != []
    ensures var m, rest, top := Meanings(e, k, store, s), Meanings(e, k, store, s[..|s| - 1]),
                                Meaning(e, k, store, s[|s| - 1]);
            && (m.Some? <==> rest.Some? && top.Some?)
            && (m.Some? ==> |m.value| == |s| && m.value[|s| - 1] == top.value && m.value[..|s| - 1] == rest.value)
  {
    hide Meaning;
    MeaningsLength(e, k, store, s);
    MeaningsLength(e, k, store, s[..|s| - 1]);
  }

  lemma MeaningsPush(e: Env, k: Names, store: seq<Value>, s: seq<Pushed>, p: Pushed)
    ensures Meanings(e, k, store, s + [p]) ==
              if Meanings(e, k, store, s).None? || Meaning(e, k, store, p).None? then None
              else Some(Meanings(e, k, store, s).value + [Meaning(e, k, store, p).value])
  {
    hide Meaning;
    assert (s + [p])[..|s|] == s;
  }

  /** What an operand pushes. */
  function Operand(e: Env, t: Token): Option<Item> {
    match t
    case Literal(v) => Some(Val(v))
    case Word(w) => Some(Name(w))
    case Variable(name) => var v :- Lookup(e, name); Some(Val(v))
    case Operator(_) => None
  }

  lemma TokenKept(e: Env, k: Names, c: Compiled, t: Token)
    requires Fitting(e, k) && InOrder(c) && !t.Operator?
    ensures CompileToken(k, c, t).Some? && InOrder(CompileToken(k, c, t).value)
    ensures Combined(e, k, CompileToken(k, c, t)) ==
              var s := Combined(e, k, Some(c));
              if s.None? || Operand(e, t).None? then None else Some(s.value + [Operand(e, t).value])
  {
    hide RunCode, Meanings;
    if RunCode(e, [], c.code).Some? {
      MeaningsPush(e, k, RunCode(e, [], c.code).value, c.stack, Pending(t));
    }
  }

  predicate Declared(a: Atom, store: seq<Value>) {
    a.Temp? ==> a.id < |store|
  }

  lemma EvalBinFails(e: Env, store: seq<Value>, o: COp, a: Atom, b: Atom)
    requires EvalAtom(e, store, a).None? || EvalAtom(e, store, b).None?
    ensures EvalExpr(e, store, Bin(o, Use(a), Use(b))).None?
  {
    hide Arith, EvalAtom;
    EvalUse(e, store, a);
    EvalUse(e, store, b);
  }

  lemma EvalCondFails(e: Env, store: seq<Value>, c: Expr, t: Expr, f: Expr)
    requires EvalExpr(e, store, c).None?
    ensures EvalExpr(e, store, Cond(c, t, f)).None?
  {
  }

  /** With an operand that is no value the statements are not C. */
  lemma EmitFails(e: Env, store: seq<Value>, op: Op, a: Atom, b: Atom)
    requires EvalAtom(e, store, a).None? || EvalAtom(e, store, b).None?
    requires Declared(a, store) && Declared(b, store) && !op.Read? && !op.ReadReg?
    ensures RunCode(e, store, Emit(op, |store|, a, b)).None?
  {
    hide EvalAtom, RunCode, Arith, StaticType, Convert, EvalExpr;
    var code := Emit(op, |store|, a, b);
    EvalUse(e, store, a);
    EvalUse(e, store, b);
    if op.FDiv? || op.FMax? || op.UDiv? {
      GuardedFails(e, store, code[0].t, a, b, code[2].e);
    } else if op.UMin? {
      EvalBinFails(e, store, Less, a, b);
      EvalCondFails(e, store, Bin(Less, Use(a), Use(b)), Use(a), Use(b));
      RunOne(e, store, code[0]);
    } else {
      EvalBinFails(e, store, code[0].e.o, a, b);
      RunOne(e, store, code[0]);
    }
  }

  lemma GuardedFails(e: Env, store: seq<Value>, t: CType, a: Atom, b: Atom, x: Expr)
    requires EvalAtom(e, store, a).None? || EvalAtom(e, store, b).None?
    requires Declared(a, store) && Declared(b, store)
    ensures RunCode(e, store, Guarded(t, |store|, a, b, x)).None?
  {
    hide RunCode, Convert, EvalExpr;
    var id := |store|;
    var s1, s2, s3 := Let(t, id, Use(a)), Let(t, id + 1, Use(b)), Let(t, id + 2, x);
    assert Guarded(t, id, a, b, x) == ([s1] + [s2]) + [s3];
    RunSum(e, store, [s1] + [s2], [s3]);
    RunSum(e, store, [s1], [s2]);
    RunOne(e, store, s1);
    EvalUse(e, store, a);
    if EvalAtom(e, store, a).Some? {
      var store1 := store + [Convert(e.d, t, EvalAtom(e, store, a).value)];
      RunOne(e, store1, s2);
      EvalUse(e, store1, b);
    }
  }

  // ---------------------------------------------------------------- one operator

  /** The atom a is how the stack entry m is written. */
  predicate Stands(e: Env, store: seq<Value>, a: Atom, m: Item) {
    && Declared(a, store)
    && (if m.Name? then a == Identifier(m.w) else EvalAtom(e, store, a) == Some(m.v) && !a.Identifier?)
  }

  lemma ResolvedMeans(e: Env, k: Names, c: Compiled, store: seq<Value>, i: nat)
    requires Fitting(e, k) && InOrder(c) && |store| == c.next && i < |c.stack|
    ensures var a, m := Resolve(k, c.stack[i]), Meaning(e, k, store, c.stack[i]);
            (a.None? <==> m.None?) && (a.Some? ==> Stands(e, store, a.value, m.value))
  {
  }

  /** The compiled operator and the operator of the equation, from related stacks. */
  lemma OperatorKept(e: Env, k: Names, c: Compiled, op: Op)
    requires Fitting(e, k) && InOrder(c)
    ensures CompileToken(k, c, Operator(op)).Some? ==> InOrder(CompileToken(k, c, Operator(op)).value)
    ensures Combined(e, k, CompileToken(k, c, Operator(op))) ==
              var s := Combined(e, k, Some(c)); if s.None? then None else Operate(e, op, s.value)
  {
    hide RunCode, Meanings, Emit, Operate, Resolve;
    var n := |c.stack|;
    var run := RunCode(e, [], c.code);
    RunLength(e, c.code);
    if n >= Arity(op) {
      CompiledInOrder(k, c, op);
      if run.Some? {
        MeaningsLength(e, k, run.value, c.stack);
        OperatorRuns(e, k, c, run.value, op);
      } else if CompileOp(k, c, op).Some? {
        RunSum(e, [], c.code, CompileOp(k, c, op).value.code[|c.code|..]);
      }
    } else {
      if run.Some? { MeaningsLength(e, k, run.value, c.stack); }
      TooFew(e, op, n);
    }
  }

  lemma TooFew(e: Env, op: Op, n: nat)
    requires n < Arity(op)
    ensures forall s: seq<Item> :: |s| == n ==> Operate(e, op, s).None?
  {
  }

  lemma CompiledInOrder(k: Names, c: Compiled, op: Op)
    requires InOrder(c) && |c.stack| >= Arity(op)
    ensures CompileOp(k, c, op).Some? ==> InOrder(CompileOp(k, c, op).value)
  {
    hide Resolve;
  }

  /** The value of an operator, from its operands as they are on the stack. */
  function Outcome(e: Env, op: Op, x: Item, y: Item): Option<Value> {
    if op.ReadReg? then Some(U64(0))
    else if y.Name? then None
    else if op.Read? then (if x.Val? then None else Entry(e, x.w, y.v))
    else if x.Name? then None
    else Apply(e.d, op, x.v, y.v)
  }

  lemma OperateIs(e: Env, op: Op, s: seq<Item>)
    requires |s| >= Arity(op)
    ensures var n := |s|;
            var v := Outcome(e, op, if op.ReadReg? then s[n - 1] else s[n - 2], s[n - 1]);
            Operate(e, op, s) == if v.None? then None else Some(s[..n - Arity(op)] + [Val(v.value)])
  {
    hide Apply, Entry;
  }

  lemma EmitOutcome(e: Env, k: Names, store: seq<Value>, op: Op, a: Atom, b: Atom, x: Item, y: Item)
    requires Fitting(e, k) && Stands(e, store, a, x) && Stands(e, store, b, y)
    ensures Leaves(store, RunCode(e, store, Emit(op, |store|, a, b)), |Emit(op, |store|, a, b)|, Outcome(e, op, x, y))
  {
    hide RunCode, Leaves, Apply, Emit, EvalExpr, Entry;
    if op.Read? || op.ReadReg? {
      EmitRead(e, k, store, op, a, b, x, y);
    } else if x.Name? || y.Name? {
      assert EvalAtom(e, store, a).None? || EvalAtom(e, store, b).None?;
      EmitFails(e, store, op, a, b);
      assert Leaves(store, None, |Emit(op, |store|, a, b)|, None)
        by { LeavesNothing(store, |Emit(op, |store|, a, b)|); }
    } else {
      EmitComputes(e, store, op, a, b);
    }
  }

  lemma LeavesNothing(store: seq<Value>, n: nat)
    ensures Leaves(store, None, n, None)
  {
  }

  lemma EmitRead(e: Env, k: Names, store: seq<Value>, op: Op, a: Atom, b: Atom, x: Item, y: Item)
    requires Fitting(e, k) && Stands(e, store, a, x) && Stands(e, store, b, y) && (op.Read? || op.ReadReg?)
    ensures Leaves(store, RunCode(e, store, Emit(op, |store|, a, b)), 1, Outcome(e, op, x, y))
  {
    hide RunCode, Wrap64;
    RunOne(e, store, Emit(op, |store|, a, b)[0]);
    EvalUse(e, store, b);
    EvalUse(e, store, Constant(U64(0)));
  }

  lemma OperatorRuns(e: Env, k: Names, c: Compiled, store: seq<Value>, op: Op)
    requires Fitting(e, k) && InOrder(c) && |c.stack| >= Arity(op) && RunCode(e, [], c.code) == Some(store)
    requires |store| == c.next
    ensures Combined(e, k, CompileOp(k, c, op)) ==
              var s := Meanings(e, k, store, c.stack); if s.None? then None else Operate(e, op, s.value)
  {
    hide RunCode, Meanings, Meaning, Resolve, Emit, Operate, Outcome, Leaves;
    var n := |c.stack|;
    var m := Meanings(e, k, store, c.stack);
    MeaningsPop(e, k, store, c.stack);
    ResolvedMeans(e, k, c, store, n - 1);
    if !op.ReadReg? {
      MeaningsPop(e, k, store, c.stack[..n - 1]);
      ResolvedMeans(e, k, c, store, n - 2);
      assert c.stack[..n - 1][..n - 2] == c.stack[..n - 2];
    }
    if CompileOp(k, c, op).Some? {
      var b := Resolve(k, c.stack[n - 1]).value;
      var a := if op.ReadReg? then b else Resolve(k, c.stack[n - 2]).value;
      var y := Meaning(e, k, store, c.stack[n - 1]).value;
      var x := if op.ReadReg? then y else Meaning(e, k, store, c.stack[n - 2]).value;
      EmitOutcome(e, k, store, op, a, b, x, y);
      RunSum(e, [], c.code, Emit(op, c.next, a, b));
      PushOutcome(e, k, c, store, op, Emit(op, c.next, a, b), Outcome(e, op, x, y));
      if m.Some? {
        OperateIs(e, op, m.value);
        if !op.ReadReg? { assert m.value[..n - 1][..n - 2] == m.value[..n - 2]; }
      }
    }
  }

  /** The rest of the stack stays, and the last temporary goes on top. */
  lemma PushOutcome(e: Env, k: Names, c: Compiled, store: seq<Value>, op: Op, code: seq<Stmt>, v: Option<Value>)
    requires InOrder(c) && |c.stack| >= Arity(op) && |store| == c.next
    requires Leaves(store, RunCode(e, store, code), |code|, v) && |code| > 0
    ensures v.None? ==> RunCode(e, store, code).None?
    ensures v.Some? ==>
              && RunCode(e, store, code).Some?
              && (var rest := c.stack[..|c.stack| - Arity(op)];
                  var m := Meanings(e, k, store, rest);
                  Meanings(e, k, RunCode(e, store, code).value, rest + [Result(c.next + |code| - 1)])
                  == if m.None? then None else Some(m.value + [Val(v.value)]))
  {
    hide RunCode, Meanings;
    if v.Some? {
      var after := RunCode(e, store, code).value;
      var rest := c.stack[..|c.stack| - Arity(op)];
      assert after == store + after[|store|..];
      MeaningsKept(e, k, store, after[|store|..], rest);
      MeaningsPush(e, k, after, rest, Result(c.next + |code| - 1));
    }
  }

  // ---------------------------------------------------------------- whole equations

  /** However far the compiler has come: what its stack means, once the statements so far have run, is the
      stack of the equation's own evaluation - or both have failed. */
  lemma {:induction false} CompilerSimulates(e: Env, k: Names, tokens: seq<Token>)
    requires Fitting(e, k)
    ensures CompileTokens(k, tokens).Some? ==> InOrder(CompileTokens(k, tokens).value)
    ensures Combined(e, k, CompileTokens(k, tokens)) == Evaluate(e, tokens)
  {
    hide CompileToken, InOrder, RunStmt, Operate, Fitting;
    if tokens == [] {
      StartsInOrder(e, k);
    } else {
      var before, t := tokens[..|tokens| - 1], tokens[|tokens| - 1];
      CompilerSimulates(e, k, before);
      var c := CompileTokens(k, before);
      if c.Some? {
        if t.Operator? { OperatorKept(e, k, c.value, t.op); } else { TokenKept(e, k, c.value, t); }
      }
    }
  }

  lemma StartsInOrder(e: Env, k: Names)
    ensures InOrder(Compiled([], [], 0)) && Combined(e, k, Some(Compiled([], [], 0))) == Some([])
  {
  }

  /** Calling the generated function gives the value of the equation; where one of them has none - a variable
      is not known, the stack runs empty, something is left over, or C leaves it undefined - neither has the
      other. */
  lemma CompiledComputes(e: Env, k: Names, tokens: seq<Token>)
    requires Fitting(e, k)
    ensures CallCompiled(e, k, tokens) == ValueOf(e, tokens)
  {
    hide RunCode, Evaluate, CompileTokens;
    CompilerSimulates(e, k, tokens);
    var c := CompileTokens(k, tokens);
    if c.Some? && |c.value.stack| == 1 && RunCode(e, [], c.value.code).Some? {
      var store := RunCode(e, [], c.value.code).value;
      RunLength(e, c.value.code);
      ResolvedMeans(e, k, c.value, store, 0);
      MeaningsPop(e, k, store, c.value.stack);
    } else if c.Some? && RunCode(e, [], c.value.code).Some? {
      MeaningsLength(e, k, RunCode(e, [], c.value.code).value, c.value.stack);
    }
  }

  // ---------------------------------------------------------------- single assignment

  predicate AtomBelow(a: Atom, n: nat) {
    a.Temp? ==> a.id < n
  }

  predicate Below(x: Expr, n: nat) {
    match x
    case Use(a) => AtomBelow(a, n)
    case Bin(_, l, r) => Below(l, n) && Below(r, n)
    case Cond(c, t, f) => Below(c, n) && Below(t, n) && Below(f, n)
    case Element(_, i) => Below(i, n)
  }

  /** Each temporary is declared once, and used only after that. */
  ghost predicate SingleAssignment(code: seq<Stmt>) {
    forall i :: 0 <= i < |code| ==> code[i].id == i && Below(code[i].e, i)
  }

  lemma EmitSingle(op: Op, id: nat, a: Atom, b: Atom)
    requires AtomBelow(a, id) && AtomBelow(b, id)
    ensures var code := Emit(op, id, a, b);
            forall i :: 0 <= i < |code| ==> code[i].id == id + i && Below(code[i].e, id + i)
  {
    var code := Emit(op, id, a, b);
    assert Below(Use(a), id) && Below(Use(b), id) && Below(Use(a), id + 1) && Below(Use(b), id + 1);
    if |code| == 3 {
      var x, y := Use(Temp(id)), Use(Temp(id + 1));
      assert Below(x, id + 2) && Below(y, id + 2) && Below(ZERO(), id + 2);
      assert Below(Bin(Div, x, y), id + 2) && Below(Bin(Greater, x, y), id + 2);
      assert Below(code[2].e, id + 2);
    } else {
      assert Below(Bin(Less, Use(a), Use(b)), id);
    }
  }

  lemma {:induction false} CodeIsSingle(k: Names, tokens: seq<Token>)
    ensures var c := CompileTokens(k, tokens); c.Some? ==> InOrder(c.value) && SingleAssignment(c.value.code)
  {
    hide Emit, Below, Resolve;
    if tokens != [] {
      var before, t := tokens[..|tokens| - 1], tokens[|tokens| - 1];
      CodeIsSingle(k, before);
      var c := CompileTokens(k, before);
      if c.Some? && t.Operator? && CompileOp(k, c.value, t.op).Some? {
        CompiledInOrder(k, c.value, t.op);
        OpIsSingle(k, c.value, t.op);
      }
    }
  }

  lemma OpIsSingle(k: Names, c: Compiled, op: Op)
    requires InOrder(c) && SingleAssignment(c.code) && CompileOp(k, c, op).Some?
    ensures SingleAssignment(CompileOp(k, c, op).value.code)
  {
    hide Emit, Below;
    var n := |c.stack|;
    var b := Resolve(k, c.stack[n - 1]).value;
    var a := if op.ReadReg? then b else Resolve(k, c.stack[n - 2]).value;
    EmitSingle(op, c.next, a, b);
  }

  /** In the code of an equation each temporary is assigned once and before its use, and what is returned is
      one of them or an operand of the equation. */
  lemma EquationIsSingle(k: Names, tokens: seq<Token>)
    ensures var r := CompileEquation(k, tokens);
            r.Some? ==> SingleAssignment(r.value.0) && AtomBelow(r.value.1, |r.value.0|)
  {
    hide SingleAssignment, CompileTokens;
    CodeIsSingle(k, tokens);
  }

  // ---------------------------------------------------------------- the loop over the tokens

  /** output_rpn_equation_code: one pass over the tokens, with the stack and the counter of temporaries. */
  method OutputRpnEquation(k: Names, tokens: seq<Token>) returns (ok: bool, code: seq<Stmt>, value: Atom)
    ensures CompileEquation(k, tokens) == if ok then Some((code, value)) else None
  {
    hide CompileToken, Resolve;
    ok, code, value := false, [], Identifier("$");
    var s := Compiled([], [], 0);
    for i := 0 to |tokens|
      invariant CompileTokens(k, tokens[..i]) == Some(s)
    {
      assert tokens[..i + 1][..i] == tokens[..i];
      var more, next := PushToken(k, s, tokens[i]);
      if !more {
        FailsForGood(k, tokens, i + 1);
        return;
      }
      s := next;
    }
    assert tokens[..|tokens|] == tokens;
    if |s.stack| != 1 {
      return;
    }
    ok, code := true, s.code;
    var r := Resolve(k, s.stack[0]);
    if r.Some? {
      value := r.value;
    }
  }

  /** A token goes on the stack; an operator is taken off again at once, together with its operands. */
  method PushToken(k: Names, s: Compiled, t: Token) returns (ok: bool, next: Compiled)
    ensures CompileToken(k, s, t) == if ok then Some(next) else None
  {
    hide Emit, Resolve;
    ok, next := false, s;
    if !t.Operator? {
      return true, s.(stack := s.stack + [Pending(t)]);
    }
    var stack, args := s.stack, [];
    var argc := Arity(t.op);
    for i := 0 to argc
      invariant |args| == i <= |s.stack| && stack == s.stack[..|s.stack| - i]
      invariant forall j :: 0 <= j < i ==> Resolve(k, s.stack[|s.stack| - 1 - j]) == Some(args[j])
    {
      if stack == [] {
        return;
      }
      var operand := Resolve(k, stack[|stack| - 1]);
      if operand.None? {
        return;
      }
      stack, args := stack[..|stack| - 1], args + [operand.value];
    }
    var code := Emit(t.op, s.next, args[argc - 1], args[0]);
    return true, Compiled(stack + [Result(s.next + |code| - 1)], s.code + code, s.next + |code|);
  }

  lemma {:induction false} FailsForGood(k: Names, tokens: seq<Token>, i: nat)
    requires i <= |tokens| && CompileTokens(k, tokens[..i]).None?
    ensures CompileTokens(k, tokens).None?
    decreases |tokens| - i
  {
    if i < |tokens| {
      assert tokens[..i + 1][..i] == tokens[..i];
      FailsForGood(k, tokens, i + 1);
    } else {
      assert tokens[..i] == tokens;
    }
  }

  // ---------------------------------------------------------------- what is not as the names suggest

  /** Integers at least 2^64 apart, of which one is a 64-bit one, are different as doubles. */
  ghost predicate Separates(d: Doubles) {
    forall x, y: int {:trigger d.fromInt(x), d.fromInt(y)} ::
      0 <= x < OaCounters.U64 && (y <= x - OaCounters.U64 || x + OaCounters.U64 <= y) ==> d.fromInt(x) != d.fromInt(y)
  }

  predicate IsFloatArith(op: Op) {
    op.FAdd? || op.FSub? || op.FMul?
  }

  /** What the operator is for, on two counters. */
  function TrueResult(op: Op, a: nat, b: nat): int
    requires IsFloatArith(op)
  {
    if op.FAdd? then a + b else if op.FSub? then a - b else Product(a, b)
  }

  /** What an operator is meant to compute: on two counters a floating-point operator gives the double
      of the true result. */
  function Meant(d: Doubles, op: Op, a: Value, b: Value): Option<Value> {
    if IsFloatArith(op) && a.U64? && b.U64? then Some(Double(d.fromInt(TrueResult(op, a.n, b.n))))
    else Apply(d, op, a, b)
  }

  /** The true result is a 64-bit number without sign. */
  predicate InRange(op: Op, a: Value, b: Value) {
    IsFloatArith(op) && a.U64? && b.U64? ==> 0 <= TrueResult(op, a.n, b.n) < OaCounters.U64
  }

  lemma WrapAway(x: int)
    ensures 0 <= x < OaCounters.U64 ==> Wrap64(x) == x
    ensures Wrap64(x) < OaCounters.U64
    ensures x < 0 ==> x <= Wrap64(x) - OaCounters.U64
    ensures x >= OaCounters.U64 ==> Wrap64(x) + OaCounters.U64 <= x
  {
    assert x == x / OaCounters.U64 * OaCounters.U64 + Wrap64(x);
    if 0 <= x < OaCounters.U64 { WrapSmall(x); }
  }

  /** On any two values an operator computes what it is meant to, but for floating-point addition,
      subtraction and multiplication of two counters: these do so if and only if the sum is less than 2^64,
      the difference is not negative, or the product is less than 2^64. */
  lemma OperatorExact(d: Doubles, op: Op, a: Value, b: Value)
    requires Separates(d)
    ensures Apply(d, op, a, b) == Meant(d, op, a, b) <==> InRange(op, a, b)
    ensures a.U64? && b.U64? ==> (InRange(FAdd, a, b) <==> a.n + b.n < OaCounters.U64)
    ensures a.U64? && b.U64? && a.n < OaCounters.U64 ==> (InRange(FSub, a, b) <==> a.n >= b.n)
    ensures a.U64? && b.U64? ==> (InRange(FMul, a, b) <==> Product(a.n, b.n) < OaCounters.U64)
  {
    hide Wrap64, Product;
    if IsFloatArith(op) && a.U64? && b.U64? {
      var x := TrueResult(op, a.n, b.n);
      WrapAway(x);
      ApplyIs(d, op, a, b);
    }
  }

  lemma ApplyIs(d: Doubles, op: Op, a: Value, b: Value)
    requires IsFloatArith(op) && a.U64? && b.U64?
    ensures Apply(d, op, a, b) == Some(Double(d.fromInt(Wrap64(TrueResult(op, a.n, b.n)))))
  {
    hide Wrap64, Product;
  }

  /** Counters for which they do not: the sum becomes 0, -1 becomes 2^64 - 1, and the product 0. */
  lemma FloatArithWraps(d: Doubles)
    requires Separates(d)
    ensures var a, b := U64(0xffff_ffff_ffff_ffff), U64(1);
            Apply(d, FAdd, a, b) == Some(Double(d.fromInt(0))) != Meant(d, FAdd, a, b)
    ensures var a, b := U64(1), U64(2);
            Apply(d, FSub, a, b) == Some(Double(d.fromInt(0xffff_ffff_ffff_ffff))) != Meant(d, FSub, a, b)
    ensures var a, b := U64(0x1_0000_0000), U64(0x1_0000_0000);
            Apply(d, FMul, a, b) == Some(Double(d.fromInt(0))) != Meant(d, FMul, a, b)
  {
    OperatorExact(d, FAdd, U64(0xffff_ffff_ffff_ffff), U64(1));
    OperatorExact(d, FSub, U64(1), U64(2));
    OperatorExact(d, FMul, U64(0x1_0000_0000), U64(0x1_0000_0000));
    assert Wrap64(0xffff_ffff_ffff_ffff + 1) == 0 && Wrap64(1 - 2) == 0xffff_ffff_ffff_ffff;
    assert Wrap64(0x1_0000_0000 * 0x1_0000_0000) == 0;
  }

  // ---------------------------------------------------------------- what equations are meant to be

  /** The two values on top of the stack. */
  function TopTwo(s: seq<Item>): Option<(Value, Value)> {
    var n := |s|;
    if n >= 2 && s[n - 2].Val? && s[n - 1].Val? then Some((s[n - 2].v, s[n - 1].v)) else None
  }

  /** An operator on the stack, as it is meant. */
  function OperateMeant(e: Env, op: Op, s: seq<Item>): Option<seq<Item>> {
    if IsFloatArith(op) && TopTwo(s).Some? then
      var v :- Meant(e.d, op, TopTwo(s).value.0, TopTwo(s).value.1);
      Some(s[..|s| - 2] + [Val(v)])
    else Operate(e, op, s)
  }

  /** The stack after the first tokens, with every operator as it is meant. */
  function EvaluateMeant(e: Env, tokens: seq<Token>): Option<seq<Item>> {
    if tokens == [] then Some([])
    else
      var s :- EvaluateMeant(e, tokens[..|tokens| - 1]);
      match tokens[|tokens| - 1]
      case Literal(v) => Some(s + [Val(v)])
      case Word(w) => Some(s + [Name(w)])
      case Variable(name) => var v :- Lookup(e, name); Some(s + [Val(v)])
      case Operator(op) => OperateMeant(e, op, s)
  }

  function ValueMeant(e: Env, tokens: seq<Token>): Option<Value> {
    var s :- EvaluateMeant(e, tokens);
    if |s| == 1 && s[0].Val? then Some(s[0].v) else None
  }

  /** No floating-point operator of the equation meets two counters whose true result is out of range. */
  predicate StaysInRange(e: Env, tokens: seq<Token>) {
    tokens == []
    || (&& StaysInRange(e, tokens[..|tokens| - 1])
        && (var s, t := EvaluateMeant(e, tokens[..|tokens| - 1]), tokens[|tokens| - 1];
            t.Operator? && s.Some? && TopTwo(s.value).Some? ==>
              InRange(t.op, TopTwo(s.value).value.0, TopTwo(s.value).value.1)))
  }

  lemma {:induction false} MeantWhileInRange(e: Env, tokens: seq<Token>)
    requires Separates(e.d) && StaysInRange(e, tokens)
    ensures Evaluate(e, tokens) == EvaluateMeant(e, tokens)
  {
    hide Operate, Meant, Lookup, InRange, Separates;
    if tokens != [] {
      var before, t := tokens[..|tokens| - 1], tokens[|tokens| - 1];
      MeantWhileInRange(e, before);
      var s := EvaluateMeant(e, before);
      if t.Operator? && s.Some? && IsFloatArith(t.op) && TopTwo(s.value).Some? {
        var (a, b) := TopTwo(s.value).value;
        OperatorExact(e.d, t.op, a, b);
        OnValues(e, t.op, s.value);
      }
    }
  }

  lemma OnValues(e: Env, op: Op, s: seq<Item>)
    requires IsFloatArith(op) && TopTwo(s).Some?
    ensures var v := Apply(e.d, op, TopTwo(s).value.0, TopTwo(s).value.1);
            Operate(e, op, s) == if v.None? then None else Some(s[..|s| - 2] + [Val(v.value)])
  {
    hide Apply;
  }

  /** As long as the results on counters stay in range, calling the generated function gives the value that
      the equation is meant to have. */
  lemma CompiledMeans(e: Env, k: Names, tokens: seq<Token>)
    requires Fitting(e, k) && Separates(e.d) && StaysInRange(e, tokens)
    ensures CallCompiled(e, k, tokens) == ValueMeant(e, tokens)
  {
    hide CallCompiled, Evaluate, EvaluateMeant, Fitting, Separates, StaysInRange;
    CompiledComputes(e, k, tokens);
    MeantWhileInRange(e, tokens);
  }

  /** For an equation of one floating-point operator on two counters, if and only if its result is. */
  lemma CompiledPairMeans(e: Env, k: Names, x: string, y: string, op: Op)
    requires Fitting(e, k) && Separates(e.d) && IsFloatArith(op)
    requires Lookup(e, x).Some? && Lookup(e, x).value.U64? && Lookup(e, y).Some? && Lookup(e, y).value.U64?
    ensures var tokens := [Variable(x), Variable(y), Operator(op)];
            CallCompiled(e, k, tokens) == ValueMeant(e, tokens) <==> InRange(op, Lookup(e, x).value, Lookup(e, y).value)
  {
    hide CallCompiled, Fitting, Separates, Lookup, Apply, Meant, InRange, Operate, OperateMeant;
    var tokens := [Variable(x), Variable(y), Operator(op)];
    var a, b := Lookup(e, x).value, Lookup(e, y).value;
    CompiledComputes(e, k, tokens);
    PairStack(e, x, y, op);
    OperatorExact(e.d, op, a, b);
    var s := [Val(a), Val(b)];
    OnValues(e, op, s);
    OnMeant(e, op, s);
    FloatHasValue(e.d, op, a, b);
    assert s[..0] + [Val(Apply(e.d, op, a, b).value)] == [Val(Apply(e.d, op, a, b).value)];
    assert s[..0] + [Val(Meant(e.d, op, a, b).value)] == [Val(Meant(e.d, op, a, b).value)];
  }

  lemma FloatHasValue(d: Doubles, op: Op, a: Value, b: Value)
    requires IsFloatArith(op)
    ensures Apply(d, op, a, b).Some? && Meant(d, op, a, b).Some?
  {
  }

  lemma OnMeant(e: Env, op: Op, s: seq<Item>)
    requires IsFloatArith(op) && TopTwo(s).Some?
    ensures var v := Meant(e.d, op, TopTwo(s).value.0, TopTwo(s).value.1);
            OperateMeant(e, op, s) == if v.None? then None else Some(s[..|s| - 2] + [Val(v.value)])
  {
    hide Meant;
  }

  lemma PairStack(e: Env, x: string, y: string, op: Op)
    requires Lookup(e, x).Some? && Lookup(e, y).Some?
    ensures var tokens, s := [Variable(x), Variable(y), Operator(op)],
                             [Val(Lookup(e, x).value), Val(Lookup(e, y).value)];
            Evaluate(e, tokens) == Operate(e, op, s) && EvaluateMeant(e, tokens) == OperateMeant(e, op, s)
  {
    hide Lookup, Operate, OperateMeant;
    var one, two, all := [Variable(x)], [Variable(x), Variable(y)], [Variable(x), Variable(y), Operator(op)];
    assert one[..0] == [] && two[..1] == one && all[..2] == two;
    assert Evaluate(e, []) == Some([]) && EvaluateMeant(e, []) == Some([]);
    var a, b := Lookup(e, x).value, Lookup(e, y).value;
    assert [] + [Val(a)] == [Val(a)] && [Val(a)] + [Val(b)] == [Val(a), Val(b)];
    assert Evaluate(e, one) == Some([Val(a)]) && EvaluateMeant(e, one) == Some([Val(a)]);
    assert Evaluate(e, two) == Some([Val(a), Val(b)]) && EvaluateMeant(e, two) == Some([Val(a), Val(b)]);
  }
}
