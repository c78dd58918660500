/** What the generated functions compute, operator by operator, in plain arithmetic: numbers, bits, and the
    operations of doubles, without the functions by which equations and C are modelled.
 */
module RpnOperators {
  import opened Common
  import opened OaCounters
  import opened RpnCompiler

  /** Variable x reads v: a field of the device, or else a counter. */
  predicate Reads(e: Env, x: string, v: Value) {
    if x in e.hw then e.hw[x] == v else x in e.counters && e.counters[x] == v
  }

  function Equation(x: string, y: string, op: Op): seq<Token> {
    [Variable(x), Variable(y), Operator(op)]
  }

  predicate Counter(n: nat) {
    n < 0x1_0000_0000_0000_0000
  }

  /** n is v up to a multiple of 2^64. */
  ghost predicate IsWrapped(n: int, v: nat) {
    Counter(v) && exists q: int :: Multiple(q) + v == n
  }

  function Multiple(q: int): int {
    q * 0x1_0000_0000_0000_0000
  }

  lemma WrapIs(n: int)
    ensures IsWrapped(n, Wrap64(n))
  {
    assert Multiple(n / OaCounters.U64) + Wrap64(n) == n;
  }

  lemma WrappedOnce(n: int, v: nat, q: int)
    requires Counter(v) && n == Multiple(q) + v
    ensures Wrap64(n) == v
  {
    ModUnique(n, OaCounters.U64, q, v);
  }

  /** v is a divided by b, rounded down. */
  predicate IsQuotient(a: nat, b: nat, v: nat) {
    v * b <= a < (v + 1) * b
  }

  lemma QuotientIs(a: nat, b: nat)
    requires b > 0
    ensures IsQuotient(a, b, Quotient(a, b))
  {
    DivBounds(a, b);
  }

  /** Bit n of x. */
  predicate Bit(x: nat, n: nat) {
    if n == 0 then x % 2 == 1 else Bit(x / 2, n - 1)
  }

  /** The powers of two, from 1 on. */
  lemma PowersOfTwo(n: nat)
    ensures Pow2(0) == 1 && Pow2(n + 1) == 2 * Pow2(n)
  {
  }

  lemma {:induction false} AndBits(a: nat, b: nat, n: nat)
    ensures Bit(BitwiseAnd(a, b), n) <==> Bit(a, n) && Bit(b, n)
    decreases n
  {
    if a == 0 || b == 0 {
      NoBits(n);
    } else {
      var v, low := BitwiseAnd(a / 2, b / 2), if a % 2 == 1 && b % 2 == 1 then 1 else 0;
      assert BitwiseAnd(a, b) == 2 * v + low && (2 * v + low) / 2 == v && (2 * v + low) % 2 == low;
      if n > 0 { AndBits(a / 2, b / 2, n - 1); }
    }
  }

  lemma {:induction false} NoBits(n: nat)
    ensures !Bit(0, n)
  {
    if n > 0 { NoBits(n - 1); }
  }

  // ---------------------------------------------------------------- from the code to the operator

  lemma ReadsIsLookup(e: Env, x: string, v: Value)
    requires Reads(e, x, v)
    ensures Lookup(e, x) == Some(v)
  {
  }

  lemma PairValue(e: Env, k: Names, x: string, y: string, op: Op, a: Value, b: Value)
    requires Fitting(e, k) && Reads(e, x, a) && Reads(e, y, b) && !op.Read? && !op.ReadReg?
    ensures CallCompiled(e, k, Equation(x, y, op)) == Apply(e.d, op, a, b)
  {
    hide CallCompiled, Fitting, Apply, Lookup, Reads, Evaluate, EvaluateMeant, OperateMeant;
    CompiledComputes(e, k, Equation(x, y, op));
    ReadsIsLookup(e, x, a);
    ReadsIsLookup(e, y, b);
    PairStack(e, x, y, op);
    var v := Apply(e.d, op, a, b);
    if v.Some? { assert [Val(a), Val(b)][..0] + [Val(v.value)] == [Val(v.value)]; }
  }

  // ---------------------------------------------------------------- on two counters

  /** Addition, subtraction and multiplication are exact up to multiples of 2^64. */
  lemma SumsOfCounters(e: Env, k: Names, x: string, y: string, a: nat, b: nat)
    requires Fitting(e, k) && Reads(e, x, U64(a)) && Reads(e, y, U64(b)) && Counter(a) && Counter(b)
    ensures var r := CallCompiled(e, k, Equation(x, y, UAdd)); r.Some? && r.value.U64? && IsWrapped(a + b, r.value.n)
    ensures var r := CallCompiled(e, k, Equation(x, y, USub)); r.Some? && r.value.U64? && IsWrapped(a - b, r.value.n)
    ensures var r := CallCompiled(e, k, Equation(x, y, UMul)); r.Some? && r.value.U64? && IsWrapped(a * b, r.value.n)
  {
    hide CallCompiled, Fitting, Reads, Wrap64, IsWrapped;
    PairValue(e, k, x, y, UAdd, U64(a), U64(b));
    PairValue(e, k, x, y, USub, U64(a), U64(b));
    PairValue(e, k, x, y, UMul, U64(a), U64(b));
    WrapIs(a + b);
    WrapIs(a - b);
    WrapIs(a * b);
  }

  /** UDIV rounds down, and gives 0 for a division by zero; UMIN gives the smaller one. */
  lemma QuotientOfCounters(e: Env, k: Names, x: string, y: string, a: nat, b: nat)
    requires Fitting(e, k) && Reads(e, x, U64(a)) && Reads(e, y, U64(b)) && Counter(a) && Counter(b)
    ensures var r := CallCompiled(e, k, Equation(x, y, UDiv));
            && r.Some? && r.value.U64? && (if b == 0 then r.value.n == 0 else IsQuotient(a, b, r.value.n))
    ensures var r := CallCompiled(e, k, Equation(x, y, UMin));
            && r.Some? && r.value.U64? && (r.value.n == a || r.value.n == b) && r.value.n <= a && r.value.n <= b
  {
    hide CallCompiled, Fitting, Reads, Quotient, IsQuotient;
    PairValue(e, k, x, y, UDiv, U64(a), U64(b));
    PairValue(e, k, x, y, UMin, U64(a), U64(b));
    if b > 0 { QuotientIs(a, b); }
  }

  /** Shifts multiply and divide by powers of two; shifting by 64 and more is left undefined. */
  lemma ShiftsOfCounters(e: Env, k: Names, x: string, y: string, a: nat, b: nat)
    requires Fitting(e, k) && Reads(e, x, U64(a)) && Reads(e, y, U64(b)) && Counter(a) && Counter(b)
    ensures var r := CallCompiled(e, k, Equation(x, y, ShiftLeft));
            && (r.Some? <==> b < 64) && (r.Some? ==> r.value.U64? && IsWrapped(a * Pow2(b), r.value.n))
    ensures var r := CallCompiled(e, k, Equation(x, y, ShiftRight));
            && (r.Some? <==> b < 64) && (r.Some? ==> r.value.U64? && IsQuotient(a, Pow2(b), r.value.n))
  {
    hide CallCompiled, Fitting, Reads, Wrap64, Pow2, Quotient, IsQuotient, IsWrapped;
    PairValue(e, k, x, y, ShiftLeft, U64(a), U64(b));
    PairValue(e, k, x, y, ShiftRight, U64(a), U64(b));
    WrapIs(a * Pow2(b));
    QuotientIs(a, Pow2(b));
  }

  /** AND has a bit exactly where both have it. */
  lemma AndOfCounters(e: Env, k: Names, x: string, y: string, a: nat, b: nat)
    requires Fitting(e, k) && Reads(e, x, U64(a)) && Reads(e, y, U64(b)) && Counter(a) && Counter(b)
    ensures var r := CallCompiled(e, k, Equation(x, y, And));
            r.Some? && r.value.U64? && forall n: nat :: Bit(r.value.n, n) <==> Bit(a, n) && Bit(b, n)
  {
    hide CallCompiled, Fitting, Reads;
    PairValue(e, k, x, y, And, U64(a), U64(b));
    forall n: nat ensures Bit(BitwiseAnd(a, b), n) <==> Bit(a, n) && Bit(b, n) {
      AndBits(a, b, n);
    }
  }

  /** On two counters FADD, FSUB and FMUL take the same results to doubles; FDIV and FMAX take the operands
      to doubles first. */
  lemma FloatsOfCounters(e: Env, k: Names, x: string, y: string, a: nat, b: nat)
    requires Fitting(e, k) && Reads(e, x, U64(a)) && Reads(e, y, U64(b)) && Counter(a) && Counter(b)
    ensures exists n: nat ::
              IsWrapped(a + b, n) && CallCompiled(e, k, Equation(x, y, FAdd)) == Some(Double(e.d.fromInt(n)))
    ensures exists n: nat ::
              IsWrapped(a - b, n) && CallCompiled(e, k, Equation(x, y, FSub)) == Some(Double(e.d.fromInt(n)))
    ensures exists n: nat ::
              IsWrapped(a * b, n) && CallCompiled(e, k, Equation(x, y, FMul)) == Some(Double(e.d.fromInt(n)))
    ensures FloatQuotients(e, k, x, y, e.d.fromInt(a), e.d.fromInt(b))
  {
    hide CallCompiled, Fitting, Reads, Wrap64, IsWrapped;
    PairValue(e, k, x, y, FAdd, U64(a), U64(b));
    PairValue(e, k, x, y, FSub, U64(a), U64(b));
    PairValue(e, k, x, y, FMul, U64(a), U64(b));
    PairValue(e, k, x, y, FDiv, U64(a), U64(b));
    PairValue(e, k, x, y, FMax, U64(a), U64(b));
    WrapIs(a + b);
    WrapIs(a - b);
    WrapIs(a * b);
  }

  /** Division, with 0 for a division by zero, and the larger of two doubles. */
  ghost predicate FloatQuotients(e: Env, k: Names, x: string, y: string, p: nat, q: nat) {
    && CallCompiled(e, k, Equation(x, y, FDiv))
       == Some(Double(if e.d.zero(q) then e.d.fromInt(0) else e.d.div(p, q)))
    && CallCompiled(e, k, Equation(x, y, FMax)) == Some(Double(if e.d.less(q, p) then p else q))
  }

  // ---------------------------------------------------------------- with a double

  /** Double p, or a counter that becomes it. */
  predicate TakenAs(d: Doubles, v: Value, p: nat) {
    v == Double(p) || (v.U64? && p == d.fromInt(v.n))
  }

  /** If one operand is a double both are taken as doubles. */
  lemma FloatsWithDouble(e: Env, k: Names, x: string, y: string, a: Value, b: Value, p: nat, q: nat)
    requires Fitting(e, k) && Reads(e, x, a) && Reads(e, y, b) && (a.Double? || b.Double?)
    requires TakenAs(e.d, a, p) && TakenAs(e.d, b, q)
    ensures CallCompiled(e, k, Equation(x, y, FAdd)) == Some(Double(e.d.add(p, q)))
    ensures CallCompiled(e, k, Equation(x, y, FSub)) == Some(Double(e.d.sub(p, q)))
    ensures CallCompiled(e, k, Equation(x, y, FMul)) == Some(Double(e.d.mul(p, q)))
    ensures FloatQuotients(e, k, x, y, p, q)
  {
    hide CallCompiled, Fitting, Reads, Wrap64;
    PairValue(e, k, x, y, FAdd, a, b);
    PairValue(e, k, x, y, FSub, a, b);
    PairValue(e, k, x, y, FMul, a, b);
    PairValue(e, k, x, y, FDiv, a, b);
    PairValue(e, k, x, y, FMax, a, b);
  }

  /** The results of U operators are then cut to 64 bits; division cuts the operands. */
  lemma IntegersWithDouble(e: Env, k: Names, x: string, y: string, a: Value, b: Value, p: nat, q: nat)
    requires Fitting(e, k) && Reads(e, x, a) && Reads(e, y, b) && (a.Double? || b.Double?)
    requires TakenAs(e.d, a, p) && TakenAs(e.d, b, q)
    ensures Truncates(e, CallCompiled(e, k, Equation(x, y, UAdd)), e.d.add(p, q))
    ensures Truncates(e, CallCompiled(e, k, Equation(x, y, USub)), e.d.sub(p, q))
    ensures Truncates(e, CallCompiled(e, k, Equation(x, y, UMul)), e.d.mul(p, q))
    ensures Truncates(e, CallCompiled(e, k, Equation(x, y, UMin)), if e.d.less(p, q) then p else q)
  {
    hide CallCompiled, Fitting, Reads, Wrap64, IsWrapped;
    PairValue(e, k, x, y, UAdd, a, b);
    PairValue(e, k, x, y, USub, a, b);
    PairValue(e, k, x, y, UMul, a, b);
    PairValue(e, k, x, y, UMin, a, b);
    WrapIs(e.d.toU64(e.d.add(p, q)));
    WrapIs(e.d.toU64(e.d.sub(p, q)));
    WrapIs(e.d.toU64(e.d.mul(p, q)));
    WrapIs(e.d.toU64(if e.d.less(p, q) then p else q));
  }

  /** An operand of UDIV as an integer. */
  ghost predicate CutTo(d: Doubles, v: Value, n: nat) {
    if v.U64? then n == v.n else IsWrapped(d.toU64(v.bits), n)
  }

  lemma DivisionWithDouble(e: Env, k: Names, x: string, y: string, a: Value, b: Value, m: nat, n: nat)
    requires Fitting(e, k) && Reads(e, x, a) && Reads(e, y, b) && CutTo(e.d, a, m) && CutTo(e.d, b, n)
    ensures var r := CallCompiled(e, k, Equation(x, y, UDiv));
            && r.Some? && r.value.U64? && (if n == 0 then r.value.n == 0 else IsQuotient(m, n, r.value.n))
  {
    hide CallCompiled, Fitting, Reads, Quotient, IsQuotient, Wrap64;
    PairValue(e, k, x, y, UDiv, a, b);
    WrappedIs(e.d, a, m);
    WrappedIs(e.d, b, n);
    if n > 0 { QuotientIs(m, n); }
  }

  lemma WrappedIs(d: Doubles, v: Value, n: nat)
    requires CutTo(d, v, n)
    ensures Convert(d, UInt64, v) == U64(n)
  {
    hide Wrap64;
    if v.Double? {
      var q: int :| Multiple(q) + n == d.toU64(v.bits);
      WrappedOnce(d.toU64(v.bits), n, q);
    }
  }

  /** There are no shifts of doubles, and no AND. */
  lemma BitsWithDouble(e: Env, k: Names, x: string, y: string, a: Value, b: Value)
    requires Fitting(e, k) && Reads(e, x, a) && Reads(e, y, b) && (a.Double? || b.Double?)
    ensures CallCompiled(e, k, Equation(x, y, ShiftLeft)).None? && CallCompiled(e, k, Equation(x, y, ShiftRight)).None?
    ensures CallCompiled(e, k, Equation(x, y, And)).None?
  {
    hide CallCompiled, Fitting, Reads;
    PairValue(e, k, x, y, ShiftLeft, a, b);
    PairValue(e, k, x, y, ShiftRight, a, b);
    PairValue(e, k, x, y, And, a, b);
  }

  ghost predicate Truncates(e: Env, r: Option<Value>, p: nat) {
    r.Some? && r.value.U64? && IsWrapped(e.d.toU64(p), r.value.n)
  }

  // ---------------------------------------------------------------- what is read

  lemma OneStack(e: Env, t: Token)
    ensures t.Literal? ==> Evaluate(e, [t]) == Some([Val(t.v)])
    ensures t.Word? ==> Evaluate(e, [t]) == Some([Name(t.w)])
    ensures t.Variable? ==>
              Evaluate(e, [t]) == if Lookup(e, t.name).None? then None else Some([Val(Lookup(e, t.name).value)])
  {
    assert [t][..0] == [] && Evaluate(e, []) == Some([]);
    var none: seq<Item> := [];
    match t
    case Literal(v) => assert none + [Val(v)] == [Val(v)];
    case Word(w) => assert none + [Name(w)] == [Name(w)];
    case Variable(x) => if Lookup(e, x).Some? { assert none + [Val(Lookup(e, x).value)] == [Val(Lookup(e, x).value)]; }
    case Operator(_) =>
  }

  /** A lone variable: a field of the device before a counter, and nothing if it is neither. */
  lemma LoneVariable(e: Env, k: Names, x: string)
    requires Fitting(e, k)
    ensures CallCompiled(e, k, [Variable(x)])
         == if x in e.hw then Some(e.hw[x]) else if x in e.counters then Some(e.counters[x]) else None
  {
    hide CallCompiled, Fitting, Evaluate;
    CompiledComputes(e, k, [Variable(x)]);
    OneStack(e, Variable(x));
  }

  lemma LoneLiteral(e: Env, k: Names, v: Value)
    requires Fitting(e, k)
    ensures CallCompiled(e, k, [Literal(v)]) == Some(v)
  {
    hide CallCompiled, Fitting, Evaluate;
    CompiledComputes(e, k, [Literal(v)]);
    OneStack(e, Literal(v));
  }

  /** READ gives the accumulator's entry so far into the named part; outside there is none. */
  lemma ReadsEntry(e: Env, k: Names, part: string, i: nat)
    requires Fitting(e, k) && part in e.offsets && Counter(e.offsets[part] + i)
    ensures var n := e.offsets[part] + i;
            CallCompiled(e, k, [Word(part), Literal(U64(i)), Operator(Read)])
            == if n < |e.accumulator| then Some(U64(e.accumulator[n])) else None
  {
    hide CallCompiled, Fitting, Evaluate;
    var two, all := [Word(part), Literal(U64(i))], [Word(part), Literal(U64(i)), Operator(Read)];
    CompiledComputes(e, k, all);
    OneStack(e, Word(part));
    WrappedOnce(e.offsets[part] + i, e.offsets[part] + i, 0);
    TwoMore(e, two[0], two[1], Operator(Read));
    assert [Name(part)] + [Val(U64(i))] == [Name(part), Val(U64(i))];
    var s := [Name(part), Val(U64(i))];
    forall v ensures s[..0] + [Val(v)] == [Val(v)] {
    }
  }

  /** READ_REG gives zero. */
  lemma RegisterIsZero(e: Env, k: Names, w: string)
    requires Fitting(e, k)
    ensures CallCompiled(e, k, [Word(w), Operator(ReadReg)]) == Some(U64(0))
  {
    hide CallCompiled, Fitting, Evaluate;
    CompiledComputes(e, k, [Word(w), Operator(ReadReg)]);
    OneStack(e, Word(w));
    assert [Word(w)] + [Operator(ReadReg)] == [Word(w), Operator(ReadReg)];
    OneMore(e, [Word(w)], Operator(ReadReg));
    assert [Name(w)][..0] + [Val(U64(0))] == [Val(U64(0))];
  }

  lemma OneMore(e: Env, tokens: seq<Token>, t: Token)
    requires Evaluate(e, tokens).Some?
    ensures t.Literal? ==> Evaluate(e, tokens + [t]) == Some(Evaluate(e, tokens).value + [Val(t.v)])
    ensures t.Word? ==> Evaluate(e, tokens + [t]) == Some(Evaluate(e, tokens).value + [Name(t.w)])
    ensures t.Variable? ==> Evaluate(e, tokens + [t]) == Pushed(Evaluate(e, tokens).value, Lookup(e, t.name))
    ensures t.Operator? ==> Evaluate(e, tokens + [t]) == Operate(e, t.op, Evaluate(e, tokens).value)
  {
    hide Operate, Lookup;
    assert (tokens + [t])[..|tokens|] == tokens;
  }

  lemma TwoMore(e: Env, t0: Token, t1: Token, t2: Token)
    requires Evaluate(e, [t0]).Some? && t1.Literal? && t2.Operator?
    ensures Evaluate(e, [t0, t1, t2]) == Operate(e, t2.op, Evaluate(e, [t0]).value + [Val(t1.v)])
  {
    hide Operate, Evaluate;
    assert [t0] + [t1] == [t0, t1] && [t0, t1] + [t2] == [t0, t1, t2];
    OneMore(e, [t0], t1);
    OneMore(e, [t0, t1], t2);
  }

  // ---------------------------------------------------------------- whole expressions

  /** An expression as one thinks of it, and as an equation spells it: operands first. */
  datatype Tree =
    | Number(v: Value)
    | Reference(x: string)
    | Register(w: string)
    | Part(part: string, index: Tree)
    | Node(op: Op, l: Tree, r: Tree)

  function Postfix(t: Tree): seq<Token> {
    match t
    case Number(v) => [Literal(v)]
    case Reference(x) => [Variable(x)]
    case Register(w) => [Word(w), Operator(ReadReg)]
    case Part(part, index) => [Word(part)] + Postfix(index) + [Operator(Read)]
    case Node(op, l, r) => Postfix(l) + Postfix(r) + [Operator(op)]
  }

  /** Operators with two values. */
  predicate OnValues(t: Tree) {
    match t
    case Part(_, index) => OnValues(index)
    case Node(op, l, r) => !op.Read? && !op.ReadReg? && OnValues(l) && OnValues(r)
    case _ => true
  }

  /** The value of an expression: each operator gets the values of its two sides, the left one first. */
  function TreeValue(e: Env, t: Tree): Option<Value> {
    match t
    case Number(v) => Some(v)
    case Reference(x) => Lookup(e, x)
    case Register(_) => Some(U64(0))
    case Part(part, index) => var i :- TreeValue(e, index); RpnCompiler.Entry(e, part, i)
    case Node(op, l, r) =>
      var a :- TreeValue(e, l);
      var b :- TreeValue(e, r);
      Apply(e.d, op, a, b)
  }

  function Pushed(s: seq<Item>, v: Option<Value>): Option<seq<Item>> {
    if v.None? then None else Some(s + [Val(v.value)])
  }

  lemma {:induction false} FailsOn(e: Env, tokens: seq<Token>, more: seq<Token>)
    requires Evaluate(e, tokens).None?
    ensures Evaluate(e, tokens + more).None?
  {
    hide Operate, Lookup;
    if more == [] {
      assert tokens + more == tokens;
    } else {
      FailsOn(e, tokens, more[..|more| - 1]);
      assert (tokens + more)[..|tokens + more| - 1] == tokens + more[..|more| - 1];
    }
  }

  /** Behind any tokens, an expression leaves its value on top of what there is. */
  lemma {:induction false} PostfixPushes(e: Env, tokens: seq<Token>, t: Tree)
    requires Evaluate(e, tokens).Some? && OnValues(t)
    ensures Evaluate(e, tokens + Postfix(t)) == Pushed(Evaluate(e, tokens).value, TreeValue(e, t))
    decreases t
  {
    hide Evaluate, Operate, Lookup, RpnCompiler.Entry, Apply;
    var s := Evaluate(e, tokens).value;
    match t {
      case Number(v) => OneMore(e, tokens, Literal(v));
      case Reference(x) => OneMore(e, tokens, Variable(x));
      case Register(w) =>
        assert tokens + Postfix(t) == (tokens + [Word(w)]) + [Operator(ReadReg)];
        OneMore(e, tokens, Word(w));
        OneMore(e, tokens + [Word(w)], Operator(ReadReg));
        OperateIs(e, ReadReg, s + [Name(w)]);
        assert (s + [Name(w)])[..|s|] == s;
      case Part(part, index) =>
        var one := tokens + [Word(part)];
        assert tokens + Postfix(t) == (one + Postfix(index)) + [Operator(Read)];
        OneMore(e, tokens, Word(part));
        PostfixPushes(e, one, index);
        if TreeValue(e, index).None? {
          FailsOn(e, one + Postfix(index), [Operator(Read)]);
        } else {
          OneMore(e, one + Postfix(index), Operator(Read));
          TopOfStack(e, Read, s, Name(part), Val(TreeValue(e, index).value));
        }
      case Node(op, l, r) =>
        var one := tokens + Postfix(l);
        assert tokens + Postfix(t) == (one + Postfix(r)) + [Operator(op)] == one + (Postfix(r) + [Operator(op)]);
        PostfixPushes(e, tokens, l);
        if TreeValue(e, l).None? {
          FailsOn(e, one, Postfix(r) + [Operator(op)]);
        } else {
          PostfixPushes(e, one, r);
          if TreeValue(e, r).None? {
            FailsOn(e, one + Postfix(r), [Operator(op)]);
          } else {
            OneMore(e, one + Postfix(r), Operator(op));
            TopOfStack(e, op, s, Val(TreeValue(e, l).value), Val(TreeValue(e, r).value));
          }
        }
    }
  }

  lemma TopOfStack(e: Env, op: Op, s: seq<Item>, x: Item, y: Item)
    requires !op.ReadReg?
    ensures Operate(e, op, (s + [x]) + [y]) == Pushed(s, Outcome(e, op, x, y))
  {
    hide Operate, Outcome;
    var m := (s + [x]) + [y];
    OperateIs(e, op, m);
    assert m[..|m| - 2] == s && m[|m| - 2] == x && m[|m| - 1] == y;
  }

  /** Whatever expression an equation spells, the generated function computes it: every operator is applied
      to its own two sides. */
  lemma CompiledTree(e: Env, k: Names, t: Tree)
    requires Fitting(e, k) && OnValues(t)
    ensures CallCompiled(e, k, Postfix(t)) == TreeValue(e, t)
  {
    hide CallCompiled, Fitting, TreeValue, Evaluate;
    CompiledComputes(e, k, Postfix(t));
    assert Evaluate(e, []) == Some([]) by { NothingYet(e); }
    PostfixPushes(e, [], t);
    assert [] + Postfix(t) == Postfix(t);
    if TreeValue(e, t).Some? { assert [] + [Val(TreeValue(e, t).value)] == [Val(TreeValue(e, t).value)]; }
  }

  lemma NothingYet(e: Env)
    ensures Evaluate(e, []) == Some([])
  {
  }
}
