/** Sharing of generated functions (scripts/gputop-oa-codegen.py): counters whose equations are the same once
    every counter they mention has been written out are served by one function, the first one generated.

    A counter is named by its place in the order in which functions are generated, over all metric sets.
 */
module ReadHash {
  import opened Common
  import opened OaCounters
  import opened RpnCompiler

  datatype Counter = Counter(metricSet: nat, name: string, equation: seq<Token>, dataType: CType)

  /** The counter of the same set that a variable of counter i stands for; of two with the same name the
      later one. */
  function Reference(list: seq<Counter>, i: nat, name: string): (r: Option<nat>)
    requires i < |list|
    ensures r.Some? ==> r.value < |list| && list[r.value].name == name && list[r.value].metricSet == list[i].metricSet
  {
    FindBelow(list, |list|, list[i].metricSet, name)
  }

  function FindBelow(list: seq<Counter>, n: nat, metricSet: nat, name: string): (r: Option<nat>)
    requires n <= |list|
    ensures r.Some? ==> r.value < n && list[r.value].name == name && list[r.value].metricSet == metricSet
  {
    if n == 0 then None
    else if list[n - 1].name == name && list[n - 1].metricSet == metricSet then Some(n - 1)
    else FindBelow(list, n - 1, metricSet, name)
  }

  predicate IsCalled(c: Counter, metricSet: nat, name: string) {
    c.name == name && c.metricSet == metricSet
  }

  lemma {:induction false} FindsLast(list: seq<Counter>, n: nat, metricSet: nat, name: string)
    requires n <= |list|
    ensures var r := FindBelow(list, n, metricSet, name);
            forall j :: (if r.Some? then r.value + 1 else 0) <= j < n ==> !IsCalled(list[j], metricSet, name)
  {
    if n > 0 && !IsCalled(list[n - 1], metricSet, name) {
      FindsLast(list, n - 1, metricSet, name);
    }
  }

  /** A variable stands for a counter if and only if some counter of the set has its name, and then for the
      last such counter. */
  lemma ReferenceExact(list: seq<Counter>, i: nat, name: string)
    requires i < |list|
    ensures var r, m := Reference(list, i, name), list[i].metricSet;
            && (r.Some? <==> exists j :: 0 <= j < |list| && IsCalled(list[j], m, name))
            && (r.Some? ==>
                  && r.value < |list| && IsCalled(list[r.value], m, name)
                  && forall j :: r.value < j < |list| ==> !IsCalled(list[j], m, name))
  {
    FindsLast(list, |list|, list[i].metricSet, name);
  }

  function VariablesOf(tokens: seq<Token>): set<string> {
    set t | t in tokens && t.Variable? :: t.name
  }

  /** Counters and a rank for each. */
  datatype Ranked = Ranked(list: seq<Counter>, rank: seq<nat>)

  /** Ranks fall along references: no counter refers to itself, through however many others. */
  ghost predicate Acyclic(c: Ranked) {
    && |c.rank| == |c.list|
    && forall i, x {:trigger Reference(c.list, i, x)} ::
         0 <= i < |c.list| && x in VariablesOf(c.list[i].equation) && Reference(c.list, i, x).Some? ==>
           c.rank[Reference(c.list, i, x).value] < c.rank[i]
  }

  type Order = c: Ranked | Acyclic(c) witness Ranked([], [])

  /** The counter that variable x of counter i stands for. */
  function Target(order: Order, i: nat, x: string): (r: Option<nat>)
    requires i < |order.list|
    ensures r.Some? ==> r.value < |order.list| && order.list[r.value].name == x
    ensures r.Some? && x in VariablesOf(order.list[i].equation) ==> order.rank[r.value] < order.rank[i]
  {
    Reference(order.list, i, x)
  }

  // ---------------------------------------------------------------- hashes

  /** The tokens mention no other variables than counter i does. */
  predicate Within(order: Order, i: nat, tokens: seq<Token>)
    requires i < |order.list|
  {
    VariablesOf(tokens) <= VariablesOf(order.list[i].equation)
  }

  lemma FewerNames(order: Order, i: nat, tokens: seq<Token>)
    requires tokens != [] && i < |order.list| && Within(order, i, tokens)
    ensures Within(order, i, tokens[..|tokens| - 1]) && MayHave(order, i, tokens[|tokens| - 1])
  {
    assert tokens[|tokens| - 1] in tokens;
  }

  predicate MayHave(order: Order, i: nat, t: Token)
    requires i < |order.list|
  {
    t.Variable? ==> t.name in VariablesOf(order.list[i].equation)
  }

  /** A token of counter i written out: a counter becomes its own hash. */
  function ExpandToken(order: Order, i: nat, t: Token): seq<Token>
    requires i < |order.list| && MayHave(order, i, t)
    decreases order.rank[i], 0
  {
    if t.Variable? && Target(order, i, t.name).Some? then Hash(order, Target(order, i, t.name).value) else [t]
  }

  function Expand(order: Order, i: nat, tokens: seq<Token>): seq<Token>
    requires i < |order.list| && Within(order, i, tokens)
    decreases order.rank[i], 1, |tokens|
  {
    if tokens == [] then []
    else
      FewerNames(order, i, tokens);
      Expand(order, i, tokens[..|tokens| - 1]) + ExpandToken(order, i, tokens[|tokens| - 1])
  }

  function Hash(order: Order, i: nat): seq<Token>
    requires i < |order.list|
    decreases order.rank[i], 2
  {
    Expand(order, i, order.list[i].equation)
  }

  /** No token is a variable that names a counter of the set. */
  ghost predicate WrittenOut(list: seq<Counter>, metricSet: nat, tokens: seq<Token>) {
    forall n, j :: 0 <= n < |tokens| && 0 <= j < |list| && tokens[n].Variable? ==>
      !IsCalled(list[j], metricSet, tokens[n].name)
  }

  lemma {:induction false} ExpandWritesOut(order: Order, i: nat, tokens: seq<Token>)
    requires i < |order.list| && Within(order, i, tokens)
    ensures WrittenOut(order.list, order.list[i].metricSet, Expand(order, i, tokens))
    decreases order.rank[i], 1, |tokens|
  {
    hide Hash, Within, MayHave;
    if tokens != [] {
      FewerNames(order, i, tokens);
      ExpandWritesOut(order, i, tokens[..|tokens| - 1]);
      TokenWritesOut(order, i, tokens[|tokens| - 1]);
    }
  }

  lemma TokenWritesOut(order: Order, i: nat, t: Token)
    requires i < |order.list| && MayHave(order, i, t)
    ensures WrittenOut(order.list, order.list[i].metricSet, ExpandToken(order, i, t))
    decreases order.rank[i], 0
  {
    hide Hash, FindBelow;
    if t.Variable? {
      ReferenceExact(order.list, i, t.name);
      if Target(order, i, t.name).Some? {
        HashIsWrittenOut(order, Target(order, i, t.name).value);
      }
    }
  }

  /** A hash is written out to the end: no counter of the set is mentioned in it. */
  lemma HashIsWrittenOut(order: Order, i: nat)
    requires i < |order.list|
    ensures WrittenOut(order.list, order.list[i].metricSet, Hash(order, i))
    decreases order.rank[i], 2
  {
    hide Expand, WrittenOut;
    ExpandWritesOut(order, i, order.list[i].equation);
  }

  // ---------------------------------------------------------------- what equations leave on the stack

  datatype Kind = IsVal | IsName

  function OperateKinds(op: Op, k: seq<Kind>): Option<seq<Kind>> {
    var n := |k|;
    if n < Arity(op) then None
    else if op.ReadReg? then Some(k[..n - 1] + [IsVal])
    else if k[n - 1].IsName? || k[n - 2].IsVal? == op.Read? then None
    else Some(k[..n - 2] + [IsVal])
  }

  /** The stack of an equation, as far as one can tell without values. */
  function Shape(tokens: seq<Token>): Option<seq<Kind>> {
    if tokens == [] then Some([])
    else
      var k :- Shape(tokens[..|tokens| - 1]);
      match tokens[|tokens| - 1]
      case Literal(_) => Some(k + [IsVal])
      case Word(_) => Some(k + [IsName])
      case Variable(_) => Some(k + [IsVal])
      case Operator(op) => OperateKinds(op, k)
  }

  function KindOf(x: Item): Kind {
    if x.Val? then IsVal else IsName
  }

  function KindsOf(s: seq<Item>): (k: seq<Kind>)
    ensures |k| == |s| && forall i :: 0 <= i < |s| ==> k[i] == KindOf(s[i])
  {
    seq(|s|, i requires 0 <= i < |s| => KindOf(s[i]))
  }

  /** One token on top of a stack. */
  function EvalToken(e: Env, s: seq<Item>, t: Token): Option<seq<Item>> {
    match t
    case Literal(v) => Some(s + [Val(v)])
    case Word(w) => Some(s + [Name(w)])
    case Variable(name) => var v :- Lookup(e, name); Some(s + [Val(v)])
    case Operator(op) => Operate(e, op, s)
  }

  function EvalFrom(e: Env, s: seq<Item>, tokens: seq<Token>): Option<seq<Item>> {
    if tokens == [] then Some(s)
    else
      var r :- EvalFrom(e, s, tokens[..|tokens| - 1]);
      EvalToken(e, r, tokens[|tokens| - 1])
  }

  lemma {:induction false} FromEmpty(e: Env, tokens: seq<Token>)
    ensures EvalFrom(e, [], tokens) == Evaluate(e, tokens)
  {
    hide Operate, Lookup;
    if tokens != [] {
      FromEmpty(e, tokens[..|tokens| - 1]);
    }
  }

  lemma {:induction false} FromSum(e: Env, s: seq<Item>, a: seq<Token>, b: seq<Token>)
    ensures EvalFrom(e, s, a + b)
         == if EvalFrom(e, s, a).None? then None else EvalFrom(e, EvalFrom(e, s, a).value, b)
  {
    hide EvalToken;
    if b == [] {
      assert a + b == a;
    } else {
      var n := |b| - 1;
      FromSum(e, s, a, b[..n]);
      assert (a + b)[..|a + b| - 1] == a + b[..n];
    }
  }

  lemma OperateOnTop(e: Env, op: Op, s: seq<Item>, r: seq<Item>)
    requires |r| >= Arity(op)
    ensures Operate(e, op, s + r) == if Operate(e, op, r).None? then None else Some(s + Operate(e, op, r).value)
    ensures Operate(e, op, r).Some? ==> OperateKinds(op, KindsOf(r)) == Some(KindsOf(Operate(e, op, r).value))
  {
    hide Entry, Apply;
    var n, m, a := |s + r|, |r|, Arity(op);
    assert (s + r)[n - 1] == r[m - 1] && (a == 2 ==> (s + r)[n - 2] == r[m - 2]);
    assert (s + r)[..n - a] == s + r[..m - a];
    OperateIs(e, op, r);
    OperateIs(e, op, s + r);
    if Operate(e, op, r).Some? {
      var v := Operate(e, op, r).value[m - a];
      assert Operate(e, op, r).value == r[..m - a] + [v];
      assert (s + r[..m - a]) + [v] == s + (r[..m - a] + [v]);
      assert KindsOf(r[..m - a] + [v]) == KindsOf(r)[..m - a] + [KindOf(v)];
    }
  }

  /** An equation that is sound in itself does the same on top of anything, and leaves what its shape says. */
  lemma {:induction false} OnTop(e: Env, s: seq<Item>, tokens: seq<Token>)
    requires Shape(tokens).Some?
    ensures EvalFrom(e, s, tokens) == if Evaluate(e, tokens).None? then None else Some(s + Evaluate(e, tokens).value)
    ensures Evaluate(e, tokens).Some? ==> Shape(tokens) == Some(KindsOf(Evaluate(e, tokens).value))
  {
    hide Operate, OperateKinds, Lookup;
    if tokens == [] {
      assert s + [] == s && KindsOf([]) == [];
    } else {
      var before, t := tokens[..|tokens| - 1], tokens[|tokens| - 1];
      OnTop(e, s, before);
      if Evaluate(e, before).Some? {
        var r := Evaluate(e, before).value;
        if t.Operator? {
          ShapeArity(t.op, KindsOf(r));
          OperateOnTop(e, t.op, s, r);
        } else if EvalToken(e, r, t).Some? {
          var x := EvalToken(e, r, t).value;
          assert KindsOf(x) == KindsOf(r) + [KindOf(x[|x| - 1])];
          assert s + (r + [x[|x| - 1]]) == (s + r) + [x[|x| - 1]];
        }
      }
    }
  }

  lemma ShapeArity(op: Op, k: seq<Kind>)
    requires OperateKinds(op, k).Some?
    ensures |k| >= Arity(op)
  {
  }

  // ---------------------------------------------------------------- writing out keeps the value

  /** Every equation leaves one value, and no counter is named like a field of the device. */
  ghost predicate WellFormed(order: Order, hw: set<string>) {
    forall i :: 0 <= i < |order.list| ==> Shape(order.list[i].equation) == Some([IsVal]) && order.list[i].name !in hw
  }

  /** The device, metric set and accumulator alone. */
  function Bare(e: Env): Env {
    e.(counters := map[])
  }

  /** The values of the counters that counter i may refer to. */
  function EnvAt(order: Order, e: Env, i: nat): Env
    requires i < |order.list|
    decreases order.rank[i], 0
  {
    e.(counters := map x | x in VariablesOf(order.list[i].equation) && Target(order, i, x).Some?
                           && Ideal(order, e, Target(order, i, x).value).Some?
                         :: Ideal(order, e, Target(order, i, x).value).value)
  }

  /** The value of counter i's equation. */
  function Computed(order: Order, e: Env, i: nat): Option<Value>
    requires i < |order.list|
    decreases order.rank[i], 1
  {
    ValueOf(EnvAt(order, e, i), order.list[i].equation)
  }

  /** What a function of its own would return for counter i. */
  function Ideal(order: Order, e: Env, i: nat): Option<Value>
    requires i < |order.list|
    decreases order.rank[i], 2
  {
    var v :- Computed(order, e, i);
    Some(Convert(e.d, order.list[i].dataType, v))
  }

  /** Some counter refers to counter r. */
  ghost predicate Referenced(order: Order, r: nat) {
    exists i, x :: IsTarget(order, i, x, r)
  }

  predicate IsTarget(order: Order, i: nat, x: string, r: nat) {
    i < |order.list| && x in VariablesOf(order.list[i].equation) && Target(order, i, x) == Some(r)
  }

  /** Where a counter is referred to, returning its value does not change it. */
  ghost predicate WellTyped(order: Order, e: Env) {
    forall r :: 0 <= r < |order.list| && Referenced(order, r) && Computed(order, e, r).Some? ==>
      TypeOf(Computed(order, e, r).value) == order.list[r].dataType
  }

  lemma ConvertToOwn(d: Doubles, v: Value)
    ensures Convert(d, TypeOf(v), v) == v
  {
  }

  /** What a single token stands for pushes the same. */
  ghost predicate Pushes(x: seq<Token>, t: Token) {
    if t.Variable? then Shape(x) == Some([IsVal]) else x == [t]
  }

  lemma ShapeSum(a: seq<Token>, x: seq<Token>, t: Token)
    requires Pushes(x, t)
    ensures Shape(a).Some? ==> Shape(a + x) == Shape(a + [t])
  {
    assert (a + [t])[..|a|] == a;
    if t.Variable? && Shape(a).Some? {
      ShapeOnTop(a, x);
    }
  }

  lemma {:induction false} ShapeOnTop(a: seq<Token>, x: seq<Token>)
    requires Shape(a).Some? && Shape(x).Some?
    ensures Shape(a + x) == Some(Shape(a).value + Shape(x).value)
  {
    hide OperateKinds;
    if x == [] {
      assert a + x == a && Shape(a).value + [] == Shape(a).value;
    } else {
      var n := |x| - 1;
      ShapeOnTop(a, x[..n]);
      assert (a + x)[..|a + x| - 1] == a + x[..n];
      var p, q := Shape(a).value, Shape(x[..n]).value;
      if x[n].Operator? {
        KindsOnTop(x[n].op, p, q);
      } else {
        assert (p + q) + [IsVal] == p + (q + [IsVal]) && (p + q) + [IsName] == p + (q + [IsName]);
      }
    }
  }

  lemma KindsOnTop(op: Op, a: seq<Kind>, k: seq<Kind>)
    requires OperateKinds(op, k).Some?
    ensures OperateKinds(op, a + k) == Some(a + OperateKinds(op, k).value)
  {
    var n, m, r := |a + k|, |k|, Arity(op);
    assert (a + k)[n - 1] == k[m - 1] && (r == 2 ==> (a + k)[n - 2] == k[m - 2]);
    assert (a + k)[..n - r] == a + k[..m - r];
    assert (a + k[..m - r]) + [IsVal] == a + (k[..m - r] + [IsVal]);
  }

  lemma ShapeOfOne(t: Token)
    requires t.Variable?
    ensures Shape([t]) == Some([IsVal])
  {
    assert [t][..0] == [] && Shape([]) == Some([]);
    var none: seq<Kind> := [];
    assert none + [IsVal] == [IsVal];
  }

  lemma {:induction false} ExpandShape(order: Order, hw: set<string>, i: nat, tokens: seq<Token>)
    requires i < |order.list| && WellFormed(order, hw) && Shape(tokens).Some? && Within(order, i, tokens)
    ensures Shape(Expand(order, i, tokens)) == Shape(tokens)
    decreases order.rank[i], 1, |tokens|
  {
    hide WellFormed, ExpandToken, OperateKinds, Hash, Within, MayHave;
    if tokens != [] {
      FewerNames(order, i, tokens);
      var before, t := tokens[..|tokens| - 1], tokens[|tokens| - 1];
      assert tokens == before + [t];
      ExpandShape(order, hw, i, before);
      TokenShape(order, hw, i, t);
      hide Shape;
      SameShape(Expand(order, i, before), before, ExpandToken(order, i, t), t);
    }
  }

  lemma SameShape(a: seq<Token>, b: seq<Token>, x: seq<Token>, t: Token)
    requires Shape(a).Some? && Shape(a) == Shape(b) && Pushes(x, t)
    ensures Shape(a + x) == Shape(b + [t])
  {
    ShapeSum(a, x, t);
    assert (a + [t])[..|a|] == a && (b + [t])[..|b|] == b;
  }

  lemma TokenShape(order: Order, hw: set<string>, i: nat, t: Token)
    requires i < |order.list| && WellFormed(order, hw) && MayHave(order, i, t)
    ensures Pushes(ExpandToken(order, i, t), t)
    decreases order.rank[i], 0
  {
    hide Shape, WellFormed, Hash;
    if t.Variable? && Target(order, i, t.name).Some? {
      HashShape(order, hw, Target(order, i, t.name).value);
    } else if t.Variable? {
      ShapeOfOne(t);
    }
  }

  lemma HashShape(order: Order, hw: set<string>, i: nat)
    requires i < |order.list| && WellFormed(order, hw)
    ensures Shape(Hash(order, i)) == Some([IsVal])
    decreases order.rank[i], 2
  {
    hide Shape, Expand;
    ExpandShape(order, hw, i, order.list[i].equation);
  }

  // ---------------------------------------------------------------- and the value

  /** Tokens written out one by one, on any stack. */
  lemma {:induction false} ExpandKeeps(order: Order, e: Env, i: nat, tokens: seq<Token>, s: seq<Item>)
    requires i < |order.list| && WellFormed(order, e.hw.Keys) && WellTyped(order, e) && Within(order, i, tokens)
    ensures EvalFrom(Bare(e), s, Expand(order, i, tokens)) == EvalFrom(EnvAt(order, e, i), s, tokens)
    decreases order.rank[i], 1, |tokens|
  {
    hide EvalToken, WellTyped, WellFormed, ExpandToken, EnvAt, Bare, VariablesOf, Within, MayHave;
    if tokens != [] {
      var before, t := tokens[..|tokens| - 1], tokens[|tokens| - 1];
      FewerNames(order, i, tokens);
      ExpandKeeps(order, e, i, before, s);
      FromSum(Bare(e), s, Expand(order, i, before), ExpandToken(order, i, t));
      var r := EvalFrom(EnvAt(order, e, i), s, before);
      TokenKeeps(order, e, i, t, if r.Some? then r.value else []);
    }
  }

  /** The value of a counter that is referred to is what its function returns. */
  lemma TargetReturns(order: Order, e: Env, i: nat, x: string, r: nat)
    requires WellTyped(order, e) && IsTarget(order, i, x, r)
    ensures Ideal(order, e, r) == Computed(order, e, r)
  {
    hide Computed, Target, Convert;
    assert Referenced(order, r);
    if Computed(order, e, r).Some? {
      ConvertToOwn(e.d, Computed(order, e, r).value);
    }
  }

  lemma TokenKeeps(order: Order, e: Env, i: nat, t: Token, s: seq<Item>)
    requires i < |order.list| && WellFormed(order, e.hw.Keys) && WellTyped(order, e) && MayHave(order, i, t)
    ensures EvalFrom(Bare(e), s, ExpandToken(order, i, t)) == EvalToken(EnvAt(order, e, i), s, t)
    decreases order.rank[i], 0
  {
    hide WellTyped, Shape, WellFormed, EvalFrom, EnvAt, Ideal, Computed, Hash, EvalToken, Target;
    if t.Variable? && Target(order, i, t.name).Some? {
      var j := Target(order, i, t.name).value;
      HashKeeps(order, e, j);
      HashShape(order, e.hw.Keys, j);
      OnTop(Bare(e), s, Hash(order, j));
      TargetReturns(order, e, i, t.name, j);
      CounterToken(order, e, i, t, s);
    } else {
      OneToken(Bare(e), s, t);
      SameToken(order, e, i, s, t);
    }
  }

  lemma OneToken(e: Env, s: seq<Item>, t: Token)
    ensures EvalFrom(e, s, [t]) == EvalToken(e, s, t)
  {
    hide EvalToken;
    assert [t][..0] == [];
    assert EvalFrom(e, s, []) == Some(s);
  }

  lemma SameToken(order: Order, e: Env, i: nat, s: seq<Item>, t: Token)
    requires i < |order.list| && (t.Variable? ==> Target(order, i, t.name).None?)
    ensures EvalToken(Bare(e), s, t) == EvalToken(EnvAt(order, e, i), s, t)
  {
    hide Apply;
  }

  /** A counter pushes its value, if it has one. */
  lemma CounterToken(order: Order, e: Env, i: nat, t: Token, s: seq<Item>)
    requires i < |order.list| && WellFormed(order, e.hw.Keys)
    requires t.Variable? && t.name in VariablesOf(order.list[i].equation) && Target(order, i, t.name).Some?
    ensures var v := Ideal(order, e, Target(order, i, t.name).value);
            EvalToken(EnvAt(order, e, i), s, t) == if v.None? then None else Some(s + [Val(v.value)])
  {
    hide Ideal, Shape, VariablesOf;
    assert order.list[Target(order, i, t.name).value].name == t.name;
  }

  /** Evaluating an equation and evaluating it with all counters written out is the same, for any device,
      metric set and accumulator. */
  lemma HashKeeps(order: Order, e: Env, i: nat)
    requires i < |order.list| && WellFormed(order, e.hw.Keys) && WellTyped(order, e)
    ensures Computed(order, e, i) == ValueOf(Bare(e), Hash(order, i))
    ensures Evaluate(Bare(e), Hash(order, i))
         == if Computed(order, e, i).None? then None else Some([Val(Computed(order, e, i).value)])
    decreases order.rank[i], 2
  {
    hide Convert, Shape, Evaluate, EvalFrom, EnvAt, Expand, WellFormed, Bare, WellTyped;
    var tokens := order.list[i].equation;
    ExpandKeeps(order, e, i, tokens, []);
    FromEmpty(Bare(e), Hash(order, i));
    FromEmpty(EnvAt(order, e, i), tokens);
    HashShape(order, e.hw.Keys, i);
    OneValue(Bare(e), Hash(order, i));
  }

  lemma OneValue(e: Env, tokens: seq<Token>)
    requires Shape(tokens) == Some([IsVal])
    ensures Evaluate(e, tokens) == if ValueOf(e, tokens).None? then None else Some([Val(ValueOf(e, tokens).value)])
  {
    hide Shape, Evaluate, EvalFrom;
    OnTop(e, [], tokens);
    if Evaluate(e, tokens).Some? {
      var s := Evaluate(e, tokens).value;
      assert KindsOf(s) == [IsVal];
      assert KindOf(s[0]) == KindsOf(s)[0];
      assert s == [Val(s[0].v)];
    }
  }

  // ---------------------------------------------------------------- shared functions

  /** The first counter with the hash of counter i: its function serves them all. */
  function Serving(order: Order, i: nat): (j: nat)
    requires i < |order.list|
    ensures j <= i && Hash(order, j) == Hash(order, i)
    ensures forall l :: 0 <= l < j ==> Hash(order, l) != Hash(order, i)
  {
    FirstFrom(order, 0, i)
  }

  function FirstFrom(order: Order, l: nat, i: nat): (j: nat)
    requires l <= i < |order.list|
    requires forall a :: 0 <= a < l ==> Hash(order, a) != Hash(order, i)
    ensures j <= i && Hash(order, j) == Hash(order, i)
    ensures forall a :: 0 <= a < j ==> Hash(order, a) != Hash(order, i)
    decreases i - l
  {
    if Hash(order, l) == Hash(order, i) then l else FirstFrom(order, l + 1, i)
  }

  /** Functions are generated after those they call. */
  ghost predicate Sequential(order: Order) {
    forall i :: 0 <= i < |order.list| ==> order.rank[i] == i
  }

  /** What calling the symbol of counter i returns: the body that is run is that of the serving counter, and
      it calls the symbols of counters of its own set. */
  ghost function Actual(order: Order, e: Env, i: nat): Option<Value>
    requires i < |order.list| && Sequential(order)
    decreases i, 1
  {
    var j := Serving(order, i);
    var v :- ValueOf(ActualEnv(order, e, j), order.list[j].equation);
    Some(Convert(e.d, order.list[j].dataType, v))
  }

  ghost function ActualEnv(order: Order, e: Env, j: nat): Env
    requires j < |order.list| && Sequential(order)
    decreases j, 0
  {
    e.(counters := map x | x in VariablesOf(order.list[j].equation) && Target(order, j, x).Some?
                           && Actual(order, e, Target(order, j, x).value).Some?
                         :: Actual(order, e, Target(order, j, x).value).value)
  }

  /** The function that serves counter i has the type that counter i is declared with. */
  predicate ServedAsDeclared(order: Order, i: nat)
    requires i < |order.list|
  {
    order.list[Serving(order, i)].dataType == order.list[i].dataType
  }

  /** So have those that serve counters that others refer to, as far as they have values. */
  ghost predicate ReferencesServed(order: Order, e: Env, n: nat)
    requires n <= |order.list|
  {
    forall r :: 0 <= r < n && Referenced(order, r) && Ideal(order, e, r).Some? ==> ServedAsDeclared(order, r)
  }

  /** If counters are shared rightly as far as others refer to them: sharing changes nothing of a counter,
      for any device, metric set and accumulator, if and only if the function that serves it has its type
      (or it has no value at all). */
  lemma {:induction false} SharingExact(order: Order, e: Env, i: nat)
    requires i < |order.list| && Sequential(order) && WellFormed(order, e.hw.Keys) && WellTyped(order, e)
    requires ReferencesServed(order, e, i)
    ensures Actual(order, e, i) == Ideal(order, e, i) <==> Ideal(order, e, i).None? || ServedAsDeclared(order, i)
    decreases i
  {
    hide Hash, ValueOf, Convert, WellFormed, WellTyped, Sequential, EnvAt, ActualEnv, Ideal;
    var j := Serving(order, i);
    forall x | x in VariablesOf(order.list[j].equation) && Target(order, j, x).Some?
      ensures Target(order, j, x).value < j
      ensures Actual(order, e, Target(order, j, x).value) == Ideal(order, e, Target(order, j, x).value)
    {
      var r := Target(order, j, x).value;
      Earlier(order, j, x);
      assert IsTarget(order, j, x, r) && Referenced(order, r);
      SharingExact(order, e, r);
    }
    SameEnvironment(order, e, j);
    HashKeeps(order, e, i);
    HashKeeps(order, e, j);
    ActualIs(order, e, i);
    TypesDecide(order, e, i);
  }

  lemma Earlier(order: Order, j: nat, x: string)
    requires j < |order.list| && Sequential(order)
    requires x in VariablesOf(order.list[j].equation) && Target(order, j, x).Some?
    ensures Target(order, j, x).value < j
  {
    hide Target;
    assert order.rank[j] == j;
  }

  lemma SameEnvironment(order: Order, e: Env, j: nat)
    requires j < |order.list| && Sequential(order)
    requires forall x :: x in VariablesOf(order.list[j].equation) && Target(order, j, x).Some? ==>
               Actual(order, e, Target(order, j, x).value) == Ideal(order, e, Target(order, j, x).value)
    ensures ActualEnv(order, e, j) == EnvAt(order, e, j)
  {
    hide Hash, ValueOf, Convert, Serving, Target, Sequential, Actual, Ideal;
    assert ActualEnv(order, e, j).counters == EnvAt(order, e, j).counters;
  }

  lemma ActualIs(order: Order, e: Env, i: nat)
    requires i < |order.list| && Sequential(order)
    requires ActualEnv(order, e, Serving(order, i)) == EnvAt(order, e, Serving(order, i))
    ensures var j := Serving(order, i);
            Actual(order, e, i) == if Computed(order, e, j).None? then None
                                   else Some(Convert(e.d, order.list[j].dataType, Computed(order, e, j).value))
  {
    hide Hash, ValueOf, Convert, Sequential, EnvAt, ActualEnv, Serving;
  }

  /** Values of different types are different. */
  lemma TypesDecide(order: Order, e: Env, i: nat)
    requires i < |order.list| && Sequential(order)
    requires var j := Serving(order, i);
             && Computed(order, e, j) == Computed(order, e, i)
             && Actual(order, e, i) == if Computed(order, e, j).None? then None
                                       else Some(Convert(e.d, order.list[j].dataType, Computed(order, e, j).value))
    ensures Actual(order, e, i) == Ideal(order, e, i) <==> Ideal(order, e, i).None? || ServedAsDeclared(order, i)
  {
    hide Hash, Computed, Actual, Serving, Sequential, Wrap64;
  }

  ghost predicate AllShared(order: Order, e: Env, n: nat)
    requires n <= |order.list| && Sequential(order)
  {
    forall i :: 0 <= i < n ==> Actual(order, e, i) == Ideal(order, e, i)
  }

  ghost predicate AllServed(order: Order, e: Env, n: nat)
    requires n <= |order.list|
  {
    forall i :: 0 <= i < n && Ideal(order, e, i).Some? ==> ServedAsDeclared(order, i)
  }

  /** Over all counters: every symbol returns what a function of its own would if and only if counters that
      share a function - and have a value - are declared with one type. */
  lemma {:induction false} SharingKeeps(order: Order, e: Env, n: nat)
    requires n <= |order.list| && Sequential(order) && WellFormed(order, e.hw.Keys) && WellTyped(order, e)
    ensures AllShared(order, e, n) <==> AllServed(order, e, n)
  {
    hide WellFormed, WellTyped, Sequential, Actual, Ideal, ServedAsDeclared, Referenced;
    if n > 0 {
      SharingKeeps(order, e, n - 1);
      if AllServed(order, e, n - 1) {
        SharingExact(order, e, n - 1);
      }
    }
  }

  /** Two counters that are both the number 1, of different types. */
  function Ones(): (c: Ranked)
    ensures Acyclic(c)
  {
    var list := [Counter(0, "A", [Literal(U64(1))], UInt64), Counter(0, "B", [Literal(U64(1))], CDouble)];
    assert VariablesOf([Literal(U64(1))]) == {};
    Ranked(list, [0, 1])
  }

  /** The hash says nothing of the type that a counter is declared with: two counters for which it does
      change the value. */
  lemma TypeIsNotInTheHash(e: Env)
    ensures Sequential(Ones())
    ensures Ideal(Ones(), e, 1) == Some(Double(e.d.fromInt(1))) && Actual(Ones(), e, 1) == Some(U64(1))
  {
    hide Hash, EnvAt, ActualEnv, ValueOf, Wrap64;
    var order: Order := Ones();
    OneLiteral(order, 0, U64(1));
    OneLiteral(order, 1, U64(1));
    OneLiteralValue(EnvAt(order, e, 1), U64(1));
    OneLiteralValue(ActualEnv(order, e, 0), U64(1));
    assert Serving(order, 1) == 0;
  }

  lemma {:induction false} OneLiteral(order: Order, i: nat, v: Value)
    requires i < |order.list| && order.list[i].equation == [Literal(v)]
    ensures Hash(order, i) == [Literal(v)]
  {
    var none: seq<Token> := [];
    HashIs(order, i);
    ExpandStep(order, i, 0);
    assert [Literal(v)][..1] == [Literal(v)] && [Literal(v)][..0] == none && none + [Literal(v)] == [Literal(v)];
  }

  lemma OneLiteralValue(e: Env, v: Value)
    ensures ValueOf(e, [Literal(v)]) == Some(v)
  {
    assert [Literal(v)][..0] == [];
    assert Evaluate(e, []) == Some([]);
  }

  // ---------------------------------------------------------------- the generator

  class Generator {
    const order: Order
    /** read_hash of each counter that has been computed. */
    var hashes: map<nat, seq<Token>>
    /** hashed_funcs: whose function serves a hash. */
    var hashedFuncs: map<seq<Token>, nat>

    ghost predicate Right()
      reads this
    {
      forall i :: i in hashes ==> i < |order.list| && hashes[i] == Hash(order, i)
    }

    constructor (order: Order)
      ensures this.order == order && hashes == map[] && hashedFuncs == map[]
    {
      this.order, hashes, hashedFuncs := order, map[], map[];
    }

    method ComputeHashes(i: nat)
      requires Right() && i < |order.list|
      modifies `hashes
      ensures Right() && i in hashes && old(hashes.Keys) <= hashes.Keys
      decreases order.rank[i]
    {
      hide Hash, Expand, Within;
      if i in hashes {
        return;
      }
      var tokens, hash := order.list[i].equation, [];
      ExpandNothing(order, i);
      assert tokens[..0] == [];
      for n := 0 to |tokens|
        invariant Right() && old(hashes.Keys) <= hashes.Keys
        invariant Within(order, i, tokens[..n]) && hash == Expand(order, i, tokens[..n])
      {
        var t := tokens[n];
        ExpandStep(order, i, n);
        if t.Variable? && Target(order, i, t.name).Some? {
          var j := Target(order, i, t.name).value;
          ComputeHashes(j);
          hash := hash + hashes[j];
        } else {
          hash := hash + [t];
        }
      }
      assert tokens[..|tokens|] == tokens;
      HashIs(order, i);
      hashes := hashes[i := hash];
    }

    /** output_counter_read for all counters: a function, or a macro for an earlier one. */
    method OutputReads() returns (serving: seq<nat>)
      requires Right() && hashedFuncs == map[]
      modifies this
      ensures |serving| == |order.list| && forall i :: 0 <= i < |order.list| ==> serving[i] == Serving(order, i)
    {
      hide Hash;
      serving := [];
      for i := 0 to |order.list|
        invariant Right() && |serving| == i
        invariant forall l :: 0 <= l < i ==> serving[l] == Serving(order, l)
        invariant forall l :: 0 <= l < i ==> Hash(order, l) in hashedFuncs
        invariant forall h :: h in hashedFuncs ==> hashedFuncs[h] < i && IsFirst(hashedFuncs[h], h)
      {
        ComputeHashes(i);
        var hash := hashes[i];
        if hash in hashedFuncs {
          OnlyFirst(hashedFuncs[hash], i);
          serving := serving + [hashedFuncs[hash]];
        } else {
          assert IsFirst(i, hash);
          OnlyFirst(i, i);
          hashedFuncs := hashedFuncs[hash := i];
          serving := serving + [i];
        }
      }
    }

    ghost predicate IsFirst(j: nat, hash: seq<Token>) {
      j < |order.list| && Hash(order, j) == hash && forall l :: 0 <= l < j ==> Hash(order, l) != hash
    }

    lemma OnlyFirst(j: nat, i: nat)
      requires i < |order.list| && IsFirst(j, Hash(order, i)) && j <= i
      ensures j == Serving(order, i)
    {
      hide Hash;
      var s := Serving(order, i);
      assert !(s < j) && !(j < s);
    }
  }

  lemma ExpandNothing(order: Order, i: nat)
    requires i < |order.list|
    ensures Within(order, i, []) && Expand(order, i, []) == []
  {
  }

  lemma ExpandStep(order: Order, i: nat, n: nat)
    requires i < |order.list| && n < |order.list[i].equation|
    ensures var tokens := order.list[i].equation;
            && Within(order, i, tokens[..n]) && Within(order, i, tokens[..n + 1]) && MayHave(order, i, tokens[n])
            && Expand(order, i, tokens[..n + 1]) == Expand(order, i, tokens[..n]) + ExpandToken(order, i, tokens[n])
  {
    var tokens := order.list[i].equation;
    assert tokens[..n + 1][..n] == tokens[..n];
  }

  lemma HashIs(order: Order, i: nat)
    requires i < |order.list|
    ensures Hash(order, i) == Expand(order, i, order.list[i].equation)
  {
  }
}
