/** Availability expressions (scripts/gputop-oa-codegen.py): RPN is printed as a C condition, with brackets
    around every operand that is not a single word.  Read as C (section 6.5 of ISO/IEC 9899:2011) the text
    means the expression again.

    The text is a sequence of lexemes: blanks are among them, since the printer looks for those.
 */
module Availability {
  import opened Common

  datatype Op = BitAnd | Ugte | Ult | LogicalAnd

  /** A word of the expression as it stands, or the field of the device that a variable names. */
  datatype Atom = Word(w: string) | Variable(name: string) | Field(name: string)

  datatype Tree = Leaf(a: Atom) | Node(op: Op, l: Tree, r: Tree)

  datatype Lexeme = Blank | Open | Close | Operator(op: Op) | Operand(a: Atom)

  // ---------------------------------------------------------------- printing

  /** brkt. */
  function Bracket(text: seq<Lexeme>): seq<Lexeme> {
    if Blank in text then [Open] + text + [Close] else text
  }

  /** The splice_* functions. */
  function Join(op: Op, l: seq<Lexeme>, r: seq<Lexeme>): seq<Lexeme> {
    Bracket(l) + [Blank, Operator(op), Blank] + Bracket(r)
  }

  function Text(t: Tree): seq<Lexeme> {
    match t
    case Leaf(a) => [Operand(a)]
    case Node(op, l, r) => Join(op, Text(l), Text(r))
  }

  // ---------------------------------------------------------------- C

  /** Relational operators bind tightest, then &, then &&; all of them to the left. */
  function Level(op: Op): nat {
    match op
    case Ult => 1
    case Ugte => 1
    case BitAnd => 2
    case LogicalAnd => 3
  }

  const LOWEST := 3

  /** C does not see blanks. */
  function Lex(text: seq<Lexeme>): seq<Lexeme> {
    if text == [] then [] else if text[0].Blank? then Lex(text[1..]) else [text[0]] + Lex(text[1..])
  }

  type Parsed = Option<(Tree, seq<Lexeme>)>

  /** primary-expression: an operand, or an expression in brackets. */
  function Primary(s: seq<Lexeme>): (p: Parsed)
    ensures p.Some? ==> |p.value.1| < |s|
    decreases |s|, 0, 0
  {
    if s == [] then None
    else if s[0].Operand? then Some((Leaf(s[0].a), s[1..]))
    else if s[0].Open? then
      var p :- Expression(LOWEST, s[1..]);
      if p.1 != [] && p.1[0].Close? then Some((p.0, p.1[1..])) else None
    else None
  }

  /** The rule for operators of level n: an expression of the next tighter level, and then any number of
      operators of this level, each with another one. */
  function Expression(n: nat, s: seq<Lexeme>): (p: Parsed)
    ensures p.Some? ==> |p.value.1| < |s|
    decreases |s|, 1, n
  {
    if n == 0 then Primary(s)
    else
      var p :- Expression(n - 1, s);
      Continue(n, p.0, p.1)
  }

  function Continue(n: nat, left: Tree, s: seq<Lexeme>): (p: Parsed)
    requires n > 0
    ensures p.Some? ==> |p.value.1| <= |s|
    decreases |s|, 2, 0
  {
    if s == [] || !s[0].Operator? || Level(s[0].op) != n then Some((left, s))
    else
      var p :- Expression(n - 1, s[1..]);
      Continue(n, Node(s[0].op, left, p.0), p.1)
  }

  /** A whole condition. */
  function Parse(text: seq<Lexeme>): Option<Tree> {
    var p :- Expression(LOWEST, Lex(text));
    if p.1 == [] then Some(p.0) else None
  }

  // ---------------------------------------------------------------- reading back what was printed

  lemma {:induction false} LexSum(a: seq<Lexeme>, b: seq<Lexeme>)
    ensures Lex(a + b) == Lex(a) + Lex(b)
  {
    if a == [] {
      assert a + b == b;
    } else {
      assert (a + b)[0] == a[0] && (a + b)[1..] == a[1..] + b;
      LexSum(a[1..], b);
    }
  }

  /** An operand as C sees it: one word, or brackets around the rest. */
  function Unit(t: Tree): seq<Lexeme> {
    if t.Leaf? then [Operand(t.a)] else [Open] + Lex(Text(t)) + [Close]
  }

  lemma BracketLexes(t: Tree)
    ensures Lex(Bracket(Text(t))) == Unit(t)
  {
    if t.Leaf? {
      assert Lex([Operand(t.a)][1..]) == [];
    } else {
      BlankInside(t);
      var x := Text(t);
      LexSum([Open] + x, [Close]);
      LexSum([Open], x);
      assert Lex([Open][1..]) == [] && Lex([Close][1..]) == [];
    }
  }

  lemma BlankInside(t: Tree)
    requires t.Node?
    ensures Blank in Text(t)
  {
    var l, r := Bracket(Text(t.l)), Bracket(Text(t.r));
    assert Text(t)[|l|] == Blank;
  }

  lemma TextLexes(t: Tree)
    requires t.Node?
    ensures Lex(Text(t)) == Unit(t.l) + [Operator(t.op)] + Unit(t.r)
  {
    hide Text, Unit, Bracket;
    BracketLexes(t.l);
    BracketLexes(t.r);
    var l, m, r := Bracket(Text(t.l)), [Blank, Operator(t.op), Blank], Bracket(Text(t.r));
    assert Text(t) == l + m + r by { TextIs(t); }
    LexSum(l + m, r);
    LexSum(l, m);
    assert Lex(m) == [Operator(t.op)] by { LexOperator(t.op); }
  }

  lemma TextIs(t: Tree)
    requires t.Node?
    ensures Text(t) == Bracket(Text(t.l)) + [Blank, Operator(t.op), Blank] + Bracket(Text(t.r))
  {
  }

  lemma LexOperator(op: Op)
    ensures Lex([Blank, Operator(op), Blank]) == [Operator(op)]
  {
    assert [Blank, Operator(op), Blank][1..] == [Operator(op), Blank];
    assert [Operator(op), Blank][1..] == [Blank] && [Blank][1..] == [];
    assert Lex([Blank]) == [] && Lex([Operator(op), Blank]) == [Operator(op)];
  }

  /** What may follow an expression of level n: nothing that would still belong to it. */
  predicate Ends(n: nat, k: seq<Lexeme>) {
    k == [] || !k[0].Operator? || Level(k[0].op) > n
  }

  lemma {:induction false} PrimaryIsExpression(n: nat, s: seq<Lexeme>, t: Tree, k: seq<Lexeme>)
    requires Primary(s) == Some((t, k)) && Ends(n, k)
    ensures Expression(n, s) == Some((t, k))
  {
    if n > 0 {
      PrimaryIsExpression(n - 1, s, t, k);
    }
  }

  /** A unit is a primary expression, whatever follows. */
  lemma {:induction false} UnitParses(t: Tree, k: seq<Lexeme>)
    ensures Primary(Unit(t) + k) == Some((t, k))
    decreases t, 1
  {
    if t.Leaf? {
      assert (Unit(t) + k)[1..] == k;
    } else {
      var inner := Lex(Text(t));
      assert (Unit(t) + k)[1..] == inner + ([Close] + k);
      NodeParses(t, [Close] + k);
      assert ([Close] + k)[1..] == k;
    }
  }

  /** One operator of its level, between what two tighter levels read. */
  lemma OneOperator(op: Op, s: seq<Lexeme>, l: Tree, rest: seq<Lexeme>, r: Tree, k: seq<Lexeme>)
    requires Expression(Level(op) - 1, s) == Some((l, rest)) && rest != [] && rest[0] == Operator(op)
    requires Expression(Level(op) - 1, rest[1..]) == Some((r, k)) && Ends(Level(op), k)
    ensures Expression(Level(op), s) == Some((Node(op, l, r), k))
  {
    assert Continue(Level(op), Node(op, l, r), k) == Some((Node(op, l, r), k));
    assert Continue(Level(op), l, rest) == Some((Node(op, l, r), k));
  }

  /** An operator between two units is read with just these operands. */
  lemma {:induction false} NodeParses(t: Tree, k: seq<Lexeme>)
    requires t.Node? && Ends(LOWEST, k)
    ensures Expression(LOWEST, Lex(Text(t)) + k) == Some((t, k))
    decreases t, 0
  {
    hide Unit, Text, Lex, Primary, Expression;
    var s, p := Lex(Text(t)) + k, Level(t.op);
    TextLexes(t);
    var rest := [Operator(t.op)] + Unit(t.r) + k;
    assert s == Unit(t.l) + rest;
    UnitParses(t.l, rest);
    PrimaryIsExpression(p - 1, s, t.l, rest);
    assert rest[1..] == Unit(t.r) + k;
    UnitParses(t.r, k);
    PrimaryIsExpression(p - 1, Unit(t.r) + k, t.r, k);
    OneOperator(t.op, s, t.l, rest, t.r, k);
    Upwards(p, LOWEST, s, t, k);
  }

  /** Looser levels find nothing to add. */
  lemma {:induction false} Upwards(n: nat, m: nat, s: seq<Lexeme>, t: Tree, k: seq<Lexeme>)
    requires n <= m && Expression(n, s) == Some((t, k)) && Ends(m, k)
    ensures Expression(m, s) == Some((t, k))
    decreases m
  {
    if n < m {
      Upwards(n, m - 1, s, t, k);
    }
  }

  /** Read as C the printed text is the expression it was printed from. */
  lemma TextMeansTree(t: Tree)
    ensures Parse(Text(t)) == Some(t)
  {
    hide Text, Expression, Lex, Primary;
    if t.Leaf? {
      LeafParses(t);
    } else {
      NodeParses(t, []);
      assert Lex(Text(t)) + [] == Lex(Text(t));
    }
  }

  lemma LeafParses(t: Tree)
    requires t.Leaf?
    ensures Expression(LOWEST, Lex(Text(t))) == Some((t, []))
  {
    assert Lex(Text(t)) == Unit(t) + [] by { assert Lex([Operand(t.a)][1..]) == []; }
    UnitParses(t, []);
    PrimaryIsExpression(LOWEST, Lex(Text(t)), t, []);
  }

  /** Two different expressions never get the same text. */
  lemma TextIsUnambiguous(t: Tree, u: Tree)
    requires Text(t) == Text(u)
    ensures t == u
  {
    TextMeansTree(t);
    TextMeansTree(u);
  }

  /** In C comparisons bind tighter than &, and that binds tighter than &&. */
  predicate Tighter(p: Op, o: Op) {
    ((p.Ult? || p.Ugte?) && (o.BitAnd? || o.LogicalAnd?)) || (p.BitAnd? && o.LogicalAnd?)
  }

  /** How C groups two operators without brackets: to the left, unless the second one binds tighter. */
  lemma Grouping(o: Op, p: Op, a: Atom, b: Atom, c: Atom)
    ensures Parse([Operand(a), Operator(o), Operand(b), Operator(p), Operand(c)])
         == Some(if Tighter(p, o) then Node(o, Leaf(a), Node(p, Leaf(b), Leaf(c)))
                 else Node(p, Node(o, Leaf(a), Leaf(b)), Leaf(c)))
  {
    hide Expression, Primary, Continue;
    var s := [Operand(a), Operator(o), Operand(b), Operator(p), Operand(c)];
    var s2, s3, s4 := [Operand(b), Operator(p), Operand(c)], [Operator(p), Operand(c)], [Operand(c)];
    var n, m := Level(o), Level(p);
    NoBlanks(s);
    assert s[1..][1..] == s2 && s2[1..] == s3 && s3[1..] == s4 && s4[1..] == [];
    OnlyOperand(n - 1, s);
    OnlyOperand(m - 1, s4);
    if m < n {
      var right := Node(p, Leaf(b), Leaf(c));
      OnlyOperand(m - 1, s2);
      OneOperator(p, s2, Leaf(b), s3, Leaf(c), []);
      Upwards(m, n - 1, s2, right, []);
      OneOperator(o, s, Leaf(a), s[1..], right, []);
      Upwards(n, LOWEST, s, Node(o, Leaf(a), right), []);
    } else {
      OnlyOperand(n - 1, s2);
      var left := Node(o, Leaf(a), Leaf(b));
      if n < m {
        OneOperator(o, s, Leaf(a), s[1..], Leaf(b), s3);
        Upwards(n, m - 1, s, left, s3);
        OneOperator(p, s, left, s3, Leaf(c), []);
      } else {
        TwoOperators(o, p, s, Leaf(a), Leaf(b), Leaf(c), s3);
      }
      Upwards(m, LOWEST, s, Node(p, left, Leaf(c)), []);
    }
  }

  lemma OnlyOperand(n: nat, s: seq<Lexeme>)
    requires s != [] && s[0].Operand? && Ends(n, s[1..])
    ensures Expression(n, s) == Some((Leaf(s[0].a), s[1..]))
  {
    hide Expression;
    PrimaryIsExpression(n, s, Leaf(s[0].a), s[1..]);
  }

  lemma TwoOperators(o: Op, p: Op, s: seq<Lexeme>, a: Tree, b: Tree, c: Tree, rest: seq<Lexeme>)
    requires var n := Level(o);
             && Level(p) == n && |s| > 1 && s[1] == Operator(o) && rest != [] && rest[0] == Operator(p)
             && Expression(n - 1, s) == Some((a, s[1..])) && Expression(n - 1, s[1..][1..]) == Some((b, rest))
             && Expression(n - 1, rest[1..]) == Some((c, []))
    ensures Expression(Level(o), s) == Some((Node(p, Node(o, a, b), c), []))
  {
    var n := Level(o);
    assert Continue(n, Node(p, Node(o, a, b), c), []) == Some((Node(p, Node(o, a, b), c), []));
    assert Continue(n, Node(o, a, b), rest) == Some((Node(p, Node(o, a, b), c), []));
    assert Continue(n, a, s[1..]) == Some((Node(p, Node(o, a, b), c), []));
  }

  /** Without brackets C would read another expression: & binds less tightly than a comparison. */
  lemma BracketsAreNeeded(a: Atom, b: Atom, c: Atom)
    ensures Parse([Operand(a), Operator(BitAnd), Operand(b), Operator(Ult), Operand(c)])
         == Some(Node(BitAnd, Leaf(a), Node(Ult, Leaf(b), Leaf(c))))
  {
    Grouping(BitAnd, Ult, a, b, c);
  }

  lemma {:induction false} NoBlanks(s: seq<Lexeme>)
    requires Blank !in s
    ensures Lex(s) == s
  {
    if s != [] {
      NoBlanks(s[1..]);
    }
  }

  // ---------------------------------------------------------------- from RPN to text

  datatype Token = Push(a: Atom) | Apply(op: Op)

  /** An operand of an operator: a variable must name a field of the device. */
  function Translate(hw: set<string>, t: Tree): Option<Tree> {
    if t.Leaf? && t.a.Variable? then (if t.a.name in hw then Some(Leaf(Field(t.a.name))) else None) else Some(t)
  }

  /** The expressions on the stack after the first tokens. */
  function Trees(hw: set<string>, tokens: seq<Token>): Option<seq<Tree>> {
    if tokens == [] then Some([])
    else
      var s :- Trees(hw, tokens[..|tokens| - 1]);
      match tokens[|tokens| - 1]
      case Push(a) => Some(s + [Leaf(a)])
      case Apply(op) =>
        if |s| < 2 then None
        else
          var r :- Translate(hw, s[|s| - 1]);
          var l :- Translate(hw, s[|s| - 2]);
          Some(s[..|s| - 2] + [Node(op, l, r)])
  }

  lemma NextTrees(hw: set<string>, tokens: seq<Token>, i: nat)
    requires i < |tokens| && Trees(hw, tokens[..i]).Some?
    ensures var s, next := Trees(hw, tokens[..i]).value, Trees(hw, tokens[..i + 1]);
            match tokens[i]
            case Push(a) => next == Some(s + [Leaf(a)])
            case Apply(op) =>
              if |s| < 2 || Translate(hw, s[|s| - 1]).None? || Translate(hw, s[|s| - 2]).None? then next.None?
              else
                var l, r := Translate(hw, s[|s| - 2]).value, Translate(hw, s[|s| - 1]).value;
                next == Some(s[..|s| - 2] + [Node(op, l, r)])
  {
    hide Translate;
    assert tokens[..i + 1][..i] == tokens[..i];
  }

  /** The expression that the tokens stand for. */
  function TreeOf(hw: set<string>, tokens: seq<Token>): Option<Tree> {
    var s :- Trees(hw, tokens);
    if |s| == 1 then Some(s[0]) else None
  }

  /** An entry of the stack of texts: a token that is not yet an operand, or the text of an operator. */
  datatype Piece = Pending(a: Atom) | Spliced(text: seq<Lexeme>)

  predicate Prints(p: Piece, t: Tree) {
    match p
    case Pending(a) => t == Leaf(a)
    case Spliced(text) => t.Node? && text == Text(t)
  }

  ghost predicate AllPrint(s: seq<Piece>, trees: seq<Tree>) {
    |s| == |trees| && forall i :: 0 <= i < |s| ==> Prints(s[i], trees[i])
  }

  method PopOperand(hw: set<string>, p: Piece, ghost t: Tree) returns (ok: bool, text: seq<Lexeme>)
    requires Prints(p, t)
    ensures ok <==> Translate(hw, t).Some?
    ensures ok ==> text == Text(Translate(hw, t).value)
  {
    match p {
      case Pending(a) =>
        if a.Variable? {
          if a.name !in hw {
            return false, [];
          }
          return true, [Operand(Field(a.name))];
        }
        return true, [Operand(a)];
      case Spliced(x) =>
        return true, x;
    }
  }

  method SpliceOperator(hw: set<string>, op: Op, a: Piece, b: Piece, ghost l: Tree, ghost r: Tree)
    returns (ok: bool, text: seq<Lexeme>)
    requires Prints(a, l) && Prints(b, r)
    ensures ok <==> Translate(hw, l).Some? && Translate(hw, r).Some?
    ensures ok ==> text == Text(Node(op, Translate(hw, l).value, Translate(hw, r).value))
  {
    hide Text, Translate, Join;
    var top, y := PopOperand(hw, b, r);
    var below, x := PopOperand(hw, a, l);
    ok, text := top && below, [];
    if ok {
      JoinIsText(op, Translate(hw, l).value, Translate(hw, r).value);
      text := Join(op, x, y);
    }
  }

  /** splice_rpn_expression. */
  method SpliceRpnExpression(hw: set<string>, tokens: seq<Token>) returns (ok: bool, text: seq<Lexeme>)
    ensures ok <==> TreeOf(hw, tokens).Some?
    ensures ok ==> text == Text(TreeOf(hw, tokens).value) && Parse(text) == TreeOf(hw, tokens)
  {
    hide Text, Parse, Translate, Join, Trees;
    ok, text := false, [];
    assert tokens[..0] == [];
    NoTrees(hw);
    var stack: seq<Piece> := [];
    for i := 0 to |tokens|
      invariant Trees(hw, tokens[..i]).Some? && AllPrint(stack, Trees(hw, tokens[..i]).value)
    {
      ghost var trees := Trees(hw, tokens[..i]).value;
      ghost var n := |trees|;
      NextTrees(hw, tokens, i);
      if tokens[i].Push? {
        stack := stack + [Pending(tokens[i].a)];
      } else {
        if |stack| < 2 {
          FailsForGood(hw, tokens, i + 1);
          return;
        }
        var done, joined := SpliceOperator(hw, tokens[i].op, stack[|stack| - 2], stack[|stack| - 1],
                                            trees[n - 2], trees[n - 1]);
        if !done {
          FailsForGood(hw, tokens, i + 1);
          return;
        }
        stack := stack[..|stack| - 2] + [Spliced(joined)];
      }
    }
    assert tokens[..|tokens|] == tokens;
    if |stack| != 1 {
      return;
    }
    ghost var t := Trees(hw, tokens).value[0];
    TextMeansTree(t);
    match stack[0] {
      case Pending(a) =>
        LeafText(a);
        return true, [Operand(a)];
      case Spliced(x) =>
        return true, x;
    }
  }

  lemma NoTrees(hw: set<string>)
    ensures Trees(hw, []) == Some([])
  {
  }

  lemma LeafText(a: Atom)
    ensures Text(Leaf(a)) == [Operand(a)]
  {
  }

  lemma JoinIsText(op: Op, l: Tree, r: Tree)
    ensures Join(op, Text(l), Text(r)) == Text(Node(op, l, r))
  {
  }

  lemma {:induction false} FailsForGood(hw: set<string>, tokens: seq<Token>, i: nat)
    requires i <= |tokens| && Trees(hw, tokens[..i]).None?
    ensures Trees(hw, tokens).None?
    decreases |tokens| - i
  {
    if i < |tokens| {
      assert tokens[..i + 1][..i] == tokens[..i];
      FailsForGood(hw, tokens, i + 1);
    } else {
      assert tokens[..i] == tokens;
    }
  }

  predicate Translated(t: Tree) {
    match t
    case Leaf(a) => !a.Variable?
    case Node(_, l, r) => Translated(l) && Translated(r)
  }

  lemma {:induction false} NodesTranslated(hw: set<string>, tokens: seq<Token>)
    ensures Trees(hw, tokens).Some? ==>
              forall i :: 0 <= i < |Trees(hw, tokens).value| ==>
                var t := Trees(hw, tokens).value[i]; t.Node? ==> Translated(t)
  {
    if tokens != [] {
      NodesTranslated(hw, tokens[..|tokens| - 1]);
    }
  }

  /** Every variable of an expression is translated, if and only if the expression is not just a variable:
      that one is printed as it stands. */
  lemma LoneVariableStays(hw: set<string>, tokens: seq<Token>)
    requires TreeOf(hw, tokens).Some?
    ensures var t := TreeOf(hw, tokens).value; Translated(t) <==> !(t.Leaf? && t.a.Variable?)
  {
    hide Trees;
    NodesTranslated(hw, tokens);
  }

  /** One that is: it is printed with its dollar sign, which is not C. */
  lemma LoneSliceMask()
    ensures var t := TreeOf({"SliceMask"}, [Push(Variable("SliceMask"))]);
            && t == Some(Leaf(Variable("SliceMask"))) && !Translated(t.value)
            && Text(t.value) == [Operand(Variable("SliceMask"))]
  {
    assert [Push(Variable("SliceMask"))][..0] == [];
    assert Trees({"SliceMask"}, []) == Some([]);
  }

  // ---------------------------------------------------------------- which expression it is

  /** An expression as RPN. */
  function Postfix(t: Tree): seq<Token> {
    match t
    case Leaf(a) => [Push(a)]
    case Node(op, l, r) => Postfix(l) + Postfix(r) + [Apply(op)]
  }

  function PostfixAll(trees: seq<Tree>): seq<Token> {
    if trees == [] then [] else PostfixAll(trees[..|trees| - 1]) + Postfix(trees[|trees| - 1])
  }

  /** Token y is token x, or the field that variable x names. */
  predicate StandsFor(hw: set<string>, x: Token, y: Token) {
    x == y || (x.Push? && x.a.Variable? && x.a.name in hw && y == Push(Field(x.a.name)))
  }

  ghost predicate AllStandFor(hw: set<string>, xs: seq<Token>, ys: seq<Token>) {
    |xs| == |ys| && forall i :: 0 <= i < |xs| ==> StandsFor(hw, xs[i], ys[i])
  }

  lemma AllStandForSum(hw: set<string>, a: seq<Token>, b: seq<Token>, c: seq<Token>, d: seq<Token>)
    requires AllStandFor(hw, a, b) && AllStandFor(hw, c, d)
    ensures AllStandFor(hw, a + c, b + d)
  {
  }

  /** Two expressions, written one after the other. */
  lemma TopTwo(trees: seq<Tree>)
    requires |trees| >= 2
    ensures var n := |trees|;
            PostfixAll(trees) == PostfixAll(trees[..n - 2]) + Postfix(trees[n - 2]) + Postfix(trees[n - 1])
  {
    assert trees[..|trees| - 1][..|trees| - 2] == trees[..|trees| - 2];
  }

  lemma TranslatedStands(hw: set<string>, t: Tree)
    requires Translate(hw, t).Some?
    ensures AllStandFor(hw, Postfix(t), Postfix(Translate(hw, t).value))
  {
  }

  /** The expressions on the stack spell the tokens so far, with fields for variables. */
  lemma {:induction false} TreesSpell(hw: set<string>, tokens: seq<Token>)
    requires Trees(hw, tokens).Some?
    ensures AllStandFor(hw, tokens, PostfixAll(Trees(hw, tokens).value))
  {
    if tokens != [] {
      var before, t := tokens[..|tokens| - 1], tokens[|tokens| - 1];
      TreesSpell(hw, before);
      var s, next := Trees(hw, before).value, Trees(hw, tokens).value;
      assert tokens == before + [t] && next[..|next| - 1] + [next[|next| - 1]] == next;
      if t.Push? {
        assert next[..|next| - 1] == s;
      } else {
        SpellOperator(hw, before, s, t.op);
      }
    }
  }

  lemma SpellOperator(hw: set<string>, before: seq<Token>, s: seq<Tree>, op: Op)
    requires |s| >= 2 && AllStandFor(hw, before, PostfixAll(s))
    requires Translate(hw, s[|s| - 1]).Some? && Translate(hw, s[|s| - 2]).Some?
    ensures var l, r := Translate(hw, s[|s| - 2]).value, Translate(hw, s[|s| - 1]).value;
            AllStandFor(hw, before + [Apply(op)], PostfixAll(s[..|s| - 2] + [Node(op, l, r)]))
  {
    hide Translate, StandsFor, AllStandFor, Postfix;
    var n := |s|;
    var l, r := Translate(hw, s[n - 2]).value, Translate(hw, s[n - 1]).value;
    TopTwo(s);
    TranslatedStands(hw, s[n - 2]);
    TranslatedStands(hw, s[n - 1]);
    var next := s[..n - 2] + [Node(op, l, r)];
    assert next[..|next| - 1] == s[..n - 2];
    NodeSpells(op, l, r);
    Spelled(hw, before, PostfixAll(s[..n - 2]), Postfix(s[n - 2]), Postfix(s[n - 1]), Postfix(l), Postfix(r),
            Apply(op));
  }

  lemma NodeSpells(op: Op, l: Tree, r: Tree)
    ensures Postfix(Node(op, l, r)) == Postfix(l) + Postfix(r) + [Apply(op)]
  {
  }

  lemma Spelled(hw: set<string>, before: seq<Token>, rest: seq<Token>, a: seq<Token>, b: seq<Token>, c: seq<Token>,
                d: seq<Token>, t: Token)
    requires AllStandFor(hw, before, rest + a + b) && AllStandFor(hw, a, c) && AllStandFor(hw, b, d)
    ensures AllStandFor(hw, before + [t], rest + (c + d + [t]))
  {
    hide StandsFor, AllStandFor;
    StandAsTheyAre(hw, rest);
    StandAsTheyAre(hw, [t]);
    AllStandForSum(hw, rest, rest, a, c);
    AllStandForSum(hw, rest + a, rest + c, b, d);
    AllStandForMore(hw, before, rest + a + b, rest + c + d);
    AllStandForSum(hw, before, rest + c + d, [t], [t]);
    assert rest + (c + d + [t]) == rest + c + d + [t];
  }

  lemma StandAsTheyAre(hw: set<string>, a: seq<Token>)
    ensures AllStandFor(hw, a, a)
  {
  }

  lemma AllStandForMore(hw: set<string>, a: seq<Token>, b: seq<Token>, c: seq<Token>)
    requires AllStandFor(hw, a, b) && AllStandFor(hw, b, c)
    ensures AllStandFor(hw, a, c)
  {
    forall i | 0 <= i < |a| ensures StandsFor(hw, a[i], c[i]) {
      assert StandsFor(hw, a[i], b[i]) && StandsFor(hw, b[i], c[i]);
    }
  }

  // ---------------------------------------------------------------- when there is one

  /** How many entries the tokens leave, if operators always find two. */
  function Depth(tokens: seq<Token>): int {
    if tokens == [] then 0
    else Depth(tokens[..|tokens| - 1]) + if tokens[|tokens| - 1].Push? then 1 else -1
  }

  /** They always do, and one entry is left in the end. */
  ghost predicate Sound(tokens: seq<Token>) {
    NeverShort(tokens) && Depth(tokens) == 1
  }

  ghost predicate NeverShort(tokens: seq<Token>) {
    forall i :: 0 < i <= |tokens| ==> Depth(tokens[..i]) >= 1
  }

  predicate IsVariable(t: Token) {
    t.Push? && t.a.Variable?
  }

  predicate Known(hw: set<string>, tokens: seq<Token>) {
    forall i :: 0 <= i < |tokens| && IsVariable(tokens[i]) ==> tokens[i].a.name in hw
  }

  lemma ShortEarlier(tokens: seq<Token>)
    requires tokens != []
    ensures NeverShort(tokens) <==> NeverShort(tokens[..|tokens| - 1]) && Depth(tokens) >= 1
  {
    var before := tokens[..|tokens| - 1];
    forall i | 0 < i <= |before| ensures before[..i] == tokens[..i] {
    }
    assert tokens[..|tokens|] == tokens;
  }

  lemma {:induction false} TreesAreSound(hw: set<string>, tokens: seq<Token>)
    requires Trees(hw, tokens).Some?
    ensures |Trees(hw, tokens).value| == Depth(tokens) && NeverShort(tokens)
  {
    hide Translate, NeverShort;
    if tokens == [] {
      assert NeverShort([]) by { NothingShort(); }
    } else {
      TreesAreSound(hw, tokens[..|tokens| - 1]);
      ShortEarlier(tokens);
    }
  }

  lemma NothingShort()
    ensures NeverShort([])
  {
  }

  /** If all variables are known. */
  lemma {:induction false} SoundHasTrees(hw: set<string>, tokens: seq<Token>)
    requires NeverShort(tokens) && Known(hw, tokens)
    ensures Trees(hw, tokens).Some? && |Trees(hw, tokens).value| == Depth(tokens)
    ensures forall i :: 0 <= i < |Trees(hw, tokens).value| ==> Translate(hw, Trees(hw, tokens).value[i]).Some?
  {
    hide NeverShort;
    if tokens != [] {
      ShortEarlier(tokens);
      SoundHasTrees(hw, tokens[..|tokens| - 1]);
    }
  }

  /** Token x with the field that it names. */
  function Renamed(x: Token): Token {
    if IsVariable(x) then Push(Field(x.a.name)) else x
  }

  ghost predicate SpellsRenamed(t: Tree, tokens: seq<Token>) {
    |Postfix(t)| == |tokens| && forall i :: 0 <= i < |tokens| ==> Postfix(t)[i] == Renamed(tokens[i])
  }

  lemma {:induction false} NoVariableSpelled(t: Tree, i: nat)
    requires Translated(t) && i < |Postfix(t)|
    ensures !IsVariable(Postfix(t)[i])
  {
    if t.Node? {
      var a, b := Postfix(t.l), Postfix(t.r);
      if i < |a| { NoVariableSpelled(t.l, i); } else if i < |a| + |b| { NoVariableSpelled(t.r, i - |a|); }
    }
  }

  lemma OneSpells(hw: set<string>, tokens: seq<Token>)
    requires TreeOf(hw, tokens).Some?
    ensures AllStandFor(hw, tokens, Postfix(TreeOf(hw, tokens).value))
  {
    hide Postfix, AllStandFor, Trees;
    TreesSpell(hw, tokens);
    var s := Trees(hw, tokens).value;
    assert s[..0] == [] && PostfixAll(s) == [] + Postfix(s[0]) == Postfix(s[0]);
  }

  lemma {:induction false} OnlyLeaf(t: Tree)
    ensures |Postfix(t)| >= 1 && (|Postfix(t)| == 1 <==> t.Leaf?)
  {
    if t.Node? {
      OnlyLeaf(t.l);
      OnlyLeaf(t.r);
    }
  }

  /** There is an expression if and only if operators always find two operands, one entry is left, and all
      variables are known - or the variable is the only token.  It is the one that the tokens spell, every
      variable replaced by its field, unless it is the only token: that one stays. */
  lemma SpliceExact(hw: set<string>, tokens: seq<Token>)
    ensures TreeOf(hw, tokens).Some? <==> Sound(tokens) && (|tokens| == 1 || Known(hw, tokens))
    ensures TreeOf(hw, tokens).Some? ==>
              var t := TreeOf(hw, tokens).value;
              if |tokens| == 1 then tokens[0].Push? && t == Leaf(tokens[0].a) else SpellsRenamed(t, tokens)
  {
    hide Trees, NeverShort, Translate;
    if TreeOf(hw, tokens).Some? {
      TreesAreSound(hw, tokens);
      SplicedSpells(hw, tokens);
    } else if Sound(tokens) && Known(hw, tokens) {
      SoundHasTrees(hw, tokens);
    } else if Sound(tokens) && |tokens| == 1 {
      LoneHasTree(hw, tokens);
    }
  }

  lemma LoneHasTree(hw: set<string>, tokens: seq<Token>)
    requires |tokens| == 1 && Depth(tokens) == 1
    ensures TreeOf(hw, tokens).Some?
  {
    assert tokens[..0] == [];
    NoTrees(hw);
    assert Depth([]) == 0;
  }

  lemma SplicedSpells(hw: set<string>, tokens: seq<Token>)
    requires TreeOf(hw, tokens).Some?
    ensures var t := TreeOf(hw, tokens).value;
            if |tokens| == 1 then tokens[0].Push? && t == Leaf(tokens[0].a)
            else
              Known(hw, tokens) && SpellsRenamed(t, tokens)
  {
    hide Trees;
    var t := TreeOf(hw, tokens).value;
    OneSpells(hw, tokens);
    OnlyLeaf(t);
    if |tokens| == 1 {
      LoneTree(hw, tokens);
    } else {
      LoneVariableStays(hw, tokens);
      forall i | 0 <= i < |tokens|
        ensures Postfix(t)[i] == Renamed(tokens[i]) && (IsVariable(tokens[i]) ==> tokens[i].a.name in hw)
      {
        assert StandsFor(hw, tokens[i], Postfix(t)[i]);
        NoVariableSpelled(t, i);
      }
    }
  }

  lemma LoneTree(hw: set<string>, tokens: seq<Token>)
    requires |tokens| == 1 && TreeOf(hw, tokens).Some?
    ensures tokens[0].Push? && TreeOf(hw, tokens).value == Leaf(tokens[0].a)
  {
    assert tokens[..0] == [];
    NoTrees(hw);
  }
}
