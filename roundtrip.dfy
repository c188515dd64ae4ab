/** The parser against an independent definition of the command-line
    grammar: a command line written with explicit parentheses, the tokens it
    is written as, and the tree it means. Parsing the tokens yields that
    tree whenever every operator written without parentheses around its
    operands groups the way precedence and left associativity say. */
module RoundTrip {
  import opened Syntax
  import opened Parser
  import opened ParserProperties

  /** A command line as written: a program with its words, two command
      lines joined by an operator, or a command line in parentheses. */
  datatype Expr =
    | Command(args: seq<string>)
    | Binary(op: OpKind, left: Expr, right: Expr)
    | Group(inner: Expr)

  /** The word tokens of a program's arguments. */
  function Words(args: seq<string>): (ws: seq<Token>)
    ensures |ws| == |args|
    ensures forall k | 0 <= k < |args| :: ws[k] == Word(args[k])
  {
    seq(|args|, k requires 0 <= k < |args| => Word(args[k]))
  }

  /** The tokens a command line is written as. */
  function Render(x: Expr): seq<Token> {
    match x
    case Command(args) => Words(args)
    case Binary(k, l, r) => Render(l) + [Op(k)] + Render(r)
    case Group(e) => [LParen] + Render(e) + [RParen]
  }

  /** The tree a command line stands for: parentheses only group. */
  function Meaning(x: Expr): Node {
    match x
    case Command(args) => Program(args)
    case Binary(k, l, r) => Operator(k, Meaning(l), Meaning(r))
    case Group(e) => Meaning(e)
  }

  /** How loosely the outermost part of `x` binds: the precedence of its
      top operator, or 4, above every operator, for a program or a group. */
  function Level(x: Expr): nat {
    match x
    case Binary(k, _, _) => OperatorPrecedence(k)
    case _ => 4
  }

  /** Every program has a word, and an operator's unparenthesised operands
      bind as the parser groups them: the left one at least as tightly
      (operators associate to the left), the right one strictly tighter. */
  predicate WellFormed(x: Expr) {
    match x
    case Command(args) => args != []
    case Binary(k, l, r) =>
      WellFormed(l) && WellFormed(r) && Level(l) >= OperatorPrecedence(k) && Level(r) > OperatorPrecedence(k)
    case Group(e) => WellFormed(e)
  }

  lemma {:induction false} TextsOfWords(args: seq<string>)
    ensures Texts(Words(args)) == args
  {
    var ts := Texts(Words(args));
    assert forall k | 0 <= k < |args| :: Word(ts[k]) == Word(args[k]);
  }

  /** What the stacks hold once the tokens of `x` are read and nothing
      after them has been seen: the operators of its right spine wait on
      the operator stack above their left operands. */
  function Spine(x: Expr): Stacks {
    match x
    case Binary(k, l, r) => Stacks([Pending(k)] + Spine(r).operators, [Meaning(l)] + Spine(r).operands)
    case _ => Stacks([], [Meaning(x)])
  }

  /** No operator of level `p` or above folds this stack's top. */
  predicate Below(ops: seq<Entry>, p: nat) {
    ops == [] || ops[|ops| - 1].Open? || OperatorPrecedence(ops[|ops| - 1].op) < p
  }

  /** An operator that binds no tighter than `x` folds the waiting spine
      of `x` back into the tree `x` means. */
  lemma {:induction false} SpineCollapse(x: Expr, b: Stacks, k: OpKind)
    requires WellFormed(x) && OperatorPrecedence(k) <= Level(x)
    ensures Folded(Under(b, Spine(x)), k) == Folded(Stacks(b.operators, b.operands + [Meaning(x)]), k)
    decreases x, 1
  {
    match x
    case Binary(k1, l, r) =>
      var b' := Stacks(b.operators + [Pending(k1)], b.operands + [Meaning(l)]);
      CollapseBinary(x, b, k, b', Under(b, Spine(x)));
    case Command(_) =>
      assert Under(b, Spine(x)).operators == b.operators;
    case Group(_) =>
      assert Under(b, Spine(x)).operators == b.operators;
  }

  /** The binary case of `SpineCollapse`: the right spine collapses first,
      then its operator folds the two operands it waits between. */
  lemma {:induction false} CollapseBinary(x: Expr, b: Stacks, k: OpKind, b': Stacks, u: Stacks)
    requires x.Binary? && WellFormed(x) && OperatorPrecedence(k) <= Level(x)
    requires b' == Stacks(b.operators + [Pending(x.op)], b.operands + [Meaning(x.left)])
    requires u == Under(b, Spine(x))
    ensures Folded(u, k) == Folded(Stacks(b.operators, b.operands + [Meaning(x)]), k)
    decreases x, 0
  {
    var k1, l, r := x.op, x.left, x.right;
    assert u.operators == Under(b', Spine(r)).operators;
    assert u.operands == Under(b', Spine(r)).operands;
    assert b'.operands + [Meaning(r)] == b.operands + [Meaning(l), Meaning(r)];
    FoldPair(b.operators, b.operands, k1, Meaning(l), Meaning(r), k);
    SpineCollapse(r, b', k);
  }

  /** The parts of a slice that is a concatenation. */
  lemma SliceParts(t: seq<Token>, i: nat, a: seq<Token>, b: seq<Token>, c: seq<Token>)
    requires i + |a + b + c| <= |t| && t[i..i + |a + b + c|] == a + b + c
    ensures t[i..i + |a|] == a
    ensures t[i + |a|..i + |a| + |b|] == b
    ensures t[i + |a| + |b|..i + |a| + |b| + |c|] == c
  {
    var abc := a + b + c;
    assert forall k | 0 <= k < |abc| :: t[i + k] == t[i..i + |abc|][k] == abc[k];
    assert forall k | 0 <= k < |a| :: t[i + k] == a[k];
    assert forall k | 0 <= k < |b| :: t[i + |a| + k] == b[k];
    assert forall k | 0 <= k < |c| :: t[i + |a| + |b| + k] == c[k];
  }

  /** Reading the tokens of `x` from cursor `i` to cursor `n`, on stacks
      whose top no operator of `x` folds, leaves the spine of `x` on those
      stacks: `after` is `s` with that spine on top. */
  lemma {:induction false} RenderSpine(x: Expr, t: seq<Token>, i: nat, n: nat, s: Stacks, after: Stacks)
    requires WellFormed(x) && n == i + |Render(x)| <= |t| && t[i..n] == Render(x)
    requires n == |t| || !t[n].Word?
    requires Below(s.operators, Level(x))
    requires after.operators == s.operators + Spine(x).operators
    requires after.operands == s.operands + Spine(x).operands
    ensures Consumed(t, i, s) == Consumed(t, n, after)
    decreases x, 2
  {
    match x
    case Command(args) =>
      assert forall k | i <= k < n :: t[k] == t[i..n][k - i];
      TextsOfWords(args);
      ConsumedWords(t, i, n, s, args, after);
    case Binary(_, _, _) =>
      RenderBinary(x, t, i, n, s, after);
    case Group(_) =>
      RenderGroup(x, t, i, n, s, after);
  }

  lemma {:induction false} RenderBinary(x: Expr, t: seq<Token>, i: nat, n: nat, s: Stacks, after: Stacks)
    requires x.Binary? && WellFormed(x) && n == i + |Render(x)| <= |t| && t[i..n] == Render(x)
    requires n == |t| || !t[n].Word?
    requires Below(s.operators, Level(x))
    requires after.operators == s.operators + Spine(x).operators
    requires after.operands == s.operands + Spine(x).operands
    ensures Consumed(t, i, s) == Consumed(t, n, after)
    decreases x, 1
  {
    var k, l, r := x.op, x.left, x.right;
    var m := i + |Render(l)| + 1;
    SliceParts(t, i, Render(l), [Op(k)], Render(r));
    var s2 := Stacks(s.operators + [Pending(k)], s.operands + [Meaning(l)]);
    assert after.operators == s2.operators + Spine(r).operators;
    assert after.operands == s2.operands + Spine(r).operands;
    RenderSpine(r, t, m, n, s2, after);
    RenderLeft(x, t, i, m, s, s2);
  }

  /** The left operand of a binary command line and its operator: the
      operator folds the left operand's spine and then waits on top. */
  lemma {:induction false} RenderLeft(x: Expr, t: seq<Token>, i: nat, m: nat, s: Stacks, s2: Stacks)
    requires x.Binary? && WellFormed(x) && i + |Render(x)| <= |t| && t[i..i + |Render(x)|] == Render(x)
    requires Below(s.operators, Level(x))
    requires m == i + |Render(x.left)| + 1
    requires s2 == Stacks(s.operators + [Pending(x.op)], s.operands + [Meaning(x.left)])
    ensures Consumed(t, i, s) == Consumed(t, m, s2)
    decreases x, 0
  {
    var k, l := x.op, x.left;
    var j := i + |Render(l)|;
    SliceParts(t, i, Render(l), [Op(k)], Render(x.right));
    assert t[j] == t[j..j + 1][0];
    LeftOperator(l, k, t, i, j, m, s, s2);
  }

  /** A left operand followed by its operator `k`, which binds no tighter
      than the operand: `k` folds the operand's spine and then waits on
      top. */
  lemma {:induction false} LeftOperator(l: Expr, k: OpKind, t: seq<Token>, i: nat, j: nat, m: nat, s: Stacks, s2: Stacks)
    requires WellFormed(l) && OperatorPrecedence(k) <= Level(l)
    requires j == i + |Render(l)| < |t| && t[i..j] == Render(l) && t[j].Op? && t[j].kind == k
    requires Below(s.operators, OperatorPrecedence(k))
    requires m == j + 1 && s2 == Stacks(s.operators + [Pending(k)], s.operands + [Meaning(l)])
    ensures Consumed(t, i, s) == Consumed(t, m, s2)
    decreases l, 3
  {
    var u := Under(s, Spine(l));
    var f := Stacks(s.operators, s.operands + [Meaning(l)]);
    SpineCollapse(l, s, k);
    FoldNone(f, k);
    ConsumedOperator(t, j, u, f, s2);
    RenderSpine(l, t, i, j, s, u);
  }

  lemma {:induction false} RenderGroup(x: Expr, t: seq<Token>, i: nat, n: nat, s: Stacks, after: Stacks)
    requires x.Group? && WellFormed(x) && n == i + |Render(x)| <= |t| && t[i..n] == Render(x)
    requires n == |t| || !t[n].Word?
    requires Below(s.operators, Level(x))
    requires after.operators == s.operators + Spine(x).operators
    requires after.operands == s.operands + Spine(x).operands
    ensures Consumed(t, i, s) == Consumed(t, n, after)
    decreases x, 1
  {
    var e := x.inner;
    var j := n - 1;
    SliceParts(t, i, [LParen], Render(e), [RParen]);
    assert t[j] == t[j..j + 1][0];
    var s1 := Stacks(s.operators + [Open], s.operands);
    var u := Under(s1, Spine(e));
    RenderInner(x, t, i, j, s, u);
    var f := Stacks(s1.operators, s1.operands + [Meaning(e)]);
    SpineCollapse(e, s1, Sequence);
    FoldNone(f, Sequence);
    assert f.operators[..|f.operators| - 1] == s.operators == after.operators;
    ConsumedClose(t, j, u, f, after);
  }

  /** The `(` of a group and its contents: the contents' spine waits above
      the `(` marker. */
  lemma {:induction false} RenderInner(x: Expr, t: seq<Token>, i: nat, j: nat, s: Stacks, u: Stacks)
    requires x.Group? && WellFormed(x) && i + |Render(x)| <= |t| && t[i..i + |Render(x)|] == Render(x)
    requires j == i + 1 + |Render(x.inner)|
    requires u == Under(Stacks(s.operators + [Open], s.operands), Spine(x.inner))
    ensures Consumed(t, i, s) == Consumed(t, j, u)
    decreases x, 0
  {
    var e := x.inner;
    SliceParts(t, i, [LParen], Render(e), [RParen]);
    assert t[i] == t[i..i + 1][0] && t[j] == t[j..j + 1][0];
    var s1 := Stacks(s.operators + [Open], s.operands);
    ConsumedOpen(t, i, s, s1);
    RenderSpine(e, t, i + 1, j, s1, u);
  }

  /** The round trip: a well-formed command line parses to the tree it
      means. */
  lemma ParseRender(x: Expr)
    requires WellFormed(x)
    ensures Parsed(Render(x)) == Ok(Meaning(x))
  {
    var t := Render(x);
    var e := Stacks([], []);
    assert t[0..|t|] == t;
    RenderSpine(x, t, 0, |t|, e, Spine(x));
    SpineCollapse(x, e, Sequence);
    var m := Stacks([], [Meaning(x)]);
    assert Stacks(e.operators, e.operands + [Meaning(x)]) == m;
    FoldNone(m, Sequence);
  }

  /** Two operators between three programs: the first folds before the
      second is pushed when it binds at least as tightly (so equal
      precedences associate to the left), otherwise the second operator
      takes the middle program. */
  lemma ThreeCommands(a: seq<string>, b: seq<string>, c: seq<string>, k1: OpKind, k2: OpKind)
    requires a != [] && b != [] && c != []
    ensures Parsed(Words(a) + [Op(k1)] + Words(b) + [Op(k2)] + Words(c))
         == Ok(if OperatorPrecedence(k1) >= OperatorPrecedence(k2)
               then Operator(k2, Operator(k1, Program(a), Program(b)), Program(c))
               else Operator(k1, Program(a), Operator(k2, Program(b), Program(c))))
  {
    var t := Words(a) + [Op(k1)] + Words(b) + [Op(k2)] + Words(c);
    if OperatorPrecedence(k1) >= OperatorPrecedence(k2) {
      GroupedLeft(a, b, c, k1, k2, t);
    } else {
      GroupedRight(a, b, c, k1, k2, t);
    }
  }

  lemma GroupedLeft(a: seq<string>, b: seq<string>, c: seq<string>, k1: OpKind, k2: OpKind, t: seq<Token>)
    requires a != [] && b != [] && c != [] && OperatorPrecedence(k1) >= OperatorPrecedence(k2)
    requires t == Words(a) + [Op(k1)] + Words(b) + [Op(k2)] + Words(c)
    ensures Parsed(t) == Ok(Operator(k2, Operator(k1, Program(a), Program(b)), Program(c)))
  {
    var x := Binary(k2, Binary(k1, Command(a), Command(b)), Command(c));
    LeftExpr(a, b, c, k1, k2, t, x);
    ParseRender(x);
  }

  /** The command line `a k1 b k2 c` read with `k1` grouped first. */
  lemma LeftExpr(a: seq<string>, b: seq<string>, c: seq<string>, k1: OpKind, k2: OpKind, t: seq<Token>, x: Expr)
    requires a != [] && b != [] && c != [] && OperatorPrecedence(k1) >= OperatorPrecedence(k2)
    requires t == Words(a) + [Op(k1)] + Words(b) + [Op(k2)] + Words(c)
    requires x == Binary(k2, Binary(k1, Command(a), Command(b)), Command(c))
    ensures WellFormed(x) && Render(x) == t
    ensures Meaning(x) == Operator(k2, Operator(k1, Program(a), Program(b)), Program(c))
  {
    assert Meaning(x.left) == Operator(k1, Program(a), Program(b));
    assert Render(x.left) == Words(a) + [Op(k1)] + Words(b);
    assert Render(x.right) == Words(c);
  }

  lemma GroupedRight(a: seq<string>, b: seq<string>, c: seq<string>, k1: OpKind, k2: OpKind, t: seq<Token>)
    requires a != [] && b != [] && c != [] && OperatorPrecedence(k1) < OperatorPrecedence(k2)
    requires t == Words(a) + [Op(k1)] + Words(b) + [Op(k2)] + Words(c)
    ensures Parsed(t) == Ok(Operator(k1, Program(a), Operator(k2, Program(b), Program(c))))
  {
    var x := Binary(k1, Command(a), Binary(k2, Command(b), Command(c)));
    RightExpr(a, b, c, k1, k2, t, x);
    ParseRender(x);
  }

  /** The command line `a k1 b k2 c` read with `k2` grouped first. */
  lemma RightExpr(a: seq<string>, b: seq<string>, c: seq<string>, k1: OpKind, k2: OpKind, t: seq<Token>, x: Expr)
    requires a != [] && b != [] && c != [] && OperatorPrecedence(k1) < OperatorPrecedence(k2)
    requires t == Words(a) + [Op(k1)] + Words(b) + [Op(k2)] + Words(c)
    requires x == Binary(k1, Command(a), Binary(k2, Command(b), Command(c)))
    ensures WellFormed(x) && Render(x) == t
    ensures Meaning(x) == Operator(k1, Program(a), Operator(k2, Program(b), Program(c)))
  {
    assert Meaning(x.right) == Operator(k2, Program(b), Program(c));
    assert Render(x.right) == Words(b) + [Op(k2)] + Words(c);
    assert Render(x.left) == Words(a);
    Regroup(Words(a), [Op(k1)], Words(b), [Op(k2)], Words(c));
  }

  lemma Regroup<T>(p: seq<T>, q: seq<T>, u: seq<T>, v: seq<T>, w: seq<T>)
    ensures p + q + (u + v + w) == p + q + u + v + w
  {
  }

  /** Writes a tree with a parenthesis only where the parser would
      otherwise group differently. */
  function Print(n: Node): (x: Expr)
    requires Complete(n)
    ensures WellFormed(x) && Meaning(x) == n
  {
    match n
    case Program(args) => Command(args)
    case Operator(k, l, r) =>
      var pl, pr := Print(l), Print(r);
      Binary(k, if Level(pl) >= OperatorPrecedence(k) then pl else Group(pl),
                if Level(pr) > OperatorPrecedence(k) then pr else Group(pr))
  }

  /** Every tree without an empty node is what some token list parses to;
      with `ParseResultShape`, the trees a parse can return are exactly
      these and `Empty`. */
  lemma EveryTreeParses(n: Node)
    requires Complete(n)
    ensures Parsed(Render(Print(n))) == Ok(n)
  {
    ParseRender(Print(n));
  }

  /** The strings a command line is written as, before they are
      classified into tokens. */
  function Spelling(x: Expr): seq<string> {
    match x
    case Command(args) => args
    case Binary(k, l, r) => Spelling(l) + [Symbol(k)] + Spelling(r)
    case Group(e) => ["("] + Spelling(e) + [")"]
  }

  lemma TokensConcat(a: seq<string>, b: seq<string>)
    ensures Tokens(a + b) == Tokens(a) + Tokens(b)
  {
    var u, v := Tokens(a + b), Tokens(a) + Tokens(b);
    forall k | 0 <= k < |a + b|
      ensures u[k] == v[k]
    {
      if k < |a| {
        assert (a + b)[k] == a[k];
      } else {
        assert (a + b)[k] == b[k - |a|];
      }
    }
    assert |u| == |v|;
  }

  /** Strings that pass `is_word` classify as words. */
  lemma CommandTokens(args: seq<string>)
    requires forall k | 0 <= k < |args| :: IsWord(args[k])
    ensures Tokens(args) == Words(args)
  {
    assert forall k | 0 <= k < |args| :: Tokens(args)[k] == Classify(args[k]) == Word(args[k]);
  }

  /** When every argument passes `is_word`, classifying the strings of a
      command line gives exactly its tokens: the strings are a split
      command line that this grammar describes. */
  lemma {:induction false} SpellingTokens(x: Expr)
    requires Spelled(Meaning(x))
    ensures Tokens(Spelling(x)) == Render(x)
  {
    match x
    case Command(args) =>
      CommandTokens(args);
    case Binary(_, l, r) =>
      SpellingTokens(l);
      SpellingTokens(r);
      BinaryTokens(x);
    case Group(e) =>
      SpellingTokens(e);
      GroupTokens(x);
  }

  lemma BinaryTokens(x: Expr)
    requires x.Binary? && Tokens(Spelling(x.left)) == Render(x.left) && Tokens(Spelling(x.right)) == Render(x.right)
    ensures Tokens(Spelling(x)) == Render(x)
  {
    var k, l, r := x.op, x.left, x.right;
    SymbolClassifies(k);
    TokensConcat(Spelling(l) + [Symbol(k)], Spelling(r));
    TokensConcat(Spelling(l), [Symbol(k)]);
  }

  lemma GroupTokens(x: Expr)
    requires x.Group? && Tokens(Spelling(x.inner)) == Render(x.inner)
    ensures Tokens(Spelling(x)) == Render(x)
  {
    TokensConcat(["("] + Spelling(x.inner), [")"]);
    TokensConcat(["("], Spelling(x.inner));
  }

  /** Every tree without an empty node whose arguments all pass `is_word`
      is what some split command line parses to; with `ParseRange`, the
      trees a parse of split strings can return are exactly these and
      `Empty`. */
  lemma EveryWordTreeParses(n: Node)
    requires Complete(n) && Spelled(n)
    ensures Parsed(Tokens(Spelling(Print(n)))) == Ok(n)
  {
    SpellingTokens(Print(n));
    ParseRender(Print(n));
  }
}
