/** What the parser of shell.py guarantees, stated about its specification
    functions `Folded`, `Step`, `Consumed` and `Parsed`. */
module ParserProperties {
  import opened Syntax
  import opened Parser

  // ---------------------------------------------------------------------
  // fold
  // ---------------------------------------------------------------------

  /** How many entries on top of `ops` fold against `next`. */
  function FoldDepth(ops: seq<Entry>, next: OpKind): (d: nat)
    ensures d <= |ops|
    decreases |ops|
  {
    if Folds(ops, next) then 1 + FoldDepth(ops[..|ops| - 1], next) else 0
  }

  /** The entries that fold against `next` are exactly the operators above
      the nearest `(` whose precedence is at least that of `next`: each of
      them is such an operator, and the entry below them does not fold. */
  lemma {:induction false} FoldDepthSpec(ops: seq<Entry>, next: OpKind)
    ensures var d := FoldDepth(ops, next);
      forall k | |ops| - d <= k < |ops| :: ops[k].Pending? && OperatorPrecedence(ops[k].op) >= OperatorPrecedence(next)
    ensures !Folds(ops[..|ops| - FoldDepth(ops, next)], next)
    decreases |ops|
  {
    if Folds(ops, next) {
      var ops1 := ops[..|ops| - 1];
      FoldDepthSpec(ops1, next);
      var d := FoldDepth(ops, next);
      assert ops1[..|ops1| - (d - 1)] == ops[..|ops| - d];
    } else {
      assert ops[..|ops|] == ops;
    }
  }

  /** `fold(next)` succeeds exactly when there are enough operands for the
      operators it folds. */
  lemma {:induction false} FoldSucceeds(s: Stacks, next: OpKind)
    ensures var d := FoldDepth(s.operators, next);
      Folded(s, next).Ok? <==> d == 0 || d < |s.operands|
    decreases |s.operators|
  {
    if Folds(s.operators, next) && |s.operands| >= 2 {
      var s1 := FoldStep(s);
      FoldOne(s, next, s1);
      FoldSucceeds(s1, next);
    }
  }

  /** A successful `fold(next)` removes exactly the operators that fold. */
  lemma {:induction false} FoldRemoves(s: Stacks, next: OpKind)
    requires Folded(s, next).Ok?
    ensures Folded(s, next).value.operators == s.operators[..|s.operators| - FoldDepth(s.operators, next)]
    decreases |s.operators|
  {
    if Folds(s.operators, next) {
      var s1 := FoldStep(s);
      FoldOne(s, next, s1);
      FoldRemoves(s1, next);
      var d1 := FoldDepth(s1.operators, next);
      assert s1.operators[..|s1.operators| - d1] == s.operators[..|s.operators| - (d1 + 1)];
    } else {
      assert s.operators[..|s.operators|] == s.operators;
    }
  }

  /** A `fold(next)` that folds something leaves every operand below the
      new top as it was. */
  lemma {:induction false} FoldKeepsBelow(s: Stacks, next: OpKind)
    requires Folded(s, next).Ok? && Folds(s.operators, next)
    ensures var f := Folded(s, next).value;
      0 < |f.operands| < |s.operands| && f.operands[..|f.operands| - 1] == s.operands[..|f.operands| - 1]
    decreases |s.operators|
  {
    var m := |s.operands|;
    var s1 := FoldStep(s);
    FoldOne(s, next, s1);
    var f := Folded(s, next).value;
    assert s1.operands[..m - 2] == s.operands[..m - 2];
    if Folds(s1.operators, next) {
      FoldKeepsBelow(s1, next);
      assert s1.operands[..|f.operands| - 1] == s.operands[..|f.operands| - 1];
    } else {
      FoldNone(s1, next);
    }
  }

  /** A successful `fold(next)` that folds `d` operators replaces the top
      `d + 1` operands by one tree and leaves everything below them
      unchanged; when nothing folds, nothing changes. */
  lemma FoldOutcome(s: Stacks, next: OpKind)
    requires Folded(s, next).Ok?
    ensures var d, f := FoldDepth(s.operators, next), Folded(s, next).value;
      && |f.operands| == |s.operands| - d
      && (d == 0 ==> f == s)
      && (d > 0 ==> 0 < |f.operands| && f.operands[..|f.operands| - 1] == s.operands[..|f.operands| - 1])
  {
    FoldRemoves(s, next);
    if Folds(s.operators, next) {
      FoldKeepsBelow(s, next);
    }
  }

  /** One fold step: when exactly one operator folds, it becomes the root
      of a new tree whose `right` is the operand pushed last and whose
      `left` is the one below it. */
  lemma FoldSingle(s: Stacks, next: OpKind)
    requires FoldDepth(s.operators, next) == 1 && |s.operands| >= 2
    ensures var n, m := |s.operators|, |s.operands|;
      Folded(s, next) == Ok(Stacks(s.operators[..n - 1],
                                   s.operands[..m - 2] + [Operator(s.operators[n - 1].op, s.operands[m - 2], s.operands[m - 1])]))
  {
    FoldOne(s, next, FoldStep(s));
  }

  /** Below a run of operators, the stack is empty or has a `(` on top:
      then it is empty exactly when the stack holds no `(`. */
  lemma OpenBelowRun(ops: seq<Entry>, d: nat)
    requires d <= |ops| && forall k | |ops| - d <= k < |ops| :: ops[k].Pending?
    requires Fence(ops[..|ops| - d])
    ensures ops[..|ops| - d] == [] <==> Open !in ops
  {
    var p := ops[..|ops| - d];
    if p == [] {
      assert forall k | 0 <= k < |ops| :: ops[k].Pending?;
    } else {
      assert ops[|p| - 1] == p[|p| - 1] && p[|p| - 1].Open?;
    }
  }

  /** `fold()` at `)` and at the end of input folds every operator above
      the nearest `(`: afterwards the operator stack is empty or has `(` on
      top, and it is empty exactly when it held no `(` at all. */
  lemma ClosingFold(s: Stacks)
    requires Folded(s, Sequence).Ok?
    ensures var f := Folded(s, Sequence).value;
      Fence(f.operators) && (f.operators == [] <==> Open !in s.operators)
  {
    FoldRemoves(s, Sequence);
    FoldDepthSpec(s.operators, Sequence);
    OpenBelowRun(s.operators, FoldDepth(s.operators, Sequence));
  }

  /** The check at `)` fails exactly when the fold succeeded and no `(`
      was open: the popped entry, when there is one, is always a `(`. */
  lemma CloseParenCheck(t: seq<Token>, i: nat, s: Stacks)
    requires i < |t| && t[i].RParen?
    ensures Step(t, i, s) == Err(UnmatchedCloseParen) <==> Folded(s, Sequence).Ok? && Open !in s.operators
  {
    if Folded(s, Sequence).Ok? {
      ClosingFold(s);
    }
  }

  // ---------------------------------------------------------------------
  // the operator stack: precedences increase between `(` markers
  // ---------------------------------------------------------------------

  /** Between `(` markers the operator precedences strictly increase from
      the bottom of the stack to its top. */
  predicate Layered(ops: seq<Entry>) {
    forall k | 0 < k < |ops| ::
      ops[k - 1].Pending? && ops[k].Pending? ==> OperatorPrecedence(ops[k - 1].op) < OperatorPrecedence(ops[k].op)
  }

  /** A prefix of a layered stack is layered: `fold` and the pop at `)`
      keep the stack layered. */
  lemma LayeredPrefix(a: seq<Entry>, ops: seq<Entry>)
    requires Layered(ops) && a <= ops
    ensures Layered(a)
  {
    assert forall k | 0 <= k < |a| :: a[k] == ops[k];
  }

  /** Pushing `(` keeps a stack layered. */
  lemma LayeredOpen(ops: seq<Entry>)
    requires Layered(ops)
    ensures Layered(ops + [Open])
  {
    var ops' := ops + [Open];
    assert forall k | 0 <= k < |ops| :: ops'[k] == ops[k];
  }

  /** Pushing an operator that the top does not fold against keeps a stack
      layered: this is why fold runs before each push. */
  lemma LayeredPush(ops: seq<Entry>, k: OpKind)
    requires Layered(ops) && !Folds(ops, k)
    ensures Layered(ops + [Pending(k)])
  {
    var ops' := ops + [Pending(k)];
    assert forall j | 0 <= j < |ops| :: ops'[j] == ops[j];
  }

  /** Every iteration of the token loop keeps the operator stack layered. */
  lemma StepKeepsLayered(t: seq<Token>, i: nat, s: Stacks)
    requires i < |t| && Layered(s.operators)
    ensures Step(t, i, s).Ok? ==> Layered(Step(t, i, s).value.1.operators)
  {
    match t[i]
    case LParen =>
      LayeredOpen(s.operators);
    case RParen =>
      if Folded(s, Sequence).Ok? {
        var f := Folded(s, Sequence).value;
        if f.operators != [] {
          LayeredPrefix(f.operators[..|f.operators| - 1], s.operators);
        }
      }
    case Op(k) =>
      if Folded(s, k).Ok? {
        var f := Folded(s, k).value;
        LayeredPrefix(f.operators, s.operators);
        LayeredPush(f.operators, k);
      }
    case Word(_) =>
  }

  /** The whole token loop keeps the operator stack layered. */
  lemma {:induction false} ConsumedKeepsLayered(t: seq<Token>, i: nat, s: Stacks)
    requires i <= |t| && Layered(s.operators)
    ensures Consumed(t, i, s).Ok? ==> Layered(Consumed(t, i, s).value.operators)
    decreases |t| - i
  {
    if i < |t| {
      StepKeepsLayered(t, i, s);
      match Step(t, i, s)
      case Err(_) =>
      case Ok((j, s')) => ConsumedKeepsLayered(t, j, s');
    }
  }

  // ---------------------------------------------------------------------
  // the operand stack and the shape of the result
  // ---------------------------------------------------------------------

  predicate AllComplete(nodes: seq<Node>) {
    forall k | 0 <= k < |nodes| :: Complete(nodes[k])
  }

  /** No word token at or after cursor `i`. */
  predicate NoWordsFrom(t: seq<Token>, i: nat)
    requires i <= |t|
  {
    forall k | i <= k < |t| :: !t[k].Word?
  }

  /** Folding keeps every operand complete, and empties the operand stack
      only if it was empty already. */
  lemma {:induction false} FoldKeepsOperands(s: Stacks, next: OpKind)
    requires AllComplete(s.operands) && Folded(s, next).Ok?
    ensures AllComplete(Folded(s, next).value.operands)
    ensures Folded(s, next).value.operands == [] <==> s.operands == []
    decreases |s.operators|
  {
    if Folds(s.operators, next) {
      var s1 := FoldStep(s);
      FoldOne(s, next, s1);
      assert Complete(s1.operands[|s1.operands| - 1]);
      assert AllComplete(s1.operands);
      FoldKeepsOperands(s1, next);
    }
  }

  lemma StepKeepsOperands(t: seq<Token>, i: nat, s: Stacks)
    requires i < |t| && AllComplete(s.operands) && Step(t, i, s).Ok?
    ensures var (j, s') := Step(t, i, s).value;
      AllComplete(s'.operands) && (s'.operands == [] <==> s.operands == [] && forall k | i <= k < j :: !t[k].Word?)
  {
    match t[i]
    case LParen =>
    case RParen => FoldKeepsOperands(s, Sequence);
    case Op(k) => FoldKeepsOperands(s, k);
    case Word(_) =>
      var j := WordRunEnd(t, i + 1);
      assert Texts(t[i..j]) != [];
  }

  /** The token loop keeps every operand complete, and ends with no
      operand exactly when it started with none and met no word. */
  lemma {:induction false} ConsumedKeepsOperands(t: seq<Token>, i: nat, s: Stacks)
    requires i <= |t| && AllComplete(s.operands) && Consumed(t, i, s).Ok?
    ensures AllComplete(Consumed(t, i, s).value.operands)
    ensures Consumed(t, i, s).value.operands == [] <==> s.operands == [] && NoWordsFrom(t, i)
    decreases |t| - i
  {
    if i < |t| {
      StepKeepsOperands(t, i, s);
      var (j, s') := Step(t, i, s).value;
      ConsumedKeepsOperands(t, j, s');
    }
  }

  /** The tree a successful parse returns is `Empty` exactly when the input
      has no word, and otherwise it holds no empty node and every program in
      it has at least one argument. */
  lemma ParseResultShape(t: seq<Token>)
    requires Parsed(t).Ok?
    ensures Parsed(t).value == Empty <==> NoWordsFrom(t, 0)
    ensures Parsed(t).value != Empty ==> Complete(Parsed(t).value)
  {
    ConsumedKeepsOperands(t, 0, Stacks([], []));
    var s := Consumed(t, 0, Stacks([], [])).value;
    FoldKeepsOperands(s, Sequence);
  }

  // ---------------------------------------------------------------------
  // word runs
  // ---------------------------------------------------------------------

  /** A maximal run of words ends where the first non-word is. */
  lemma WordRunEndAt(t: seq<Token>, i: nat, j: nat)
    requires i <= j <= |t|
    requires forall k | i <= k < j :: t[k].Word?
    requires j == |t| || !t[j].Word?
    ensures WordRunEnd(t, i) == j
  {
  }

  /** A word starts a maximal run of words, and the run becomes one
      program pushed on the operand stack: its arguments are the run's
      words in order, so there is at least one. */
  lemma StepWordRun(t: seq<Token>, i: nat, s: Stacks)
    requires i < |t| && t[i].Word?
    ensures Step(t, i, s).Ok?
    ensures var (j, s') := Step(t, i, s).value;
      && (forall k | i <= k < j :: t[k].Word?) && (j == |t| || !t[j].Word?)
      && s'.operators == s.operators
      && |s'.operands| == |s.operands| + 1 && s'.operands[..|s.operands|] == s.operands
      && s'.operands[|s.operands|].Program?
      && |s'.operands[|s.operands|].args| == j - i
      && forall k | 0 <= k < j - i :: s'.operands[|s.operands|].args[k] == t[i + k].text
  {
    var j := WordRunEnd(t, i + 1);
    var a := Texts(t[i..j]);
    assert forall k | 0 <= k < j - i :: t[i..j][k] == t[i + k];
    var s' := Stacks(s.operators, s.operands + [Program(a)]);
    assert s'.operands[..|s.operands|] == s.operands;
  }

  predicate AllWords(w: seq<Token>) {
    forall k | 0 <= k < |w| :: w[k].Word?
  }

  /** A command with no operators and no parentheses is one program whose
      arguments are all its words, in order. */
  lemma WordsParseToProgram(t: seq<Token>)
    requires t != [] && AllWords(t)
    ensures Parsed(t) == Ok(Program(Texts(t)))
  {
    assert t[0..|t|] == t;
    var s := Stacks([], [Program(Texts(t))]);
    ConsumedWords(t, 0, |t|, Stacks([], []), Texts(t), s);
    FoldNone(s, Sequence);
  }

  /** A `)` before any `(` fails, whatever follows it. */
  lemma LeadingCloseParen(t: seq<Token>)
    requires t != [] && t[0].RParen?
    ensures Parsed(t) == Err(UnmatchedCloseParen)
  {
    FoldNone(Stacks([], []), Sequence);
  }

  /** An operator with nothing on one side fails with a stack underflow:
      `a |` and `| a`, for any non-empty run of words `a`. */
  lemma DanglingOperator(x: seq<Token>, k: OpKind)
    requires x != [] && AllWords(x)
    ensures Parsed(x + [Op(k)]) == Err(StackUnderflow)
    ensures Parsed([Op(k)] + x) == Err(StackUnderflow)
  {
    TrailingOperator(x, k);
    LeadingOperator(x, k);
  }

  lemma TrailingOperator(x: seq<Token>, k: OpKind)
    requires x != [] && AllWords(x)
    ensures Parsed(x + [Op(k)]) == Err(StackUnderflow)
  {
    var X := Program(Texts(x));
    var t := x + [Op(k)];
    assert t[0..|x|] == x && t[|x|] == Op(k);
    var s1 := Stacks([], [X]);
    ConsumedWords(t, 0, |x|, Stacks([], []), Texts(x), s1);
    FoldNone(s1, k);
    var s2 := Stacks([Pending(k)], [X]);
    ConsumedOperator(t, |x|, s1, s1, s2);
  }

  lemma LeadingOperator(x: seq<Token>, k: OpKind)
    requires x != [] && AllWords(x)
    ensures Parsed([Op(k)] + x) == Err(StackUnderflow)
  {
    var e := Stacks([], []);
    var X := Program(Texts(x));
    var u := [Op(k)] + x;
    assert u[0] == Op(k);
    assert u[1..] == x;
    assert forall j | 1 <= j < |u| :: u[j] == x[j - 1];
    FoldNone(e, k);
    var u1 := Stacks([Pending(k)], []);
    ConsumedOperator(u, 0, e, e, u1);
    var u2 := Stacks([Pending(k)], [X]);
    ConsumedWords(u, 1, |u|, u1, Texts(x), u2);
  }

  // ---------------------------------------------------------------------
  // arguments of split command lines
  // ---------------------------------------------------------------------

  /** Every argument of every program in `n` passes `is_word`. */
  predicate Spelled(n: Node) {
    match n
    case Empty => true
    case Program(args) => forall k | 0 <= k < |args| :: IsWord(args[k])
    case Operator(_, left, right) => Spelled(left) && Spelled(right)
  }

  predicate AllSpelled(nodes: seq<Node>) {
    forall k | 0 <= k < |nodes| :: Spelled(nodes[k])
  }

  /** Every word token's text passes `is_word`, as in a token list that
      comes from strings. */
  predicate WordTexts(t: seq<Token>) {
    forall k | 0 <= k < |t| :: t[k].Word? ==> IsWord(t[k].text)
  }

  /** The token list of split strings has only words that pass `is_word`. */
  lemma TokensWordTexts(raw: seq<string>)
    ensures WordTexts(Tokens(raw))
  {
    forall k | 0 <= k < |raw| && Tokens(raw)[k].Word?
      ensures IsWord(Tokens(raw)[k].text)
    {
      assert Tokens(raw)[k] == Classify(raw[k]);
    }
  }

  /** Folding only combines operands, so their arguments stay as they
      were. */
  lemma {:induction false} FoldKeepsSpelled(s: Stacks, next: OpKind)
    requires AllSpelled(s.operands) && Folded(s, next).Ok?
    ensures AllSpelled(Folded(s, next).value.operands)
    decreases |s.operators|
  {
    if Folds(s.operators, next) {
      var s1 := FoldStep(s);
      FoldOne(s, next, s1);
      assert Spelled(s1.operands[|s1.operands| - 1]);
      assert AllSpelled(s1.operands);
      FoldKeepsSpelled(s1, next);
    }
  }

  /** A loop iteration pushes only programs made of the list's words. */
  lemma StepKeepsSpelled(t: seq<Token>, i: nat, s: Stacks)
    requires i < |t| && WordTexts(t) && AllSpelled(s.operands) && Step(t, i, s).Ok?
    ensures AllSpelled(Step(t, i, s).value.1.operands)
  {
    match t[i]
    case LParen =>
    case RParen => FoldKeepsSpelled(s, Sequence);
    case Op(k) => FoldKeepsSpelled(s, k);
    case Word(_) =>
      var j := WordRunEnd(t, i + 1);
      var args := Texts(t[i..j]);
      forall k | 0 <= k < |args|
        ensures IsWord(args[k])
      {
        assert t[i..j][k] == t[i + k] == Word(args[k]);
      }
      assert Spelled(Program(args));
  }

  lemma {:induction false} ConsumedKeepsSpelled(t: seq<Token>, i: nat, s: Stacks)
    requires i <= |t| && WordTexts(t) && AllSpelled(s.operands) && Consumed(t, i, s).Ok?
    ensures AllSpelled(Consumed(t, i, s).value.operands)
    decreases |t| - i
  {
    if i < |t| {
      StepKeepsSpelled(t, i, s);
      var (j, s') := Step(t, i, s).value;
      ConsumedKeepsSpelled(t, j, s');
    }
  }

  /** What parsing split strings can return: the empty node, or a tree
      with no empty node whose every argument passes `is_word`. */
  lemma ParseRange(raw: seq<string>)
    requires Parsed(Tokens(raw)).Ok?
    ensures var n := Parsed(Tokens(raw)).value;
      n == Empty || (Complete(n) && Spelled(n))
  {
    var t := Tokens(raw);
    TokensWordTexts(raw);
    ParseResultShape(t);
    ConsumedKeepsSpelled(t, 0, Stacks([], []));
    FoldKeepsSpelled(Consumed(t, 0, Stacks([], [])).value, Sequence);
  }

  // ---------------------------------------------------------------------
  // parentheses never create nodes
  // ---------------------------------------------------------------------

  /** Stacks `s` placed on top of a base `b`. */
  function Under(b: Stacks, s: Stacks): Stacks {
    Stacks(b.operators + s.operators, b.operands + s.operands)
  }

  /** An operator stack none of whose entries folding pops: empty, or
      with `(` on top. */
  predicate Fence(ops: seq<Entry>) {
    ops == [] || ops[|ops| - 1].Open?
  }

  /** Folding above a fence: a `fold` that succeeds on `s` alone does the
      same on `s` placed above a fence. The fence stops only the operator
      stack; when `s` alone runs out of operands, the fold may take
      operands from below the `(`, so failure carries over only when
      there are none there. */
  lemma {:induction false} FoldFrame(b: Stacks, s: Stacks, next: OpKind)
    requires Fence(b.operators)
    ensures Folded(s, next).Ok? ==> Folded(Under(b, s), next) == Ok(Under(b, Folded(s, next).value))
    ensures Folded(s, next).Err? && b.operands == [] ==> Folded(Under(b, s), next).Err?
    decreases |s.operators|
  {
    var u := Under(b, s);
    if s.operators == [] {
      assert u.operators == b.operators;
      FoldNone(u, next);
    } else {
      assert u.operators[|u.operators| - 1] == s.operators[|s.operators| - 1];
      if Folds(s.operators, next) && |s.operands| >= 2 {
        FrameFoldStep(b, s, next);
        FoldFrame(b, FoldStep(s), next);
      } else if Folds(s.operators, next) && b.operands == [] {
        assert u.operands == s.operands;
      } else if !Folds(s.operators, next) {
        FoldNone(u, next);
      }
    }
  }

  /** One iteration of fold's loop, above a fence. */
  lemma FrameFoldStep(b: Stacks, s: Stacks, next: OpKind)
    requires Fence(b.operators) && Folds(s.operators, next) && |s.operands| >= 2
    ensures Folded(s, next) == Folded(FoldStep(s), next)
    ensures Folded(Under(b, s), next) == Folded(Under(b, FoldStep(s)), next)
  {
    var u, s1 := Under(b, s), FoldStep(s);
    FoldOne(s, next, s1);
    var un, um := |u.operators|, |u.operands|;
    assert u.operators[un - 1] == s.operators[|s.operators| - 1];
    assert u.operands[um - 2] == s.operands[|s.operands| - 2] && u.operands[um - 1] == s.operands[|s.operands| - 1];
    assert u.operators[..un - 1] == Under(b, s1).operators;
    assert u.operands[..um - 2] + [s1.operands[|s1.operands| - 1]] == Under(b, s1).operands;
    FoldOne(u, next, Under(b, s1));
  }

  /** One loop iteration above a fence: when it succeeds on `s` alone it
      does the same on `s` placed above the fence, and an underflow
      carries over when no operand lies below. */
  lemma StepFrame(b: Stacks, t: seq<Token>, i: nat, s: Stacks)
    requires Fence(b.operators) && i < |t|
    ensures Step(t, i, s).Ok? ==>
      Step(t, i, Under(b, s)) == Ok((Step(t, i, s).value.0, Under(b, Step(t, i, s).value.1)))
    ensures Step(t, i, s) == Err(StackUnderflow) && b.operands == [] ==> Step(t, i, Under(b, s)) == Err(StackUnderflow)
  {
    var u := Under(b, s);
    match t[i]
    case LParen =>
      assert u.operators + [Open] == b.operators + (s.operators + [Open]);
    case RParen =>
      CloseFrame(b, t, i, s);
    case Op(k) =>
      OperatorFrame(b, t, i, s);
    case Word(_) =>
      var j := WordRunEnd(t, i + 1);
      assert u.operands + [Program(Texts(t[i..j]))] == b.operands + (s.operands + [Program(Texts(t[i..j]))]);
  }

  lemma CloseFrame(b: Stacks, t: seq<Token>, i: nat, s: Stacks)
    requires Fence(b.operators) && i < |t| && t[i].RParen?
    ensures Step(t, i, s).Ok? ==>
      Step(t, i, Under(b, s)) == Ok((Step(t, i, s).value.0, Under(b, Step(t, i, s).value.1)))
    ensures Step(t, i, s) == Err(StackUnderflow) && b.operands == [] ==> Step(t, i, Under(b, s)) == Err(StackUnderflow)
  {
    FoldFrame(b, s, Sequence);
    if Folded(s, Sequence).Ok? {
      CloseFrameOk(b, t, i, s, Folded(s, Sequence).value);
    }
  }

  lemma CloseFrameOk(b: Stacks, t: seq<Token>, i: nat, s: Stacks, f: Stacks)
    requires Fence(b.operators) && i < |t| && t[i].RParen?
    requires Folded(s, Sequence) == Ok(f) && Folded(Under(b, s), Sequence) == Ok(Under(b, f))
    ensures Step(t, i, s).Ok? ==>
      Step(t, i, Under(b, s)) == Ok((Step(t, i, s).value.0, Under(b, Step(t, i, s).value.1)))
  {
    var uf := Under(b, f);
    if f.operators != [] {
      assert uf.operators[|uf.operators| - 1] == f.operators[|f.operators| - 1];
      assert uf.operators[..|uf.operators| - 1] == b.operators + f.operators[..|f.operators| - 1];
    }
  }

  lemma OperatorFrame(b: Stacks, t: seq<Token>, i: nat, s: Stacks)
    requires Fence(b.operators) && i < |t| && t[i].Op?
    ensures Step(t, i, s).Ok? ==>
      Step(t, i, Under(b, s)) == Ok((Step(t, i, s).value.0, Under(b, Step(t, i, s).value.1)))
    ensures Step(t, i, s) == Err(StackUnderflow) && b.operands == [] ==> Step(t, i, Under(b, s)) == Err(StackUnderflow)
  {
    var k := t[i].kind;
    FoldFrame(b, s, k);
    if Folded(s, k).Ok? {
      var f := Folded(s, k).value;
      assert Under(b, f).operators + [Pending(k)] == b.operators + (f.operators + [Pending(k)]);
    }
  }

  /** The token loop above a fence: when it succeeds from `s` alone it
      does the same from `s` placed above the fence, and an underflow
      carries over when no operand lies below. */
  lemma {:induction false} ConsumedFrame(b: Stacks, t: seq<Token>, i: nat, s: Stacks)
    requires Fence(b.operators) && i <= |t|
    ensures Consumed(t, i, s).Ok? ==> Consumed(t, i, Under(b, s)) == Ok(Under(b, Consumed(t, i, s).value))
    ensures Consumed(t, i, s) == Err(StackUnderflow) && b.operands == [] ==> Consumed(t, i, Under(b, s)) == Err(StackUnderflow)
    decreases |t| - i
  {
    if i < |t| {
      StepFrame(b, t, i, s);
      match Step(t, i, s)
      case Err(_) =>
      case Ok((j, s')) => ConsumedFrame(b, t, j, s');
    }
  }

  /** Tokens before the cursor do not matter. */
  lemma {:induction false} ConsumedShift(p: seq<Token>, t: seq<Token>, i: nat, s: Stacks)
    requires i <= |t|
    ensures Consumed(p + t, |p| + i, s) == Consumed(t, i, s)
    decreases |t| - i
  {
    if i < |t| {
      StepShift(p, t, i, s);
      match Step(t, i, s)
      case Err(_) =>
      case Ok((j, s')) =>
        ConsumedShift(p, t, j, s');
    }
  }

  /** One iteration is blind to the tokens before the cursor. */
  lemma StepShift(p: seq<Token>, t: seq<Token>, i: nat, s: Stacks)
    requires i < |t|
    ensures Step(t, i, s).Err? ==> Step(p + t, |p| + i, s) == Step(t, i, s)
    ensures Step(t, i, s).Ok? ==> Step(p + t, |p| + i, s) == Ok((|p| + Step(t, i, s).value.0, Step(t, i, s).value.1))
  {
    var pt := p + t;
    assert pt[|p| + i] == t[i];
    if t[i].Word? {
      var j := WordRunEnd(t, i + 1);
      WordRunEndAt(pt, |p| + i + 1, |p| + j);
      assert pt[|p| + i..|p| + j] == t[i..j];
    }
  }

  /** Tokens after a non-word boundary can wait: the loop runs over `t` up
      to its end and then carries on over `y`. */
  lemma {:induction false} ConsumedConcat(t: seq<Token>, y: seq<Token>, i: nat, s: Stacks)
    requires i <= |t| && (y == [] || !y[0].Word?)
    ensures Consumed(t + y, i, s) == match Consumed(t, i, s)
                                     case Err(e) => Err(e)
                                     case Ok(s') => Consumed(t + y, |t|, s')
    decreases |t| - i
  {
    var ty := t + y;
    if i < |t| {
      assert ty[i] == t[i];
      if t[i].Word? {
        var j := WordRunEnd(t, i + 1);
        WordRunEndAt(ty, i + 1, j);
        assert ty[i..j] == t[i..j];
      }
      assert Step(ty, i, s) == Step(t, i, s);
      match Step(t, i, s)
      case Err(_) =>
      case Ok((j, s')) => ConsumedConcat(t, y, j, s');
    }
  }

  /** Number of `(` markers on an operator stack. */
  function Opens(ops: seq<Entry>): nat {
    if ops == [] then 0 else Opens(ops[..|ops| - 1]) + (if ops[|ops| - 1].Open? then 1 else 0)
  }

  lemma OpensPush(ops: seq<Entry>, x: Entry)
    ensures Opens(ops + [x]) == Opens(ops) + (if x.Open? then 1 else 0)
  {
    assert (ops + [x])[..|ops|] == ops;
  }

  /** Folding never removes a `(`. */
  lemma {:induction false} FoldKeepsOpens(s: Stacks, next: OpKind)
    requires Folded(s, next).Ok?
    ensures Opens(Folded(s, next).value.operators) == Opens(s.operators)
    decreases |s.operators|
  {
    if Folds(s.operators, next) {
      var s1 := FoldStep(s);
      FoldOne(s, next, s1);
      FoldKeepsOpens(s1, next);
    }
  }

  /** Parentheses nest properly from cursor `i` on, starting at depth `d`:
      no `)` without an open `(`, and none left open at the end. */
  predicate Nested(t: seq<Token>, i: nat, d: nat)
    requires i <= |t|
    decreases |t| - i
  {
    if i == |t| then d == 0
    else match t[i]
      case LParen => Nested(t, i + 1, d + 1)
      case RParen => d > 0 && Nested(t, i + 1, d - 1)
      case _ => Nested(t, i + 1, d)
  }

  predicate Balanced(t: seq<Token>) {
    Nested(t, 0, 0)
  }

  lemma {:induction false} NestedSkipsWords(t: seq<Token>, i: nat, j: nat, d: nat)
    requires i <= j <= |t| && forall k | i <= k < j :: t[k].Word?
    ensures Nested(t, i, d) == Nested(t, j, d)
    decreases j - i
  {
    if i < j {
      NestedSkipsWords(t, i + 1, j, d);
    }
  }

  /** One iteration on properly nested parentheses meets no unmatched `)`
      and keeps the rest properly nested from the new depth. */
  lemma StepNested(t: seq<Token>, i: nat, s: Stacks)
    requires i < |t| && Nested(t, i, Opens(s.operators))
    ensures Step(t, i, s) != Err(UnmatchedCloseParen)
    ensures Step(t, i, s).Ok? ==> Nested(t, Step(t, i, s).value.0, Opens(Step(t, i, s).value.1.operators))
  {
    match t[i]
    case LParen =>
      OpensPush(s.operators, Open);
    case RParen =>
      if Folded(s, Sequence).Ok? {
        CloseNested(t, i, s, Folded(s, Sequence).value);
      }
    case Op(k) =>
      if Folded(s, k).Ok? {
        var f := Folded(s, k).value;
        FoldKeepsOpens(s, k);
        OpensPush(f.operators, Pending(k));
      }
    case Word(_) =>
      NestedSkipsWords(t, i, WordRunEnd(t, i + 1), Opens(s.operators));
  }

  /** A `)` inside properly nested parentheses always finds its `(`. */
  lemma CloseNested(t: seq<Token>, i: nat, s: Stacks, f: Stacks)
    requires i < |t| && t[i].RParen? && Nested(t, i, Opens(s.operators))
    requires Folded(s, Sequence) == Ok(f)
    ensures f.operators != [] && f.operators[|f.operators| - 1].Open?
    ensures Opens(f.operators[..|f.operators| - 1]) + 1 == Opens(s.operators)
  {
    FoldKeepsOpens(s, Sequence);
    ClosingFold(s);
    assert f.operators != [];
    assert f.operators[..|f.operators| - 1] + [Open] == f.operators;
    OpensPush(f.operators[..|f.operators| - 1], Open);
  }

  /** With properly nested parentheses the loop never meets an unmatched
      `)`, and ends with no `(` left on the operator stack. */
  lemma {:induction false} ConsumedNested(t: seq<Token>, i: nat, s: Stacks)
    requires i <= |t| && Nested(t, i, Opens(s.operators))
    ensures Consumed(t, i, s) != Err(UnmatchedCloseParen)
    ensures Consumed(t, i, s).Ok? ==> Opens(Consumed(t, i, s).value.operators) == 0
    decreases |t| - i
  {
    if i < |t| {
      StepNested(t, i, s);
      match Step(t, i, s)
      case Err(_) =>
      case Ok((j, s')) => ConsumedNested(t, j, s');
    }
  }

  /** After a `(`, properly nested tokens run as they would alone, above
      the `(` marker. */
  lemma ParenBody(t: seq<Token>, e: Stacks, open: Stacks)
    requires Balanced(t) && e == Stacks([], []) && open == Stacks([Open], [])
    ensures Consumed(t, 0, e).Err? ==> Consumed([LParen] + t, 1, open) == Consumed(t, 0, e)
    ensures Consumed(t, 0, e).Ok? ==> Consumed([LParen] + t, 1, open) == Ok(Under(open, Consumed(t, 0, e).value))
  {
    assert Under(open, e) == open;
    ConsumedNested(t, 0, e);
    ConsumedShift([LParen], t, 0, open);
    assert Consumed([LParen] + t, 1, open) == Consumed(t, 0, open);
    ConsumedFrame(open, t, 0, e);
    var r := Consumed(t, 0, e);
    if r.Err? {
      assert r.error != UnmatchedCloseParen;
      assert r == Err(StackUnderflow);
    }
  }

  /** Reading `(` and then properly nested tokens leaves what reading the
      tokens alone leaves, above the `(` marker. */
  lemma ParenOpen(t: seq<Token>, e: Stacks, open: Stacks)
    requires Balanced(t) && e == Stacks([], []) && open == Stacks([Open], [])
    ensures var tt := [LParen] + t + [RParen];
      Consumed(t, 0, e).Err? ==> Consumed(tt, 0, e) == Consumed(t, 0, e)
    ensures var tt := [LParen] + t + [RParen];
      Consumed(t, 0, e).Ok? ==> Consumed(tt, 0, e) == Consumed(tt, |t| + 1, Under(open, Consumed(t, 0, e).value))
  {
    var x := [LParen] + t;
    var tt := x + [RParen];
    assert tt[0].LParen?;
    ConsumedOpen(tt, 0, e, open);
    ConsumedConcat(x, [RParen], 1, open);
    ParenBody(t, e, open);
  }

  /** The closing `)` after a properly nested body: it pops the `(` marker,
      and the parse ends as it would have without the parentheses. */
  lemma ParenClose(tt: seq<Token>, i: nat, s: Stacks, us: Stacks)
    requires i + 1 == |tt| && tt[i].RParen? && Opens(s.operators) == 0
    requires us.operators == [Open] + s.operators && us.operands == s.operands
    ensures Finish(Consumed(tt, i, us)) == Finish(Ok(s))
  {
    var open := Stacks([Open], []);
    assert us == Under(open, s);
    FoldFrame(open, s, Sequence);
    match Folded(s, Sequence)
    case Err(_) =>
      assert Folded(us, Sequence).Err?;
    case Ok(f) =>
      ParenCloseOk(tt, i, s, us, f);
  }

  lemma ParenCloseOk(tt: seq<Token>, i: nat, s: Stacks, us: Stacks, f: Stacks)
    requires i + 1 == |tt| && tt[i].RParen? && Opens(s.operators) == 0 && Folded(s, Sequence) == Ok(f)
    requires us.operators == [Open] + s.operators && us.operands == s.operands
    ensures Finish(Consumed(tt, i, us)) == Finish(Ok(s))
  {
    var open := Stacks([Open], []);
    assert us == Under(open, s);
    FoldFrame(open, s, Sequence);
    FoldKeepsOpens(s, Sequence);
    ClosingFold(s);
    assert f.operators == [];
    var uf := Under(open, f);
    assert uf.operators == [Open];
    var g := Stacks([], f.operands);
    ConsumedClose(tt, i, us, uf, g);
    FoldNone(g, Sequence);
    assert f == g;
  }

  /** Redundant parentheses around a properly nested command change
      nothing: `(a)` parses as `a`, and `()` as the empty command. */
  lemma ParenTransparent(t: seq<Token>)
    requires Balanced(t)
    ensures Parsed([LParen] + t + [RParen]) == Parsed(t)
  {
    var tt := [LParen] + t + [RParen];
    ConsumedNested(t, 0, Stacks([], []));
    ParenOpen(t, Stacks([], []), Stacks([Open], []));
    if Consumed(t, 0, Stacks([], [])).Ok? {
      var s := Consumed(t, 0, Stacks([], [])).value;
      ParenClose(tt, |t| + 1, s, Under(Stacks([Open], []), s));
    }
  }

  // ---------------------------------------------------------------------
  // single iterations, for stepping through concrete token lists
  // ---------------------------------------------------------------------

  /** What one iteration of fold's loop leaves on the stacks. */
  function FoldStep(s: Stacks): Stacks
    requires s.operators != [] && s.operators[|s.operators| - 1].Pending? && |s.operands| >= 2
  {
    var n, m := |s.operators|, |s.operands|;
    Stacks(s.operators[..n - 1], s.operands[..m - 2] + [Operator(s.operators[n - 1].op, s.operands[m - 2], s.operands[m - 1])])
  }

  lemma FoldOne(s: Stacks, next: OpKind, s': Stacks)
    requires Folds(s.operators, next) && |s.operands| >= 2
    requires var n, m := |s.operators|, |s.operands|;
      s'.operators == s.operators[..n - 1]
      && s'.operands == s.operands[..m - 2] + [Operator(s.operators[n - 1].op, s.operands[m - 2], s.operands[m - 1])]
    ensures Folded(s, next) == Folded(s', next)
  {
  }

  /** An operator waiting above two operands folds them into one tree
      when the next operator binds no tighter. */
  lemma FoldPair(ops: seq<Entry>, operands: seq<Node>, k1: OpKind, left: Node, right: Node, next: OpKind)
    requires OperatorPrecedence(k1) >= OperatorPrecedence(next)
    ensures Folded(Stacks(ops + [Pending(k1)], operands + [left, right]), next)
         == Folded(Stacks(ops, operands + [Operator(k1, left, right)]), next)
  {
    var s := Stacks(ops + [Pending(k1)], operands + [left, right]);
    assert s.operators[..|ops|] == ops;
    assert s.operands[..|operands|] == operands;
    FoldOne(s, next, Stacks(ops, operands + [Operator(k1, left, right)]));
  }

  lemma FoldNone(s: Stacks, next: OpKind)
    requires !Folds(s.operators, next)
    ensures Folded(s, next) == Ok(s)
  {
  }

  lemma ConsumedOpen(t: seq<Token>, i: nat, s: Stacks, s': Stacks)
    requires i < |t| && t[i].LParen?
    requires s'.operators == s.operators + [Open] && s'.operands == s.operands
    ensures Consumed(t, i, s) == Consumed(t, i + 1, s')
  {
  }

  lemma ConsumedClose(t: seq<Token>, i: nat, s: Stacks, f: Stacks, s': Stacks)
    requires i < |t| && t[i].RParen?
    requires Folded(s, Sequence) == Ok(f) && f.operators != [] && f.operators[|f.operators| - 1].Open?
    requires s'.operators == f.operators[..|f.operators| - 1] && s'.operands == f.operands
    ensures Consumed(t, i, s) == Consumed(t, i + 1, s')
  {
  }

  lemma ConsumedOperator(t: seq<Token>, i: nat, s: Stacks, f: Stacks, s': Stacks)
    requires i < |t| && t[i].Op?
    requires Folded(s, t[i].kind) == Ok(f)
    requires s'.operators == f.operators + [Pending(t[i].kind)] && s'.operands == f.operands
    ensures Consumed(t, i, s) == Consumed(t, i + 1, s')
  {
  }

  lemma ConsumedWords(t: seq<Token>, i: nat, j: nat, s: Stacks, args: seq<string>, s': Stacks)
    requires i < j <= |t|
    requires forall k | i <= k < j :: t[k].Word?
    requires j == |t| || !t[j].Word?
    requires Texts(t[i..j]) == args
    requires s'.operators == s.operators && s'.operands == s.operands + [Program(args)]
    ensures Consumed(t, i, s) == Consumed(t, j, s')
  {
    WordRunEndAt(t, i + 1, j);
  }
}
