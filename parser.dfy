/** The operator-precedence parser of shell.py: a shunting-yard loop over
    the token list with an operator stack and an operand stack. */
module Parser {
  import opened Syntax

  /** Why a parse fails. `StackUnderflow`: folding an operator found fewer
      than two operands. `UnmatchedCloseParen`: a `)` found no `(` to pop. */
  datatype ParseError = StackUnderflow | UnmatchedCloseParen

  datatype Result<T> = Ok(value: T) | Err(error: ParseError)

  /** An entry of the operator stack: the `(` marker, or an operator
      waiting for its right operand. */
  datatype Entry = Open | Pending(op: OpKind)

  /** The parser's two stacks; the top of each is its last element.
      `operators` holds `(` markers and operators, `operands` the subtrees
      built so far. */
  datatype Stacks = Stacks(operators: seq<Entry>, operands: seq<Node>)

  /** The guard of fold's loop: the top of the operator stack is an operator
      (not a `(` marker) that binds at least as tightly as `next`. */
  predicate Folds(ops: seq<Entry>, next: OpKind) {
    ops != [] && ops[|ops| - 1].Pending? && OperatorPrecedence(ops[|ops| - 1].op) >= OperatorPrecedence(next)
  }

  /** `fold(next)`: while the guard holds, pop an operator, pop `right`
      and then `left`, and push `Operator(op, left, right)`. */
  function Folded(s: Stacks, next: OpKind): (r: Result<Stacks>)
    ensures r.Ok? ==> r.value.operators <= s.operators
    ensures r.Ok? ==> |r.value.operands| + |s.operators| == |s.operands| + |r.value.operators|
    ensures r.Ok? ==> !Folds(r.value.operators, next)
    ensures r.Err? ==> r.error == StackUnderflow
    decreases |s.operators|
  {
    if !Folds(s.operators, next) then Ok(s)
    else if |s.operands| < 2 then Err(StackUnderflow)
    else
      var n, m := |s.operators|, |s.operands|;
      var node := Operator(s.operators[n - 1].op, s.operands[m - 2], s.operands[m - 1]);
      Folded(Stacks(s.operators[..n - 1], s.operands[..m - 2] + [node]), next)
  }

  /** One iteration of the main token loop, on the token at cursor `i`:
      `(` is pushed; `)` folds everything down to the nearest `(` and pops
      it; an operator folds against itself and is pushed; a word starts a
      maximal run of words that becomes one `Program`. The result carries
      the cursor after the tokens the iteration consumed. */
  function Step(tokens: seq<Token>, i: nat, s: Stacks): (r: Result<(nat, Stacks)>)
    requires i < |tokens|
    ensures r.Ok? ==> i < r.value.0 <= |tokens|
  {
    match tokens[i]
    case LParen =>
      Ok((i + 1, Stacks(s.operators + [Open], s.operands)))
    case RParen =>
      (match Folded(s, Sequence)
       case Err(e) => Err(e)
       case Ok(f) =>
         if f.operators == [] || f.operators[|f.operators| - 1].Pending? then Err(UnmatchedCloseParen)
         else Ok((i + 1, Stacks(f.operators[..|f.operators| - 1], f.operands))))
    case Op(k) =>
      (match Folded(s, k)
       case Err(e) => Err(e)
       case Ok(f) => Ok((i + 1, Stacks(f.operators + [Pending(k)], f.operands))))
    case Word(_) =>
      var j := WordRunEnd(tokens, i + 1);
      Ok((j, Stacks(s.operators, s.operands + [Program(Texts(tokens[i..j]))])))
  }

  /** The main token loop, from cursor `i` and stacks `s`. */
  function Consumed(tokens: seq<Token>, i: nat, s: Stacks): (r: Result<Stacks>)
    requires i <= |tokens|
    decreases |tokens| - i
  {
    if i == |tokens| then Ok(s)
    else
      match Step(tokens, i, s)
      case Err(e) => Err(e)
      case Ok((j, s')) => Consumed(tokens, j, s')
  }

  /** After the token loop: fold what is left against `;` and return the
      bottom operand, or `Empty` when there is none. */
  function Finish(r: Result<Stacks>): Result<Node> {
    match r
    case Err(e) => Err(e)
    case Ok(s) =>
      match Folded(s, Sequence)
      case Err(e) => Err(e)
      case Ok(f) => Ok(if f.operands == [] then Empty else f.operands[0])
  }

  /** The whole parse: the token loop from empty stacks, then `Finish`. */
  function Parsed(tokens: seq<Token>): Result<Node> {
    Finish(Consumed(tokens, 0, Stacks([], [])))
  }

  /** The local state of one call of `parse`: its two stacks. */
  class ParseState {
    var operators: seq<Entry>
    var operands: seq<Node>

    constructor ()
      ensures operators == [] && operands == []
    {
      operators, operands := [], [];
    }

    function State(): Stacks
      reads this
    {
      Stacks(operators, operands)
    }

    /** `fold(next)`. On failure the stacks are left as they were when the
        pop failed; the caller abandons them. */
    method Fold(next: OpKind) returns (ok: bool)
      modifies this
      ensures ok == Folded(old(State()), next).Ok?
      ensures ok ==> State() == Folded(old(State()), next).value
    {
      while Folds(operators, next)
        invariant Folded(State(), next) == Folded(old(State()), next)
        decreases |operators|
      {
        ghost var before := State();
        var op := operators[|operators| - 1];
        operators := operators[..|operators| - 1];
        if operands == [] {
          assert Folded(before, next).Err?;
          return false;
        }
        var right := operands[|operands| - 1];
        operands := operands[..|operands| - 1];
        if operands == [] {
          assert Folded(before, next).Err?;
          return false;
        }
        var left := operands[|operands| - 1];
        operands := operands[..|operands| - 1];
        operands := operands + [Operator(op.op, left, right)];
        assert operands == before.operands[..|before.operands| - 2] + [Operator(op.op, left, right)];
      }
      ok := true;
    }

    /** The body of `parse` after its stacks are created: the token loop,
        with a cursor `i` in place of popping the front of the list, then
        the final fold and the choice of result. */
    method Consume(tokens: seq<Token>) returns (r: Result<Node>)
      requires operators == [] && operands == []
      modifies this
      ensures r == Parsed(tokens)
    {
      var i := 0;
      while i < |tokens|
        invariant i <= |tokens|
        invariant Consumed(tokens, i, State()) == Consumed(tokens, 0, Stacks([], []))
        decreases |tokens| - i
      {
        ghost var i0 := i;
        ghost var s0 := State();
        var token := tokens[i];
        match token {
          case LParen =>
            operators := operators + [Open];
            i := i + 1;
          case RParen =>
            var ok := Fold(Sequence);
            if !ok {
              return Err(StackUnderflow);
            }
            if operators == [] || operators[|operators| - 1].Pending? {
              return Err(UnmatchedCloseParen);
            }
            operators := operators[..|operators| - 1];
            i := i + 1;
          case Op(k) =>
            var ok := Fold(k);
            if !ok {
              return Err(StackUnderflow);
            }
            operators := operators + [Pending(k)];
            i := i + 1;
          case Word(_) =>
            var j := WordRunEnd(tokens, i + 1);
            operands := operands + [Program(Texts(tokens[i..j]))];
            i := j;
        }
        assert Step(tokens, i0, s0) == Ok((i, State()));
      }
      var ok := Fold(Sequence);
      if !ok {
        return Err(StackUnderflow);
      }
      r := Ok(if operands == [] then Empty else operands[0]);
    }
  }

  /** `parse` on an already split command line. */
  method Parse(tokens: seq<Token>) returns (r: Result<Node>)
    ensures r == Parsed(tokens)
  {
    var state := new ParseState();
    r := state.Consume(tokens);
  }
}
