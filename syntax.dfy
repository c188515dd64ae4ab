/** Tokens and parse trees of the shell command-line parser (shell.py). */
module Syntax {

  /** The six control operators `;`, `||`, `&&`, `|`, `<`, `>`. */
  datatype OpKind = Sequence | Or | And | Pipe | RedirectIn | RedirectOut

  /** A token of a split command line. */
  datatype Token = Word(text: string) | Op(kind: OpKind) | LParen | RParen

  /** A parse tree: the empty command `Node()`, a program with its argument
      words, or a binary control operator over two subtrees. */
  datatype Node =
    | Empty
    | Program(args: seq<string>)
    | Operator(op: OpKind, left: Node, right: Node)

  /** The spelling of an operator on the command line. */
  function Symbol(k: OpKind): string {
    match k
    case Sequence => ";"
    case Or => "||"
    case And => "&&"
    case Pipe => "|"
    case RedirectIn => "<"
    case RedirectOut => ">"
  }

  /** `is_operator`: the token is one of the six operator strings, that
      is, the spelling of an operator. */
  predicate IsOperator(token: string): (b: bool)
    ensures b <==> exists k: OpKind :: Symbol(k) == token
  {
    assert Symbol(Sequence) == ";" && Symbol(Or) == "||" && Symbol(And) == "&&";
    assert Symbol(Pipe) == "|" && Symbol(RedirectIn) == "<" && Symbol(RedirectOut) == ">";
    token == ";" || token == "||" || token == "&&" || token == "|" || token == "<" || token == ">"
  }

  /** `is_word`: the token is neither an operator nor a parenthesis. */
  predicate IsWord(token: string): (b: bool)
    ensures b <==> (forall k: OpKind :: Symbol(k) != token) && token != "(" && token != ")"
  {
    !IsOperator(token) && token != "(" && token != ")"
  }

  /** `operator_precedence`; higher binds tighter. `;` alone is the lowest,
      so folding against it folds every pending operator. */
  function OperatorPrecedence(k: OpKind): (p: nat)
    ensures p <= 3
    ensures p == 0 <==> k == Sequence
  {
    match k
    case Sequence => 0
    case Or => 1
    case And => 1
    case Pipe => 2
    case RedirectIn => 3
    case RedirectOut => 3
  }

  /** The class of a raw token string, as the parser's branches see it:
      `(`, `)`, an operator, or else a word. */
  function Classify(raw: string): (t: Token)
    ensures t.Op? <==> IsOperator(raw)
    ensures t.Word? <==> IsWord(raw)
    ensures t.Word? ==> t.text == raw
    ensures t.Op? ==> Symbol(t.kind) == raw
    ensures t.LParen? <==> raw == "("
    ensures t.RParen? <==> raw == ")"
  {
    if raw == "(" then LParen
    else if raw == ")" then RParen
    else if raw == ";" then Op(Sequence)
    else if raw == "||" then Op(Or)
    else if raw == "&&" then Op(And)
    else if raw == "|" then Op(Pipe)
    else if raw == "<" then Op(RedirectIn)
    else if raw == ">" then Op(RedirectOut)
    else Word(raw)
  }

  /** The token list of a split command line. */
  function Tokens(raw: seq<string>): (ts: seq<Token>)
    ensures |ts| == |raw|
    ensures forall k | 0 <= k < |raw| :: ts[k] == Classify(raw[k])
  {
    if raw == [] then [] else [Classify(raw[0])] + Tokens(raw[1..])
  }

  /** Every token string is exactly one of: a word, an operator, `(`, `)`. */
  lemma TokenClasses(token: string)
    ensures (if IsWord(token) then 1 else 0) + (if IsOperator(token) then 1 else 0)
          + (if token == "(" then 1 else 0) + (if token == ")" then 1 else 0) == 1
  {
  }

  /** Each operator's spelling classifies back to that operator, and the
      six spellings are the operator strings. */
  lemma SymbolClassifies(k: OpKind)
    ensures IsOperator(Symbol(k))
    ensures Classify(Symbol(k)) == Op(k)
  {
  }

  /** The precedence table, as an ordering of the operators. */
  lemma PrecedenceOrder()
    ensures OperatorPrecedence(Sequence) < OperatorPrecedence(Or)
    ensures OperatorPrecedence(Or) == OperatorPrecedence(And)
    ensures OperatorPrecedence(And) < OperatorPrecedence(Pipe)
    ensures OperatorPrecedence(Pipe) < OperatorPrecedence(RedirectIn)
    ensures OperatorPrecedence(RedirectIn) == OperatorPrecedence(RedirectOut)
  {
  }

  /** The end of the longest run of words in `tokens` that starts at `i`
      (`itertools.takewhile(is_word, ...)` on the tokens from `i` on). */
  function WordRunEnd(tokens: seq<Token>, i: nat): (j: nat)
    requires i <= |tokens|
    ensures i <= j <= |tokens|
    ensures forall k | i <= k < j :: tokens[k].Word?
    ensures j == |tokens| || !tokens[j].Word?
    decreases |tokens| - i
  {
    if i < |tokens| && tokens[i].Word? then WordRunEnd(tokens, i + 1) else i
  }

  /** The texts of a sequence of word tokens. */
  function Texts(words: seq<Token>): (texts: seq<string>)
    requires forall k | 0 <= k < |words| :: words[k].Word?
    ensures |texts| == |words|
    ensures forall k | 0 <= k < |words| :: words[k] == Word(texts[k])
  {
    if words == [] then [] else [words[0].text] + Texts(words[1..])
  }

  /** A tree with no empty node inside: every program has at least one
      argument. */
  predicate Complete(n: Node) {
    match n
    case Empty => false
    case Program(args) => args != []
    case Operator(_, left, right) => Complete(left) && Complete(right)
  }
}
