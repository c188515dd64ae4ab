# The command-line parser of shell.py, in Dafny

shell.py is a small interactive shell. Its core is `parse`, an
operator-precedence ("shunting-yard") parser. It turns the token list of a
split command line into a tree with three kinds of node: the empty command
`Node()`, a `Program(args)` leaf, and a binary `Operator(op, left, right)`.
There are six control operators: `;` (precedence 0), `||` and `&&` (1), `|` (2),
and `<` and `>` (3). Parentheses group. The parser works with two lists used as
stacks: `operators` holds `(` markers and operators, and `operands` holds
subtrees. The nested `fold(next)` pops every operator on top of the
operator stack that binds at least as tightly as `next`. Each pop folds the
top two operands into an `Operator` node.

The model has five modules, one file each:

- `syntax.dfy` (`Syntax`): the operator kinds and tokens, the tree
  `Node`, and `is_operator`, `is_word` and `operator_precedence`. It also has
  `Classify`, which maps a raw token string to a token the same way `parse`'s
  branches test it, and `WordRunEnd`, the `takewhile(is_word, …)` of the
  word branch.
- `parser.dfy` (`Parser`): the parser.
  - The functions `Folded` (`fold`), `Step` (one iteration of the token
    loop), `Consumed` (the loop), `Finish` (the final fold and the choice of
    result) and `Parsed` (the whole parse) specify it.
  - The class `ParseState` holds the two stacks as `seq` fields. Its
    methods `Fold` and `Consume` run the source's two `while` loops on them
    and are proved equal to those functions. `Parse` creates the state and
    runs `Consume`.
- `properties.dfy` (`ParserProperties`): what the parser guarantees.
  - What `fold` removes, what it builds and where it stops.
  - At `)` and at the end of input the operator stack is left empty or with
    `(` on top.
  - Between `(` markers the precedences strictly increase.
  - The operands stay complete trees.
  - A maximal word run becomes one program.
  - The error cases.
  - Properly nested parentheses never fail at `)` and are transparent.
- `roundtrip.dfy` (`RoundTrip`): an independent definition of the grammar.
  An `Expr` is a command line written with its parentheses. `Render(x)` gives
  its tokens and `Meaning(x)` the tree it stands for. A command line is
  `WellFormed` when every operator written without parentheses groups as
  precedence and left associativity say. The round trip `ParseRender`
  proves that a well-formed command line parses to its meaning. Every tree
  without empty nodes is what some token list parses to (`EveryTreeParses`).
  `Spelling(x)` gives the strings the command line is written as. When
  every argument passes `is_word`, classifying those strings gives its
  tokens (`SpellingTokens`). So the trees that a parse of split strings can
  return are exactly `Node()` and the trees without empty nodes whose
  arguments all pass `is_word` (`ParseRange`, `EveryWordTreeParses`).
- `tests.dfy` (`ShellTests`): each expected tree of shell.py's unit test
  (shell.py:97-121), on its command line's token list. The module also has
  three inputs outside the test that show the behaviour described below.

Errors are values: `Result<T> = Ok(value) | Err(error)`, where the error is
one of the following.

- `StackUnderflow`: an `operands.pop()` on an empty list inside `fold`.
  Examples are a dangling operator, as in `a |` or `| a`, and two operators in
  a row.
- `UnmatchedCloseParen`: a `)` whose `operators.pop()` finds an empty stack.
  The `assert` on the popped entry is modelled too, but `ClosingFold` proves
  that the popped entry is always a `(`.

### Behaviour on malformed input

- A `(` still open at the end of input is not reported. It stays on the
  operator stack and the parse returns as usual, so `(a` parses as `a`
  (`ShellTests.UnclosedGroupParses`).
- Several operands left after the final fold are not reported. The bottom
  one is returned, `next(iter(operands), Node())`, so `a (b)` parses as `a`
  and `b` is dropped (`ShellTests.JuxtaposedParses`).
- A `(` fences only the operator stack. An operator inside parentheses that
  finds too few operands there folds operands from below the `(`, so
  `a (| b)` parses as `a | b` (`ShellTests.OperandBelowGroupParses`).
- The code removes tokens from the front of the list (`pop(0)`, `del`). The
  model moves a cursor instead. `ConsumedShift` shows that the tokens before
  the cursor play no part.

## Verifying

All five files are verified together:

    dafny verify --resource-limit 2000000 --verification-time-limit 0 --warn-contradictory-assumptions syntax.dfy parser.dfy properties.dfy roundtrip.dfy tests.dfy

## Model

| member | source | states |
|---|---|---|
| Syntax.IsOperator | shell.py:35-36 | a string is an operator exactly when it is the spelling of one of the six operators |
| Syntax.IsWord | shell.py:31-32 | a string is a word exactly when it is neither an operator's spelling nor `(` nor `)` |
| Syntax.OperatorPrecedence | shell.py:39-40 | precedences lie in 0..3, and 0 is `;` and nothing else, so folding against `;` folds every operator |
| Syntax.PrecedenceOrder | shell.py:39-40 | the precedence table as an order: `;` < `\|\|` = `&&` < `\|` < `<` = `>` |
| Syntax.Classify | shell.py:31-36 | a raw token string is an operator token exactly when `is_operator` holds, a word exactly when `is_word` holds, and `(`/`)` exactly for those strings; a word keeps its text and an operator's spelling is the string |
| Syntax.TokenClasses | shell.py:31-36 | every token string is exactly one of: a word, an operator, `(`, `)` |
| Syntax.SymbolClassifies | shell.py:35-36 | each of the six operator spellings satisfies `is_operator` and classifies back to its operator |
| Syntax.Tokens | shell.py:64 | the token list has one token per split string, each that string's class |
| Syntax.WordRunEnd | shell.py:76-77 | the run of words taken after a word is maximal: every token in it is a word and the token after it is not |
| Syntax.Texts | shell.py:76-78 | the argument list of a word run has one text per word, in order |
| Parser.Folds | shell.py:51-55 | the guard of fold's loop; no contract of its own: `FoldDepthSpec` states that the entries it lets `fold` pop are operators binding at least as tightly as `next`, never a `(`, and `ClosingFold` that against `;`, the default of `fold()`, it pops every operator down to the nearest `(` |
| Parser.Folded | shell.py:50-59 | `fold` only removes operators from the top, removes as many operands as operators, stops where the loop guard is false, and fails only by stack underflow |
| Parser.Step | shell.py:65-78 | every loop iteration consumes at least one token, so the loop ends |
| Parser.Consumed | shell.py:65-78 | the token loop; no contract of its own: its guarantees are `ConsumedKeepsLayered`, `ConsumedKeepsOperands`, `ConsumedKeepsSpelled`, `ConsumedNested`, `ConsumedFrame` and `ConsumedShift` |
| Parser.Finish | shell.py:79-80 | the final `fold()` and `next(iter(operands), Node())`; no contract of its own: `ClosingFold` and `FoldKeepsOperands` state what the final fold does, `ParseResultShape` what is returned |
| Parser.Parsed | shell.py:49-80 | the whole `parse`; no contract of its own: `ParseResultShape`, `ParseRange`, `ParseRender`, `ParenTransparent`, `LeadingCloseParen` and `DanglingOperator` state its guarantees, and `Parse` and `ParseState.Consume` are proved equal to it |
| Parser.ParseState.constructor | shell.py:61-62 | both stacks start empty |
| Parser.ParseState.Fold | shell.py:50-59 | the `while` loop of `fold`, popping operator, right and left and pushing the new node, succeeds exactly when `Folded` does and then leaves exactly `Folded`'s stacks |
| Parser.ParseState.Consume | shell.py:65-80 | the token loop with its four branches, the final fold and the choice of result return exactly `Parsed(tokens)` |
| Parser.Parse | shell.py:49-80 | `parse` on a token list returns exactly `Parsed(tokens)` |
| ParserProperties.FoldDepthSpec | shell.py:51-55 | the entries `fold(next)` pops are all operators (never a `(`) binding at least as tightly as `next`, and the entry below them does not fold |
| ParserProperties.FoldSucceeds | shell.py:56-58 | `fold` succeeds exactly when nothing folds or there are more operands than operators to fold |
| ParserProperties.FoldRemoves | shell.py:54-56 | a successful `fold` removes exactly the operators that fold |
| ParserProperties.FoldKeepsBelow | shell.py:56-59 | a `fold` that folds something leaves fewer operands, but at least one, and every operand below the new top as it was |
| ParserProperties.FoldOutcome | shell.py:56-59 | a successful `fold` of `d` operators leaves `d` fewer operands; when `d = 0` it changes nothing, otherwise every operand below the new top is unchanged |
| ParserProperties.FoldSingle | shell.py:56-59 | one fold step removes the top operator and two operands and pushes `Operator(op, left, right)`, where `right` was pushed last and `left` below it, and everything else stays as it was |
| ParserProperties.ClosingFold | shell.py:50-55 | after `fold()` with `;` the operator stack is empty or has `(` on top, and it is empty exactly when it held no `(` |
| ParserProperties.CloseParenCheck | shell.py:69-71 | a `)` fails with an unmatched parenthesis exactly when the fold succeeded and no `(` was open: the check on the popped entry never fails otherwise |
| ParserProperties.LayeredPush | shell.py:72-74 | pushing an operator once `fold` has stopped keeps precedences strictly increasing above the nearest `(` |
| ParserProperties.StepKeepsLayered | shell.py:65-78 | every loop iteration keeps the operator stack's precedences strictly increasing between `(` markers |
| ParserProperties.ConsumedKeepsLayered | shell.py:65-78 | the whole token loop keeps the operator stack's precedences strictly increasing between `(` markers |
| ParserProperties.FoldKeepsOperands | shell.py:56-59 | folding keeps every operand a complete tree and empties the operand stack only if it was already empty |
| ParserProperties.StepKeepsOperands | shell.py:65-78 | an iteration keeps every operand complete; the operand stack is empty afterwards exactly when it was empty before and the iteration read no word |
| ParserProperties.ConsumedKeepsOperands | shell.py:65-78 | the token loop keeps every operand complete and ends with none exactly when it started with none and read no word |
| ParserProperties.ParseResultShape | shell.py:79-80 | a successful parse returns `Node()` exactly when the input has no word, and otherwise a tree whose every program has at least one argument |
| ParserProperties.ConsumedKeepsSpelled | shell.py:65-78 | on a token list whose words pass `is_word`, the token loop only builds trees whose arguments pass `is_word` |
| ParserProperties.ParseRange | shell.py:49-80 | parsing split strings returns `Node()` or a tree with no empty node whose every argument passes `is_word` |
| ParserProperties.StepWordRun | shell.py:75-78 | a word starts a maximal run of words that becomes one `Program` pushed on the operand stack, with the run's words as its arguments in order; the operator stack is unchanged |
| ParserProperties.WordsParseToProgram | shell.py:75-80 | a non-empty list of words parses to one program of all of them, in order |
| ParserProperties.LeadingCloseParen | shell.py:69-71 | a `)` before any `(` fails with an unmatched parenthesis, whatever follows |
| ParserProperties.DanglingOperator | shell.py:57-58 | an operator with words on one side only (`a \|`, `\| a`) fails with a stack underflow |
| ParserProperties.FoldFrame | shell.py:51-59 | a `fold` that succeeds on stacks alone does the same on those stacks placed above a `(` or an empty operator stack; it fails there too when no operand lies below, and otherwise it may take operands from below the `(` |
| ParserProperties.ConsumedFrame | shell.py:65-78 | a token loop that succeeds from stacks alone does the same from those stacks placed above a `(` or an empty operator stack; a stack underflow carries over when no operand lies below |
| ParserProperties.ConsumedShift | shell.py:65-66 | tokens before the cursor play no part in the rest of the loop (cursor in place of `pop(0)`) |
| ParserProperties.StepNested | shell.py:67-71 | with properly nested parentheses an iteration never meets an unmatched `)` and the rest stays properly nested |
| ParserProperties.ConsumedNested | shell.py:65-78 | with properly nested parentheses the loop never meets an unmatched `)` and leaves no `(` on the stack |
| ParserProperties.ParenTransparent | shell.py:67-71 | parentheses around a properly nested token list change nothing: `(t)` parses as `t` does, errors included |
| RoundTrip.SpineCollapse | shell.py:50-59 | an operator that binds no tighter than a command line folds that command line's pending operators back into the tree it means |
| RoundTrip.RenderSpine | shell.py:65-78 | reading a well-formed command line's tokens leaves its right spine of operators waiting above its left operands |
| RoundTrip.ParseRender | shell.py:49-80 | every well-formed command line parses to the tree it means |
| RoundTrip.ThreeCommands | shell.py:54 | in `a k1 b k2 c` the first operator folds first when it binds at least as tightly (left associativity), otherwise `k2` takes `b` |
| RoundTrip.Print | shell.py:13-28 | every tree without an empty node is the meaning of a well-formed command line |
| RoundTrip.EveryTreeParses | shell.py:49-80 | every tree without an empty node is what some token list parses to; the token list may hold words such as `Word("\|")` that no split string classifies to |
| RoundTrip.SpellingTokens | shell.py:31-36 | when every argument of a command line passes `is_word`, classifying the strings it is written as gives exactly its tokens |
| RoundTrip.EveryWordTreeParses | shell.py:49-80 | every tree without an empty node whose arguments all pass `is_word` is what some list of split strings parses to |
| ShellTests.EmptyLineParses | shell.py:97 | the empty command line parses to `Node()` |
| ShellTests.DatePipelineParses | shell.py:98 | `(date; cat /proc/interrupts) \| md5sum \| sed -r …` parses to the expected tree |
| ShellTests.RandomPipelineParses | shell.py:99 | `cat /dev/urandom \| tr -dc A-Za-z0-9 \| head -c 32` parses to the expected tree |
| ShellTests.GrepPipelineParses | shell.py:100 | `grep -v '^#' /etc/somefile.conf \| grep .` parses to the expected tree |
| ShellTests.DatePatternParses | shell.py:101 | `date +%Y-%m-%d-%H.%M.%S` parses to one program |
| ShellTests.ByteDumpPipelineParses | shell.py:102 | the four-program `dd … \| grep … \| head … \| tr …` pipeline parses to the expected left-nested tree |
| ShellTests.AndThenOrParses | shell.py:103 | `true && echo success \|\| echo failure` parses with `\|\|` at the root |
| ShellTests.CurlPipelineParses | shell.py:104 | the `curl … \| grep … \| sed …` pipeline parses to the expected tree |
| ShellTests.EmptyGroupParses | shell.py:106 | `()` parses to `Node()` |
| ShellTests.TwiceEmptyGroupParses | shell.py:107 | `(())` parses to `Node()` |
| ShellTests.SingleWordParses | shell.py:108 | `a` parses to `Program(['a'])` |
| ShellTests.GroupedWordParses | shell.py:109 | `(a)` parses to `Program(['a'])` |
| ShellTests.TwiceGroupedWordParses | shell.py:110 | `((a))` parses to `Program(['a'])` |
| ShellTests.GroupThenAndOrParses | shell.py:111 | `(a; b) \|\| c && d` parses to the expected tree |
| ShellTests.GroupedOrUnderAndParses | shell.py:112 | `a; (b \|\| c) && d` parses to the expected tree |
| ShellTests.GroupedAndUnderOrParses | shell.py:113 | `a; b \|\| (c && d)` parses to the expected tree |
| ShellTests.GroupedSequenceThenAndParses | shell.py:114 | `(a; b \|\| c) && d` parses to the expected tree |
| ShellTests.GroupedAndOrParses | shell.py:115 | `a; (b \|\| c && d)` parses to the expected tree |
| ShellTests.NestedGroupsLeftParses | shell.py:116 | `((a; b) \|\| c) && d` parses to the expected tree |
| ShellTests.InnerGroupLeftParses | shell.py:117 | `(a; (b \|\| c)) && d` parses to the expected tree |
| ShellTests.NestedGroupsRightParses | shell.py:118 | `a; ((b \|\| c) && d)` parses to the expected tree |
| ShellTests.InnerGroupRightParses | shell.py:119 | `a; (b \|\| (c && d))` parses to the expected tree |
| ShellTests.GroupsAtBothEndsParses | shell.py:120 | `(a; b) \|\| c && (d \| e)` parses to the expected tree |
| ShellTests.GroupThenPipeParses | shell.py:121 | `a; (b \|\| c && d) \| e` parses to the expected tree |
| ShellTests.UnclosedGroupParses | shell.py:79-80 | `(a` parses as `a`: a `(` left open is not an error |
| ShellTests.JuxtaposedParses | shell.py:80 | `a (b)` parses as `a`: the bottom operand is returned and the others are dropped |
| ShellTests.OperandBelowGroupParses | shell.py:51-59 | `a (\| b)` parses as `a \| b`: the fold at `)` takes `a` from below the `(` |

## Left out

- `split` (shell.py:43-46) is left out. It configures Python's `shlex`, whose quoting, escaping and punctuation rules are library code that is not part of this model. The parser starts from the token list: a `Token` datatype, with `Classify`/`Tokens` for the string-to-class step. The unit test's inputs are restated as the token lists `shlex` yields for them, for example `'^#'` as one word and `'\n'` as a backslash and an `n`. Those lists are not derived from the strings.
- `main` (shell.py:83-87) is left out: it is an interactive `input` loop that runs each line with `subprocess.run`, which is I/O and process execution.
- The `__repr__` methods (shell.py:9-10, 17-18, 27-28) and the `unittest` test class (shell.py:94-96) are left out. The test compares `repr` strings; the restated test compares `Node` values with structural equality instead.
- Python objects become values. A `Node` is an immutable datatype, and an operator node holds an `OpKind`. `Symbol` gives its spelling, which maps one-to-one to the source's operator string.
- Exceptions become error results. The `IndexError` of `operands.pop()` in `fold` is `StackUnderflow`. The `IndexError` of `operators.pop()` at `)` and the `AssertionError` of the check after it are both `UnmatchedCloseParen`. The model does not tell the two apart, and `ClosingFold` shows that the second cannot happen.
- Running Python with `-O` is not modelled. It drops the whole statement at shell.py:71, the `operators.pop()` inside the `assert` included, so a `(` is never popped at its `)`. Then `a | (b) | c` returns `a`, and a lone `)` returns `Node()` instead of failing.
- Parser.ParseState.Fold: when a pop fails part-way, the method stops and leaves the stacks as they are at that moment. Its contract says nothing about those stacks. The caller abandons them by returning the error, just as the Python exception abandons the local lists.
- Folds, Consumed, Finish and Parsed have no `ensures` of their own. What they guarantee is stated by the lemmas in `ParserProperties` and `RoundTrip`.
