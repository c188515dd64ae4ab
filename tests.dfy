/** The expected trees of shell.py's unit test (shell.py:97-121), on the
    token lists its command lines split into. A case with words is written
    once more as a command line with its parentheses (an `Expr`): its
    tokens are that line's rendering, and its tree follows from the round
    trip `ParseRender`. The cases without words follow from
    `ParenTransparent`. How `shlex` splits the command strings (quotes,
    escapes) is not modelled: the token lists are written out. */
module ShellTests {
  import opened Syntax
  import opened Parser
  import opened ParserProperties
  import opened RoundTrip

  // shell.py:97: the empty command line gives the empty node.
  lemma EmptyLineParses()
    ensures Parsed([]) == Ok(Empty)
  {
    FoldNone(Stacks([], []), Sequence);
  }

  // shell.py:106: empty parentheses give the empty node.
  lemma EmptyGroupParses()
    ensures Parsed([LParen, RParen]) == Ok(Empty)
  {
    assert Balanced([]);
    ParenTransparent([]);
    assert [LParen] + [] + [RParen] == [LParen, RParen];
    EmptyLineParses();
  }

  // shell.py:107: empty parentheses inside parentheses give the empty node.
  lemma TwiceEmptyGroupParses()
    ensures Parsed([LParen, LParen, RParen, RParen]) == Ok(Empty)
  {
    assert Balanced([LParen, RParen]);
    ParenTransparent([LParen, RParen]);
    assert [LParen] + [LParen, RParen] + [RParen] == [LParen, LParen, RParen, RParen];
    EmptyGroupParses();
  }

  // shell.py:101: words without operators form one program.
  lemma DatePatternParses()
    ensures Parsed([Word("date"), Word("+%Y-%m-%d-%H.%M.%S")]) == Ok(Program(["date", "+%Y-%m-%d-%H.%M.%S"]))
  {
    ParseRender(Command(["date", "+%Y-%m-%d-%H.%M.%S"]));
    assert Words(["date", "+%Y-%m-%d-%H.%M.%S"]) == [Word("date"), Word("+%Y-%m-%d-%H.%M.%S")];
  }

  // shell.py:108: a single word is a program.
  lemma SingleWordParses()
    ensures Parsed([Word("a")]) == Ok(Program(["a"]))
  {
    ParseRender(Command(["a"]));
    assert Words(["a"]) == [Word("a")];
  }

  // shell.py:98: a parenthesised sequence piped into two more programs.
  const DatePipeline: Expr :=
    Binary(Pipe,
      Binary(Pipe,
        Group(Binary(Sequence, Command(["date"]), Command(["cat", "/proc/interrupts"]))),
        Command(["md5sum"])),
      Command(["sed", "-r", "s/^(.{10}).*$/\\1/; s/([0-9a-f]{2})/\\1:/g; s/:$//;"]))

  lemma DatePipelineTokens()
    ensures Render(DatePipeline) ==
            [LParen, Word("date"), Op(Sequence), Word("cat"), Word("/proc/interrupts"), RParen,
             Op(Pipe), Word("md5sum"), Op(Pipe), Word("sed"), Word("-r"),
             Word("s/^(.{10}).*$/\\1/; s/([0-9a-f]{2})/\\1:/g; s/:$//;")]
  {
  }

  lemma DatePipelineParses()
    ensures Parsed([LParen, Word("date"), Op(Sequence), Word("cat"), Word("/proc/interrupts"),
                    RParen, Op(Pipe), Word("md5sum"), Op(Pipe), Word("sed"), Word("-r"),
                    Word("s/^(.{10}).*$/\\1/; s/([0-9a-f]{2})/\\1:/g; s/:$//;")])
         == Ok(Operator(Pipe,
                 Operator(Pipe,
                   Operator(Sequence, Program(["date"]), Program(["cat", "/proc/interrupts"])),
                   Program(["md5sum"])),
                 Program(["sed", "-r", "s/^(.{10}).*$/\\1/; s/([0-9a-f]{2})/\\1:/g; s/:$//;"])))
  {
    DatePipelineTokens();
    ParseRender(DatePipeline);
  }

  // shell.py:99: a pipeline of three programs associates to the left.
  const RandomPipeline: Expr :=
    Binary(Pipe,
      Binary(Pipe, Command(["cat", "/dev/urandom"]), Command(["tr", "-dc", "A-Za-z0-9"])),
      Command(["head", "-c", "32"]))

  lemma RandomPipelineTokens()
    ensures Render(RandomPipeline) ==
            [Word("cat"), Word("/dev/urandom"), Op(Pipe), Word("tr"), Word("-dc"),
             Word("A-Za-z0-9"), Op(Pipe), Word("head"), Word("-c"), Word("32")]
  {
  }

  lemma RandomPipelineParses()
    ensures Parsed([Word("cat"), Word("/dev/urandom"), Op(Pipe), Word("tr"), Word("-dc"),
                    Word("A-Za-z0-9"), Op(Pipe), Word("head"), Word("-c"), Word("32")])
         == Ok(Operator(Pipe,
                 Operator(Pipe,
                   Program(["cat", "/dev/urandom"]),
                   Program(["tr", "-dc", "A-Za-z0-9"])),
                 Program(["head", "-c", "32"])))
  {
    RandomPipelineTokens();
    ParseRender(RandomPipeline);
  }

  // shell.py:100: two programs joined by a pipe.
  const GrepPipeline: Expr :=
    Binary(Pipe, Command(["grep", "-v", "^#", "/etc/somefile.conf"]), Command(["grep", "."]))

  lemma GrepPipelineTokens()
    ensures Render(GrepPipeline) ==
            [Word("grep"), Word("-v"), Word("^#"), Word("/etc/somefile.conf"), Op(Pipe),
             Word("grep"), Word(".")]
  {
  }

  lemma GrepPipelineParses()
    ensures Parsed([Word("grep"), Word("-v"), Word("^#"), Word("/etc/somefile.conf"), Op(Pipe),
                    Word("grep"), Word(".")])
         == Ok(Operator(Pipe,
                 Program(["grep", "-v", "^#", "/etc/somefile.conf"]),
                 Program(["grep", "."])))
  {
    GrepPipelineTokens();
    ParseRender(GrepPipeline);
  }

  // shell.py:102: a pipeline of four programs associates to the left.
  const ByteDumpPipeline: Expr :=
    Binary(Pipe,
      Binary(Pipe,
        Binary(Pipe,
          Command(["dd", "bs=256", "count=1", "if=/dev/urandom", "status=none"]),
          Command(["grep", "-ao", "[[:alnum:]]"])),
        Command(["head", "-n", "32"])),
      Command(["tr", "-d", "\\n"]))

  lemma ByteDumpPipelineTokens()
    ensures Render(ByteDumpPipeline) ==
            [Word("dd"), Word("bs=256"), Word("count=1"), Word("if=/dev/urandom"),
             Word("status=none"), Op(Pipe), Word("grep"), Word("-ao"), Word("[[:alnum:]]"),
             Op(Pipe), Word("head"), Word("-n"), Word("32"), Op(Pipe), Word("tr"), Word("-d"),
             Word("\\n")]
  {
  }

  lemma ByteDumpPipelineParses()
    ensures Parsed([Word("dd"), Word("bs=256"), Word("count=1"), Word("if=/dev/urandom"),
                    Word("status=none"), Op(Pipe), Word("grep"), Word("-ao"),
                    Word("[[:alnum:]]"), Op(Pipe), Word("head"), Word("-n"), Word("32"),
                    Op(Pipe), Word("tr"), Word("-d"), Word("\\n")])
         == Ok(Operator(Pipe,
                 Operator(Pipe,
                   Operator(Pipe,
                     Program(["dd", "bs=256", "count=1", "if=/dev/urandom", "status=none"]),
                     Program(["grep", "-ao", "[[:alnum:]]"])),
                   Program(["head", "-n", "32"])),
                 Program(["tr", "-d", "\\n"])))
  {
    ByteDumpPipelineTokens();
    ParseRender(ByteDumpPipeline);
  }

  // shell.py:103: `&&` and `||` share a precedence and associate to the left.
  const AndThenOr: Expr :=
    Binary(Or,
      Binary(And, Command(["true"]), Command(["echo", "success"])),
      Command(["echo", "failure"]))

  lemma AndThenOrTokens()
    ensures Render(AndThenOr) ==
            [Word("true"), Op(And), Word("echo"), Word("success"), Op(Or), Word("echo"),
             Word("failure")]
  {
  }

  lemma AndThenOrParses()
    ensures Parsed([Word("true"), Op(And), Word("echo"), Word("success"), Op(Or), Word("echo"),
                    Word("failure")])
         == Ok(Operator(Or,
                 Operator(And, Program(["true"]), Program(["echo", "success"])),
                 Program(["echo", "failure"])))
  {
    AndThenOrTokens();
    ParseRender(AndThenOr);
  }

  // shell.py:104: a pipeline of three programs with punctuation inside words.
  const CurlPipeline: Expr :=
    Binary(Pipe,
      Binary(Pipe,
        Command(["curl", "-s", "http://whatthecommit.com/"]),
        Command(["grep", "-o", "<p>.*"])),
      Command(["sed", "s,</\\?p>,,g"]))

  lemma CurlPipelineTokens()
    ensures Render(CurlPipeline) ==
            [Word("curl"), Word("-s"), Word("http://whatthecommit.com/"), Op(Pipe),
             Word("grep"), Word("-o"), Word("<p>.*"), Op(Pipe), Word("sed"),
             Word("s,</\\?p>,,g")]
  {
  }

  lemma CurlPipelineParses()
    ensures Parsed([Word("curl"), Word("-s"), Word("http://whatthecommit.com/"), Op(Pipe),
                    Word("grep"), Word("-o"), Word("<p>.*"), Op(Pipe), Word("sed"),
                    Word("s,</\\?p>,,g")])
         == Ok(Operator(Pipe,
                 Operator(Pipe,
                   Program(["curl", "-s", "http://whatthecommit.com/"]),
                   Program(["grep", "-o", "<p>.*"])),
                 Program(["sed", "s,</\\?p>,,g"])))
  {
    CurlPipelineTokens();
    ParseRender(CurlPipeline);
  }

  // shell.py:109: one program in parentheses is that program.
  const GroupedWord: Expr :=
    Group(Command(["a"]))

  lemma GroupedWordTokens()
    ensures Render(GroupedWord) ==
            [LParen, Word("a"), RParen]
  {
  }

  lemma GroupedWordParses()
    ensures Parsed([LParen, Word("a"), RParen])
         == Ok(Program(["a"]))
  {
    GroupedWordTokens();
    ParseRender(GroupedWord);
  }

  // shell.py:110: one program in two pairs of parentheses is that program.
  const TwiceGroupedWord: Expr :=
    Group(Group(Command(["a"])))

  lemma TwiceGroupedWordTokens()
    ensures Render(TwiceGroupedWord) ==
            [LParen, LParen, Word("a"), RParen, RParen]
  {
  }

  lemma TwiceGroupedWordParses()
    ensures Parsed([LParen, LParen, Word("a"), RParen, RParen])
         == Ok(Program(["a"]))
  {
    TwiceGroupedWordTokens();
    ParseRender(TwiceGroupedWord);
  }

  // shell.py:111: a parenthesised sequence as the left operand of `||` and then `&&`.
  const GroupThenAndOr: Expr :=
    Binary(And,
      Binary(Or, Group(Binary(Sequence, Command(["a"]), Command(["b"]))), Command(["c"])),
      Command(["d"]))

  lemma GroupThenAndOrTokens()
    ensures Render(GroupThenAndOr) ==
            [LParen, Word("a"), Op(Sequence), Word("b"), RParen, Op(Or), Word("c"), Op(And),
             Word("d")]
  {
  }

  lemma GroupThenAndOrParses()
    ensures Parsed([LParen, Word("a"), Op(Sequence), Word("b"), RParen, Op(Or), Word("c"),
                    Op(And), Word("d")])
         == Ok(Operator(And,
                 Operator(Or,
                   Operator(Sequence, Program(["a"]), Program(["b"])),
                   Program(["c"])),
                 Program(["d"])))
  {
    GroupThenAndOrTokens();
    ParseRender(GroupThenAndOr);
  }

  // shell.py:112: a parenthesised `||` as the left operand of `&&`, after `;`.
  const GroupedOrUnderAnd: Expr :=
    Binary(Sequence,
      Command(["a"]),
      Binary(And, Group(Binary(Or, Command(["b"]), Command(["c"]))), Command(["d"])))

  lemma GroupedOrUnderAndTokens()
    ensures Render(GroupedOrUnderAnd) ==
            [Word("a"), Op(Sequence), LParen, Word("b"), Op(Or), Word("c"), RParen, Op(And),
             Word("d")]
  {
  }

  lemma GroupedOrUnderAndParses()
    ensures Parsed([Word("a"), Op(Sequence), LParen, Word("b"), Op(Or), Word("c"), RParen,
                    Op(And), Word("d")])
         == Ok(Operator(Sequence,
                 Program(["a"]),
                 Operator(And, Operator(Or, Program(["b"]), Program(["c"])), Program(["d"]))))
  {
    GroupedOrUnderAndTokens();
    ParseRender(GroupedOrUnderAnd);
  }

  // shell.py:113: a parenthesised `&&` as the right operand of `||`, after `;`.
  const GroupedAndUnderOr: Expr :=
    Binary(Sequence,
      Command(["a"]),
      Binary(Or, Command(["b"]), Group(Binary(And, Command(["c"]), Command(["d"])))))

  lemma GroupedAndUnderOrTokens()
    ensures Render(GroupedAndUnderOr) ==
            [Word("a"), Op(Sequence), Word("b"), Op(Or), LParen, Word("c"), Op(And), Word("d"),
             RParen]
  {
  }

  lemma GroupedAndUnderOrParses()
    ensures Parsed([Word("a"), Op(Sequence), Word("b"), Op(Or), LParen, Word("c"), Op(And),
                    Word("d"), RParen])
         == Ok(Operator(Sequence,
                 Program(["a"]),
                 Operator(Or, Program(["b"]), Operator(And, Program(["c"]), Program(["d"])))))
  {
    GroupedAndUnderOrTokens();
    ParseRender(GroupedAndUnderOr);
  }

  // shell.py:114: a parenthesised `;` over `||`, as the left operand of `&&`.
  const GroupedSequenceThenAnd: Expr :=
    Binary(And,
      Group(Binary(Sequence, Command(["a"]), Binary(Or, Command(["b"]), Command(["c"])))),
      Command(["d"]))

  lemma GroupedSequenceThenAndTokens()
    ensures Render(GroupedSequenceThenAnd) ==
            [LParen, Word("a"), Op(Sequence), Word("b"), Op(Or), Word("c"), RParen, Op(And),
             Word("d")]
  {
  }

  lemma GroupedSequenceThenAndParses()
    ensures Parsed([LParen, Word("a"), Op(Sequence), Word("b"), Op(Or), Word("c"), RParen,
                    Op(And), Word("d")])
         == Ok(Operator(And,
                 Operator(Sequence,
                   Program(["a"]),
                   Operator(Or, Program(["b"]), Program(["c"]))),
                 Program(["d"])))
  {
    GroupedSequenceThenAndTokens();
    ParseRender(GroupedSequenceThenAnd);
  }

  // shell.py:115: parentheses around an `&&` over `||`, after `;`.
  const GroupedAndOr: Expr :=
    Binary(Sequence,
      Command(["a"]),
      Group(Binary(And, Binary(Or, Command(["b"]), Command(["c"])), Command(["d"]))))

  lemma GroupedAndOrTokens()
    ensures Render(GroupedAndOr) ==
            [Word("a"), Op(Sequence), LParen, Word("b"), Op(Or), Word("c"), Op(And), Word("d"),
             RParen]
  {
  }

  lemma GroupedAndOrParses()
    ensures Parsed([Word("a"), Op(Sequence), LParen, Word("b"), Op(Or), Word("c"), Op(And),
                    Word("d"), RParen])
         == Ok(Operator(Sequence,
                 Program(["a"]),
                 Operator(And, Operator(Or, Program(["b"]), Program(["c"])), Program(["d"]))))
  {
    GroupedAndOrTokens();
    ParseRender(GroupedAndOr);
  }

  // shell.py:116: nested parentheses on the left of `||` and of `&&`.
  const NestedGroupsLeft: Expr :=
    Binary(And,
      Group(Binary(Or, Group(Binary(Sequence, Command(["a"]), Command(["b"]))), Command(["c"]))),
      Command(["d"]))

  lemma NestedGroupsLeftTokens()
    ensures Render(NestedGroupsLeft) ==
            [LParen, LParen, Word("a"), Op(Sequence), Word("b"), RParen, Op(Or), Word("c"),
             RParen, Op(And), Word("d")]
  {
  }

  lemma NestedGroupsLeftParses()
    ensures Parsed([LParen, LParen, Word("a"), Op(Sequence), Word("b"), RParen, Op(Or),
                    Word("c"), RParen, Op(And), Word("d")])
         == Ok(Operator(And,
                 Operator(Or,
                   Operator(Sequence, Program(["a"]), Program(["b"])),
                   Program(["c"])),
                 Program(["d"])))
  {
    NestedGroupsLeftTokens();
    ParseRender(NestedGroupsLeft);
  }

  // shell.py:117: parentheses inside parentheses, on the left of `&&`.
  const InnerGroupLeft: Expr :=
    Binary(And,
      Group(Binary(Sequence, Command(["a"]), Group(Binary(Or, Command(["b"]), Command(["c"]))))),
      Command(["d"]))

  lemma InnerGroupLeftTokens()
    ensures Render(InnerGroupLeft) ==
            [LParen, Word("a"), Op(Sequence), LParen, Word("b"), Op(Or), Word("c"), RParen,
             RParen, Op(And), Word("d")]
  {
  }

  lemma InnerGroupLeftParses()
    ensures Parsed([LParen, Word("a"), Op(Sequence), LParen, Word("b"), Op(Or), Word("c"),
                    RParen, RParen, Op(And), Word("d")])
         == Ok(Operator(And,
                 Operator(Sequence,
                   Program(["a"]),
                   Operator(Or, Program(["b"]), Program(["c"]))),
                 Program(["d"])))
  {
    InnerGroupLeftTokens();
    ParseRender(InnerGroupLeft);
  }

  // shell.py:118: nested parentheses on the right of `;`.
  const NestedGroupsRight: Expr :=
    Binary(Sequence,
      Command(["a"]),
      Group(Binary(And, Group(Binary(Or, Command(["b"]), Command(["c"]))), Command(["d"]))))

  lemma NestedGroupsRightTokens()
    ensures Render(NestedGroupsRight) ==
            [Word("a"), Op(Sequence), LParen, LParen, Word("b"), Op(Or), Word("c"), RParen,
             Op(And), Word("d"), RParen]
  {
  }

  lemma NestedGroupsRightParses()
    ensures Parsed([Word("a"), Op(Sequence), LParen, LParen, Word("b"), Op(Or), Word("c"),
                    RParen, Op(And), Word("d"), RParen])
         == Ok(Operator(Sequence,
                 Program(["a"]),
                 Operator(And, Operator(Or, Program(["b"]), Program(["c"])), Program(["d"]))))
  {
    NestedGroupsRightTokens();
    ParseRender(NestedGroupsRight);
  }

  // shell.py:119: parentheses inside parentheses, on the right of `;`.
  const InnerGroupRight: Expr :=
    Binary(Sequence,
      Command(["a"]),
      Group(Binary(Or, Command(["b"]), Group(Binary(And, Command(["c"]), Command(["d"]))))))

  lemma InnerGroupRightTokens()
    ensures Render(InnerGroupRight) ==
            [Word("a"), Op(Sequence), LParen, Word("b"), Op(Or), LParen, Word("c"), Op(And),
             Word("d"), RParen, RParen]
  {
  }

  lemma InnerGroupRightParses()
    ensures Parsed([Word("a"), Op(Sequence), LParen, Word("b"), Op(Or), LParen, Word("c"),
                    Op(And), Word("d"), RParen, RParen])
         == Ok(Operator(Sequence,
                 Program(["a"]),
                 Operator(Or, Program(["b"]), Operator(And, Program(["c"]), Program(["d"])))))
  {
    InnerGroupRightTokens();
    ParseRender(InnerGroupRight);
  }

  // shell.py:120: parentheses at both ends of an `||` and `&&` chain.
  const GroupsAtBothEnds: Expr :=
    Binary(And,
      Binary(Or, Group(Binary(Sequence, Command(["a"]), Command(["b"]))), Command(["c"])),
      Group(Binary(Pipe, Command(["d"]), Command(["e"]))))

  lemma GroupsAtBothEndsTokens()
    ensures Render(GroupsAtBothEnds) ==
            [LParen, Word("a"), Op(Sequence), Word("b"), RParen, Op(Or), Word("c"), Op(And),
             LParen, Word("d"), Op(Pipe), Word("e"), RParen]
  {
  }

  lemma GroupsAtBothEndsParses()
    ensures Parsed([LParen, Word("a"), Op(Sequence), Word("b"), RParen, Op(Or), Word("c"),
                    Op(And), LParen, Word("d"), Op(Pipe), Word("e"), RParen])
         == Ok(Operator(And,
                 Operator(Or,
                   Operator(Sequence, Program(["a"]), Program(["b"])),
                   Program(["c"])),
                 Operator(Pipe, Program(["d"]), Program(["e"]))))
  {
    GroupsAtBothEndsTokens();
    ParseRender(GroupsAtBothEnds);
  }

  // shell.py:121: a parenthesised group as the left operand of `|`, after `;`.
  const GroupThenPipe: Expr :=
    Binary(Sequence,
      Command(["a"]),
      Binary(Pipe,
        Group(Binary(And, Binary(Or, Command(["b"]), Command(["c"])), Command(["d"]))),
        Command(["e"])))

  lemma GroupThenPipeTokens()
    ensures Render(GroupThenPipe) ==
            [Word("a"), Op(Sequence), LParen, Word("b"), Op(Or), Word("c"), Op(And), Word("d"),
             RParen, Op(Pipe), Word("e")]
  {
  }

  lemma GroupThenPipeParses()
    ensures Parsed([Word("a"), Op(Sequence), LParen, Word("b"), Op(Or), Word("c"), Op(And),
                    Word("d"), RParen, Op(Pipe), Word("e")])
         == Ok(Operator(Sequence,
                 Program(["a"]),
                 Operator(Pipe,
                   Operator(And, Operator(Or, Program(["b"]), Program(["c"])), Program(["d"])),
                   Program(["e"]))))
  {
    GroupThenPipeTokens();
    ParseRender(GroupThenPipe);
  }
  // Outside the unit test: the parser has no check for a `(` left open,
  // and it returns the bottom operand when several are left.

  /** A `(` that is never closed stays on the operator stack and is
      ignored: `(a` parses as `a`. */
  lemma UnclosedGroupParses()
    ensures Parsed([LParen, Word("a")]) == Ok(Program(["a"]))
  {
    var t := [LParen, Word("a")];
    var s1 := Stacks([Open], []);
    ConsumedOpen(t, 0, Stacks([], []), s1);
    assert t[1..2] == [Word("a")];
    var s2 := Stacks([Open], [Program(["a"])]);
    ConsumedWords(t, 1, 2, s1, ["a"], s2);
    FoldNone(s2, Sequence);
  }

  /** Two commands side by side, with no operator between them, leave two
      operands: `a (b)` parses as `a`, and `b` is dropped. */
  lemma JuxtaposedParses()
    ensures Parsed([Word("a"), LParen, Word("b"), RParen]) == Ok(Program(["a"]))
  {
    var t := [Word("a"), LParen, Word("b"), RParen];
    var s1 := Stacks([], [Program(["a"])]);
    var s2 := Stacks([Open], [Program(["a"])]);
    var s3 := Stacks([Open], [Program(["a"]), Program(["b"])]);
    var s4 := Stacks([], [Program(["a"]), Program(["b"])]);
    assert t[0..1] == [Word("a")] && t[2..3] == [Word("b")];
    FoldNone(s3, Sequence);
    FoldNone(s4, Sequence);
    ConsumedClose(t, 3, s3, s3, s4);
    ConsumedWords(t, 2, 3, s2, ["b"], s3);
    ConsumedOpen(t, 1, s1, s2);
    ConsumedWords(t, 0, 1, Stacks([], []), ["a"], s1);
  }

  /** Only the operator stack is fenced by a `(`: an operator inside
      parentheses that finds too few operands there folds one from below
      the `(`. So `a (| b)` parses as `a | b`. */
  lemma OperandBelowGroupParses()
    ensures Parsed([Word("a"), LParen, Op(Pipe), Word("b"), RParen]) == Ok(Operator(Pipe, Program(["a"]), Program(["b"])))
  {
    var t := [Word("a"), LParen, Op(Pipe), Word("b"), RParen];
    var a, b := Program(["a"]), Program(["b"]);
    var s1 := Stacks([], [a]);
    var s2 := Stacks([Open], [a]);
    var s3 := Stacks([Open, Pending(Pipe)], [a]);
    var s4 := Stacks([Open, Pending(Pipe)], [a, b]);
    var s5 := Stacks([Open], [Operator(Pipe, a, b)]);
    var s6 := Stacks([], [Operator(Pipe, a, b)]);
    assert t[0..1] == [Word("a")] && t[3..4] == [Word("b")];
    FoldNone(s6, Sequence);
    FoldNone(s5, Sequence);
    FoldOne(s4, Sequence, s5);
    ConsumedClose(t, 4, s4, s5, s6);
    ConsumedWords(t, 3, 4, s3, ["b"], s4);
    FoldNone(s2, Pipe);
    ConsumedOperator(t, 2, s2, s2, s3);
    ConsumedOpen(t, 1, s1, s2);
    ConsumedWords(t, 0, 1, Stacks([], []), ["a"], s1);
  }
}
