/**
 * Soundness of the parser against the grammar reference: on tokens the
 * lexer can produce, whatever a parsing function returns is a well-formed
 * tree of its nonterminal, read from exactly the tokens it consumed.
 */
module ParserSoundness {
  import opened Wrappers
  import opened Lexer
  import opened Ast
  import opened Parser
  import opened Grammar

  /** `p` is an expression tree read from the tokens from `pos` up to `p.next`. */
  predicate SpansExpr(toks: seq<Token>, pos: nat, p: Parsed) {
    p.next == pos + |UExpr(p.node)| && Occurs(toks, pos, UExpr(p.node))
  }

  /** `p` is a command tree read from the tokens from `pos` up to `p.next`. */
  predicate SpansCmd(toks: seq<Token>, pos: nat, p: Parsed) {
    p.next == pos + |UCmd(p.node)| && Occurs(toks, pos, UCmd(p.node))
  }

  /** A lexer token of a kind with a fixed text. */
  lemma FixedToken(t: Token)
    requires Canonical(t) && t.kind != NUMBER && t.kind != IDENTIFIER && t.kind != STRING
    ensures t == Tok(t.kind) && Lexeme(t) == KindText(t.kind)
  {
  }

  /** A lexer token of a kind with a fixed text, at a position of the input. */
  lemma FixedAt(toks: seq<Token>, i: nat)
    requires AllCanonical(toks) && i < |toks|
    requires toks[i].kind != NUMBER && toks[i].kind != IDENTIFIER && toks[i].kind != STRING
    ensures toks[i] == Tok(toks[i].kind) && Lexeme(toks[i]) == KindText(toks[i].kind)
  {
    assert CanonicalAt(toks, i);
    FixedToken(toks[i]);
  }

  /** The text of an operator token names its kind back. */
  lemma OpKindOfText(k: Kind)
    requires OpLevel(k) > 0 || k == NOT
    ensures OpKind(KindText(k)) == k
  {
  }

  /** A single-token factor: NUMBER, IDENTIFIER, TRUE, FALSE or STRING. */
  lemma AtomSound(toks: seq<Token>, pos: nat)
    requires pos < |toks| && Canonical(toks[pos])
    requires toks[pos].kind in {NUMBER, IDENTIFIER, TRUE, FALSE, STRING}
    ensures Factor(toks, pos).Some?
    ensures WfFactor(Factor(toks, pos).value.node) && SpansExpr(toks, pos, Factor(toks, pos).value)
  {
    var t := toks[pos];
    OccursOne(toks, pos, t);
    if t.kind == IDENTIFIER {
      assert "true" in Reserved && "false" in Reserved;
    }
  }

  /** The lexer tokens `door ( )`. */
  lemma InputTokens(toks: seq<Token>, pos: nat)
    requires pos + 2 < |toks| && AllCanonical(toks)
    requires toks[pos].kind == INPUT && toks[pos + 1].kind == LPAR && toks[pos + 2].kind == RPAR
    ensures Occurs(toks, pos, [Tok(INPUT), Tok(LPAR), Tok(RPAR)]) && Lexeme(toks[pos]) == "door"
  {
    FixedAt(toks, pos);
    FixedAt(toks, pos + 1);
    FixedAt(toks, pos + 2);
  }

  lemma InputSound(toks: seq<Token>, pos: nat)
    requires pos < |toks| && AllCanonical(toks) && toks[pos].kind == INPUT
    ensures Factor(toks, pos).Some? ==>
              WfFactor(Factor(toks, pos).value.node) && SpansExpr(toks, pos, Factor(toks, pos).value)
  {
    if At(toks, pos + 1, LPAR) && At(toks, pos + 2, RPAR) {
      InputTokens(toks, pos);
    }
  }

  lemma {:induction false} FactorSound(toks: seq<Token>, pos: nat)
    requires pos <= |toks| && AllCanonical(toks)
    ensures Factor(toks, pos).Some? ==>
              WfFactor(Factor(toks, pos).value.node) && SpansExpr(toks, pos, Factor(toks, pos).value)
    decreases |toks| - pos, 1
  {
    if pos < |toks| {
      var k := toks[pos].kind;
      assert CanonicalAt(toks, pos);
      if k in {NUMBER, IDENTIFIER, TRUE, FALSE, STRING} {
        AtomSound(toks, pos);
      } else if k == LPAR {
        ParenSound(toks, pos);
      } else if k == PLUS || k == MINUS || k == NOT {
        UnarySound(toks, pos);
      } else if k == INPUT {
        InputSound(toks, pos);
      }
    }
  }

  lemma {:induction false} UnarySound(toks: seq<Token>, pos: nat)
    requires pos < |toks| && AllCanonical(toks)
    requires toks[pos].kind == PLUS || toks[pos].kind == MINUS || toks[pos].kind == NOT
    ensures Unary(toks, pos).Some? ==>
              WfFactor(Unary(toks, pos).value.node) && SpansExpr(toks, pos, Unary(toks, pos).value)
    decreases |toks| - pos, 0
  {
    var t := toks[pos];
    FactorSound(toks, pos + 1);
    if Factor(toks, pos + 1).Some? {
      var f := Factor(toks, pos + 1).value;
      FixedAt(toks, pos);
      OpKindOfText(t.kind);
      assert Token(OpKind(Lexeme(t)), TextValue(Lexeme(t))) == t;
      OccursOne(toks, pos, t);
      OccursConcat(toks, pos, [t], UExpr(f.node));
    }
  }

  lemma {:induction false} ParenSound(toks: seq<Token>, pos: nat)
    requires pos <= |toks| && AllCanonical(toks)
    ensures ParenOk(toks, pos, Parenthesized(toks, pos))
    decreases |toks| - pos, 0
  {
    if At(toks, pos, LPAR) {
      ExprSound(6, toks, pos + 1);
      if Expr(6, toks, pos + 1).Some? {
        var e := Expr(6, toks, pos + 1).value;
        if At(toks, e.next, RPAR) {
          FixedAt(toks, pos);
          FixedAt(toks, e.next);
          OccursBetween(toks, pos, Tok(LPAR), UExpr(e.node), Tok(RPAR));
        }
      }
    }
  }

  lemma {:induction false} ExprSound(lvl: nat, toks: seq<Token>, pos: nat)
    requires pos <= |toks| && AllCanonical(toks)
    ensures Expr(lvl, toks, pos).Some? ==>
              WfExpr(lvl, Expr(lvl, toks, pos).value.node) && SpansExpr(toks, pos, Expr(lvl, toks, pos).value)
    decreases |toks| - pos, lvl + 2
  {
    if lvl == 0 {
      FactorSound(toks, pos);
    } else {
      ExprSound(lvl - 1, toks, pos);
      if Expr(lvl - 1, toks, pos).Some? {
        var left := Expr(lvl - 1, toks, pos).value;
        WfLift(lvl - 1, left.node);
        TailSound(lvl, toks, pos, left.next, left.node);
      }
    }
  }

  /** The operator token of one more `OP operand` makes a well-formed tree of its level, and its text gives it back. */
  lemma TailWf(lvl: nat, toks: seq<Token>, pos: nat, acc: Node, right: Node)
    requires 1 <= lvl && pos < |toks| && AllCanonical(toks) && OpLevel(toks[pos].kind) == lvl
    requires WfExpr(lvl, acc) && WfExpr(lvl - 1, right)
    ensures WfExpr(lvl, BinOp(Lexeme(toks[pos]), [acc, right]))
    ensures Token(OpKind(Lexeme(toks[pos])), TextValue(Lexeme(toks[pos]))) == toks[pos]
  {
    FixedAt(toks, pos);
    OpKindOfText(toks[pos].kind);
  }

  /** The tokens of one more `OP operand` follow those of the tree read so far. */
  lemma TailSpans(toks: seq<Token>, start: nat, pos: nat, acc: Node, right: Parsed)
    requires start <= pos < |toks| && SpansExpr(toks, start, Parsed(acc, pos)) && SpansExpr(toks, pos + 1, right)
    requires Token(OpKind(Lexeme(toks[pos])), TextValue(Lexeme(toks[pos]))) == toks[pos]
    ensures SpansExpr(toks, start, Parsed(BinOp(Lexeme(toks[pos]), [acc, right.node]), right.next))
  {
    var t := toks[pos];
    OccursOne(toks, pos, t);
    OccursConcat(toks, start, UExpr(acc), [t]);
    OccursConcat(toks, start, UExpr(acc) + [t], UExpr(right.node));
    assert UExpr(BinOp(Lexeme(t), [acc, right.node])) == UExpr(acc) + [t] + UExpr(right.node);
  }

  lemma {:induction false} TailSound(lvl: nat, toks: seq<Token>, start: nat, pos: nat, acc: Node)
    requires 1 <= lvl && start <= pos <= |toks| && AllCanonical(toks)
    requires WfExpr(lvl, acc) && SpansExpr(toks, start, Parsed(acc, pos))
    ensures Tail(lvl, toks, pos, acc).Some? ==>
              WfExpr(lvl, Tail(lvl, toks, pos, acc).value.node)
              && SpansExpr(toks, start, Tail(lvl, toks, pos, acc).value)
    decreases |toks| - pos, 0
  {
    if pos < |toks| && OpLevel(toks[pos].kind) == lvl {
      ExprSound(lvl - 1, toks, pos + 1);
      if Expr(lvl - 1, toks, pos + 1).Some? {
        var right := Expr(lvl - 1, toks, pos + 1).value;
        TailWf(lvl, toks, pos, acc, right.node);
        TailSpans(toks, start, pos, acc, right);
        TailSound(lvl, toks, start, right.next, BinOp(Lexeme(toks[pos]), [acc, right.node]));
      }
    }
  }

  /** What CommandSound promises about one result of `Command`. */
  predicate CommandOk(toks: seq<Token>, pos: nat, r: Option<Parsed>) {
    r.Some? ==>
      WfCmd(r.value.node) && SpansCmd(toks, pos, r.value)
      && (OpenEnd(r.value.node) ==> !At(toks, r.value.next, ELSE))
  }

  /** What ParenSound promises about one result of `Parenthesized`. */
  predicate ParenOk(toks: seq<Token>, pos: nat, r: Option<Parsed>) {
    r.Some? ==>
      WfExpr(6, r.value.node) && r.value.next == pos + |UParen(r.value.node)|
      && Occurs(toks, pos, UParen(r.value.node))
  }

  /** What ListSound promises about one result of `ListCommand` after the commands `acc`. */
  predicate ListOk(toks: seq<Token>, pos: nat, acc: seq<Node>, r: Option<ParsedList>) {
    r.Some? ==>
      |acc| <= |r.value.nodes| && r.value.nodes[..|acc|] == acc
      && WfCmds(r.value.nodes[|acc|..]) && r.value.next == pos + |UCmds(r.value.nodes[|acc|..])|
      && Occurs(toks, pos, UCmds(r.value.nodes[|acc|..])) && !StartsCommand(toks, r.value.next)
  }

  /** The tokens of `IF ( cond ) th` start at `pos`, and `th` does not leave an `ELSE` dangling. */
  predicate IfHeadOk(toks: seq<Token>, pos: nat, cond: Node, th: Parsed) {
    pos < |toks| && toks[pos] == Tok(IF) && WfExpr(6, cond) && WfCmd(th.node)
    && (OpenEnd(th.node) ==> !At(toks, th.next, ELSE))
    && th.next == pos + |[Tok(IF)] + UParen(cond) + UCmd(th.node)|
    && Occurs(toks, pos, [Tok(IF)] + UParen(cond) + UCmd(th.node))
  }

  lemma IfShape(cond: Node, th: Node)
    ensures var c := ConditionOp("if", [cond, th]);
            (WfExpr(6, cond) && WfCmd(th) ==> WfCmd(c)) && OpenEnd(c) && UCmd(c) == [Tok(IF)] + UParen(cond) + UCmd(th)
  {
  }

  lemma IfElseShape(cond: Node, th: Node, el: Node)
    ensures var c := ConditionOp("if", [cond, th, el]);
            (WfExpr(6, cond) && WfCmd(th) && !OpenEnd(th) && WfCmd(el) ==> WfCmd(c))
            && (OpenEnd(c) <==> OpenEnd(el))
            && UCmd(c) == [Tok(IF)] + UParen(cond) + UCmd(th) + [Tok(ELSE)] + UCmd(el)
  {
  }

  lemma WhileShape(cond: Node, body: Node)
    ensures var c := WhileOp("until", [cond, body]);
            (WfExpr(6, cond) && WfCmd(body) ==> WfCmd(c)) && (OpenEnd(c) <==> OpenEnd(body)) && UCmd(c) == [Tok(WHILE)] + UParen(cond) + UCmd(body)
  {
  }

  lemma BlockShape(cs: seq<Node>)
    ensures var c := StatementOp("BLOCK", cs);
            (|cs| > 0 && WfCmds(cs) ==> WfCmd(c)) && !OpenEnd(c) && UCmd(c) == [Tok(OPENBLOCK)] + UCmds(cs) + [Tok(CLOSEBLOCK)]
  {
  }

  /** `IDENTIFIER ATTRIB e SEMICOLLON` from its parts. */
  lemma AssignStep(toks: seq<Token>, pos: nat, e: Parsed)
    requires pos + 1 < |toks| && toks[pos].kind == IDENTIFIER && Canonical(toks[pos]) && toks[pos + 1] == Tok(ATTRIB)
    requires WfExpr(6, e.node) && SpansExpr(toks, pos + 2, e) && e.next < |toks| && toks[e.next] == Tok(SEMICOLLON)
    ensures CommandOk(toks, pos, Some(Parsed(AssignmentOp(Lexeme(toks[pos + 1]), [IdentifierVal(Lexeme(toks[pos])), e.node]), e.next + 1)))
  {
    var t, a := toks[pos], toks[pos + 1];
    var c := AssignmentOp(Lexeme(a), [IdentifierVal(Lexeme(t)), e.node]);
    assert t == Token(IDENTIFIER, TextValue(Lexeme(t)));
    OccursBetween(toks, pos + 1, a, UExpr(e.node), Tok(SEMICOLLON));
    OccursOne(toks, pos, t);
    OccursConcat(toks, pos, [t], [a] + UExpr(e.node) + [Tok(SEMICOLLON)]);
    assert UCmd(c) == [t] + ([a] + UExpr(e.node) + [Tok(SEMICOLLON)]);
  }

  lemma AssignSound(toks: seq<Token>, pos: nat)
    requires pos < |toks| && AllCanonical(toks) && toks[pos].kind == IDENTIFIER
    ensures CommandOk(toks, pos, AssignCommand(toks, pos))
  {
    if At(toks, pos + 1, ATTRIB) {
      ExprSound(6, toks, pos + 2);
      if Expr(6, toks, pos + 2).Some? {
        var e := Expr(6, toks, pos + 2).value;
        if At(toks, e.next, SEMICOLLON) {
          assert CanonicalAt(toks, pos);
          FixedAt(toks, pos + 1);
          FixedAt(toks, e.next);
          AssignStep(toks, pos, e);
        }
      }
    }
  }

  /** `PRINT ( g ) SEMICOLLON` from its parts. */
  lemma PrintStep(toks: seq<Token>, pos: nat, g: Parsed)
    requires pos < |toks| && toks[pos] == Tok(PRINT) && ParenOk(toks, pos + 1, Some(g))
    requires g.next < |toks| && toks[g.next] == Tok(SEMICOLLON)
    ensures CommandOk(toks, pos, Some(Parsed(PrintOp(Lexeme(toks[pos]), [g.node]), g.next + 1)))
  {
    OccursBetween(toks, pos, Tok(PRINT), UParen(g.node), Tok(SEMICOLLON));
  }

  lemma PrintSound(toks: seq<Token>, pos: nat)
    requires pos < |toks| && AllCanonical(toks) && toks[pos].kind == PRINT
    ensures CommandOk(toks, pos, PrintCommand(toks, pos))
  {
    ParenSound(toks, pos + 1);
    if Parenthesized(toks, pos + 1).Some? {
      var g := Parenthesized(toks, pos + 1).value;
      if At(toks, g.next, SEMICOLLON) {
        FixedAt(toks, pos);
        FixedAt(toks, g.next);
        PrintStep(toks, pos, g);
      }
    }
  }

  /** `WHILE ( cond ) body` from its parts. */
  lemma WhileStep(toks: seq<Token>, pos: nat, g: Parsed, body: Parsed)
    requires pos < |toks| && toks[pos] == Tok(WHILE) && ParenOk(toks, pos + 1, Some(g))
    requires CommandOk(toks, g.next, Some(body))
    ensures CommandOk(toks, pos, Some(Parsed(WhileOp(Lexeme(toks[pos]), [g.node, body.node]), body.next)))
  {
    assert Lexeme(toks[pos]) == "until";
    OccursOne(toks, pos, Tok(WHILE));
    OccursConcat(toks, pos, [Tok(WHILE)], UParen(g.node));
    OccursConcat(toks, pos, [Tok(WHILE)] + UParen(g.node), UCmd(body.node));
    WhileShape(g.node, body.node);
  }

  lemma {:induction false} WhileSound(toks: seq<Token>, pos: nat)
    requires pos < |toks| && AllCanonical(toks) && toks[pos].kind == WHILE
    ensures CommandOk(toks, pos, WhileCommand(toks, pos))
    decreases |toks| - pos, 1
  {
    ParenSound(toks, pos + 1);
    if Parenthesized(toks, pos + 1).Some? {
      var g := Parenthesized(toks, pos + 1).value;
      CommandSound(toks, g.next);
      if Command(toks, g.next).Some? {
        var body := Command(toks, g.next).value;
        FixedAt(toks, pos);
        WhileStep(toks, pos, g, body);
      }
    }
  }

  /** `IF ( cond ) th` from its parts. */
  lemma IfHeadStep(toks: seq<Token>, pos: nat, g: Parsed, th: Parsed)
    ensures pos < |toks| && toks[pos] == Tok(IF) && ParenOk(toks, pos + 1, Some(g))
            && CommandOk(toks, g.next, Some(th))
            ==> IfHeadOk(toks, pos, g.node, th)
  {
    if pos < |toks| && toks[pos] == Tok(IF) && ParenOk(toks, pos + 1, Some(g))
       && CommandOk(toks, g.next, Some(th)) {
      OccursOne(toks, pos, Tok(IF));
      OccursConcat(toks, pos, [Tok(IF)], UParen(g.node));
      OccursConcat(toks, pos, [Tok(IF)] + UParen(g.node), UCmd(th.node));
    }
  }

  lemma {:induction false} IfSound(toks: seq<Token>, pos: nat)
    requires pos < |toks| && AllCanonical(toks) && toks[pos].kind == IF
    ensures CommandOk(toks, pos, IfCommand(toks, pos))
    decreases |toks| - pos, 1
  {
    ParenSound(toks, pos + 1);
    if Parenthesized(toks, pos + 1).Some? {
      var g := Parenthesized(toks, pos + 1).value;
      CommandSound(toks, g.next);
      if Command(toks, g.next).Some? {
        var th := Command(toks, g.next).value;
        FixedAt(toks, pos);
        IfHeadStep(toks, pos, g, th);
        ElseSound(toks, pos, g.node, th);
      }
    }
  }

  /** `IF ( cond ) th ELSE el` from its parts. */
  lemma ElseTakenStep(toks: seq<Token>, pos: nat, cond: Node, th: Parsed, el: Parsed)
    requires IfHeadOk(toks, pos, cond, th) && th.next < |toks| && toks[th.next] == Tok(ELSE)
    requires CommandOk(toks, th.next + 1, Some(el))
    ensures CommandOk(toks, pos, Some(Parsed(ConditionOp(Lexeme(toks[pos]), [cond, th.node, el.node]), el.next)))
  {
    var head := [Tok(IF)] + UParen(cond) + UCmd(th.node);
    assert Lexeme(toks[pos]) == "if";
    OccursOne(toks, th.next, Tok(ELSE));
    OccursConcat(toks, pos, head, [Tok(ELSE)]);
    OccursConcat(toks, pos, head + [Tok(ELSE)], UCmd(el.node));
    IfElseShape(cond, th.node, el.node);
  }

  /** `IF ( cond ) th` with no `ELSE` after it. */
  lemma ElseAbsentStep(toks: seq<Token>, pos: nat, cond: Node, th: Parsed)
    requires IfHeadOk(toks, pos, cond, th) && !At(toks, th.next, ELSE)
    ensures CommandOk(toks, pos, Some(Parsed(ConditionOp(Lexeme(toks[pos]), [cond, th.node]), th.next)))
  {
    assert Lexeme(toks[pos]) == "if";
    IfShape(cond, th.node);
  }

  lemma {:induction false} ElseSound(toks: seq<Token>, pos: nat, cond: Node, th: Parsed)
    requires pos < th.next <= |toks| && AllCanonical(toks)
    ensures IfHeadOk(toks, pos, cond, th) ==> CommandOk(toks, pos, ElsePart(toks, pos, cond, th))
    decreases |toks| - th.next, 0
  {
    if IfHeadOk(toks, pos, cond, th) {
      if At(toks, th.next, ELSE) {
        CommandSound(toks, th.next + 1);
        if Command(toks, th.next + 1).Some? {
          var el := Command(toks, th.next + 1).value;
          FixedAt(toks, th.next);
          ElseTakenStep(toks, pos, cond, th, el);
        }
      } else {
        ElseAbsentStep(toks, pos, cond, th);
      }
    }
  }

  lemma {:induction false} CommandSound(toks: seq<Token>, pos: nat)
    requires pos <= |toks| && AllCanonical(toks)
    ensures CommandOk(toks, pos, Command(toks, pos))
    decreases |toks| - pos, 2
  {
    if pos < |toks| {
      var k := toks[pos].kind;
      if k == IDENTIFIER {
        AssignSound(toks, pos);
      } else if k == PRINT {
        PrintSound(toks, pos);
      } else if k == OPENBLOCK {
        BlockSound(toks, pos);
      } else if k == WHILE {
        WhileSound(toks, pos);
      } else if k == IF {
        IfSound(toks, pos);
      }
    }
  }

  /** The commands of a list after `acc` are `c` and the commands after `acc + [c]`. */
  lemma ListSplit(acc: seq<Node>, c: Node, nodes: seq<Node>)
    requires |acc + [c]| <= |nodes| && nodes[..|acc + [c]|] == acc + [c]
    ensures |acc| <= |nodes| && nodes[..|acc|] == acc
    ensures nodes[|acc|..] == [c] + nodes[|acc| + 1..]
    ensures UCmds(nodes[|acc|..]) == UCmd(c) + UCmds(nodes[|acc| + 1..])
  {
    assert nodes[..|acc|] == (acc + [c])[..|acc|];
    assert nodes[|acc|] == (acc + [c])[|acc|];
    var cs := nodes[|acc|..];
    assert cs[0] == c && cs[1..] == nodes[|acc| + 1..];
  }

  /** Well-formed commands: `c` and those after it. */
  lemma WfCmdsCons(c: Node, rest: seq<Node>)
    requires WfCmd(c) && WfCmds(rest)
    ensures WfCmds([c] + rest)
  {
    forall i | 0 <= i < |[c] + rest| ensures WfCmd(([c] + rest)[i]) {
      if i > 0 {
        assert ([c] + rest)[i] == rest[i - 1];
      }
    }
  }

  /** One more command in front of a list. */
  lemma ListStep(toks: seq<Token>, pos: nat, acc: seq<Node>, c: Parsed, r: Option<ParsedList>)
    ensures CommandOk(toks, pos, Some(c)) && ListOk(toks, c.next, acc + [c.node], r)
            ==> ListOk(toks, pos, acc, r)
  {
    if r.Some? && CommandOk(toks, pos, Some(c)) && ListOk(toks, c.next, acc + [c.node], r) {
      var l := r.value;
      ListSplit(acc, c.node, l.nodes);
      assert |acc + [c.node]| == |acc| + 1;
      WfCmdsCons(c.node, l.nodes[|acc| + 1..]);
      OccursConcat(toks, pos, UCmd(c.node), UCmds(l.nodes[|acc| + 1..]));
    }
  }

  lemma {:induction false} ListSound(toks: seq<Token>, pos: nat, acc: seq<Node>)
    requires pos <= |toks| && AllCanonical(toks)
    ensures ListOk(toks, pos, acc, ListCommand(toks, pos, acc))
    decreases |toks| - pos, 3
  {
    if StartsCommand(toks, pos) {
      CommandSound(toks, pos);
      if Command(toks, pos).Some? {
        var c := Command(toks, pos).value;
        ListSound(toks, c.next, acc + [c.node]);
        ListStep(toks, pos, acc, c, ListCommand(toks, c.next, acc + [c.node]));
      }
    } else {
      assert acc[|acc|..] == [];
    }
  }

  /** The tokens of `OPENBLOCK c cs CLOSEBLOCK` from those of its parts. */
  lemma BlockTokens(toks: seq<Token>, pos: nat, cs: seq<Node>, next: nat)
    requires |cs| > 0 && pos < |toks| && toks[pos] == Tok(OPENBLOCK)
    requires Occurs(toks, pos + 1, UCmd(cs[0])) && Occurs(toks, pos + 1 + |UCmd(cs[0])|, UCmds(cs[1..]))
    requires next == pos + 1 + |UCmd(cs[0])| + |UCmds(cs[1..])| && next < |toks| && toks[next] == Tok(CLOSEBLOCK)
    ensures SpansCmd(toks, pos, Parsed(StatementOp("BLOCK", cs), next + 1))
  {
    assert UCmds(cs) == UCmd(cs[0]) + UCmds(cs[1..]);
    OccursConcat(toks, pos + 1, UCmd(cs[0]), UCmds(cs[1..]));
    OccursBetween(toks, pos, Tok(OPENBLOCK), UCmds(cs), Tok(CLOSEBLOCK));
    BlockShape(cs);
  }

  /** A block of well-formed commands is a well-formed command. */
  lemma BlockWf(cs: seq<Node>)
    requires |cs| > 0 && WfCmd(cs[0]) && WfCmds(cs[1..])
    ensures WfCmd(StatementOp("BLOCK", cs)) && !OpenEnd(StatementOp("BLOCK", cs))
  {
    forall i | 0 <= i < |cs| ensures WfCmd(cs[i]) {
      if i > 0 {
        assert cs[i] == cs[1..][i - 1];
      }
    }
  }

  /** `OPENBLOCK c cs CLOSEBLOCK` from its parts. */
  lemma BlockStep(toks: seq<Token>, pos: nat, c: Parsed, l: ParsedList)
    ensures pos < |toks| && toks[pos] == Tok(OPENBLOCK) && CommandOk(toks, pos + 1, Some(c))
            && ListOk(toks, c.next, [c.node], Some(l)) && l.next < |toks| && toks[l.next] == Tok(CLOSEBLOCK)
            ==> CommandOk(toks, pos, Some(Parsed(StatementOp("BLOCK", l.nodes), l.next + 1)))
  {
    if pos < |toks| && toks[pos] == Tok(OPENBLOCK) && CommandOk(toks, pos + 1, Some(c))
       && ListOk(toks, c.next, [c.node], Some(l)) && l.next < |toks| && toks[l.next] == Tok(CLOSEBLOCK) {
      var cs := l.nodes;
      assert |[c.node]| == 1 && cs[..1] == [c.node];
      assert cs[0] == c.node;
      BlockTokens(toks, pos, cs, l.next);
      BlockWf(cs);
    }
  }

  lemma {:induction false} BlockSound(toks: seq<Token>, pos: nat)
    requires pos <= |toks| && AllCanonical(toks)
    ensures Block(toks, pos).Some? ==> Block(toks, pos).value.node.StatementOp?
    ensures CommandOk(toks, pos, Block(toks, pos))
    decreases |toks| - pos, 1
  {
    if At(toks, pos, OPENBLOCK) {
      CommandSound(toks, pos + 1);
      if Command(toks, pos + 1).Some? {
        var c := Command(toks, pos + 1).value;
        ListSound(toks, c.next, [c.node]);
        if ListCommand(toks, c.next, [c.node]).Some? {
          var l := ListCommand(toks, c.next, [c.node]).value;
          if At(toks, l.next, CLOSEBLOCK) {
            FixedAt(toks, pos);
            FixedAt(toks, l.next);
            BlockStep(toks, pos, c, l);
          }
        }
      }
    }
  }

  /** Whatever the parser accepts is a well-formed block whose tokens are exactly the input. */
  lemma ParseSound(toks: seq<Token>)
    requires AllCanonical(toks) && Parse(toks).Some?
    ensures WfBlock(Parse(toks).value) && UCmd(Parse(toks).value) == toks
  {
    BlockSound(toks, 0);
    var b := Block(toks, 0).value;
    OccursWhole(toks, UCmd(b.node));
  }
}

