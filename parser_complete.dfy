/**
 * Completeness of the parser against the grammar reference: every
 * well-formed tree is read back, by the parsing function of its
 * nonterminal, from the tokens it is made of, whatever follows them,
 * provided what follows cannot continue it (an operator of a level the
 * expression still accepts, an ELSE after an open `if`).
 *
 * Each production has three lemmas: one that locates the parts of the
 * tree in the token sequence (`..Parts`, about the grammar reference
 * only), one that unfolds the parsing function once over the results of
 * its parts (`..Glue`, about the parser only), and one that puts the two
 * together by induction on the tree (`..Complete`).
 */
module ParserCompleteness {
  import opened Wrappers
  import opened Lexer
  import opened Ast
  import opened Parser
  import opened Grammar

  /** The token at `p`, if any, is not a binary operator of a level from 1 up to `lvl`. */
  predicate NoCont(toks: seq<Token>, p: nat, lvl: nat) {
    !(p < |toks| && 1 <= OpLevel(toks[p].kind) <= lvl)
  }

  /** A tree `factor` builds, at `pos`. */
  predicate FactorAt(toks: seq<Token>, pos: nat, e: Node) {
    WfFactor(e) && Occurs(toks, pos, UExpr(e))
  }

  /** An `orexpr` tree between parentheses at `pos`. */
  predicate ParenAt(toks: seq<Token>, pos: nat, e: Node) {
    WfExpr(6, e) && Occurs(toks, pos, UParen(e))
  }

  /** An expression tree of level `lvl` at `pos`, followed by a token that cannot continue it. */
  predicate ExprAt(toks: seq<Token>, pos: nat, lvl: nat, e: Node) {
    WfExpr(lvl, e) && Occurs(toks, pos, UExpr(e)) && NoCont(toks, pos + |UExpr(e)|, lvl)
  }

  /**
   * An expression tree of level `lvl` at `pos`, followed by a token that
   * can only continue it with an operator of level `lvl` itself.
   */
  predicate PrefixAt(toks: seq<Token>, pos: nat, lvl: nat, e: Node) {
    1 <= lvl && WfExpr(lvl, e) && Occurs(toks, pos, UExpr(e)) && NoCont(toks, pos + |UExpr(e)|, lvl - 1)
  }

  /** A command tree at `pos`, not followed by an ELSE when it ends with an open `if`. */
  predicate CmdAt(toks: seq<Token>, pos: nat, c: Node) {
    WfCmd(c) && Occurs(toks, pos, UCmd(c)) && (OpenEnd(c) ==> !At(toks, pos + |UCmd(c)|, ELSE))
  }

  /**
   * Commands at `pos`, one after the other, each starting a command and
   * each in its place; after them a token that neither starts a command
   * nor is an ELSE.
   */
  predicate ListAt(toks: seq<Token>, pos: nat, cs: seq<Node>)
    decreases cs
  {
    if cs == [] then pos <= |toks| && !StartsCommand(toks, pos) && !At(toks, pos, ELSE)
    else StartsCommand(toks, pos) && CmdAt(toks, pos, cs[0]) && ListAt(toks, pos + |UCmd(cs[0])|, cs[1..])
  }

  // ---------------------------------------------------------------------
  // Occurrences of concatenated pieces, the pieces' ends given by name

  lemma Pieces2(toks: seq<Token>, pos: nat, a: seq<Token>, b: seq<Token>, p1: nat, end: nat)
    requires Occurs(toks, pos, a + b) && p1 == pos + |a| && end == p1 + |b|
    ensures Occurs(toks, pos, a) && Occurs(toks, p1, b) && end == pos + |a + b|
  {
    OccursConcat(toks, pos, a, b);
  }

  lemma Pieces3(toks: seq<Token>, pos: nat, a: seq<Token>, b: seq<Token>, c: seq<Token>, p1: nat, p2: nat, end: nat)
    requires Occurs(toks, pos, a + b + c) && p1 == pos + |a| && p2 == p1 + |b| && end == p2 + |c|
    ensures Occurs(toks, pos, a) && Occurs(toks, p1, b) && Occurs(toks, p2, c) && end == pos + |a + b + c|
  {
    OccursConcat(toks, pos, a + b, c);
    OccursConcat(toks, pos, a, b);
  }

  lemma Pieces4(toks: seq<Token>, pos: nat, a: seq<Token>, b: seq<Token>, c: seq<Token>, d: seq<Token>,
                p1: nat, p2: nat, p3: nat, end: nat)
    requires Occurs(toks, pos, a + b + c + d)
    requires p1 == pos + |a| && p2 == p1 + |b| && p3 == p2 + |c| && end == p3 + |d|
    ensures Occurs(toks, pos, a) && Occurs(toks, p1, b) && Occurs(toks, p2, c) && Occurs(toks, p3, d)
    ensures end == pos + |a + b + c + d|
  {
    OccursConcat(toks, pos, a + b + c, d);
    Pieces3(toks, pos, a, b, c, p1, p2, p3);
  }

  lemma Pieces5(toks: seq<Token>, pos: nat, a: seq<Token>, b: seq<Token>, c: seq<Token>, d: seq<Token>, e: seq<Token>,
                p1: nat, p2: nat, p3: nat, p4: nat, end: nat)
    requires Occurs(toks, pos, a + b + c + d + e)
    requires p1 == pos + |a| && p2 == p1 + |b| && p3 == p2 + |c| && p4 == p3 + |d| && end == p4 + |e|
    ensures Occurs(toks, pos, a) && Occurs(toks, p1, b) && Occurs(toks, p2, c) && Occurs(toks, p3, d)
    ensures Occurs(toks, p4, e) && end == pos + |a + b + c + d + e|
  {
    OccursConcat(toks, pos, a + b + c + d, e);
    Pieces4(toks, pos, a, b, c, d, p1, p2, p3, p4);
  }

  /** The first of the tokens `u` occurring at `pos` is the token at `pos`. */
  lemma OccursFirst(toks: seq<Token>, pos: nat, u: seq<Token>)
    requires |u| > 0 && Occurs(toks, pos, u)
    ensures pos < |toks| && toks[pos] == u[0]
  {
    assert toks[pos + 0] == u[0];
  }

  /** A nonempty sequence is its head followed by its tail. */
  lemma HeadTail(cs: seq<Node>)
    requires cs != []
    ensures [cs[0]] + cs[1..] == cs
  {
  }

  /** `acc` followed by the head and then the tail of `cs` is `acc` followed by `cs`. */
  lemma AppendCons(acc: seq<Node>, cs: seq<Node>)
    requires cs != []
    ensures acc + [cs[0]] + cs[1..] == acc + cs
  {
    assert [cs[0]] + cs[1..] == cs;
  }

  // ---------------------------------------------------------------------
  // factor

  /** Factor on a one-token atom. */
  lemma AtomGlue(toks: seq<Token>, pos: nat)
    requires pos < |toks| && toks[pos].kind in {NUMBER, IDENTIFIER, TRUE, FALSE, STRING}
    ensures Factor(toks, pos) == Some(Parsed(Classify(toks[pos].value), pos + 1))
  {
  }

  lemma AtomComplete(e: Node, toks: seq<Token>, pos: nat)
    requires (e.IntVal? || e.StringVal? || e.IdentifierVal?) && FactorAt(toks, pos, e)
    ensures Factor(toks, pos) == Some(Parsed(e, pos + |UExpr(e)|))
  {
    var t := UExpr(e)[0];
    assert UExpr(e) == [t];
    OccursOne(toks, pos, t);
    AtomGlue(toks, pos);
  }

  /** Where the operand of a unary tree at `pos` is. */
  lemma UnaryParts(e: Node, toks: seq<Token>, pos: nat, end: nat)
    requires e.UnOp? && FactorAt(toks, pos, e) && end == pos + 1 + |UExpr(e.children[0])|
    ensures pos < |toks| && toks[pos].kind in {PLUS, MINUS, NOT} && FactorAt(toks, pos + 1, e.children[0])
    ensures e == UnOp(Lexeme(toks[pos]), [e.children[0]]) && pos + |UExpr(e)| == end
  {
    var t := Token(OpKind(e.op), TextValue(e.op));
    assert UExpr(e) == [t] + UExpr(e.children[0]);
    Pieces2(toks, pos, [t], UExpr(e.children[0]), pos + 1, end);
    OccursOne(toks, pos, t);
  }

  /** Factor on PLUS, MINUS or NOT followed by a factor. */
  lemma UnaryGlue(toks: seq<Token>, pos: nat, f: Node, end: nat)
    requires pos < |toks| && toks[pos].kind in {PLUS, MINUS, NOT} && Factor(toks, pos + 1) == Some(Parsed(f, end))
    ensures Factor(toks, pos) == Some(Parsed(UnOp(Lexeme(toks[pos]), [f]), end))
  {
  }

  lemma {:induction false} UnaryComplete(e: Node, toks: seq<Token>, pos: nat)
    requires e.UnOp? && FactorAt(toks, pos, e)
    ensures Factor(toks, pos) == Some(Parsed(e, pos + |UExpr(e)|))
    decreases e, 0, 0
  {
    var f := e.children[0];
    var end := pos + 1 + |UExpr(f)|;
    UnaryParts(e, toks, pos, end);
    FactorComplete(f, toks, pos + 1);
    UnaryGlue(toks, pos, f, end);
  }

  /** Where the expression of a parenthesised factor at `pos` is. */
  lemma GroupParts(e: Node, toks: seq<Token>, pos: nat)
    requires e.StatementOp? && FactorAt(toks, pos, e)
    ensures ParenAt(toks, pos, e.children[0]) && pos + |UExpr(e)| == pos + |UParen(e.children[0])|
    ensures e == StatementOp("BLOCK", [e.children[0]])
  {
    assert UExpr(e) == UParen(e.children[0]);
  }

  /** Factor on LPAR orexpr RPAR. */
  lemma GroupGlue(toks: seq<Token>, pos: nat, g: Node, end: nat)
    requires pos <= |toks| && Parenthesized(toks, pos) == Some(Parsed(g, end))
    ensures Factor(toks, pos) == Some(Parsed(StatementOp("BLOCK", [g]), end))
  {
  }

  lemma {:induction false} GroupComplete(e: Node, toks: seq<Token>, pos: nat)
    requires e.StatementOp? && FactorAt(toks, pos, e)
    ensures Factor(toks, pos) == Some(Parsed(e, pos + |UExpr(e)|))
    decreases e, 0, 0
  {
    var g := e.children[0];
    GroupParts(e, toks, pos);
    ParenComplete(g, toks, pos, pos + |UParen(g)|);
    GroupGlue(toks, pos, g, pos + |UParen(g)|);
  }

  lemma InputComplete(e: Node, toks: seq<Token>, pos: nat)
    requires e.InputOp? && FactorAt(toks, pos, e)
    ensures Factor(toks, pos) == Some(Parsed(e, pos + |UExpr(e)|))
  {
    var u := UExpr(e);
    assert u == [Tok(INPUT), Tok(LPAR), Tok(RPAR)];
    assert toks[pos + 0] == u[0] && toks[pos + 1] == u[1] && toks[pos + 2] == u[2];
  }

  lemma {:induction false} FactorComplete(e: Node, toks: seq<Token>, pos: nat)
    requires FactorAt(toks, pos, e)
    ensures Factor(toks, pos) == Some(Parsed(e, pos + |UExpr(e)|))
    decreases e, 0, 1
  {
    if e.IntVal? || e.StringVal? || e.IdentifierVal? {
      AtomComplete(e, toks, pos);
    } else if e.UnOp? {
      UnaryComplete(e, toks, pos);
    } else if e.StatementOp? {
      GroupComplete(e, toks, pos);
    } else {
      InputComplete(e, toks, pos);
    }
  }

  // ---------------------------------------------------------------------
  // LPAR orexpr RPAR and the binary levels

  /** Where the expression between parentheses at `pos` is. */
  lemma ParenParts(e: Node, toks: seq<Token>, pos: nat, close: nat)
    requires ParenAt(toks, pos, e) && close == pos + 1 + |UExpr(e)|
    ensures At(toks, pos, LPAR) && ExprAt(toks, pos + 1, 6, e) && At(toks, close, RPAR)
    ensures pos + |UParen(e)| == close + 1
  {
    Pieces3(toks, pos, [Tok(LPAR)], UExpr(e), [Tok(RPAR)], pos + 1, close, close + 1);
    OccursOne(toks, pos, Tok(LPAR));
    OccursOne(toks, close, Tok(RPAR));
  }

  /** Parenthesized from the expression between the parentheses. */
  lemma ParenGlue(toks: seq<Token>, pos: nat, e: Node, close: nat)
    requires At(toks, pos, LPAR) && Expr(6, toks, pos + 1) == Some(Parsed(e, close)) && At(toks, close, RPAR)
    ensures Parenthesized(toks, pos) == Some(Parsed(e, close + 1))
  {
  }

  lemma {:induction false} ParenComplete(e: Node, toks: seq<Token>, pos: nat, end: nat)
    requires ParenAt(toks, pos, e) && end == pos + |UParen(e)|
    ensures Parenthesized(toks, pos) == Some(Parsed(e, end))
    decreases e, 7, 0
  {
    var close := pos + 1 + |UExpr(e)|;
    ParenParts(e, toks, pos, close);
    ExprComplete(6, e, toks, pos + 1);
    ParenGlue(toks, pos, e, close);
  }

  lemma {:induction false} ExprComplete(lvl: nat, e: Node, toks: seq<Token>, pos: nat)
    requires ExprAt(toks, pos, lvl, e)
    ensures Expr(lvl, toks, pos) == Some(Parsed(e, pos + |UExpr(e)|))
    decreases e, lvl, 3
  {
    if lvl == 0 {
      FactorComplete(e, toks, pos);
    } else {
      ExprPrefix(lvl, e, toks, pos);
    }
  }

  /** A prefix of level `lvl` that is not a `Bin_op` of that level is a tree of the level below. */
  lemma PrefixLower(lvl: nat, e: Node, toks: seq<Token>, pos: nat)
    requires PrefixAt(toks, pos, lvl, e) && !(e.BinOp? && BinaryLevel(e.op) == lvl)
    ensures ExprAt(toks, pos, lvl - 1, e)
  {
  }

  /** Level `lvl` starts with a tree of the level below and folds the rest onto it. */
  lemma ExprGlue(lvl: nat, toks: seq<Token>, pos: nat, e: Node, end: nat)
    requires 1 <= lvl && pos <= |toks| && Expr(lvl - 1, toks, pos) == Some(Parsed(e, end))
    ensures Expr(lvl, toks, pos) == Tail(lvl, toks, end, e)
  {
  }

  /**
   * Reading level `lvl` at `pos` goes through `e` and then only has the
   * repetitions of the level's own operators left to fold onto it.
   */
  lemma {:induction false} ExprPrefix(lvl: nat, e: Node, toks: seq<Token>, pos: nat)
    requires PrefixAt(toks, pos, lvl, e)
    ensures Expr(lvl, toks, pos) == Tail(lvl, toks, pos + |UExpr(e)|, e)
    decreases e, lvl, 2
  {
    if e.BinOp? && BinaryLevel(e.op) == lvl {
      BinPrefix(lvl, e, toks, pos);
    } else {
      PrefixLower(lvl, e, toks, pos);
      ExprComplete(lvl - 1, e, toks, pos);
      ExprGlue(lvl, toks, pos, e, pos + |UExpr(e)|);
    }
  }

  /** Where the operator and the operands of a binary tree of level `lvl` at `pos` are. */
  lemma BinParts(lvl: nat, e: Node, toks: seq<Token>, pos: nat, mid: nat, end: nat)
    requires PrefixAt(toks, pos, lvl, e) && e.BinOp? && BinaryLevel(e.op) == lvl
    requires mid == pos + |UExpr(e.children[0])| && end == mid + 1 + |UExpr(e.children[1])|
    ensures PrefixAt(toks, pos, lvl, e.children[0]) && mid < |toks| && OpLevel(toks[mid].kind) == lvl
    ensures ExprAt(toks, mid + 1, lvl - 1, e.children[1]) && pos + |UExpr(e)| == end
    ensures e == BinOp(Lexeme(toks[mid]), [e.children[0], e.children[1]])
  {
    var l, r := e.children[0], e.children[1];
    var t := Token(OpKind(e.op), TextValue(e.op));
    assert UExpr(e) == UExpr(l) + [t] + UExpr(r);
    Pieces3(toks, pos, UExpr(l), [t], UExpr(r), mid, mid + 1, end);
    OccursOne(toks, mid, t);
  }

  /** One repetition of `Tail`: an operator of the level and the operand after it. */
  lemma TailGlue(lvl: nat, toks: seq<Token>, mid: nat, acc: Node, r: Node, end: nat)
    requires 1 <= lvl && mid < |toks| && OpLevel(toks[mid].kind) == lvl
    requires Expr(lvl - 1, toks, mid + 1) == Some(Parsed(r, end))
    ensures Tail(lvl, toks, mid, acc) == Tail(lvl, toks, end, BinOp(Lexeme(toks[mid]), [acc, r]))
  {
  }

  /** A binary tree of level `lvl` whose operands are where they belong is read from their tokens. */
  lemma {:induction false} BinFrom(lvl: nat, e: Node, toks: seq<Token>, pos: nat, mid: nat, end: nat)
    requires e.BinOp? && |e.children| == 2 && mid < |toks| && e == BinOp(Lexeme(toks[mid]), [e.children[0], e.children[1]])
    requires PrefixAt(toks, pos, lvl, e.children[0]) && OpLevel(toks[mid].kind) == lvl
    requires ExprAt(toks, mid + 1, lvl - 1, e.children[1])
    requires mid == pos + |UExpr(e.children[0])| && end == mid + 1 + |UExpr(e.children[1])|
    ensures Expr(lvl, toks, pos) == Tail(lvl, toks, end, e)
    decreases e, lvl, 0
  {
    ExprPrefix(lvl, e.children[0], toks, pos);
    ExprComplete(lvl - 1, e.children[1], toks, mid + 1);
    TailGlue(lvl, toks, mid, e.children[0], e.children[1], end);
  }

  lemma {:induction false} BinPrefix(lvl: nat, e: Node, toks: seq<Token>, pos: nat)
    requires PrefixAt(toks, pos, lvl, e) && e.BinOp? && BinaryLevel(e.op) == lvl
    ensures Expr(lvl, toks, pos) == Tail(lvl, toks, pos + |UExpr(e)|, e)
    decreases e, lvl, 1
  {
    var mid := pos + |UExpr(e.children[0])|;
    var end := mid + 1 + |UExpr(e.children[1])|;
    BinParts(lvl, e, toks, pos, mid, end);
    BinFrom(lvl, e, toks, pos, mid, end);
  }

  // ---------------------------------------------------------------------
  // command

  /** A well-formed command has tokens, and its first one is of a kind that starts a command. */
  lemma CmdHead(c: Node)
    requires WfCmd(c)
    ensures |UCmd(c)| > 0 && UCmd(c)[0].kind in {IDENTIFIER, PRINT, OPENBLOCK, WHILE, IF}
  {
  }

  /** The same for a nonempty sequence of well-formed commands. */
  lemma CmdsHead(cs: seq<Node>)
    requires cs != [] && WfCmds(cs)
    ensures |UCmds(cs)| > 0 && UCmds(cs)[0].kind in {IDENTIFIER, PRINT, OPENBLOCK, WHILE, IF}
  {
    assert WfCmd(cs[0]);
    CmdHead(cs[0]);
    assert UCmds(cs) == UCmd(cs[0]) + UCmds(cs[1..]);
  }

  /** The first token of a nonempty sequence of well-formed commands starts a command. */
  lemma ListHead(toks: seq<Token>, pos: nat, cs: seq<Node>)
    requires cs != [] && WfCmds(cs) && Occurs(toks, pos, UCmds(cs))
    ensures StartsCommand(toks, pos)
  {
    CmdsHead(cs);
    OccursFirst(toks, pos, UCmds(cs));
  }

  lemma {:induction false} CommandComplete(c: Node, toks: seq<Token>, pos: nat, end: nat)
    requires CmdAt(toks, pos, c) && end == pos + |UCmd(c)|
    ensures Command(toks, pos) == Some(Parsed(c, end))
    decreases c, 3
  {
    match c
    case AssignmentOp(_, _) => AssignComplete(c, toks, pos, end);
    case PrintOp(_, _) => PrintComplete(c, toks, pos, end);
    case WhileOp(_, _) => WhileComplete(c, toks, pos, end);
    case ConditionOp(_, cs) =>
      if |cs| == 2 {
        IfComplete(c, toks, pos, end);
      } else {
        IfElseComplete(c, toks, pos, end);
      }
    case StatementOp(_, _) => BlockComplete(c, toks, pos, end);
  }

  /** The text of a token of a kind with a fixed text. */
  lemma LexemeOf(toks: seq<Token>, pos: nat, k: Kind)
    requires pos < |toks| && toks[pos] == Tok(k)
    ensures Lexeme(toks[pos]) == KindText(k)
  {
  }

  /** No ELSE follows a command that ends with an open `if`. */
  lemma NoElseAfter(c: Node, toks: seq<Token>, pos: nat, end: nat)
    requires CmdAt(toks, pos, c) && OpenEnd(c) && end == pos + |UCmd(c)|
    ensures !At(toks, end, ELSE)
  {
  }

  /** Sequences of two and of three children, written out. */
  lemma Seq2(s: seq<Node>)
    requires |s| == 2
    ensures s == [s[0], s[1]]
  {
  }

  lemma Seq3(s: seq<Node>)
    requires |s| == 3
    ensures s == [s[0], s[1], s[2]]
  {
  }

  // ---------------------------------------------------------------------
  // IDENTIFIER ATTRIB orexpr SEMICOLLON

  lemma AssignTokens(c: Node, toks: seq<Token>, pos: nat, semi: nat)
    requires c.AssignmentOp? && |c.children| == 2 && c.children[0].IdentifierVal?
    requires Occurs(toks, pos, UCmd(c)) && semi == pos + 2 + |UExpr(c.children[1])|
    ensures pos + 1 < |toks| && toks[pos] == Token(IDENTIFIER, TextValue(c.children[0].name))
    ensures toks[pos + 1] == Tok(ATTRIB) && Occurs(toks, pos + 2, UExpr(c.children[1]))
    ensures semi < |toks| && toks[semi] == Tok(SEMICOLLON) && pos + |UCmd(c)| == semi + 1
  {
    var t := Token(IDENTIFIER, TextValue(c.children[0].name));
    var e := c.children[1];
    assert UCmd(c) == [t] + [Tok(ATTRIB)] + UExpr(e) + [Tok(SEMICOLLON)];
    Pieces4(toks, pos, [t], [Tok(ATTRIB)], UExpr(e), [Tok(SEMICOLLON)], pos + 1, pos + 2, semi, semi + 1);
    OccursOne(toks, pos, t);
    OccursOne(toks, pos + 1, Tok(ATTRIB));
    OccursOne(toks, semi, Tok(SEMICOLLON));
  }

  /** What a well-formed assignment whose first tokens are known is made of. */
  lemma AssignShape(c: Node, toks: seq<Token>, pos: nat)
    requires c.AssignmentOp? && WfCmd(c) && pos + 1 < |toks|
    requires toks[pos] == Token(IDENTIFIER, TextValue(c.children[0].name)) && toks[pos + 1] == Tok(ATTRIB)
    ensures At(toks, pos, IDENTIFIER) && At(toks, pos + 1, ATTRIB) && WfExpr(6, c.children[1])
    ensures c == AssignmentOp(Lexeme(toks[pos + 1]), [IdentifierVal(Lexeme(toks[pos])), c.children[1]])
  {
    LexemeOf(toks, pos + 1, ATTRIB);
    Seq2(c.children);
  }

  /** Where the parts of an assignment are. */
  lemma AssignParts(c: Node, toks: seq<Token>, pos: nat, semi: nat)
    requires c.AssignmentOp? && CmdAt(toks, pos, c) && semi == pos + 2 + |UExpr(c.children[1])|
    ensures At(toks, pos, IDENTIFIER) && At(toks, pos + 1, ATTRIB) && ExprAt(toks, pos + 2, 6, c.children[1])
    ensures At(toks, semi, SEMICOLLON) && pos + |UCmd(c)| == semi + 1
    ensures c == AssignmentOp(Lexeme(toks[pos + 1]), [IdentifierVal(Lexeme(toks[pos])), c.children[1]])
  {
    AssignTokens(c, toks, pos, semi);
    AssignShape(c, toks, pos);
  }

  /** Command on `IDENTIFIER ATTRIB orexpr SEMICOLLON`. */
  lemma AssignGlue(toks: seq<Token>, pos: nat, e: Node, semi: nat)
    requires At(toks, pos, IDENTIFIER) && At(toks, pos + 1, ATTRIB)
    requires Expr(6, toks, pos + 2) == Some(Parsed(e, semi)) && At(toks, semi, SEMICOLLON)
    ensures Command(toks, pos) == Some(Parsed(AssignmentOp(Lexeme(toks[pos + 1]), [IdentifierVal(Lexeme(toks[pos])), e]), semi + 1))
  {
  }

  lemma AssignComplete(c: Node, toks: seq<Token>, pos: nat, end: nat)
    requires c.AssignmentOp? && CmdAt(toks, pos, c) && end == pos + |UCmd(c)|
    ensures Command(toks, pos) == Some(Parsed(c, end))
  {
    var e := c.children[1];
    var semi := pos + 2 + |UExpr(e)|;
    AssignParts(c, toks, pos, semi);
    ExprComplete(6, e, toks, pos + 2);
    AssignGlue(toks, pos, e, semi);
  }

  // ---------------------------------------------------------------------
  // PRINT LPAR orexpr RPAR SEMICOLLON

  lemma PrintTokens(c: Node, toks: seq<Token>, pos: nat, semi: nat)
    requires c.PrintOp? && |c.children| == 1
    requires Occurs(toks, pos, UCmd(c)) && semi == pos + 1 + |UParen(c.children[0])|
    ensures pos < |toks| && toks[pos] == Tok(PRINT) && Occurs(toks, pos + 1, UParen(c.children[0]))
    ensures semi < |toks| && toks[semi] == Tok(SEMICOLLON) && pos + |UCmd(c)| == semi + 1
  {
    Pieces3(toks, pos, [Tok(PRINT)], UParen(c.children[0]), [Tok(SEMICOLLON)], pos + 1, semi, semi + 1);
    OccursOne(toks, pos, Tok(PRINT));
    OccursOne(toks, semi, Tok(SEMICOLLON));
  }

  /** What a well-formed `show` command whose first token is known is made of. */
  lemma PrintShape(c: Node, toks: seq<Token>, pos: nat)
    requires c.PrintOp? && WfCmd(c) && pos < |toks| && toks[pos] == Tok(PRINT)
    ensures At(toks, pos, PRINT) && WfExpr(6, c.children[0]) && c == PrintOp(Lexeme(toks[pos]), [c.children[0]])
  {
    LexemeOf(toks, pos, PRINT);
  }

  /** Where the parts of a `show` command are. */
  lemma PrintParts(c: Node, toks: seq<Token>, pos: nat, semi: nat)
    requires c.PrintOp? && CmdAt(toks, pos, c) && semi == pos + 1 + |UParen(c.children[0])|
    ensures At(toks, pos, PRINT) && ParenAt(toks, pos + 1, c.children[0])
    ensures At(toks, semi, SEMICOLLON) && pos + |UCmd(c)| == semi + 1
    ensures c == PrintOp(Lexeme(toks[pos]), [c.children[0]])
  {
    PrintTokens(c, toks, pos, semi);
    PrintShape(c, toks, pos);
  }

  /** Command on `PRINT LPAR orexpr RPAR SEMICOLLON`. */
  lemma PrintGlue(toks: seq<Token>, pos: nat, e: Node, semi: nat)
    requires At(toks, pos, PRINT) && Parenthesized(toks, pos + 1) == Some(Parsed(e, semi))
    requires At(toks, semi, SEMICOLLON)
    ensures Command(toks, pos) == Some(Parsed(PrintOp(Lexeme(toks[pos]), [e]), semi + 1))
  {
  }

  lemma PrintComplete(c: Node, toks: seq<Token>, pos: nat, end: nat)
    requires c.PrintOp? && CmdAt(toks, pos, c) && end == pos + |UCmd(c)|
    ensures Command(toks, pos) == Some(Parsed(c, end))
  {
    var e := c.children[0];
    var semi := pos + 1 + |UParen(e)|;
    PrintParts(c, toks, pos, semi);
    ParenComplete(e, toks, pos + 1, semi);
    PrintGlue(toks, pos, e, semi);
  }

  // ---------------------------------------------------------------------
  // WHILE LPAR orexpr RPAR command

  lemma WhileTokens(c: Node, toks: seq<Token>, pos: nat, mid: nat, end: nat)
    requires c.WhileOp? && |c.children| == 2 && Occurs(toks, pos, UCmd(c))
    requires mid == pos + 1 + |UParen(c.children[0])| && end == mid + |UCmd(c.children[1])|
    ensures pos < |toks| && toks[pos] == Tok(WHILE) && Occurs(toks, pos + 1, UParen(c.children[0]))
    ensures Occurs(toks, mid, UCmd(c.children[1])) && pos + |UCmd(c)| == end
  {
    Pieces3(toks, pos, [Tok(WHILE)], UParen(c.children[0]), UCmd(c.children[1]), pos + 1, mid, end);
    OccursOne(toks, pos, Tok(WHILE));
  }

  /** What a well-formed `until` loop whose first token is known is made of. */
  lemma WhileShape(c: Node, toks: seq<Token>, pos: nat)
    requires c.WhileOp? && WfCmd(c) && pos < |toks| && toks[pos] == Tok(WHILE)
    ensures At(toks, pos, WHILE) && WfExpr(6, c.children[0]) && WfCmd(c.children[1])
    ensures OpenEnd(c.children[1]) ==> OpenEnd(c)
    ensures c == WhileOp(Lexeme(toks[pos]), [c.children[0], c.children[1]])
  {
    LexemeOf(toks, pos, WHILE);
    Seq2(c.children);
  }

  /** Where the parts of an `until` loop are. */
  lemma WhileParts(c: Node, toks: seq<Token>, pos: nat, mid: nat, end: nat)
    requires c.WhileOp? && CmdAt(toks, pos, c)
    requires mid == pos + 1 + |UParen(c.children[0])| && end == mid + |UCmd(c.children[1])|
    ensures At(toks, pos, WHILE) && ParenAt(toks, pos + 1, c.children[0]) && CmdAt(toks, mid, c.children[1])
    ensures pos + |UCmd(c)| == end && c == WhileOp(Lexeme(toks[pos]), [c.children[0], c.children[1]])
  {
    WhileTokens(c, toks, pos, mid, end);
    WhileShape(c, toks, pos);
    if OpenEnd(c.children[1]) {
      NoElseAfter(c, toks, pos, end);
    }
    CmdAtEnd(toks, mid, c.children[1], end);
  }

  /** Command on `WHILE LPAR orexpr RPAR command`. */
  lemma WhileGlue(toks: seq<Token>, pos: nat, cond: Node, mid: nat, body: Node, end: nat)
    requires At(toks, pos, WHILE) && Parenthesized(toks, pos + 1) == Some(Parsed(cond, mid))
    requires Command(toks, mid) == Some(Parsed(body, end))
    ensures Command(toks, pos) == Some(Parsed(WhileOp(Lexeme(toks[pos]), [cond, body]), end))
  {
  }

  /** A loop whose parts are where they belong is read from their tokens. */
  lemma {:induction false} WhileFrom(c: Node, toks: seq<Token>, pos: nat, mid: nat, end: nat)
    requires c.WhileOp? && |c.children| == 2 && At(toks, pos, WHILE)
    requires c == WhileOp(Lexeme(toks[pos]), [c.children[0], c.children[1]])
    requires ParenAt(toks, pos + 1, c.children[0]) && CmdAt(toks, mid, c.children[1])
    requires mid == pos + 1 + |UParen(c.children[0])| && end == mid + |UCmd(c.children[1])|
    ensures Command(toks, pos) == Some(Parsed(c, end))
    decreases c, 0
  {
    var cond, body := c.children[0], c.children[1];
    ParenComplete(cond, toks, pos + 1, mid);
    CommandComplete(body, toks, mid, end);
    WhileGlue(toks, pos, cond, mid, body, end);
  }

  lemma {:induction false} WhileComplete(c: Node, toks: seq<Token>, pos: nat, end: nat)
    requires c.WhileOp? && CmdAt(toks, pos, c) && end == pos + |UCmd(c)|
    ensures Command(toks, pos) == Some(Parsed(c, end))
    decreases c, 1
  {
    var mid := pos + 1 + |UParen(c.children[0])|;
    var finish := mid + |UCmd(c.children[1])|;
    WhileParts(c, toks, pos, mid, finish);
    WhileFrom(c, toks, pos, mid, end);
  }

  // ---------------------------------------------------------------------
  // IF LPAR orexpr RPAR command

  lemma IfTokens(c: Node, toks: seq<Token>, pos: nat, mid: nat, end: nat)
    requires c.ConditionOp? && |c.children| == 2 && Occurs(toks, pos, UCmd(c))
    requires mid == pos + 1 + |UParen(c.children[0])| && end == mid + |UCmd(c.children[1])|
    ensures pos < |toks| && toks[pos] == Tok(IF) && Occurs(toks, pos + 1, UParen(c.children[0]))
    ensures Occurs(toks, mid, UCmd(c.children[1])) && pos + |UCmd(c)| == end
  {
    Pieces3(toks, pos, [Tok(IF)], UParen(c.children[0]), UCmd(c.children[1]), pos + 1, mid, end);
    OccursOne(toks, pos, Tok(IF));
  }

  /** What a well-formed `if` without `else` whose first token is known is made of. */
  lemma IfShape(c: Node, toks: seq<Token>, pos: nat)
    requires c.ConditionOp? && |c.children| == 2 && WfCmd(c) && pos < |toks| && toks[pos] == Tok(IF)
    ensures At(toks, pos, IF) && WfExpr(6, c.children[0]) && WfCmd(c.children[1]) && OpenEnd(c)
    ensures c == ConditionOp(Lexeme(toks[pos]), [c.children[0], c.children[1]])
  {
    LexemeOf(toks, pos, IF);
    Seq2(c.children);
  }

  /** Where the parts of an `if` without `else` are; no ELSE follows it. */
  lemma IfParts(c: Node, toks: seq<Token>, pos: nat, mid: nat, end: nat)
    requires c.ConditionOp? && |c.children| == 2 && CmdAt(toks, pos, c)
    requires mid == pos + 1 + |UParen(c.children[0])| && end == mid + |UCmd(c.children[1])|
    ensures At(toks, pos, IF) && ParenAt(toks, pos + 1, c.children[0]) && CmdAt(toks, mid, c.children[1])
    ensures !At(toks, end, ELSE) && pos + |UCmd(c)| == end
    ensures c == ConditionOp(Lexeme(toks[pos]), [c.children[0], c.children[1]])
  {
    IfTokens(c, toks, pos, mid, end);
    IfShape(c, toks, pos);
    NoElseAfter(c, toks, pos, end);
    CmdAtEnd(toks, mid, c.children[1], end);
  }

  /** Command on IF: IfCommand. */
  lemma IfDispatch(toks: seq<Token>, pos: nat)
    requires At(toks, pos, IF)
    ensures Command(toks, pos) == IfCommand(toks, pos)
  {
  }

  /** IfCommand from the condition and the command after it. */
  lemma IfUnfold(toks: seq<Token>, pos: nat, cond: Node, mid: nat, th: Node, end: nat)
    requires pos < |toks| && Parenthesized(toks, pos + 1) == Some(Parsed(cond, mid))
    requires Command(toks, mid) == Some(Parsed(th, end))
    ensures pos < end <= |toks| && IfCommand(toks, pos) == ElsePart(toks, pos, cond, Parsed(th, end))
  {
  }

  /** Command on `IF LPAR orexpr RPAR command` not followed by ELSE. */
  lemma IfGlue(toks: seq<Token>, pos: nat, cond: Node, mid: nat, th: Node, end: nat)
    requires At(toks, pos, IF) && Parenthesized(toks, pos + 1) == Some(Parsed(cond, mid))
    requires Command(toks, mid) == Some(Parsed(th, end)) && !At(toks, end, ELSE)
    ensures Command(toks, pos) == Some(Parsed(ConditionOp(Lexeme(toks[pos]), [cond, th]), end))
  {
    IfDispatch(toks, pos);
    IfUnfold(toks, pos, cond, mid, th, end);
  }

  /** An `if` without `else` whose parts are where they belong is read from their tokens. */
  lemma {:induction false} IfFrom(c: Node, toks: seq<Token>, pos: nat, mid: nat, end: nat)
    requires c.ConditionOp? && |c.children| == 2 && At(toks, pos, IF)
    requires c == ConditionOp(Lexeme(toks[pos]), [c.children[0], c.children[1]])
    requires ParenAt(toks, pos + 1, c.children[0]) && CmdAt(toks, mid, c.children[1])
    requires !At(toks, end, ELSE) && mid == pos + 1 + |UParen(c.children[0])| && end == mid + |UCmd(c.children[1])|
    ensures Command(toks, pos) == Some(Parsed(c, end))
    decreases c, 0
  {
    var cond, th := c.children[0], c.children[1];
    ParenComplete(cond, toks, pos + 1, mid);
    CommandComplete(th, toks, mid, end);
    IfGlue(toks, pos, cond, mid, th, end);
  }

  lemma {:induction false} IfComplete(c: Node, toks: seq<Token>, pos: nat, end: nat)
    requires c.ConditionOp? && |c.children| == 2 && CmdAt(toks, pos, c) && end == pos + |UCmd(c)|
    ensures Command(toks, pos) == Some(Parsed(c, end))
    decreases c, 1
  {
    var mid := pos + 1 + |UParen(c.children[0])|;
    var finish := mid + |UCmd(c.children[1])|;
    IfParts(c, toks, pos, mid, finish);
    IfFrom(c, toks, pos, mid, end);
  }

  // ---------------------------------------------------------------------
  // IF LPAR orexpr RPAR command ELSE command

  lemma IfElseTokens(c: Node, toks: seq<Token>, pos: nat, mid: nat, els: nat, end: nat)
    requires c.ConditionOp? && |c.children| == 3 && Occurs(toks, pos, UCmd(c))
    requires mid == pos + 1 + |UParen(c.children[0])| && els == mid + |UCmd(c.children[1])|
    requires end == els + 1 + |UCmd(c.children[2])|
    ensures pos < |toks| && toks[pos] == Tok(IF) && Occurs(toks, pos + 1, UParen(c.children[0]))
    ensures Occurs(toks, mid, UCmd(c.children[1])) && els < |toks| && toks[els] == Tok(ELSE)
    ensures Occurs(toks, els + 1, UCmd(c.children[2])) && pos + |UCmd(c)| == end
  {
    var cond, th, el := c.children[0], c.children[1], c.children[2];
    Pieces5(toks, pos, [Tok(IF)], UParen(cond), UCmd(th), [Tok(ELSE)], UCmd(el), pos + 1, mid, els, els + 1, end);
    OccursOne(toks, pos, Tok(IF));
    OccursOne(toks, els, Tok(ELSE));
  }

  /** What a well-formed `if` with `else` whose first token is known is made of. */
  lemma IfElseShape(c: Node, toks: seq<Token>, pos: nat)
    requires c.ConditionOp? && |c.children| == 3 && WfCmd(c) && pos < |toks| && toks[pos] == Tok(IF)
    ensures At(toks, pos, IF) && WfExpr(6, c.children[0]) && WfCmd(c.children[1]) && !OpenEnd(c.children[1])
    ensures WfCmd(c.children[2]) && (OpenEnd(c.children[2]) ==> OpenEnd(c))
    ensures c == ConditionOp(Lexeme(toks[pos]), [c.children[0], c.children[1], c.children[2]])
  {
    LexemeOf(toks, pos, IF);
    Seq3(c.children);
  }

  /** Where the parts of an `if` with `else` are. */
  lemma IfElseParts(c: Node, toks: seq<Token>, pos: nat, mid: nat, els: nat, end: nat)
    requires c.ConditionOp? && |c.children| == 3 && CmdAt(toks, pos, c)
    requires mid == pos + 1 + |UParen(c.children[0])| && els == mid + |UCmd(c.children[1])|
    requires end == els + 1 + |UCmd(c.children[2])|
    ensures At(toks, pos, IF) && ParenAt(toks, pos + 1, c.children[0]) && CmdAt(toks, mid, c.children[1])
    ensures At(toks, els, ELSE) && CmdAt(toks, els + 1, c.children[2]) && pos + |UCmd(c)| == end
    ensures c == ConditionOp(Lexeme(toks[pos]), [c.children[0], c.children[1], c.children[2]])
  {
    IfElseTokens(c, toks, pos, mid, els, end);
    IfElseShape(c, toks, pos);
    if OpenEnd(c.children[2]) {
      NoElseAfter(c, toks, pos, end);
    }
    CmdAtEnd(toks, mid, c.children[1], els);
    CmdAtEnd(toks, els + 1, c.children[2], end);
  }

  /** ElsePart when an ELSE and a command follow. */
  lemma ElseTaken(toks: seq<Token>, pos: nat, cond: Node, th: Node, els: nat, el: Node, end: nat)
    requires pos < els && At(toks, els, ELSE) && Command(toks, els + 1) == Some(Parsed(el, end))
    ensures ElsePart(toks, pos, cond, Parsed(th, els)) == Some(Parsed(ConditionOp(Lexeme(toks[pos]), [cond, th, el]), end))
  {
  }

  /** The condition and the first branch of an `if` with `else` are read from their tokens. */
  lemma {:induction false} IfElseThen(c: Node, toks: seq<Token>, pos: nat, mid: nat, els: nat)
    requires c.ConditionOp? && |c.children| == 3 && At(toks, pos, IF)
    requires ParenAt(toks, pos + 1, c.children[0]) && CmdAt(toks, mid, c.children[1])
    requires mid == pos + 1 + |UParen(c.children[0])| && els == mid + |UCmd(c.children[1])|
    ensures pos < els && Command(toks, pos) == ElsePart(toks, pos, c.children[0], Parsed(c.children[1], els))
    decreases c, 0
  {
    var cond, th := c.children[0], c.children[1];
    ParenComplete(cond, toks, pos + 1, mid);
    CommandComplete(th, toks, mid, els);
    IfDispatch(toks, pos);
    IfUnfold(toks, pos, cond, mid, th, els);
  }

  /** The second branch of an `if` with `else` is read from its tokens. */
  lemma {:induction false} IfElseElse(cond: Node, th: Node, el: Node, toks: seq<Token>, pos: nat, els: nat, end: nat)
    requires pos < els && At(toks, els, ELSE)
    requires CmdAt(toks, els + 1, el) && end == els + 1 + |UCmd(el)|
    ensures ElsePart(toks, pos, cond, Parsed(th, els)) == Some(Parsed(ConditionOp(Lexeme(toks[pos]), [cond, th, el]), end))
    decreases el, 4
  {
    CommandComplete(el, toks, els + 1, end);
    ElseTaken(toks, pos, cond, th, els, el, end);
  }

  /** An `if` with `else` whose parts are where they belong is read from their tokens. */
  lemma {:induction false} IfElseFrom(c: Node, toks: seq<Token>, pos: nat, mid: nat, els: nat, end: nat)
    requires c.ConditionOp? && |c.children| == 3 && At(toks, pos, IF)
    requires c == ConditionOp(Lexeme(toks[pos]), [c.children[0], c.children[1], c.children[2]])
    requires ParenAt(toks, pos + 1, c.children[0]) && CmdAt(toks, mid, c.children[1])
    requires At(toks, els, ELSE) && CmdAt(toks, els + 1, c.children[2])
    requires mid == pos + 1 + |UParen(c.children[0])| && els == mid + |UCmd(c.children[1])|
    requires end == els + 1 + |UCmd(c.children[2])|
    ensures Command(toks, pos) == Some(Parsed(c, end))
    decreases c, 1
  {
    IfElseThen(c, toks, pos, mid, els);
    IfElseElse(c.children[0], c.children[1], c.children[2], toks, pos, els, end);
  }

  lemma {:induction false} IfElseComplete(c: Node, toks: seq<Token>, pos: nat, end: nat)
    requires c.ConditionOp? && |c.children| == 3 && CmdAt(toks, pos, c) && end == pos + |UCmd(c)|
    ensures Command(toks, pos) == Some(Parsed(c, end))
    decreases c, 2
  {
    var mid := pos + 1 + |UParen(c.children[0])|;
    var els := mid + |UCmd(c.children[1])|;
    var finish := els + 1 + |UCmd(c.children[2])|;
    IfElseParts(c, toks, pos, mid, els, finish);
    IfElseFrom(c, toks, pos, mid, els, end);
  }

  // ---------------------------------------------------------------------
  // listcommand and block

  /** The tokens of the first command of a list and those of the rest of the list. */
  lemma ListSplit(cs: seq<Node>, toks: seq<Token>, pos: nat, mid: nat)
    requires cs != [] && Occurs(toks, pos, UCmds(cs)) && mid == pos + |UCmd(cs[0])|
    ensures Occurs(toks, pos, UCmd(cs[0])) && Occurs(toks, mid, UCmds(cs[1..]))
    ensures pos + |UCmds(cs)| == mid + |UCmds(cs[1..])|
  {
    Pieces2(toks, pos, UCmd(cs[0]), UCmds(cs[1..]), mid, pos + |UCmds(cs)|);
  }

  /** The head and the tail of well-formed commands are well formed. */
  lemma WfCmdsSplit(cs: seq<Node>)
    requires cs != [] && WfCmds(cs)
    ensures WfCmd(cs[0]) && WfCmds(cs[1..])
  {
    forall i | 0 <= i < |cs[1..]| ensures WfCmd(cs[1..][i]) {
      assert cs[1..][i] == cs[i + 1];
    }
  }

  /** No ELSE where well-formed commands, if any, start, and neither after them. */
  lemma NoElseAhead(toks: seq<Token>, pos: nat, cs: seq<Node>, end: nat)
    requires WfCmds(cs) && Occurs(toks, pos, UCmds(cs)) && end == pos + |UCmds(cs)| && !At(toks, end, ELSE)
    ensures !At(toks, pos, ELSE)
  {
    if cs != [] {
      ListHead(toks, pos, cs);
    }
  }

  /** A command at `pos` that ends at `end`, where no ELSE follows if it ends with an open `if`. */
  lemma CmdAtEnd(toks: seq<Token>, pos: nat, c: Node, end: nat)
    requires WfCmd(c) && Occurs(toks, pos, UCmd(c)) && end == pos + |UCmd(c)| && (OpenEnd(c) ==> !At(toks, end, ELSE))
    ensures CmdAt(toks, pos, c)
  {
  }

  /** A nonempty ListAt from its first command and the rest. */
  lemma ListAtCons(toks: seq<Token>, pos: nat, cs: seq<Node>, mid: nat)
    requires cs != [] && StartsCommand(toks, pos) && CmdAt(toks, pos, cs[0])
    requires mid == pos + |UCmd(cs[0])| && ListAt(toks, mid, cs[1..])
    ensures ListAt(toks, pos, cs)
  {
  }

  /** A nonempty ListAt is its first command and the rest, which ends where the whole list ends. */
  lemma ListAtParts(toks: seq<Token>, pos: nat, cs: seq<Node>, mid: nat)
    requires cs != [] && ListAt(toks, pos, cs) && mid == pos + |UCmd(cs[0])|
    ensures StartsCommand(toks, pos) && CmdAt(toks, pos, cs[0]) && ListAt(toks, mid, cs[1..])
    ensures pos + |UCmds(cs)| == mid + |UCmds(cs[1..])|
  {
  }

  /**
   * Well-formed commands whose tokens occur at `pos`, followed by a token
   * that neither starts a command nor is an ELSE, are a ListAt.
   */
  lemma {:induction false} ListAtFrom(toks: seq<Token>, pos: nat, cs: seq<Node>, end: nat)
    requires WfCmds(cs) && Occurs(toks, pos, UCmds(cs)) && end == pos + |UCmds(cs)|
    requires !StartsCommand(toks, end) && !At(toks, end, ELSE)
    ensures ListAt(toks, pos, cs)
    decreases cs
  {
    if cs != [] {
      var mid := pos + |UCmd(cs[0])|;
      ListHead(toks, pos, cs);
      ListSplit(cs, toks, pos, mid);
      WfCmdsSplit(cs);
      NoElseAhead(toks, mid, cs[1..], end);
      CmdAtEnd(toks, pos, cs[0], mid);
      ListAtFrom(toks, mid, cs[1..], end);
      ListAtCons(toks, pos, cs, mid);
    }
  }

  /** ListCommand with one more command in front. */
  lemma ListGlue(toks: seq<Token>, pos: nat, acc: seq<Node>, c: Node, mid: nat)
    requires StartsCommand(toks, pos) && Command(toks, pos) == Some(Parsed(c, mid))
    ensures ListCommand(toks, pos, acc) == ListCommand(toks, mid, acc + [c])
  {
  }

  /** ListCommand where no command starts. */
  lemma ListEnd(toks: seq<Token>, pos: nat, acc: seq<Node>)
    requires pos <= |toks| && !StartsCommand(toks, pos)
    ensures ListCommand(toks, pos, acc) == Some(ParsedList(acc, pos))
  {
  }

  /** The first command of a nonempty list is read from its tokens. */
  lemma {:induction false} ListFirst(cs: seq<Node>, toks: seq<Token>, pos: nat, acc: seq<Node>, mid: nat)
    requires cs != [] && StartsCommand(toks, pos) && CmdAt(toks, pos, cs[0]) && mid == pos + |UCmd(cs[0])|
    ensures ListCommand(toks, pos, acc) == ListCommand(toks, mid, acc + [cs[0]])
    decreases cs, 0
  {
    CommandComplete(cs[0], toks, pos, mid);
    ListGlue(toks, pos, acc, cs[0], mid);
  }

  /** A nonempty list whose first command and rest are where they belong is read from their tokens. */
  lemma {:induction false} ListFrom(cs: seq<Node>, toks: seq<Token>, pos: nat, acc: seq<Node>, mid: nat, end: nat)
    requires cs != [] && StartsCommand(toks, pos) && CmdAt(toks, pos, cs[0]) && ListAt(toks, mid, cs[1..])
    requires mid == pos + |UCmd(cs[0])| && end == mid + |UCmds(cs[1..])|
    ensures ListCommand(toks, pos, acc) == Some(ParsedList(acc + cs, end))
    decreases cs, 1
  {
    ListFirst(cs, toks, pos, acc, mid);
    ListComplete(cs[1..], toks, mid, acc + [cs[0]], end);
    AppendCons(acc, cs);
    SameList(ListCommand(toks, pos, acc), ListCommand(toks, mid, acc + [cs[0]]), acc + [cs[0]] + cs[1..], acc + cs, end);
  }

  /** Two equal parse results, the second a list of commands equal to `y`. */
  lemma SameList(a: Option<ParsedList>, b: Option<ParsedList>, x: seq<Node>, y: seq<Node>, end: nat)
    requires a == b && b == Some(ParsedList(x, end)) && x == y
    ensures a == Some(ParsedList(y, end))
  {
  }

  /** No commands after the commands `acc`: the list ends there. */
  lemma ListNone(cs: seq<Node>, toks: seq<Token>, pos: nat, acc: seq<Node>, end: nat)
    requires cs == [] && ListAt(toks, pos, cs) && end == pos + |UCmds(cs)|
    ensures ListCommand(toks, pos, acc) == Some(ParsedList(acc + cs, end))
  {
    ListEnd(toks, pos, acc);
    assert acc + cs == acc;
  }

  /** Nonempty commands `cs` after the commands `acc` are read as one list. */
  lemma {:induction false} ListSome(cs: seq<Node>, toks: seq<Token>, pos: nat, acc: seq<Node>, end: nat)
    requires cs != [] && ListAt(toks, pos, cs) && end == pos + |UCmds(cs)|
    ensures ListCommand(toks, pos, acc) == Some(ParsedList(acc + cs, end))
    decreases cs, 2
  {
    var mid := pos + |UCmd(cs[0])|;
    ListAtParts(toks, pos, cs, mid);
    ListFrom(cs, toks, pos, acc, mid, end);
  }

  /** The commands `cs` after the commands `acc` are read as one list. */
  lemma {:induction false} ListComplete(cs: seq<Node>, toks: seq<Token>, pos: nat, acc: seq<Node>, end: nat)
    requires ListAt(toks, pos, cs) && end == pos + |UCmds(cs)|
    ensures ListCommand(toks, pos, acc) == Some(ParsedList(acc + cs, end))
    decreases cs, 3
  {
    if cs == [] {
      ListNone(cs, toks, pos, acc, end);
    } else {
      ListSome(cs, toks, pos, acc, end);
    }
  }

  lemma BlockTokens(c: Node, toks: seq<Token>, pos: nat, mid: nat, close: nat)
    requires c.StatementOp? && |c.children| > 0 && Occurs(toks, pos, UCmd(c))
    requires mid == pos + 1 + |UCmd(c.children[0])| && close == mid + |UCmds(c.children[1..])|
    ensures pos < |toks| && toks[pos] == Tok(OPENBLOCK) && Occurs(toks, pos + 1, UCmds(c.children))
    ensures close < |toks| && toks[close] == Tok(CLOSEBLOCK) && pos + |UCmd(c)| == close + 1
    ensures pos + 1 + |UCmds(c.children)| == close
  {
    var cs := c.children;
    assert UCmds(cs) == UCmd(cs[0]) + UCmds(cs[1..]);
    Pieces3(toks, pos, [Tok(OPENBLOCK)], UCmds(cs), [Tok(CLOSEBLOCK)], pos + 1, close, close + 1);
    OccursOne(toks, pos, Tok(OPENBLOCK));
    OccursOne(toks, close, Tok(CLOSEBLOCK));
  }

  /** What a well-formed block is made of. */
  lemma BlockShape(c: Node)
    requires c.StatementOp? && WfCmd(c)
    ensures |c.children| > 0 && WfCmds(c.children) && c == StatementOp("BLOCK", c.children)
  {
  }

  /** A CLOSEBLOCK neither starts a command nor is an ELSE. */
  lemma CloseEnds(toks: seq<Token>, close: nat)
    requires close < |toks| && toks[close] == Tok(CLOSEBLOCK)
    ensures At(toks, close, CLOSEBLOCK) && !StartsCommand(toks, close) && !At(toks, close, ELSE)
  {
  }

  /** Where the commands of a block are. */
  lemma BlockParts(c: Node, toks: seq<Token>, pos: nat, mid: nat, close: nat)
    requires c.StatementOp? && CmdAt(toks, pos, c)
    requires |c.children| > 0 && mid == pos + 1 + |UCmd(c.children[0])| && close == mid + |UCmds(c.children[1..])|
    ensures At(toks, pos, OPENBLOCK) && CmdAt(toks, pos + 1, c.children[0]) && ListAt(toks, mid, c.children[1..])
    ensures At(toks, close, CLOSEBLOCK) && pos + |UCmd(c)| == close + 1 && c == StatementOp("BLOCK", c.children)
  {
    BlockTokens(c, toks, pos, mid, close);
    BlockShape(c);
    CloseEnds(toks, close);
    ListAtFrom(toks, pos + 1, c.children, close);
    ListAtParts(toks, pos + 1, c.children, mid);
  }

  /** Block from its first command and the list after it. */
  lemma BlockGlue(toks: seq<Token>, pos: nat, c: Node, mid: nat, cs: seq<Node>, close: nat)
    requires At(toks, pos, OPENBLOCK) && Command(toks, pos + 1) == Some(Parsed(c, mid))
    requires ListCommand(toks, mid, [c]) == Some(ParsedList(cs, close)) && At(toks, close, CLOSEBLOCK)
    ensures Block(toks, pos) == Some(Parsed(StatementOp("BLOCK", cs), close + 1))
    ensures Command(toks, pos) == Block(toks, pos)
  {
  }

  /** The commands of a block after the first are read as the rest of its list. */
  lemma {:induction false} BlockRest(c: Node, toks: seq<Token>, mid: nat, close: nat)
    requires c.StatementOp? && |c.children| > 0 && ListAt(toks, mid, c.children[1..])
    requires close == mid + |UCmds(c.children[1..])|
    ensures ListCommand(toks, mid, [c.children[0]]) == Some(ParsedList(c.children, close))
    decreases c, 0
  {
    ListComplete(c.children[1..], toks, mid, [c.children[0]], close);
    HeadTail(c.children);
  }

  /** A block whose commands are where they belong is read from their tokens. */
  lemma {:induction false} BlockFrom(c: Node, toks: seq<Token>, pos: nat, mid: nat, close: nat)
    requires c.StatementOp? && |c.children| > 0 && c == StatementOp("BLOCK", c.children)
    requires At(toks, pos, OPENBLOCK) && CmdAt(toks, pos + 1, c.children[0]) && ListAt(toks, mid, c.children[1..])
    requires At(toks, close, CLOSEBLOCK)
    requires mid == pos + 1 + |UCmd(c.children[0])| && close == mid + |UCmds(c.children[1..])|
    ensures Block(toks, pos) == Some(Parsed(c, close + 1)) && Command(toks, pos) == Block(toks, pos)
    decreases c, 1
  {
    CommandComplete(c.children[0], toks, pos + 1, mid);
    BlockRest(c, toks, mid, close);
    BlockGlue(toks, pos, c.children[0], mid, c.children, close);
  }

  lemma {:induction false} BlockComplete(c: Node, toks: seq<Token>, pos: nat, end: nat)
    requires c.StatementOp? && CmdAt(toks, pos, c) && end == pos + |UCmd(c)|
    ensures Block(toks, pos) == Some(Parsed(c, end))
    ensures Command(toks, pos) == Some(Parsed(c, end))
    decreases c, 2
  {
    BlockShape(c);
    var mid := pos + 1 + |UCmd(c.children[0])|;
    var close := mid + |UCmds(c.children[1..])|;
    BlockParts(c, toks, pos, mid, close);
    BlockFrom(c, toks, pos, mid, close);
  }

  /** Every well-formed block is read back from its own tokens. */
  lemma ParseComplete(b: Node)
    requires WfBlock(b)
    ensures Parse(UCmd(b)) == Some(b)
  {
    var toks := UCmd(b);
    OccursWhole(toks, toks);
    BlockComplete(b, toks, 0, |toks|);
  }
}
