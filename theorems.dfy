/**
 * What the two directions of the parser proof give together: on the tokens
 * the lexer produces, the parser returns a tree exactly when that tree is
 * well formed and its tokens are the input, so the grammar is unambiguous;
 * the keywords no production uses make every program fail; `Bool_val` is
 * never built.
 */
module ParserTheorems {
  import opened Wrappers
  import opened Lexer
  import opened Ast
  import opened Parser
  import opened Grammar
  import ParserSoundness
  import ParserCompleteness

  /**
   * On tokens with the texts the lexer gives them, `Parse` returns `b` if
   * and only if `b` is a well-formed block whose tokens are the input.
   */
  lemma ParseCharacterization(toks: seq<Token>, b: Node)
    requires AllCanonical(toks)
    ensures Parse(toks) == Some(b) <==> WfBlock(b) && UCmd(b) == toks
  {
    if Parse(toks) == Some(b) {
      ParserSoundness.ParseSound(toks);
    }
    if WfBlock(b) && UCmd(b) == toks {
      ParserCompleteness.ParseComplete(b);
    }
  }

  /** Two well-formed blocks read from the same tokens are the same tree. */
  lemma Unambiguous(b1: Node, b2: Node)
    requires WfBlock(b1) && WfBlock(b2) && UCmd(b1) == UCmd(b2)
    ensures b1 == b2
  {
    ParserCompleteness.ParseComplete(b1);
    ParserCompleteness.ParseComplete(b2);
  }

  /**
   * The program is one block and nothing after it: a well-formed block
   * followed by any further tokens is a syntax error.
   */
  lemma TrailingTokensRejected(b: Node, rest: seq<Token>, toks: seq<Token>)
    requires WfBlock(b) && rest != [] && toks == UCmd(b) + rest
    ensures Parse(toks) == None
  {
    var end := |UCmd(b)|;
    OccursWhole(toks, toks);
    OccursConcat(toks, 0, UCmd(b), rest);
    assert !OpenEnd(b);
    ParserCompleteness.BlockComplete(b, toks, 0, end);
  }

  // ---------------------------------------------------------------------
  // FUNCTION, RETURN and FOR appear in no production

  /** The kinds of `toolkit`, `recover` and `over`. */
  predicate Inert(k: Kind) {
    k == FUNCTION || k == RETURN || k == FOR
  }

  predicate NoInert(u: seq<Token>) {
    forall i :: 0 <= i < |u| ==> !Inert(u[i].kind)
  }

  lemma NoInertConcat(a: seq<Token>, b: seq<Token>)
    ensures NoInert(a + b) <==> NoInert(a) && NoInert(b)
  {
    if NoInert(a + b) {
      forall i | 0 <= i < |a| ensures !Inert(a[i].kind) {
        assert a[i] == (a + b)[i];
      }
      forall i | 0 <= i < |b| ensures !Inert(b[i].kind) {
        assert b[i] == (a + b)[|a| + i];
      }
    }
  }

  lemma NoInertConcat3(a: seq<Token>, b: seq<Token>, c: seq<Token>)
    requires NoInert(a) && NoInert(b) && NoInert(c)
    ensures NoInert(a + b + c)
  {
    NoInertConcat(a, b);
    NoInertConcat(a + b, c);
  }

  /** An operator's token kind is never one of the three. */
  lemma OpKindNotInert(op: string)
    ensures !Inert(OpKind(op))
  {
  }

  lemma {:induction false} ExprNoInert(e: Node)
    ensures NoInert(UExpr(e))
    decreases e
  {
    match e
    case StatementOp(_, cs) =>
      if |cs| == 1 {
        ExprNoInert(cs[0]);
        NoInertConcat3([Tok(LPAR)], UExpr(cs[0]), [Tok(RPAR)]);
      }
    case UnOp(op, cs) =>
      if |cs| == 1 {
        ExprNoInert(cs[0]);
        OpKindNotInert(op);
        NoInertConcat([Token(OpKind(op), TextValue(op))], UExpr(cs[0]));
      }
    case BinOp(op, cs) =>
      if |cs| == 2 {
        ExprNoInert(cs[0]);
        ExprNoInert(cs[1]);
        OpKindNotInert(op);
        NoInertConcat3(UExpr(cs[0]), [Token(OpKind(op), TextValue(op))], UExpr(cs[1]));
      }
    case _ =>
  }

  lemma ParenNoInert(e: Node)
    ensures NoInert(UParen(e))
  {
    ExprNoInert(e);
    NoInertConcat3([Tok(LPAR)], UExpr(e), [Tok(RPAR)]);
  }

  lemma {:induction false} CmdNoInert(c: Node)
    ensures NoInert(UCmd(c))
    decreases c
  {
    match c
    case AssignmentOp(_, cs) =>
      if |cs| == 2 && cs[0].IdentifierVal? {
        ExprNoInert(cs[1]);
        NoInertConcat3([Token(IDENTIFIER, TextValue(cs[0].name)), Tok(ATTRIB)], UExpr(cs[1]), [Tok(SEMICOLLON)]);
      }
    case PrintOp(_, cs) =>
      if |cs| == 1 {
        ParenNoInert(cs[0]);
        NoInertConcat3([Tok(PRINT)], UParen(cs[0]), [Tok(SEMICOLLON)]);
      }
    case WhileOp(_, cs) =>
      if |cs| == 2 {
        ParenNoInert(cs[0]);
        CmdNoInert(cs[1]);
        NoInertConcat3([Tok(WHILE)], UParen(cs[0]), UCmd(cs[1]));
      }
    case ConditionOp(_, cs) =>
      if |cs| == 2 || |cs| == 3 {
        ParenNoInert(cs[0]);
        CmdNoInert(cs[1]);
        NoInertConcat3([Tok(IF)], UParen(cs[0]), UCmd(cs[1]));
        if |cs| == 3 {
          CmdNoInert(cs[2]);
          NoInertConcat3([Tok(IF)] + UParen(cs[0]) + UCmd(cs[1]), [Tok(ELSE)], UCmd(cs[2]));
        }
      }
    case StatementOp(_, cs) =>
      CmdsNoInert(cs);
      NoInertConcat3([Tok(OPENBLOCK)], UCmds(cs), [Tok(CLOSEBLOCK)]);
    case _ =>
  }

  lemma {:induction false} CmdsNoInert(cs: seq<Node>)
    ensures NoInert(UCmds(cs))
    decreases cs
  {
    if cs != [] {
      CmdNoInert(cs[0]);
      CmdsNoInert(cs[1..]);
      NoInertConcat(UCmd(cs[0]), UCmds(cs[1..]));
    }
  }

  /** A program that contains `toolkit`, `recover` or `over` as a token does not parse. */
  lemma ParseRejectsInert(toks: seq<Token>, i: nat)
    requires AllCanonical(toks) && i < |toks| && Inert(toks[i].kind)
    ensures Parse(toks) == None
  {
    if Parse(toks).Some? {
      ParserSoundness.ParseSound(toks);
      CmdNoInert(Parse(toks).value);
      assert false;
    }
  }

  // ---------------------------------------------------------------------
  // the Bool_val branch of `factor` is never taken

  /** No node of a tree `factor` builds is a `Bool_val`. */
  lemma {:induction false} FactorNoBool(e: Node)
    requires WfFactor(e)
    ensures !HasBool(e)
    decreases e, 0, 0
  {
    match e
    case StatementOp(_, cs) =>
      ExprNoBool(6, cs[0]);
      forall i | 0 <= i < |cs| ensures !HasBool(cs[i]) {
      }
    case UnOp(_, cs) =>
      FactorNoBool(cs[0]);
      forall i | 0 <= i < |cs| ensures !HasBool(cs[i]) {
      }
    case _ =>
  }

  /** No node of a tree an expression level builds is a `Bool_val`. */
  lemma {:induction false} ExprNoBool(lvl: nat, e: Node)
    requires WfExpr(lvl, e)
    ensures !HasBool(e)
    decreases e, 1, lvl
  {
    if lvl > 0 && e.BinOp? && BinaryLevel(e.op) == lvl {
      ExprNoBool(lvl, e.children[0]);
      ExprNoBool(lvl - 1, e.children[1]);
      forall i | 0 <= i < |e.children| ensures !HasBool(e.children[i]) {
      }
    } else if lvl > 0 {
      ExprNoBool(lvl - 1, e);
    } else {
      FactorNoBool(e);
    }
  }

  /** No node of a tree `command` builds is a `Bool_val`. */
  lemma {:induction false} CmdNoBool(c: Node)
    requires WfCmd(c)
    ensures !HasBool(c)
    decreases c
  {
    match c
    case AssignmentOp(_, cs) =>
      ExprNoBool(6, cs[1]);
      forall i | 0 <= i < |cs| ensures !HasBool(cs[i]) {
      }
    case PrintOp(_, cs) =>
      ExprNoBool(6, cs[0]);
      forall i | 0 <= i < |cs| ensures !HasBool(cs[i]) {
      }
    case WhileOp(_, cs) =>
      ExprNoBool(6, cs[0]);
      CmdNoBool(cs[1]);
      forall i | 0 <= i < |cs| ensures !HasBool(cs[i]) {
      }
    case ConditionOp(_, cs) =>
      ExprNoBool(6, cs[0]);
      CmdNoBool(cs[1]);
      if |cs| == 3 {
        CmdNoBool(cs[2]);
      }
      forall i | 0 <= i < |cs| ensures !HasBool(cs[i]) {
      }
    case StatementOp(_, cs) =>
      forall i | 0 <= i < |cs| ensures !HasBool(cs[i]) {
        CmdNoBool(cs[i]);
      }
  }

  /** Whatever the parser returns holds no `Bool_val`. */
  lemma ParseNeverBool(toks: seq<Token>)
    requires AllCanonical(toks) && Parse(toks).Some?
    ensures !HasBool(Parse(toks).value)
  {
    ParserSoundness.ParseSound(toks);
    CmdNoBool(Parse(toks).value);
  }
}
