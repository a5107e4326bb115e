/**
 * An independent description of the trees the grammar of main.py:78-197
 * produces: which node shapes are well formed at each expression level
 * (WfExpr, WfFactor) and as commands (WfCmd), and the token sequence each
 * tree is read from (UExpr, UCmd). The parser is proved against these
 * definitions in ParserSoundness and ParserCompleteness.
 */
module Grammar {
  import opened Lexer
  import opened Ast
  import opened Parser

  /** The token of a kind with a fixed text. */
  function Tok(k: Kind): Token {
    Token(k, TextValue(KindText(k)))
  }

  /** The token kind whose text is `op`, for the texts of the operators; NUMBER for any other text. */
  function OpKind(op: string): Kind {
    if op == "or" then OR
    else if op == "and" then AND
    else if op == "==" then EQUAL
    else if op == "!=" then NOTEQUAL
    else if op == ">" then BIGGER
    else if op == "<" then SMALLER
    else if op == ">=" then BIGGEREQUAL
    else if op == "<=" then SMALLEREQUAL
    else if op == "+" then PLUS
    else if op == "-" then MINUS
    else if op == "*" then MULT
    else if op == "/" then DIV
    else if op == "!" then NOT
    else NUMBER
  }

  /** The expression level at which `op` is a binary operator; 0 when it is none. */
  function BinaryLevel(op: string): nat {
    OpLevel(OpKind(op))
  }

  /** The operators of `PLUS factor`, `MINUS factor` and `NOT factor`. */
  predicate IsUnaryOp(op: string) {
    op == "+" || op == "-" || op == "!"
  }

  /** The texts an `Identifier_val` built by `factor` can hold: identifiers, `true`, `false`. */
  predicate IsFactorName(w: string) {
    IsWord(w) && (w !in Reserved || w == "true" || w == "false")
  }

  /** The token kind an `Identifier_val` of `factor` was read from. */
  function NameKind(w: string): Kind {
    if w == "true" then TRUE else if w == "false" then FALSE else IDENTIFIER
  }

  /**
   * A tree the expression nonterminal of level `lvl` builds: a `Bin_op` of
   * this level whose left operand is of the same level and whose right
   * operand is of the level below, or a tree of the level below.
   */
  predicate WfExpr(lvl: nat, e: Node)
    decreases e, 1, lvl
  {
    if lvl > 0 && e.BinOp? && BinaryLevel(e.op) == lvl then
      |e.children| == 2 && WfExpr(lvl, e.children[0]) && WfExpr(lvl - 1, e.children[1])
    else if lvl > 0 then WfExpr(lvl - 1, e)
    else WfFactor(e)
  }

  /** A tree `factor` builds. */
  predicate WfFactor(e: Node)
    decreases e, 0, 0
  {
    match e
    case IntVal(_) => true
    case StringVal(s) => IsStringLexeme(s)
    case IdentifierVal(w) => IsFactorName(w)
    case StatementOp(tag, cs) => tag == "BLOCK" && |cs| == 1 && WfExpr(6, cs[0])
    case UnOp(op, cs) => IsUnaryOp(op) && |cs| == 1 && WfFactor(cs[0])
    case InputOp(op) => op == "door"
    case _ => false
  }

  /**
   * A command that ends with an `if` without `else` (possibly as the body
   * of a `while` or the `else` branch of another `if`): an ELSE right after
   * it would be taken by that inner `if`.
   */
  predicate OpenEnd(c: Node) {
    match c
    case WhileOp(_, cs) => |cs| == 2 && OpenEnd(cs[1])
    case ConditionOp(_, cs) => |cs| == 2 || (|cs| == 3 && OpenEnd(cs[2]))
    case _ => false
  }

  /** A tree `command` builds. */
  predicate WfCmd(c: Node) {
    match c
    case AssignmentOp(op, cs) =>
      op == "=" && |cs| == 2 && cs[0].IdentifierVal? && IsWord(cs[0].name) && cs[0].name !in Reserved
      && WfExpr(6, cs[1])
    case PrintOp(op, cs) => op == "show" && |cs| == 1 && WfExpr(6, cs[0])
    case WhileOp(op, cs) => op == "until" && |cs| == 2 && WfExpr(6, cs[0]) && WfCmd(cs[1])
    case ConditionOp(op, cs) =>
      op == "if" && (|cs| == 2 || |cs| == 3) && WfExpr(6, cs[0]) && WfCmd(cs[1])
      && (|cs| == 3 ==> !OpenEnd(cs[1]) && WfCmd(cs[2]))
    case StatementOp(tag, cs) => tag == "BLOCK" && |cs| > 0 && forall i :: 0 <= i < |cs| ==> WfCmd(cs[i])
    case _ => false
  }

  predicate WfCmds(cs: seq<Node>) {
    forall i :: 0 <= i < |cs| ==> WfCmd(cs[i])
  }

  /** A tree `block`, the start symbol, builds. */
  predicate WfBlock(b: Node) {
    b.StatementOp? && WfCmd(b)
  }

  /** The tokens an expression tree is read from. */
  function UExpr(e: Node): seq<Token> {
    match e
    case IntVal(n) => [Token(NUMBER, IntValue(n))]
    case StringVal(s) => [Token(STRING, TextValue(s))]
    case IdentifierVal(w) => [Token(NameKind(w), TextValue(w))]
    case StatementOp(_, cs) => if |cs| == 1 then [Tok(LPAR)] + UExpr(cs[0]) + [Tok(RPAR)] else []
    case UnOp(op, cs) => if |cs| == 1 then [Token(OpKind(op), TextValue(op))] + UExpr(cs[0]) else []
    case InputOp(_) => [Tok(INPUT), Tok(LPAR), Tok(RPAR)]
    case BinOp(op, cs) =>
      if |cs| == 2 then UExpr(cs[0]) + [Token(OpKind(op), TextValue(op))] + UExpr(cs[1]) else []
    case _ => []
  }

  /** The tokens of `LPAR orexpr RPAR` around an expression. */
  function UParen(e: Node): seq<Token> {
    [Tok(LPAR)] + UExpr(e) + [Tok(RPAR)]
  }

  /** The tokens a command tree is read from. */
  function UCmd(c: Node): seq<Token>
    decreases c
  {
    match c
    case AssignmentOp(_, cs) =>
      if |cs| == 2 && cs[0].IdentifierVal?
      then [Token(IDENTIFIER, TextValue(cs[0].name)), Tok(ATTRIB)] + UExpr(cs[1]) + [Tok(SEMICOLLON)]
      else []
    case PrintOp(_, cs) => if |cs| == 1 then [Tok(PRINT)] + UParen(cs[0]) + [Tok(SEMICOLLON)] else []
    case WhileOp(_, cs) => if |cs| == 2 then [Tok(WHILE)] + UParen(cs[0]) + UCmd(cs[1]) else []
    case ConditionOp(_, cs) =>
      if |cs| == 2 then [Tok(IF)] + UParen(cs[0]) + UCmd(cs[1])
      else if |cs| == 3 then [Tok(IF)] + UParen(cs[0]) + UCmd(cs[1]) + [Tok(ELSE)] + UCmd(cs[2])
      else []
    case StatementOp(_, cs) => [Tok(OPENBLOCK)] + UCmds(cs) + [Tok(CLOSEBLOCK)]
    case _ => []
  }

  function UCmds(cs: seq<Node>): seq<Token>
    decreases cs
  {
    if cs == [] then [] else UCmd(cs[0]) + UCmds(cs[1..])
  }

  /** The tokens `u` occur in `toks` starting at `pos`. */
  predicate Occurs(toks: seq<Token>, pos: nat, u: seq<Token>) {
    pos + |u| <= |toks| && forall i :: 0 <= i < |u| ==> toks[pos + i] == u[i]
  }

  lemma OccursConcat(toks: seq<Token>, pos: nat, a: seq<Token>, b: seq<Token>)
    ensures Occurs(toks, pos, a + b) <==> Occurs(toks, pos, a) && Occurs(toks, pos + |a|, b)
  {
    if Occurs(toks, pos, a) && Occurs(toks, pos + |a|, b) {
      forall i | 0 <= i < |a + b| ensures toks[pos + i] == (a + b)[i] {
        if i >= |a| {
          assert toks[pos + |a| + (i - |a|)] == b[i - |a|];
        }
      }
    }
    if Occurs(toks, pos, a + b) {
      forall i | 0 <= i < |a| ensures toks[pos + i] == a[i] {
        assert toks[pos + i] == (a + b)[i];
      }
      forall i | 0 <= i < |b| ensures toks[pos + |a| + i] == b[i] {
        var j := |a| + i;
        assert toks[pos + j] == (a + b)[j];
      }
    }
  }

  lemma OccursOne(toks: seq<Token>, pos: nat, t: Token)
    ensures Occurs(toks, pos, [t]) <==> pos < |toks| && toks[pos] == t
  {
    if pos < |toks| && toks[pos] == t {
      assert forall i :: 0 <= i < 1 ==> toks[pos + i] == [t][i];
    }
    if Occurs(toks, pos, [t]) {
      assert toks[pos + 0] == [t][0];
    }
  }

  /** The tokens occurring from the first position on for the whole length are the whole sequence. */
  lemma OccursWhole(toks: seq<Token>, u: seq<Token>)
    ensures Occurs(toks, 0, u) && |u| == |toks| <==> u == toks
  {
    if u == toks {
      assert forall i :: 0 <= i < |u| ==> toks[0 + i] == u[i];
    }
    if Occurs(toks, 0, u) && |u| == |toks| {
      assert forall i :: 0 <= i < |u| ==> toks[i] == toks[0 + i] == u[i];
    }
  }

  /** Tokens between two given tokens. */
  lemma {:induction false} OccursBetween(toks: seq<Token>, pos: nat, a: Token, u: seq<Token>, b: Token)
    requires pos < |toks| && toks[pos] == a && Occurs(toks, pos + 1, u)
    requires pos + 1 + |u| < |toks| && toks[pos + 1 + |u|] == b
    ensures Occurs(toks, pos, [a] + u + [b])
  {
    OccursOne(toks, pos, a);
    OccursOne(toks, pos + 1 + |u|, b);
    OccursConcat(toks, pos, [a], u);
    OccursConcat(toks, pos, [a] + u, [b]);
  }

  /** A tree of some level that is a `Bin_op` has an operator of at most that level. */
  lemma {:induction false} WfLevel(lvl: nat, e: Node)
    requires WfExpr(lvl, e) && e.BinOp?
    ensures 0 < BinaryLevel(e.op) <= lvl
  {
    if lvl > 0 && BinaryLevel(e.op) != lvl {
      WfLevel(lvl - 1, e);
    }
  }

  /** Every tree of a level is also a tree of the level above (the production `x : y`). */
  lemma WfLift(lvl: nat, e: Node)
    requires WfExpr(lvl, e)
    ensures WfExpr(lvl + 1, e)
  {
    if e.BinOp? {
      WfLevel(lvl, e);
    }
  }
}

