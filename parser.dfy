/**
 * The grammar of main.py:78-200 as a recursive-descent parser over the
 * token sequence. Each function reads one nonterminal starting at `pos`
 * and returns the node its action builds together with the position after
 * it, or None where PLY would call `p_error`.
 *
 * The six left-recursive expression levels share `Expr(lvl, ..)`:
 * 6 = orexpr, 5 = andexpr, 4 = eqexpr, 3 = relexpr, 2 = expression,
 * 1 = term; level 0 is factor. The left recursion `x : x OP y | y` becomes
 * `Tail`, which folds each further `OP y` onto the node read so far, so the
 * operators of one level nest to the left.
 */
module Parser {
  import opened Wrappers
  import opened Lexer
  import opened Ast

  /** A node and the position just after the tokens it was read from. */
  datatype Parsed = Parsed(node: Node, next: nat)

  /** The commands of a `listcommand` and the position after them. */
  datatype ParsedList = ParsedList(nodes: seq<Node>, next: nat)

  /**
   * The level of the binary operator a token kind denotes (main.py:116-168),
   * from `or` (6) down to `*` and `/` (1); 0 for every other kind.
   */
  function OpLevel(k: Kind): nat {
    match k
    case OR => 6
    case AND => 5
    case EQUAL => 4
    case NOTEQUAL => 4
    case BIGGER => 3
    case SMALLER => 3
    case BIGGEREQUAL => 3
    case SMALLEREQUAL => 3
    case PLUS => 2
    case MINUS => 2
    case MULT => 1
    case DIV => 1
    case _ => 0
  }

  /**
   * The binary operator rows of the `precedence` table (main.py:68-74), from
   * the loosest to the tightest binding; the unary row is left out.
   */
  const Precedence: seq<set<Kind>> := [
    {OR}, {AND}, {EQUAL, NOTEQUAL}, {BIGGER, SMALLER, BIGGEREQUAL, SMALLEREQUAL},
    {PLUS, MINUS}, {MULT, DIV}]

  /**
   * The stratified grammar agrees with the precedence table: a kind has a
   * level exactly when it is in a row of the table, and a later row (one that
   * binds tighter) has a lower level, so it is read deeper in the tree.
   */
  lemma OpLevelFollowsPrecedence(k: Kind)
    ensures OpLevel(k) > 0 <==> exists i :: 0 <= i < |Precedence| && k in Precedence[i]
    ensures forall i :: 0 <= i < |Precedence| && k in Precedence[i] ==> OpLevel(k) == |Precedence| - i
  {
    if OpLevel(k) > 0 {
      var i := |Precedence| - OpLevel(k);
      assert k in Precedence[i];
    }
  }

  predicate At(toks: seq<Token>, pos: nat, k: Kind) {
    pos < |toks| && toks[pos].kind == k
  }

  /** The first tokens of the five `command` productions (main.py:95-100). */
  predicate StartsCommand(toks: seq<Token>, pos: nat) {
    pos < |toks| && toks[pos].kind in {IDENTIFIER, PRINT, OPENBLOCK, WHILE, IF}
  }

  /**
   * The one-token `factor` action (main.py:182-190): an int becomes
   * `Int_val`; a text that starts and ends with a quote, `String_val`;
   * any other text, `Identifier_val`. The `Bool_val` branch after them is
   * never reached, since every text is a `str`.
   */
  function Classify(v: Value): (r: Node)
    ensures !r.BoolVal?
    ensures r.IntVal? <==> v.IntValue?
    ensures v.IntValue? ==> r == IntVal(v.n)
    ensures v.TextValue? ==> (r.StringVal? <==> |v.text| > 0 && v.text[0] == '"' && v.text[|v.text| - 1] == '"')
    ensures r.StringVal? ==> r == StringVal(v.text)
    ensures r.IdentifierVal? ==> r == IdentifierVal(v.text)
  {
    match v
    case IntValue(n) => IntVal(n)
    case TextValue(s) =>
      if |s| > 0 && s[0] == '"' && s[|s| - 1] == '"' then StringVal(s) else IdentifierVal(s)
  }

  /** `factor` (main.py:170-197). */
  function Factor(toks: seq<Token>, pos: nat): (r: Option<Parsed>)
    requires pos <= |toks|
    ensures r.Some? ==> pos < r.value.next <= |toks|
    decreases |toks| - pos, 1
  {
    if pos == |toks| then None
    else
      var t := toks[pos];
      match t.kind
      case NUMBER => Some(Parsed(Classify(t.value), pos + 1))
      case IDENTIFIER => Some(Parsed(Classify(t.value), pos + 1))
      case TRUE => Some(Parsed(Classify(t.value), pos + 1))
      case FALSE => Some(Parsed(Classify(t.value), pos + 1))
      case STRING => Some(Parsed(Classify(t.value), pos + 1))
      case LPAR =>
        (match Parenthesized(toks, pos)
         case None => None
         case Some(g) => Some(Parsed(StatementOp("BLOCK", [g.node]), g.next)))
      case PLUS => Unary(toks, pos)
      case MINUS => Unary(toks, pos)
      case NOT => Unary(toks, pos)
      case INPUT =>
        if At(toks, pos + 1, LPAR) && At(toks, pos + 2, RPAR)
        then Some(Parsed(InputOp(Lexeme(t)), pos + 3))
        else None
      case _ => None
  }

  /** `PLUS factor`, `MINUS factor` and `NOT factor` (main.py:177-179, 197). */
  function Unary(toks: seq<Token>, pos: nat): (r: Option<Parsed>)
    requires pos < |toks|
    ensures r.Some? ==> pos + 1 < r.value.next <= |toks|
    decreases |toks| - pos, 0
  {
    match Factor(toks, pos + 1)
    case None => None
    case Some(f) => Some(Parsed(UnOp(Lexeme(toks[pos]), [f.node]), f.next))
  }

  /** `LPAR orexpr RPAR`, yielding the expression itself. */
  function Parenthesized(toks: seq<Token>, pos: nat): (r: Option<Parsed>)
    requires pos <= |toks|
    ensures r.Some? ==> pos + 2 < r.value.next <= |toks|
    decreases |toks| - pos, 0
  {
    if !At(toks, pos, LPAR) then None
    else
      match Expr(6, toks, pos + 1)
      case None => None
      case Some(e) => if At(toks, e.next, RPAR) then Some(Parsed(e.node, e.next + 1)) else None
  }

  /** The expression nonterminal of level `lvl` (main.py:116-168), or `factor` at level 0. */
  function Expr(lvl: nat, toks: seq<Token>, pos: nat): (r: Option<Parsed>)
    requires pos <= |toks|
    ensures r.Some? ==> pos < r.value.next <= |toks|
    decreases |toks| - pos, lvl + 2
  {
    if lvl == 0 then Factor(toks, pos)
    else
      match Expr(lvl - 1, toks, pos)
      case None => None
      case Some(left) => Tail(lvl, toks, left.next, left.node)
  }

  /**
   * The repetitions of `x : x OP y` at level `lvl` after `acc` has been
   * read: each operator of this level and the operand after it become
   * `Bin_op(OP, [acc, y])`, the new `acc`.
   */
  function Tail(lvl: nat, toks: seq<Token>, pos: nat, acc: Node): (r: Option<Parsed>)
    requires 1 <= lvl && pos <= |toks|
    ensures r.Some? ==> pos <= r.value.next <= |toks|
    decreases |toks| - pos, 0
  {
    if pos < |toks| && OpLevel(toks[pos].kind) == lvl then
      match Expr(lvl - 1, toks, pos + 1)
      case None => None
      case Some(right) => Tail(lvl, toks, right.next, BinOp(Lexeme(toks[pos]), [acc, right.node]))
    else Some(Parsed(acc, pos))
  }

  /** `command` (main.py:94-114): the first token selects the production. */
  function Command(toks: seq<Token>, pos: nat): (r: Option<Parsed>)
    requires pos <= |toks|
    ensures r.Some? ==> pos < r.value.next <= |toks|
    decreases |toks| - pos, 2
  {
    if pos == |toks| then None
    else
      match toks[pos].kind
      case IDENTIFIER => AssignCommand(toks, pos)
      case PRINT => PrintCommand(toks, pos)
      case OPENBLOCK => Block(toks, pos)
      case WHILE => WhileCommand(toks, pos)
      case IF => IfCommand(toks, pos)
      case _ => None
  }

  /** `IDENTIFIER ATTRIB orexpr SEMICOLLON`, built as `Assignment_op('=', [Identifier_val(name), expr])`. */
  function AssignCommand(toks: seq<Token>, pos: nat): (r: Option<Parsed>)
    requires pos < |toks|
    ensures r.Some? ==> pos < r.value.next <= |toks|
    decreases |toks| - pos, 1
  {
    if !At(toks, pos + 1, ATTRIB) then None
    else
      match Expr(6, toks, pos + 2)
      case None => None
      case Some(e) =>
        if At(toks, e.next, SEMICOLLON)
        then Some(Parsed(AssignmentOp(Lexeme(toks[pos + 1]), [IdentifierVal(Lexeme(toks[pos])), e.node]), e.next + 1))
        else None
  }

  /** `PRINT LPAR orexpr RPAR SEMICOLLON`, built as `Print_op('show', [expr])`. */
  function PrintCommand(toks: seq<Token>, pos: nat): (r: Option<Parsed>)
    requires pos < |toks|
    ensures r.Some? ==> pos < r.value.next <= |toks|
    decreases |toks| - pos, 1
  {
    match Parenthesized(toks, pos + 1)
    case None => None
    case Some(g) =>
      if At(toks, g.next, SEMICOLLON) then Some(Parsed(PrintOp(Lexeme(toks[pos]), [g.node]), g.next + 1)) else None
  }

  /** `WHILE LPAR orexpr RPAR command`, built as `While_Op('until', [cond, body])`. */
  function WhileCommand(toks: seq<Token>, pos: nat): (r: Option<Parsed>)
    requires pos < |toks|
    ensures r.Some? ==> pos < r.value.next <= |toks|
    decreases |toks| - pos, 1
  {
    match Parenthesized(toks, pos + 1)
    case None => None
    case Some(g) =>
      match Command(toks, g.next)
      case None => None
      case Some(body) => Some(Parsed(WhileOp(Lexeme(toks[pos]), [g.node, body.node]), body.next))
  }

  /** `IF LPAR orexpr RPAR command [ELSE command]`, built as `Condition_Op('if', ..)`. */
  function IfCommand(toks: seq<Token>, pos: nat): (r: Option<Parsed>)
    requires pos < |toks|
    ensures r.Some? ==> pos < r.value.next <= |toks|
    decreases |toks| - pos, 1
  {
    match Parenthesized(toks, pos + 1)
    case None => None
    case Some(g) =>
      match Command(toks, g.next)
      case None => None
      case Some(th) => ElsePart(toks, pos, g.node, th)
  }

  /**
   * After `IF LPAR orexpr RPAR command`: an ELSE is always shifted (PLY's
   * default on the shift/reduce conflict between main.py:98 and
   * main.py:99), so it belongs to the nearest `if`.
   */
  function ElsePart(toks: seq<Token>, pos: nat, cond: Node, th: Parsed): (r: Option<Parsed>)
    requires pos < th.next <= |toks|
    ensures r.Some? ==> th.next <= r.value.next <= |toks|
    decreases |toks| - th.next, 0
  {
    if At(toks, th.next, ELSE) then
      match Command(toks, th.next + 1)
      case None => None
      case Some(el) => Some(Parsed(ConditionOp(Lexeme(toks[pos]), [cond, th.node, el.node]), el.next))
    else Some(Parsed(ConditionOp(Lexeme(toks[pos]), [cond, th.node]), th.next))
  }

  /**
   * `listcommand` (main.py:86-92) after the commands `acc`: every further
   * command is appended to the list.
   */
  function ListCommand(toks: seq<Token>, pos: nat, acc: seq<Node>): (r: Option<ParsedList>)
    requires pos <= |toks|
    ensures r.Some? ==> pos <= r.value.next <= |toks|
    ensures r.Some? ==> |acc| <= |r.value.nodes| && r.value.nodes[..|acc|] == acc
    decreases |toks| - pos, 3
  {
    if !StartsCommand(toks, pos) then Some(ParsedList(acc, pos))
    else
      match Command(toks, pos)
      case None => None
      case Some(c) => ListCommand(toks, c.next, acc + [c.node])
  }

  /** `block : OPENBLOCK listcommand CLOSEBLOCK` (main.py:80-83). */
  function Block(toks: seq<Token>, pos: nat): (r: Option<Parsed>)
    requires pos <= |toks|
    ensures r.Some? ==> pos < r.value.next <= |toks|
    decreases |toks| - pos, 1
  {
    if !At(toks, pos, OPENBLOCK) then None
    else
      match Command(toks, pos + 1)
      case None => None
      case Some(c) =>
        match ListCommand(toks, c.next, [c.node])
        case None => None
        case Some(l) =>
          if At(toks, l.next, CLOSEBLOCK) then Some(Parsed(StatementOp("BLOCK", l.nodes), l.next + 1)) else None
  }

  /** The whole token sequence must be one `block`, the start symbol; anything else is a syntax error. */
  function Parse(toks: seq<Token>): (r: Option<Node>)
    ensures r.Some? ==> r.value.StatementOp? && r.value.tag == "BLOCK" && |r.value.children| > 0
  {
    match Block(toks, 0)
    case None => None
    case Some(b) => if b.next == |toks| then Some(b.node) else None
  }
}
