/**
 * Worked instances of the general theorems: the trees the parser builds for
 * small programs over arbitrary identifiers and numbers, and a program it
 * rejects.
 */
module Examples {
  import opened Wrappers
  import opened Lexer
  import opened Ast
  import opened Parser
  import opened Grammar
  import ParserCompleteness
  import LexerFacts
  import Preprocessing
  import FrontEnd

  /** A text the lexer reads as an IDENTIFIER. */
  predicate IsName(w: string) {
    IsWord(w) && w !in Reserved
  }

  function Id(w: string): Token {
    Token(IDENTIFIER, TextValue(w))
  }

  function Num(n: nat): Token {
    Token(NUMBER, IntValue(n))
  }

  lemma NameToken(w: string)
    requires IsName(w)
    ensures UExpr(IdentifierVal(w)) == [Id(w)]
  {
    assert "true" in Reserved && "false" in Reserved;
  }

  /** A name is an expression of every level. */
  lemma {:induction false} NameAtLevel(lvl: nat, w: string)
    requires IsName(w)
    ensures WfExpr(lvl, IdentifierVal(w))
  {
    if lvl > 0 {
      NameAtLevel(lvl - 1, w);
    }
  }

  lemma {:induction false} Lift(lo: nat, hi: nat, e: Node)
    requires lo <= hi && WfExpr(lo, e)
    ensures WfExpr(hi, e)
    decreases hi - lo
  {
    if lo < hi {
      WfLift(lo, e);
      Lift(lo + 1, hi, e);
    }
  }

  function Assign(x: string, e: Node): Node {
    AssignmentOp("=", [IdentifierVal(x), e])
  }

  lemma AssignWf(x: string, e: Node)
    requires IsName(x) && WfExpr(6, e)
    ensures WfCmd(Assign(x, e)) && UCmd(Assign(x, e)) == [Id(x), Tok(ATTRIB)] + UExpr(e) + [Tok(SEMICOLLON)]
  {
  }

  /** A block holding one command is read from that command's tokens between braces. */
  lemma SingleCommandBlock(c: Node, toks: seq<Token>)
    requires WfCmd(c) && toks == [Tok(OPENBLOCK)] + UCmd(c) + [Tok(CLOSEBLOCK)]
    ensures Parse(toks) == Some(StatementOp("BLOCK", [c]))
  {
    var b := StatementOp("BLOCK", [c]);
    assert UCmds([c]) == UCmd(c) + UCmds([]);
    assert UCmd(b) == toks;
    ParserCompleteness.ParseComplete(b);
  }

  lemma SubtractionTokens(x: string, a: string, b: string, c: string)
    requires IsName(x) && IsName(a) && IsName(b) && IsName(c)
    ensures var e := BinOp("-", [BinOp("-", [IdentifierVal(a), IdentifierVal(b)]), IdentifierVal(c)]);
            WfCmd(Assign(x, e))
            && [Tok(OPENBLOCK), Id(x), Tok(ATTRIB), Id(a), Tok(MINUS), Id(b), Tok(MINUS), Id(c), Tok(SEMICOLLON), Tok(CLOSEBLOCK)]
               == [Tok(OPENBLOCK)] + UCmd(Assign(x, e)) + [Tok(CLOSEBLOCK)]
  {
    var e := BinOp("-", [BinOp("-", [IdentifierVal(a), IdentifierVal(b)]), IdentifierVal(c)]);
    NameAtLevel(2, a);
    NameAtLevel(1, b);
    NameAtLevel(1, c);
    Lift(2, 6, e);
    NameToken(a);
    NameToken(b);
    NameToken(c);
    assert UExpr(e) == [Id(a), Tok(MINUS), Id(b), Tok(MINUS), Id(c)];
    AssignWf(x, e);
  }

  /** `{ x = a - b - c; }`: the operators of one level nest to the left. */
  lemma SubtractionNestsLeft(x: string, a: string, b: string, c: string, toks: seq<Token>)
    requires IsName(x) && IsName(a) && IsName(b) && IsName(c)
    requires toks == [Tok(OPENBLOCK), Id(x), Tok(ATTRIB), Id(a), Tok(MINUS), Id(b), Tok(MINUS), Id(c),
                      Tok(SEMICOLLON), Tok(CLOSEBLOCK)]
    ensures Parse(toks)
            == Some(StatementOp("BLOCK", [Assign(x, BinOp("-", [BinOp("-", [IdentifierVal(a), IdentifierVal(b)]),
                                                                IdentifierVal(c)]))]))
  {
    SubtractionTokens(x, a, b, c);
    SingleCommandBlock(Assign(x, BinOp("-", [BinOp("-", [IdentifierVal(a), IdentifierVal(b)]), IdentifierVal(c)])), toks);
  }

  lemma ComparisonTokens(x: string, a: string, b: string, c: string)
    requires IsName(x) && IsName(a) && IsName(b) && IsName(c)
    ensures var e := BinOp(">", [BinOp(">", [IdentifierVal(a), IdentifierVal(b)]), IdentifierVal(c)]);
            WfCmd(Assign(x, e))
            && [Tok(OPENBLOCK), Id(x), Tok(ATTRIB), Id(a), Tok(BIGGER), Id(b), Tok(BIGGER), Id(c), Tok(SEMICOLLON), Tok(CLOSEBLOCK)]
               == [Tok(OPENBLOCK)] + UCmd(Assign(x, e)) + [Tok(CLOSEBLOCK)]
  {
    var e := BinOp(">", [BinOp(">", [IdentifierVal(a), IdentifierVal(b)]), IdentifierVal(c)]);
    NameAtLevel(3, a);
    NameAtLevel(2, b);
    NameAtLevel(2, c);
    Lift(3, 6, e);
    NameToken(a);
    NameToken(b);
    NameToken(c);
    assert UExpr(e) == [Id(a), Tok(BIGGER), Id(b), Tok(BIGGER), Id(c)];
    AssignWf(x, e);
  }

  /** `{ x = a > b > c; }`: comparisons chain to the left as well. */
  lemma ComparisonNestsLeft(x: string, a: string, b: string, c: string, toks: seq<Token>)
    requires IsName(x) && IsName(a) && IsName(b) && IsName(c)
    requires toks == [Tok(OPENBLOCK), Id(x), Tok(ATTRIB), Id(a), Tok(BIGGER), Id(b), Tok(BIGGER), Id(c),
                      Tok(SEMICOLLON), Tok(CLOSEBLOCK)]
    ensures Parse(toks)
            == Some(StatementOp("BLOCK", [Assign(x, BinOp(">", [BinOp(">", [IdentifierVal(a), IdentifierVal(b)]),
                                                                IdentifierVal(c)]))]))
  {
    ComparisonTokens(x, a, b, c);
    SingleCommandBlock(Assign(x, BinOp(">", [BinOp(">", [IdentifierVal(a), IdentifierVal(b)]), IdentifierVal(c)])), toks);
  }

  /** The tree of `-a * b + c`. */
  function SignedSum(a: string, b: string, c: string): Node {
    BinOp("+", [BinOp("*", [UnOp("-", [IdentifierVal(a)]), IdentifierVal(b)]), IdentifierVal(c)])
  }

  lemma SignedSumTokens(a: string, b: string, c: string)
    requires IsName(a) && IsName(b) && IsName(c)
    ensures WfExpr(6, SignedSum(a, b, c))
    ensures UExpr(SignedSum(a, b, c)) == [Tok(MINUS), Id(a), Tok(MULT), Id(b), Tok(PLUS), Id(c)]
  {
    var neg := UnOp("-", [IdentifierVal(a)]);
    var product := BinOp("*", [neg, IdentifierVal(b)]);
    NameAtLevel(0, a);
    NameAtLevel(0, b);
    NameAtLevel(1, c);
    assert WfExpr(0, neg);
    assert WfExpr(1, product);
    assert WfExpr(2, SignedSum(a, b, c));
    Lift(2, 6, SignedSum(a, b, c));
    NameToken(a);
    NameToken(b);
    NameToken(c);
    assert UExpr(neg) == [Tok(MINUS), Id(a)];
    assert UExpr(product) == [Tok(MINUS), Id(a), Tok(MULT), Id(b)];
  }

  lemma PrecedenceTokens(x: string, a: string, b: string, c: string)
    requires IsName(x) && IsName(a) && IsName(b) && IsName(c)
    ensures WfCmd(Assign(x, SignedSum(a, b, c)))
    ensures [Tok(OPENBLOCK), Id(x), Tok(ATTRIB), Tok(MINUS), Id(a), Tok(MULT), Id(b), Tok(PLUS), Id(c),
             Tok(SEMICOLLON), Tok(CLOSEBLOCK)]
            == [Tok(OPENBLOCK)] + UCmd(Assign(x, SignedSum(a, b, c))) + [Tok(CLOSEBLOCK)]
  {
    SignedSumTokens(a, b, c);
    AssignWf(x, SignedSum(a, b, c));
  }

  /** `{ x = -a * b + c; }`: a sign binds tighter than `*`, and `*` tighter than `+`. */
  lemma Precedence(x: string, a: string, b: string, c: string, toks: seq<Token>)
    requires IsName(x) && IsName(a) && IsName(b) && IsName(c)
    requires toks == [Tok(OPENBLOCK), Id(x), Tok(ATTRIB), Tok(MINUS), Id(a), Tok(MULT), Id(b), Tok(PLUS), Id(c),
                      Tok(SEMICOLLON), Tok(CLOSEBLOCK)]
    ensures Parse(toks)
            == Some(StatementOp("BLOCK", [Assign(x, BinOp("+", [BinOp("*", [UnOp("-", [IdentifierVal(a)]), IdentifierVal(b)]),
                                                                IdentifierVal(c)]))]))
  {
    PrecedenceTokens(x, a, b, c);
    SingleCommandBlock(Assign(x, SignedSum(a, b, c)), toks);
  }

  /** The tree of `if (a) if (b) x = m; else y = n;`, with the `else` on the inner `if`. */
  function NestedIf(a: string, b: string, x: string, y: string, m: nat, n: nat): Node {
    ConditionOp("if", [IdentifierVal(a), ConditionOp("if", [IdentifierVal(b), Assign(x, IntVal(m)), Assign(y, IntVal(n))])])
  }

  lemma NumberAssign(x: string, m: nat)
    requires IsName(x)
    ensures WfCmd(Assign(x, IntVal(m))) && UCmd(Assign(x, IntVal(m))) == [Id(x), Tok(ATTRIB), Num(m), Tok(SEMICOLLON)]
  {
    Lift(0, 6, IntVal(m));
    AssignWf(x, IntVal(m));
  }

  lemma NameParen(a: string)
    requires IsName(a)
    ensures WfExpr(6, IdentifierVal(a)) && UParen(IdentifierVal(a)) == [Tok(LPAR), Id(a), Tok(RPAR)]
  {
    NameAtLevel(6, a);
    NameToken(a);
  }

  lemma InnerIfTokens(b: string, x: string, y: string, m: nat, n: nat)
    requires IsName(b) && IsName(x) && IsName(y)
    ensures var inner := ConditionOp("if", [IdentifierVal(b), Assign(x, IntVal(m)), Assign(y, IntVal(n))]);
            WfCmd(inner) && !OpenEnd(inner)
            && UCmd(inner) == [Tok(IF), Tok(LPAR), Id(b), Tok(RPAR), Id(x), Tok(ATTRIB), Num(m), Tok(SEMICOLLON),
                               Tok(ELSE), Id(y), Tok(ATTRIB), Num(n), Tok(SEMICOLLON)]
  {
    NumberAssign(x, m);
    NumberAssign(y, n);
    NameParen(b);
  }

  lemma DanglingElseTokens(a: string, b: string, x: string, y: string, m: nat, n: nat)
    requires IsName(a) && IsName(b) && IsName(x) && IsName(y)
    ensures WfCmd(NestedIf(a, b, x, y, m, n))
    ensures [Tok(OPENBLOCK), Tok(IF), Tok(LPAR), Id(a), Tok(RPAR), Tok(IF), Tok(LPAR), Id(b), Tok(RPAR),
             Id(x), Tok(ATTRIB), Num(m), Tok(SEMICOLLON), Tok(ELSE), Id(y), Tok(ATTRIB), Num(n), Tok(SEMICOLLON),
             Tok(CLOSEBLOCK)]
            == [Tok(OPENBLOCK)] + UCmd(NestedIf(a, b, x, y, m, n)) + [Tok(CLOSEBLOCK)]
  {
    InnerIfTokens(b, x, y, m, n);
    NameParen(a);
    var inner := ConditionOp("if", [IdentifierVal(b), Assign(x, IntVal(m)), Assign(y, IntVal(n))]);
    assert UCmd(NestedIf(a, b, x, y, m, n)) == [Tok(IF)] + UParen(IdentifierVal(a)) + UCmd(inner);
  }

  /** `{ if (a) if (b) x = m; else y = n; }`: the `else` belongs to the inner `if`. */
  lemma DanglingElse(a: string, b: string, x: string, y: string, m: nat, n: nat, toks: seq<Token>)
    requires IsName(a) && IsName(b) && IsName(x) && IsName(y)
    requires toks == [Tok(OPENBLOCK), Tok(IF), Tok(LPAR), Id(a), Tok(RPAR), Tok(IF), Tok(LPAR), Id(b), Tok(RPAR),
                      Id(x), Tok(ATTRIB), Num(m), Tok(SEMICOLLON), Tok(ELSE), Id(y), Tok(ATTRIB), Num(n), Tok(SEMICOLLON),
                      Tok(CLOSEBLOCK)]
    ensures Parse(toks)
            == Some(StatementOp("BLOCK", [ConditionOp("if", [IdentifierVal(a),
                      ConditionOp("if", [IdentifierVal(b), Assign(x, IntVal(m)), Assign(y, IntVal(n))])])]))
  {
    DanglingElseTokens(a, b, x, y, m, n);
    SingleCommandBlock(NestedIf(a, b, x, y, m, n), toks);
  }

  lemma TrueFactor()
    ensures WfExpr(6, IdentifierVal("true")) && UExpr(IdentifierVal("true")) == [Tok(TRUE)]
  {
    assert IsFactorName("true");
    Lift(0, 6, IdentifierVal("true"));
  }

  lemma TrueTokens(x: string)
    requires IsName(x)
    ensures WfCmd(Assign(x, IdentifierVal("true")))
    ensures [Tok(OPENBLOCK), Id(x), Tok(ATTRIB), Tok(TRUE), Tok(SEMICOLLON), Tok(CLOSEBLOCK)]
            == [Tok(OPENBLOCK)] + UCmd(Assign(x, IdentifierVal("true"))) + [Tok(CLOSEBLOCK)]
  {
    TrueFactor();
    AssignWf(x, IdentifierVal("true"));
  }

  /** `{ x = true; }`: the keyword `true` becomes an `Identifier_val`, not a `Bool_val`. */
  lemma TrueIsAName(x: string, toks: seq<Token>)
    requires IsName(x)
    requires toks == [Tok(OPENBLOCK), Id(x), Tok(ATTRIB), Tok(TRUE), Tok(SEMICOLLON), Tok(CLOSEBLOCK)]
    ensures Parse(toks) == Some(StatementOp("BLOCK", [Assign(x, IdentifierVal("true"))]))
  {
    TrueTokens(x);
    SingleCommandBlock(Assign(x, IdentifierVal("true")), toks);
  }

  lemma ParenthesesTokens(a: string)
    requires IsName(a)
    ensures var c := PrintOp("show", [StatementOp("BLOCK", [IdentifierVal(a)])]);
            WfCmd(c)
            && [Tok(OPENBLOCK), Tok(PRINT), Tok(LPAR), Tok(LPAR), Id(a), Tok(RPAR), Tok(RPAR), Tok(SEMICOLLON), Tok(CLOSEBLOCK)]
               == [Tok(OPENBLOCK)] + UCmd(c) + [Tok(CLOSEBLOCK)]
  {
    var g := StatementOp("BLOCK", [IdentifierVal(a)]);
    NameAtLevel(6, a);
    NameToken(a);
    Lift(0, 6, g);
    assert UExpr(g) == [Tok(LPAR), Id(a), Tok(RPAR)];
  }

  /** `{ show((a)); }`: parentheses around a factor become a one-child `BLOCK`, those of `show` do not. */
  lemma ParenthesesBecomeBlock(a: string, toks: seq<Token>)
    requires IsName(a)
    requires toks == [Tok(OPENBLOCK), Tok(PRINT), Tok(LPAR), Tok(LPAR), Id(a), Tok(RPAR), Tok(RPAR), Tok(SEMICOLLON),
                      Tok(CLOSEBLOCK)]
    ensures Parse(toks) == Some(StatementOp("BLOCK", [PrintOp("show", [StatementOp("BLOCK", [IdentifierVal(a)])])]))
  {
    ParenthesesTokens(a);
    SingleCommandBlock(PrintOp("show", [StatementOp("BLOCK", [IdentifierVal(a)])]), toks);
  }

  lemma DoorTokens(x: string)
    requires IsName(x)
    ensures WfCmd(Assign(x, InputOp("door")))
    ensures [Tok(OPENBLOCK), Id(x), Tok(ATTRIB), Tok(INPUT), Tok(LPAR), Tok(RPAR), Tok(SEMICOLLON), Tok(CLOSEBLOCK)]
            == [Tok(OPENBLOCK)] + UCmd(Assign(x, InputOp("door"))) + [Tok(CLOSEBLOCK)]
  {
    Lift(0, 6, InputOp("door"));
    AssignWf(x, InputOp("door"));
  }

  /** `{ x = door(); }`: the call of `door` is an `Input_op`. */
  lemma DoorIsInput(x: string, toks: seq<Token>)
    requires IsName(x)
    requires toks == [Tok(OPENBLOCK), Id(x), Tok(ATTRIB), Tok(INPUT), Tok(LPAR), Tok(RPAR), Tok(SEMICOLLON), Tok(CLOSEBLOCK)]
    ensures Parse(toks) == Some(StatementOp("BLOCK", [Assign(x, InputOp("door"))]))
  {
    DoorTokens(x);
    SingleCommandBlock(Assign(x, InputOp("door")), toks);
  }

  /** `{ }`: a block needs at least one command. */
  lemma EmptyBlockRejected()
    ensures Parse([Tok(OPENBLOCK), Tok(CLOSEBLOCK)]) == None
  {
  }

  // ---------------------------------------------------------------------
  // from the text: a STRING runs to the last quote of the line

  /** A text without quotes and line breaks. */
  predicate Plain(a: string) {
    forall i :: 0 <= i < |a| ==> a[i] != '"' && a[i] != '\n'
  }

  /** The text between the first and the last quote of `{show("a");show("b");}` has no line break. */
  lemma MiddleOneLine(a: string, b: string, body: string)
    requires Plain(a) && Plain(b) && body == a + "\");show(\"" + b
    ensures forall i :: 0 <= i < |body| ==> body[i] != '\n'
  {
    var mid := "\");show(\"";
    forall i | 0 <= i < |body| ensures body[i] != '\n' {
      if i < |a| {
        assert body[i] == a[i];
      } else if i < |a| + |mid| {
        assert body[i] == mid[i - |a|];
      } else {
        assert body[i] == b[i - |a| - |mid|];
      }
    }
  }

  /** A bracket or `;` token at the front of `s`, as the grammar writes it. */
  lemma OneCharToken(k: Kind, rest: string, s: string)
    requires k in {LPAR, RPAR, SEMICOLLON, OPENBLOCK, CLOSEBLOCK} && s == KindText(k) + rest
    ensures Tokenize(s) == [Tok(k)] + Tokenize(rest)
  {
    var c := KindText(k)[0];
    assert KindText(k) == [c] && c in SingleCharRules && SingleCharRules[c] == k;
    assert c != '=' && c != '!' && c != '>' && c != '<' && c != '/';
    if rest != [] {
      LexerFacts.NoDoubleCharRule([c, rest[0]]);
      assert [c, rest[0]][..2] == [c, rest[0]];
    }
    LexerFacts.SingleCharToken(c, rest);
  }

  /** The tail `);}` after the last quote. */
  lemma CloseTokens(r3: string, r4: string, r5: string, e: string)
    requires r3 == KindText(RPAR) + r4 && r4 == KindText(SEMICOLLON) + r5 && r5 == KindText(CLOSEBLOCK) + e && e == []
    ensures Tokenize(r3) == [Tok(RPAR), Tok(SEMICOLLON), Tok(CLOSEBLOCK)]
  {
    OneCharToken(CLOSEBLOCK, e, r5);
    OneCharToken(SEMICOLLON, r5, r4);
    OneCharToken(RPAR, r4, r3);
  }

  /** The pieces `{`, `show`, `(`, the quoted text, `)`, `;` and `}` of `{show("...");}`. */
  lemma ShowText(body: string, text: string, r0: string, r1: string, r2: string, r3: string, r4: string, r5: string)
    requires text == "{show(\"" + body + "\");}"
    requires r5 == KindText(CLOSEBLOCK) && r4 == KindText(SEMICOLLON) + r5 && r3 == KindText(RPAR) + r4
    requires r2 == "\"" + body + "\"" + r3 && r1 == KindText(LPAR) + r2 && r0 == KindText(PRINT) + r1
    ensures text == KindText(OPENBLOCK) + r0 && r5 == KindText(CLOSEBLOCK) + []
    ensures forall i :: 0 <= i < LineLength(r3) ==> r3[i] != '"'
  {
    assert r3 == ");}";
  }

  /** A quoted text without line breaks is a STRING lexeme. */
  lemma QuotedLexeme(body: string)
    requires forall i :: 0 <= i < |body| ==> body[i] != '\n'
    ensures IsStringLexeme("\"" + body + "\"")
  {
    var q := "\"" + body + "\"";
    forall i | 0 <= i < |q| ensures q[i] != '\n' {
      if 0 < i < |q| - 1 {
        assert q[i] == body[i - 1];
      }
    }
  }

  /** The keyword `show` in front of `(`. */
  lemma ShowToken(r0: string, r1: string)
    requires r0 == KindText(PRINT) + r1 && r1 != [] && r1[0] == '('
    ensures Tokenize(r0) == [Tok(PRINT)] + Tokenize(r1)
  {
    LexerFacts.KeywordEntry(PRINT);
    LexerFacts.WordToken(KindText(PRINT), r1);
  }

  /** `{show(` in front of `r2`. */
  lemma HeadTokens(text: string, r0: string, r1: string, r2: string)
    requires text == KindText(OPENBLOCK) + r0 && r0 == KindText(PRINT) + r1 && r1 == KindText(LPAR) + r2
    ensures Tokenize(text) == [Tok(OPENBLOCK), Tok(PRINT), Tok(LPAR)] + Tokenize(r2)
  {
    OneCharToken(LPAR, r2, r1);
    ShowToken(r0, r1);
    OneCharToken(OPENBLOCK, r0, text);
  }

  /** A quoted text without line breaks, then `);}`. */
  lemma QuotedCloseTokens(body: string, r2: string, r3: string, r4: string, r5: string)
    requires forall i :: 0 <= i < |body| ==> body[i] != '\n'
    requires r2 == "\"" + body + "\"" + r3 && forall i :: 0 <= i < LineLength(r3) ==> r3[i] != '"'
    requires r3 == KindText(RPAR) + r4 && r4 == KindText(SEMICOLLON) + r5 && r5 == KindText(CLOSEBLOCK) + []
    ensures Tokenize(r2) == [Token(STRING, TextValue("\"" + body + "\"")), Tok(RPAR), Tok(SEMICOLLON), Tok(CLOSEBLOCK)]
  {
    CloseTokens(r3, r4, r5, []);
    LexerFacts.StringToLastQuote(body, r3);
  }

  /**
   * `{show("a");show("b");}` lexes as ONE print of one STRING: the STRING
   * rule takes everything up to the last quote of the line, so the second
   * `show` ends up inside the first string.
   */
  lemma StringsMergeTokens(a: string, b: string, body: string, text: string, toks: seq<Token>)
    requires Plain(a) && Plain(b) && body == a + "\");show(\"" + b
    requires text == "{show(\"" + body + "\");}" && toks == Tokenize(text)
    ensures toks
            == [Tok(OPENBLOCK), Tok(PRINT), Tok(LPAR), Token(STRING, TextValue("\"" + body + "\"")),
                Tok(RPAR), Tok(SEMICOLLON), Tok(CLOSEBLOCK)]
    ensures IsStringLexeme("\"" + body + "\"")
  {
    var r5 := KindText(CLOSEBLOCK);
    var r4 := KindText(SEMICOLLON) + r5;
    var r3 := KindText(RPAR) + r4;
    var r2 := "\"" + body + "\"" + r3;
    var r1 := KindText(LPAR) + r2;
    var r0 := KindText(PRINT) + r1;
    ShowText(body, text, r0, r1, r2, r3, r4, r5);
    MiddleOneLine(a, b, body);
    QuotedLexeme(body);
    QuotedCloseTokens(body, r2, r3, r4, r5);
    HeadTokens(text, r0, r1, r2);
  }

  /** ... and so it parses to one `Print_op` of that one `String_val`. */
  lemma StringsMerge(a: string, b: string, body: string, text: string, toks: seq<Token>)
    requires Plain(a) && Plain(b) && body == a + "\");show(\"" + b
    requires text == "{show(\"" + body + "\");}" && toks == Tokenize(text)
    ensures Parse(toks) == Some(StatementOp("BLOCK", [PrintOp("show", [StringVal("\"" + body + "\"")])]))
  {
    StringsMergeTokens(a, b, body, text, toks);
    var e := StringVal("\"" + body + "\"");
    Lift(0, 6, e);
    var c := PrintOp("show", [e]);
    assert UCmd(c) == [Tok(PRINT)] + UParen(e) + [Tok(SEMICOLLON)];
    SingleCommandBlock(c, toks);
  }

  /** The same program as the one line of a source file, through the whole front end. */
  lemma StringsMergeProgram(a: string, b: string, body: string, line: string)
    requires Plain(a) && Plain(b) && body == a + "\");show(\"" + b
    requires line == "{show(\"" + body + "\");}"
    ensures FrontEnd.Program([line]) == Some(StatementOp("BLOCK", [PrintOp("show", [StringVal("\"" + body + "\"")])]))
  {
    var e: string := [];
    Preprocessing.StripOf(e, line, e);
    assert e + line + e == line;
    assert Preprocessing.Preprocess([line]) == line + Preprocessing.Preprocess([]);
    StringsMerge(a, b, body, line, Tokenize(line));
  }
}
