/**
 * The top level of main.py, without the file: the lines of the source are
 * stripped and joined, the lexer runs over the text, and the parser builds
 * the tree of the whole program.
 */
module FrontEnd {
  import opened Wrappers
  import opened Preprocessing
  import opened Lexer
  import opened Ast
  import opened Parser
  import opened Grammar
  import LexerFacts
  import ParserTheorems

  /** The tree built from the lines of a source file; None on a syntax error. */
  function Program(lines: seq<string>): Option<Node> {
    Parse(Tokenize(Preprocess(lines)))
  }

  /**
   * The steps of main.py from the joined text to the result: `get_tokens`
   * collects a token list that is then discarded, and `parser.parse` hands
   * the same text to the lexer once more and parses what it yields.
   */
  method Run(lines: seq<string>) returns (tokenList: seq<Token>, result: Option<Node>)
    ensures tokenList == Tokenize(Preprocess(lines))
    ensures result == Program(lines)
  {
    var rawTokens := Preprocess(lines);
    tokenList := GetTokens(rawTokens);
    var reread := GetTokens(rawTokens);
    result := Parse(reread);
  }

  /**
   * A program yields `b` if and only if `b` is a well-formed block whose
   * tokens are exactly what the lexer reads from the joined lines.
   */
  lemma ProgramCharacterization(lines: seq<string>, b: Node)
    ensures Program(lines) == Some(b) <==> WfBlock(b) && UCmd(b) == Tokenize(Preprocess(lines))
  {
    LexerFacts.TokenizeCanonical(Preprocess(lines));
    ParserTheorems.ParseCharacterization(Tokenize(Preprocess(lines)), b);
  }

  /** A program in which `toolkit`, `recover` or `over` is read as a token is a syntax error. */
  lemma ProgramRejectsInert(lines: seq<string>, i: nat)
    requires i < |Tokenize(Preprocess(lines))| && ParserTheorems.Inert(Tokenize(Preprocess(lines))[i].kind)
    ensures Program(lines) == None
  {
    LexerFacts.TokenizeCanonical(Preprocess(lines));
    ParserTheorems.ParseRejectsInert(Tokenize(Preprocess(lines)), i);
  }

  /** No program yields a tree with a `Bool_val` in it. */
  lemma ProgramNeverBool(lines: seq<string>)
    requires Program(lines).Some?
    ensures !HasBool(Program(lines).value)
  {
    LexerFacts.TokenizeCanonical(Preprocess(lines));
    ParserTheorems.ParseNeverBool(Tokenize(Preprocess(lines)));
  }

  /**
   * Where the lexer meets `//` in the joined text of lines read from a file,
   * it reads no token after it: the comment runs to the end of the program.
   */
  lemma CommentEndsProgram(lines: seq<string>, k: nat)
    requires forall i :: 0 <= i < |lines| ==> IsReadLine(lines[i])
    requires k + 2 <= |Preprocess(lines)| && Preprocess(lines)[k..k + 2] == "//"
    ensures Tokenize(Preprocess(lines)[k..]) == []
  {
    var text := Preprocess(lines);
    PreprocessHasNoNewline(lines);
    var body := text[k + 2..];
    assert text[k..] == "//" + body;
    forall i | 0 <= i < |body| ensures body[i] != '\n' {
      assert body[i] == text[k + 2 + i];
    }
    LexerFacts.CommentSwallowsRest(body);
  }
}
