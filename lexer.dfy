/**
 * The PLY lexer of main.py:7-66 and the token loop `get_tokens`
 * (main.py:202-209).
 *
 * At each position PLY first skips the characters of `t_ignore`; it then
 * tries one master regular expression whose alternatives are the function
 * rules in file order (NUMBER, IDENTIFIER, COMMENT, newline) followed by the
 * string rules sorted by decreasing regex length (STRING, then the
 * two-character operators, then the one-character ones); the first
 * alternative that matches wins. When none matches, `t_error` skips one
 * character.
 */
module Lexer {
  import opened Wrappers

  /** The token names of main.py:22-24, including the values of `reserved`. */
  datatype Kind =
    | NUMBER | PLUS | MINUS | MULT | DIV | LPAR | RPAR | IDENTIFIER | STRING
    | EQUAL | ATTRIB | NOTEQUAL | NOT | BIGGER | SMALLER | BIGGEREQUAL | SMALLEREQUAL
    | SEMICOLLON | OPENBLOCK | CLOSEBLOCK
    | FUNCTION | RETURN | INPUT | PRINT | WHILE | FOR | IF | ELSE | OR | AND | TRUE | FALSE

  /** A token's value: the integer of a NUMBER (main.py:48), the matched text otherwise. */
  datatype Value = IntValue(n: nat) | TextValue(text: string)

  datatype Token = Token(kind: Kind, value: Value)

  /** The `reserved` table, main.py:7-20. */
  const Reserved: map<string, Kind> := map[
    "toolkit" := FUNCTION, "recover" := RETURN, "door" := INPUT, "show" := PRINT,
    "until" := WHILE, "over" := FOR, "if" := IF, "else" := ELSE,
    "or" := OR, "and" := AND, "true" := TRUE, "false" := FALSE]

  /** The string rules of regex length 3 (main.py:34-35, 39-40). */
  const DoubleCharRules: map<string, Kind> := map[
    "==" := EQUAL, "!=" := NOTEQUAL, ">=" := BIGGEREQUAL, "<=" := SMALLEREQUAL]

  /** The string rules of regex length 2 (main.py:26-31, 33, 36-38, 41-43). */
  const SingleCharRules: map<char, Kind> := map[
    '+' := PLUS, '-' := MINUS, '*' := MULT, '/' := DIV, '(' := LPAR, ')' := RPAR,
    '=' := ATTRIB, '!' := NOT, '>' := BIGGER, '<' := SMALLER, ';' := SEMICOLLON,
    '{' := OPENBLOCK, '}' := CLOSEBLOCK]

  /** The one text a token of this kind can have; NUMBER, IDENTIFIER and STRING have none. */
  function KindText(k: Kind): string {
    match k
    case PLUS => "+"
    case MINUS => "-"
    case MULT => "*"
    case DIV => "/"
    case LPAR => "("
    case RPAR => ")"
    case EQUAL => "=="
    case ATTRIB => "="
    case NOTEQUAL => "!="
    case NOT => "!"
    case BIGGER => ">"
    case SMALLER => "<"
    case BIGGEREQUAL => ">="
    case SMALLEREQUAL => "<="
    case SEMICOLLON => ";"
    case OPENBLOCK => "{"
    case CLOSEBLOCK => "}"
    case FUNCTION => "toolkit"
    case RETURN => "recover"
    case INPUT => "door"
    case PRINT => "show"
    case WHILE => "until"
    case FOR => "over"
    case IF => "if"
    case ELSE => "else"
    case OR => "or"
    case AND => "and"
    case TRUE => "true"
    case FALSE => "false"
    case NUMBER => ""
    case IDENTIFIER => ""
    case STRING => ""
  }

  /** `t_ignore = ' \t'` (main.py:44). */
  predicate IsIgnored(c: char) { c == ' ' || c == '\t' }

  /** `\d`, restricted to ASCII digits. */
  predicate IsDigit(c: char) { '0' <= c <= '9' }

  /** `[a-zA-Z_]` */
  predicate IsIdentStart(c: char) { ('a' <= c <= 'z') || ('A' <= c <= 'Z') || c == '_' }

  /** `[a-zA-Z_0-9]` */
  predicate IsIdentChar(c: char) { IsIdentStart(c) || IsDigit(c) }

  predicate AllDigits(s: string) { forall i :: 0 <= i < |s| ==> IsDigit(s[i]) }

  /** A text matching `[a-zA-Z_][a-zA-Z_0-9]*` in full. */
  predicate IsWord(w: string) {
    |w| > 0 && IsIdentStart(w[0]) && forall i :: 1 <= i < |w| ==> IsIdentChar(w[i])
  }

  /** A text the STRING rule can match: quote, any characters but a line break, quote. */
  predicate IsStringLexeme(s: string) {
    |s| >= 2 && s[0] == '"' && s[|s| - 1] == '"' && forall i :: 0 <= i < |s| ==> s[i] != '\n'
  }

  /** The longest run of digits at the start of `s`. */
  function DigitRun(s: string): (n: nat)
    ensures n <= |s| && AllDigits(s[..n]) && forall i :: 0 <= i < n ==> IsDigit(s[i])
    ensures n == |s| || !IsDigit(s[n])
  {
    if s != [] && IsDigit(s[0]) then 1 + DigitRun(s[1..]) else 0
  }

  /** The longest run of identifier characters at the start of `s`. */
  function IdentRun(s: string): (n: nat)
    ensures n <= |s| && forall i :: 0 <= i < n ==> IsIdentChar(s[i])
    ensures n == |s| || !IsIdentChar(s[n])
  {
    if s != [] && IsIdentChar(s[0]) then 1 + IdentRun(s[1..]) else 0
  }

  /** How far `.*` reaches: the index of the first line break, or the end of `s`. */
  function LineLength(s: string): (n: nat)
    ensures n <= |s| && forall i :: 0 <= i < n ==> s[i] != '\n'
    ensures n == |s| || s[n] == '\n'
  {
    if s != [] && s[0] != '\n' then 1 + LineLength(s[1..]) else 0
  }

  /** The longest run of line breaks at the start of `s` (`\n+`). */
  function NewlineRun(s: string): (n: nat)
    ensures n <= |s| && forall i :: 0 <= i < n ==> s[i] == '\n'
    ensures n == |s| || s[n] != '\n'
  {
    if s != [] && s[0] == '\n' then 1 + NewlineRun(s[1..]) else 0
  }

  /** The largest index in [lo, hi) holding `c`, if any. */
  function LastIndex(s: string, c: char, lo: nat, hi: nat): (r: Option<nat>)
    requires hi <= |s|
    ensures r.Some? ==> lo <= r.value < hi && s[r.value] == c
                        && forall j :: r.value < j < hi ==> s[j] != c
    ensures r.None? ==> forall j :: lo <= j < hi ==> s[j] != c
    decreases hi
  {
    if hi <= lo then None
    else if s[hi - 1] == c then Some(hi - 1)
    else LastIndex(s, c, lo, hi - 1)
  }

  /** Python's `int()` on a run of decimal digits. */
  function DecimalValue(d: string): nat
    requires AllDigits(d)
  {
    if d == [] then 0
    else 10 * DecimalValue(d[..|d| - 1]) + ((d[|d| - 1] as int) - ('0' as int))
  }

  /** The decimal digits of `n` without leading zeros (Python's `str()` of an int). */
  function DecimalString(n: nat): (d: string)
    ensures |d| > 0 && AllDigits(d)
  {
    var last := [(('0' as int) + n % 10) as char];
    if n < 10 then last else DecimalString(n / 10) + last
  }

  /** What the master regular expression does at the start of a non-empty text. */
  datatype Match =
    | Emit(token: Token, length: nat)   // a rule that returns its token
    | Discard(length: nat)              // t_COMMENT and t_newline, which return nothing
    | NoMatch                           // no rule matches: t_error

  function Scan(s: string): (m: Match)
    requires s != []
    ensures m.Emit? || m.Discard? ==> 0 < m.length <= |s|
  {
    if IsDigit(s[0]) then
      var n := DigitRun(s);
      Emit(Token(NUMBER, IntValue(DecimalValue(s[..n]))), n)
    else if IsIdentStart(s[0]) then
      var n := 1 + IdentRun(s[1..]);
      var w := s[..n];
      Emit(Token(if w in Reserved then Reserved[w] else IDENTIFIER, TextValue(w)), n)
    else if |s| >= 2 && s[0] == '/' && s[1] == '/' then
      Discard(LineLength(s))
    else if s[0] == '\n' then
      Discard(NewlineRun(s))
    else if s[0] == '"' && LastIndex(s, '"', 1, LineLength(s)).Some? then
      var k := LastIndex(s, '"', 1, LineLength(s)).value;
      Emit(Token(STRING, TextValue(s[..k + 1])), k + 1)
    else if |s| >= 2 && s[..2] in DoubleCharRules then
      Emit(Token(DoubleCharRules[s[..2]], TextValue(s[..2])), 2)
    else if s[0] in SingleCharRules then
      Emit(Token(SingleCharRules[s[0]], TextValue([s[0]])), 1)
    else
      NoMatch
  }

  /** The whole token stream the lexer produces for `s`, from its start to its end. */
  function Tokenize(s: string): seq<Token>
    decreases |s|
  {
    if s == [] then []
    else if IsIgnored(s[0]) then Tokenize(s[1..])
    else match Scan(s)
      case Emit(t, n) => [t] + Tokenize(s[n..])
      case Discard(n) => Tokenize(s[n..])
      case NoMatch => Tokenize(s[1..])
  }

  /** One step of Tokenize, for the callers that should not unfold Scan. */
  lemma TokenizeStep(s: string)
    requires s != []
    ensures IsIgnored(s[0]) ==> Tokenize(s) == Tokenize(s[1..])
    ensures !IsIgnored(s[0]) && Scan(s).Emit? ==> Tokenize(s) == [Scan(s).token] + Tokenize(s[Scan(s).length..])
    ensures !IsIgnored(s[0]) && Scan(s).Discard? ==> Tokenize(s) == Tokenize(s[Scan(s).length..])
    ensures !IsIgnored(s[0]) && Scan(s).NoMatch? ==> Tokenize(s) == Tokenize(s[1..])
  {
  }

  /** How far a match moves the lexer: the matched length, or one character for t_error. */
  function Advance(m: Match): nat {
    if m.NoMatch? then 1 else m.length
  }

  /**
   * One turn of the loop of `lexer.token()` at `pos`: an ignored character
   * is passed over; otherwise the master regular expression is tried, and
   * a rule that returns a token ends the search, while a comment, a line
   * break or an unmatched character (`t_error`) is passed over. The result
   * is the token found, if any, and the position the lexer goes on from.
   */
  function Step(s: string, pos: nat): (r: (Option<Token>, nat))
    requires pos < |s|
    ensures pos < r.1 <= |s|
  {
    if IsIgnored(s[pos]) then (None, pos + 1)
    else
      var m := Scan(s[pos..]);
      if m.Emit? then (Some(m.token), pos + m.length) else (None, pos + Advance(m))
  }

  /** One turn of the loop moves Tokenize along: what it passes over yields nothing, the token it finds comes first. */
  lemma StepTokenize(s: string, pos: nat)
    requires pos < |s|
    ensures Step(s, pos).0.Some? ==> Tokenize(s[pos..]) == [Step(s, pos).0.value] + Tokenize(s[Step(s, pos).1..])
    ensures Step(s, pos).0.None? ==> Tokenize(s[pos..]) == Tokenize(s[Step(s, pos).1..])
  {
    TokenizeStep(s[pos..]);
    assert s[pos..][Step(s, pos).1 - pos..] == s[Step(s, pos).1..];
  }

  /**
   * Where `lexer.token()` stops when it starts at `pos`: the first token a
   * rule returns from there on and the position after it, or none and the
   * end of the text.
   */
  function NextFrom(s: string, pos: nat): (r: (Option<Token>, nat))
    requires pos <= |s|
    ensures pos <= r.1 <= |s|
    ensures r.0.Some? ==> pos < r.1
    ensures r.0.None? ==> r.1 == |s|
    decreases |s| - pos
  {
    if pos == |s| then (None, pos)
    else
      var r := Step(s, pos);
      if r.0.Some? then r else NextFrom(s, r.1)
  }

  /** The token NextFrom finds from `pos` is the next one of the token stream, which goes on after it. */
  predicate NextIsNext(s: string, pos: nat)
    requires pos <= |s|
  {
    var r := NextFrom(s, pos);
    if r.0.Some? then Tokenize(s[pos..]) == [r.0.value] + Tokenize(s[r.1..]) else Tokenize(s[pos..]) == []
  }

  /** NextIsNext carries over between two positions with the same next token and the same tokens to come. */
  lemma NextIsNextMoves(s: string, a: nat, b: nat)
    requires a <= b <= |s| && NextFrom(s, a) == NextFrom(s, b) && Tokenize(s[a..]) == Tokenize(s[b..])
    requires NextIsNext(s, b)
    ensures NextIsNext(s, a)
  {
  }

  /** NextFrom from `pos` is the token of the first turn, or else NextFrom from where that turn ends. */
  lemma NextFromStep(s: string, pos: nat)
    requires pos < |s|
    ensures Step(s, pos).0.Some? ==> NextFrom(s, pos) == Step(s, pos)
    ensures Step(s, pos).0.None? ==> NextFrom(s, pos) == NextFrom(s, Step(s, pos).1)
  {
  }

  lemma {:induction false} NextIsNextFrom(s: string, pos: nat)
    requires pos <= |s|
    ensures NextIsNext(s, pos)
    decreases |s| - pos
  {
    if pos == |s| {
      assert s[pos..] == [];
    } else {
      var q := Step(s, pos).1;
      StepTokenize(s, pos);
      if Step(s, pos).0.None? {
        NextIsNextFrom(s, q);
        NextIsNextMoves(s, pos, q);
      }
    }
  }

  /** The token `NextFrom` finds is the next one of the whole token stream, and the stream goes on after it. */
  lemma NextFromTokenize(s: string, pos: nat)
    requires pos <= |s|
    ensures NextFrom(s, pos).0.None? ==> Tokenize(s[pos..]) == []
    ensures NextFrom(s, pos).0.Some? ==>
              Tokenize(s[pos..]) == [NextFrom(s, pos).0.value] + Tokenize(s[NextFrom(s, pos).1..])
  {
    NextIsNextFrom(s, pos);
  }

  /**
   * One call of `lexer.token()` from `lexpos == pos`: the token NextFrom finds
   * and the position after it; once the input is used up, None, and PLY's
   * lexer leaves `lexpos` one past the position its loop stopped at.
   */
  function TokenCall(s: string, pos: nat): (r: (Option<Token>, nat))
    ensures r.0.Some? ==> pos < r.1 <= |s|
    ensures r.0.None? ==> |s| < r.1 && pos < r.1
  {
    if pos < |s| then
      var n := NextFrom(s, pos);
      if n.0.Some? then n else (None, |s| + 1)
    else (None, pos + 1)
  }

  /** From a position within the text, a call of `lexer.token()` yields the next token of the stream, or None when none is left. */
  lemma TokenCallTokenize(s: string, pos: nat)
    requires pos <= |s|
    ensures TokenCall(s, pos).0.None? <==> Tokenize(s[pos..]) == []
    ensures TokenCall(s, pos).0.Some? ==>
              Tokenize(s[pos..]) == [TokenCall(s, pos).0.value] + Tokenize(s[TokenCall(s, pos).1..])
  {
    NextFromTokenize(s, pos);
  }

  /** Once `lexer.token()` has returned None, every further call returns None and moves `lexpos` on by one. */
  lemma TokenCallAfterEnd(s: string, pos: nat)
    requires TokenCall(s, pos).0.None?
    ensures TokenCall(s, TokenCall(s, pos).1) == (None, TokenCall(s, pos).1 + 1)
  {
  }

  /** A call from within the text returns what its turns find, or None and one past the end. */
  lemma CallResult(s: string, start: nat, target: (Option<Token>, nat))
    requires start < |s| && NextFrom(s, start) == target
    ensures target.0.Some? ==> TokenCall(s, start) == target
    ensures target.0.None? ==> TokenCall(s, start) == (None, |s| + 1)
  {
  }

  /** The turns that reach the end of the text find no token. */
  lemma EndTurn(s: string, target: (Option<Token>, nat))
    requires NextFrom(s, |s|) == target
    ensures target.0.None?
  {
  }

  /**
   * The loop of `lexer.token()` over the text `data` from `lexpos == start`:
   * ignored characters, comments, line breaks and unmatched characters are
   * passed over one turn at a time until a rule returns a token or the text
   * ends. The result is the token, if any, and the new `lexpos`.
   */
  method Lex(data: string, start: nat) returns (tok: Option<Token>, lexpos: nat)
    ensures (tok, lexpos) == TokenCall(data, start)
  {
    if |data| <= start {
      return None, start + 1;
    }
    ghost var target := NextFrom(data, start);
    CallResult(data, start, target);
    var pos := start;
    while pos < |data|
      invariant pos <= |data| && NextFrom(data, pos) == target
      decreases |data| - pos
    {
      var t: Option<Token>, next: nat;
      if IsIgnored(data[pos]) {
        t, next := None, pos + 1;
      } else {
        var m := Scan(data[pos..]);
        if m.Emit? {
          t, next := Some(m.token), pos + m.length;
        } else {
          t, next := None, pos + Advance(m);
        }
      }
      assert (t, next) == Step(data, pos);
      NextFromStep(data, pos);
      if t.Some? {
        return t, next;
      }
      pos := next;
    }
    EndTurn(data, target);
    return None, |data| + 1;
  }

  /** The lexer object: its input text and the position `lexpos` it has reached. */
  class Lexer {
    var lexdata: string
    var lexpos: nat

    constructor ()
      ensures lexdata == [] && lexpos == 0
    {
      lexdata := [];
      lexpos := 0;
    }

    /** `lexer.input(s)` */
    method Input(s: string)
      modifies this
      ensures lexdata == s && lexpos == 0
    {
      lexdata := s;
      lexpos := 0;
    }

    /**
     * `lexer.token()`: runs the loop of `Lex` over the stored input from the
     * stored position and keeps the position it ends at.
     */
    method NextToken() returns (tok: Option<Token>)
      modifies this
      ensures lexdata == old(lexdata)
      ensures (tok, lexpos) == TokenCall(lexdata, old(lexpos))
    {
      tok, lexpos := Lex(lexdata, lexpos);
    }
  }

  /** main.py:202-209: build a lexer over `source` and collect tokens until it returns none. */
  method GetTokens(source: string) returns (tokens: seq<Token>)
    ensures tokens == Tokenize(source)
  {
    var lexer := new Lexer();
    lexer.Input(source);
    tokens := [];
    while true
      invariant lexer.lexdata == source && lexer.lexpos <= |source|
      invariant tokens + Tokenize(source[lexer.lexpos..]) == Tokenize(source)
      decreases |source| - lexer.lexpos
    {
      ghost var pos := lexer.lexpos;
      var token := lexer.NextToken();
      TokenCallTokenize(source, pos);
      if token.None? {
        break;
      }
      tokens := tokens + [token.value];
    }
  }

  /** A token's value as a text: what the grammar actions receive as `p[i]`. */
  function Lexeme(t: Token): string {
    match t.value
    case IntValue(n) => DecimalString(n)
    case TextValue(text) => text
  }

  /**
   * The tokens the lexer can produce: the value of a NUMBER is an integer,
   * an IDENTIFIER is a non-reserved word, a STRING is a quoted one-line text,
   * every other kind carries the one text of its rule.
   */
  predicate Canonical(t: Token) {
    if t.kind == NUMBER then t.value.IntValue?
    else if t.kind == IDENTIFIER then
      t.value.TextValue? && IsWord(t.value.text) && t.value.text !in Reserved
    else if t.kind == STRING then t.value.TextValue? && IsStringLexeme(t.value.text)
    else t.value == TextValue(KindText(t.kind))
  }

  /** The token at position `i` is one the lexer can produce. */
  predicate CanonicalAt(toks: seq<Token>, i: nat)
    requires i < |toks|
  {
    Canonical(toks[i])
  }

  predicate AllCanonical(toks: seq<Token>) {
    forall i :: 0 <= i < |toks| ==> CanonicalAt(toks, i)
  }
}
