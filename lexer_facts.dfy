/**
 * What the lexing rules of main.py:7-66 promise about the token stream,
 * stated on Tokenize for texts of a given shape, and the round trip that
 * re-lexes the printed form of a token sequence.
 */
module LexerFacts {
  import opened Wrappers
  import opened Lexer

  lemma DigitRunOf(d: string, rest: string)
    requires AllDigits(d) && (rest == [] || !IsDigit(rest[0]))
    ensures DigitRun(d + rest) == |d|
  {
    var s := d + rest;
    assert forall i :: 0 <= i < |d| ==> s[i] == d[i];
    assert |s| > |d| ==> s[|d|] == rest[0];
  }

  lemma IdentRunOf(w: string, rest: string)
    requires forall i :: 0 <= i < |w| ==> IsIdentChar(w[i])
    requires rest == [] || !IsIdentChar(rest[0])
    ensures IdentRun(w + rest) == |w|
  {
    var s := w + rest;
    assert forall i :: 0 <= i < |w| ==> s[i] == w[i];
    assert |s| > |w| ==> s[|w|] == rest[0];
  }

  /** Only texts that start with `=`, `!`, `>` or `<` can begin a two-character rule. */
  lemma NoDoubleCharRule(s: string)
    requires |s| >= 2 && s[0] != '=' && s[0] != '!' && s[0] != '>' && s[0] != '<'
    ensures s[..2] !in DoubleCharRules
  {
    assert forall k :: k in DoubleCharRules ==> |k| == 2 && (k[0] == '=' || k[0] == '!' || k[0] == '>' || k[0] == '<');
    assert s[..2][0] == s[0];
  }

  /**
   * A word `[a-zA-Z_][a-zA-Z_0-9]*` that is not followed by another identifier
   * character is one token: the keyword kind of the `reserved` table when the
   * word is one of its keys, IDENTIFIER otherwise; its value is the word.
   */
  lemma WordToken(w: string, rest: string)
    requires IsWord(w) && (rest == [] || !IsIdentChar(rest[0]))
    ensures Tokenize(w + rest)
            == [Token(if w in Reserved then Reserved[w] else IDENTIFIER, TextValue(w))] + Tokenize(rest)
  {
    var s := w + rest;
    assert s[1..] == w[1..] + rest;
    IdentRunOf(w[1..], rest);
    assert s[..|w|] == w && s[|w|..] == rest;
    TokenizeStep(s);
  }

  /**
   * The longest run of digits is one NUMBER token whose value is the run's
   * integer value.
   */
  lemma NumberToken(d: string, rest: string)
    requires |d| > 0 && AllDigits(d) && (rest == [] || !IsDigit(rest[0]))
    ensures Tokenize(d + rest) == [Token(NUMBER, IntValue(DecimalValue(d)))] + Tokenize(rest)
  {
    var s := d + rest;
    DigitRunOf(d, rest);
    assert s[..|d|] == d && s[|d|..] == rest;
    TokenizeStep(s);
  }

  lemma {:induction false} DecimalValueAppend(d: string, c: char)
    requires AllDigits(d) && IsDigit(c)
    ensures AllDigits(d + [c]) && DecimalValue(d + [c]) == 10 * DecimalValue(d) + ((c as int) - ('0' as int))
  {
    assert (d + [c])[..|d|] == d;
  }

  /** `int()` reads back the decimal digits of every natural number. */
  lemma {:induction false} DecimalRoundTrip(n: nat)
    ensures DecimalValue(DecimalString(n)) == n
  {
    var last := [(('0' as int) + n % 10) as char];
    if n < 10 {
    } else {
      DecimalRoundTrip(n / 10);
      DecimalValueAppend(DecimalString(n / 10), last[0]);
      assert DecimalString(n) == DecimalString(n / 10) + [last[0]];
    }
  }

  /**
   * `==`, `!=`, `>=` and `<=` are each one token, whatever follows them: the
   * three-character regexes are tried before the two-character ones.
   */
  lemma DoubleCharToken(op: string, rest: string)
    requires op in DoubleCharRules
    ensures Tokenize(op + rest) == [Token(DoubleCharRules[op], TextValue(op))] + Tokenize(rest)
  {
    var s := op + rest;
    assert op == "==" || op == "!=" || op == ">=" || op == "<=";
    assert s[..2] == op && s[2..] == rest;
    TokenizeStep(s);
  }

  /** The one-character operators start no other rule. */
  lemma SingleCharClass(c: char)
    requires c in SingleCharRules
    ensures !IsIgnored(c) && !IsDigit(c) && !IsIdentStart(c) && c != '\n' && c != '"'
  {
    assert c in {'+', '-', '*', '/', '(', ')', '=', '!', '>', '<', ';', '{', '}'};
  }

  /** What the master regex does at a one-character operator that begins no longer rule. */
  lemma SingleCharScan(s: string)
    requires s != [] && s[0] in SingleCharRules
    requires |s| >= 2 ==> s[..2] !in DoubleCharRules && !(s[0] == '/' && s[1] == '/')
    ensures Scan(s) == Emit(Token(SingleCharRules[s[0]], TextValue([s[0]])), 1)
  {
    SingleCharClass(s[0]);
  }

  /**
   * A one-character operator is one token unless it begins a two-character
   * operator or, for `/`, a comment.
   */
  lemma SingleCharToken(c: char, rest: string)
    requires c in SingleCharRules
    requires rest != [] ==> [c, rest[0]] !in DoubleCharRules && !(c == '/' && rest[0] == '/')
    ensures Tokenize([c] + rest) == [Token(SingleCharRules[c], TextValue([c]))] + Tokenize(rest)
  {
    var s := [c] + rest;
    assert s[0] == c && s[1..] == rest;
    assert |s| >= 2 ==> s[..2] == [c, rest[0]] && s[1] == rest[0];
    SingleCharScan(s);
    TokenizeStep(s);
  }

  /** Spaces and tabs produce no token. */
  lemma IgnoredSkipped(c: char, rest: string)
    requires IsIgnored(c)
    ensures Tokenize([c] + rest) == Tokenize(rest)
  {
    assert ([c] + rest)[1..] == rest;
  }

  /** A character that starts no rule is skipped alone and lexing goes on after it. */
  lemma UnknownCharSkipped(c: char, rest: string)
    requires !IsIgnored(c) && !IsIdentChar(c) && c != '\n' && c != '"' && c !in SingleCharRules
    ensures Tokenize([c] + rest) == Tokenize(rest)
  {
    var s := [c] + rest;
    assert s[1..] == rest;
    if |s| >= 2 { NoDoubleCharRule(s); }
    TokenizeStep(s);
  }

  lemma {:induction false} LineLengthAppend(a: string, b: string)
    requires forall i :: 0 <= i < |a| ==> a[i] != '\n'
    ensures LineLength(a + b) == |a| + LineLength(b)
  {
    if a != [] {
      assert (a + b)[1..] == a[1..] + b;
      LineLengthAppend(a[1..], b);
    } else {
      assert a + b == b;
    }
  }

  lemma NoQuoteAfter(a: string, rest: string)
    requires forall i :: 0 <= i < LineLength(rest) ==> rest[i] != '"'
    ensures forall j :: |a| <= j < |a| + LineLength(rest) ==> (a + rest)[j] != '"'
  {
    forall j | |a| <= j < |a| + LineLength(rest) ensures (a + rest)[j] != '"' {
      assert (a + rest)[j] == rest[j - |a|];
    }
  }

  lemma LastIndexIs(s: string, c: char, lo: nat, hi: nat, k: nat)
    requires hi <= |s| && lo <= k < hi && s[k] == c
    requires forall j :: k < j < hi ==> s[j] != c
    ensures LastIndex(s, c, lo, hi) == Some(k)
    decreases hi
  {
    if hi - 1 != k {
      LastIndexIs(s, c, lo, hi - 1, k);
    }
  }

  /** What the master regex does at a quote. */
  lemma ScanQuote(s: string)
    requires |s| > 0 && s[0] == '"'
    ensures LastIndex(s, '"', 1, LineLength(s)).None? ==> Scan(s) == NoMatch
    ensures LastIndex(s, '"', 1, LineLength(s)).Some? ==>
              var k := LastIndex(s, '"', 1, LineLength(s)).value;
              Scan(s) == Emit(Token(STRING, TextValue(s[..k + 1])), k + 1)
  {
    if |s| >= 2 { NoDoubleCharRule(s); }
  }

  lemma StringTokenAt(s: string, k: nat)
    requires |s| > 0 && s[0] == '"' && LastIndex(s, '"', 1, LineLength(s)) == Some(k)
    ensures Tokenize(s) == [Token(STRING, TextValue(s[..k + 1]))] + Tokenize(s[k + 1..])
  {
    ScanQuote(s);
    TokenizeStep(s);
  }

  /** A quote with no other quote later on its line matches nothing and is skipped. */
  lemma UnclosedQuoteSkipped(rest: string)
    requires forall i :: 0 <= i < LineLength(rest) ==> rest[i] != '"'
    ensures Tokenize("\"" + rest) == Tokenize(rest)
  {
    var s := "\"" + rest;
    assert s[1..] == rest;
    var n := LineLength(s);
    assert n == 1 + LineLength(rest);
    forall j | 1 <= j < n ensures s[j] != '"' {
      assert s[j] == rest[j - 1];
    }
    assert LastIndex(s, '"', 1, n).None?;
    ScanQuote(s);
    TokenizeStep(s);
  }

  /** `//` discards the rest of its line. */
  lemma CommentToLineEnd(body: string, rest: string)
    requires forall i :: 0 <= i < |body| ==> body[i] != '\n'
    requires rest == [] || rest[0] == '\n'
    ensures Tokenize("//" + body + rest) == Tokenize(rest)
  {
    var s := "//" + body + rest;
    assert forall i :: 2 <= i < |body| + 2 ==> s[i] == body[i - 2];
    assert rest != [] ==> s[|body| + 2] == rest[0];
    assert LineLength(s) == |body| + 2;
    assert s[|body| + 2..] == rest;
    TokenizeStep(s);
  }

  /** In a text without line breaks, a comment swallows everything after it. */
  lemma CommentSwallowsRest(body: string)
    requires forall i :: 0 <= i < |body| ==> body[i] != '\n'
    ensures Tokenize("//" + body) == []
  {
    CommentToLineEnd(body, []);
    assert "//" + body + [] == "//" + body;
  }

  /**
   * A STRING runs from its opening quote to the LAST quote of its line;
   * the token keeps both quotes.
   */
  lemma StringLexemeToken(text: string, rest: string)
    requires IsStringLexeme(text)
    requires forall i :: 0 <= i < LineLength(rest) ==> rest[i] != '"'
    ensures Tokenize(text + rest) == [Token(STRING, TextValue(text))] + Tokenize(rest)
  {
    var s := text + rest;
    var q := |text| - 1;
    LineLengthAppend(text, rest);
    var n := LineLength(s);
    NoQuoteAfter(text, rest);
    LastIndexIs(s, '"', 1, n, q);
    assert s[..q + 1] == text && s[q + 1..] == rest;
    StringTokenAt(s, q);
  }

  /** Quotes between the first and the last quote of a line stay inside the STRING. */
  lemma StringToLastQuote(body: string, rest: string)
    requires forall i :: 0 <= i < |body| ==> body[i] != '\n'
    requires forall i :: 0 <= i < LineLength(rest) ==> rest[i] != '"'
    ensures Tokenize("\"" + body + "\"" + rest)
            == [Token(STRING, TextValue("\"" + body + "\""))] + Tokenize(rest)
  {
    var text := "\"" + body + "\"";
    forall i | 0 <= i < |text| ensures text[i] != '\n' {
      if 0 < i < |text| - 1 { assert text[i] == body[i - 1]; }
    }
    StringLexemeToken(text, rest);
  }

  /** Each keyword of the `reserved` table is the fixed text of the kind it maps to. */
  lemma {:induction false} ReservedTexts(w: string)
    requires w in Reserved
    ensures KindText(Reserved[w]) == w
  {
  }

  /** Every keyword matches the IDENTIFIER rule. */
  lemma {:induction false} ReservedWords(w: string)
    requires w in Reserved
    ensures IsWord(w)
  {
  }

  predicate IsKeywordKind(k: Kind) {
    k in {FUNCTION, RETURN, INPUT, PRINT, WHILE, FOR, IF, ELSE, OR, AND, TRUE, FALSE}
  }

  predicate IsDoubleCharKind(k: Kind) {
    k in {EQUAL, NOTEQUAL, BIGGEREQUAL, SMALLEREQUAL}
  }

  /** The converse of ReservedTexts: a keyword kind's text is its key in `reserved`. */
  lemma KeywordEntry(k: Kind)
    requires IsKeywordKind(k)
    ensures KindText(k) in Reserved && Reserved[KindText(k)] == k && IsWord(KindText(k))
  {
    KeywordKey(k);
    ReservedWords(KindText(k));
  }

  lemma KeywordKey(k: Kind)
    requires IsKeywordKind(k)
    ensures KindText(k) in Reserved && Reserved[KindText(k)] == k
  {
    match k
    case FUNCTION => assert Reserved["toolkit"] == FUNCTION;
    case RETURN => assert Reserved["recover"] == RETURN;
    case INPUT => assert Reserved["door"] == INPUT;
    case PRINT => assert Reserved["show"] == PRINT;
    case WHILE => assert Reserved["until"] == WHILE;
    case FOR => assert Reserved["over"] == FOR;
    case IF => assert Reserved["if"] == IF;
    case ELSE => assert Reserved["else"] == ELSE;
    case OR => assert Reserved["or"] == OR;
    case AND => assert Reserved["and"] == AND;
    case TRUE => assert Reserved["true"] == TRUE;
    case FALSE => assert Reserved["false"] == FALSE;
  }

  lemma DoubleCharEntry(k: Kind)
    requires IsDoubleCharKind(k)
    ensures KindText(k) in DoubleCharRules && DoubleCharRules[KindText(k)] == k
  {
  }

  lemma SingleCharEntry(k: Kind)
    requires k != NUMBER && k != IDENTIFIER && k != STRING
    requires !IsKeywordKind(k) && !IsDoubleCharKind(k)
    ensures |KindText(k)| == 1 && KindText(k)[0] in SingleCharRules
    ensures SingleCharRules[KindText(k)[0]] == k
  {
  }

  lemma ScanWordCanonical(s: string)
    requires s != [] && IsIdentStart(s[0])
    ensures Scan(s).Emit? && Canonical(Scan(s).token)
  {
    var n := 1 + IdentRun(s[1..]);
    var w := s[..n];
    assert forall i :: 1 <= i < n ==> w[i] == s[1..][i - 1];
    assert IsWord(w);
    if w in Reserved { ReservedTexts(w); ReservedWords(w); }
  }

  lemma ScanStringCanonical(s: string)
    requires s != [] && s[0] == '"' && Scan(s).Emit?
    ensures Canonical(Scan(s).token)
  {
    ScanQuote(s);
  }

  lemma ScanDoubleCharCanonical(s: string)
    requires |s| >= 2 && s[..2] in DoubleCharRules
    ensures Canonical(Token(DoubleCharRules[s[..2]], TextValue(s[..2])))
  {
    var w := s[..2];
    assert w == "==" || w == "!=" || w == ">=" || w == "<=";
  }

  /** A token of a kind with a fixed text, holding that text, is one the lexer can produce. */
  lemma FixedCanonical(t: Token)
    requires t.kind != NUMBER && t.kind != IDENTIFIER && t.kind != STRING
    requires t.value == TextValue(KindText(t.kind))
    ensures Canonical(t)
  {
  }

  /** The kind a one-character rule gives has that character as its fixed text. */
  lemma SingleCharText(c: char)
    requires c in SingleCharRules
    ensures SingleCharRules[c] != NUMBER && SingleCharRules[c] != IDENTIFIER && SingleCharRules[c] != STRING
    ensures KindText(SingleCharRules[c]) == [c]
  {
    assert c in {'+', '-', '*', '/', '(', ')', '=', '!', '>', '<', ';', '{', '}'};
  }

  lemma ScanSingleCharCanonical(c: char)
    requires c in SingleCharRules
    ensures Canonical(Token(SingleCharRules[c], TextValue([c])))
  {
    SingleCharText(c);
    FixedCanonical(Token(SingleCharRules[c], TextValue([c])));
  }

  /** Every token the master regex emits is one the lexer can produce (see Canonical). */
  lemma ScanCanonical(s: string)
    requires s != [] && Scan(s).Emit?
    ensures Canonical(Scan(s).token)
  {
    if IsDigit(s[0]) {
    } else if IsIdentStart(s[0]) {
      ScanWordCanonical(s);
    } else if s[0] == '"' {
      ScanStringCanonical(s);
    } else if |s| >= 2 && s[..2] in DoubleCharRules {
      ScanDoubleCharCanonical(s);
    } else {
      ScanSingleCharCanonical(s[0]);
    }
  }

  lemma AllCanonicalCons(t: Token, rest: seq<Token>)
    requires Canonical(t) && AllCanonical(rest)
    ensures AllCanonical([t] + rest)
  {
    forall i | 0 <= i < |[t] + rest| ensures CanonicalAt([t] + rest, i) {
      if i > 0 { assert CanonicalAt(rest, i - 1); }
    }
  }

  lemma AllCanonicalUncons(toks: seq<Token>)
    requires toks != [] && AllCanonical(toks)
    ensures Canonical(toks[0]) && AllCanonical(toks[1..])
  {
    assert CanonicalAt(toks, 0);
    forall i | 0 <= i < |toks[1..]| ensures CanonicalAt(toks[1..], i) {
      assert CanonicalAt(toks, i + 1);
    }
  }

  /** The lexer emits only well-formed tokens. */
  lemma {:induction false} TokenizeCanonical(s: string)
    ensures AllCanonical(Tokenize(s))
    decreases |s|
  {
    if s != [] {
      TokenizeStep(s);
      if IsIgnored(s[0]) || Scan(s).NoMatch? {
        TokenizeCanonical(s[1..]);
      } else {
        TokenizeCanonical(s[Scan(s).length..]);
        if Scan(s).Emit? {
          ScanCanonical(s);
          AllCanonicalCons(Scan(s).token, Tokenize(s[Scan(s).length..]));
        }
      }
    }
  }

  /** A program text for a token sequence: each token's text followed by one space. */
  function Render(toks: seq<Token>): string {
    if toks == [] then [] else Spaced(toks[0], Render(toks[1..]))
  }

  /** No STRING follows a STRING: the greedy STRING rule would swallow the later one. */
  predicate AtMostOneString(toks: seq<Token>) {
    forall i, j :: 0 <= i < j < |toks| && toks[i].kind == STRING ==> toks[j].kind != STRING
  }

  lemma FixedTextHasNoQuote(k: Kind)
    ensures forall i :: 0 <= i < |KindText(k)| ==> KindText(k)[i] != '"'
  {
  }

  lemma {:induction false} RenderHasNoQuote(toks: seq<Token>)
    requires AllCanonical(toks)
    requires forall i :: 0 <= i < |toks| ==> toks[i].kind != STRING
    ensures forall i :: 0 <= i < |Render(toks)| ==> Render(toks)[i] != '"'
  {
    if toks != [] {
      AllCanonicalUncons(toks);
      RenderHasNoQuote(toks[1..]);
      var t := toks[0];
      var a, r := Lexeme(t), Render(toks[1..]);
      if t.kind == NUMBER {
        assert forall i :: 0 <= i < |a| ==> IsDigit(a[i]);
      } else if t.kind == IDENTIFIER {
        assert forall i :: 0 <= i < |a| ==> IsIdentChar(a[i]);
      } else {
        FixedTextHasNoQuote(t.kind);
      }
      forall i | 0 <= i < |a + " " + r| ensures (a + " " + r)[i] != '"' {
        if i < |a| { assert (a + " " + r)[i] == a[i]; }
        else if i > |a| { assert (a + " " + r)[i] == r[i - |a| - 1]; }
      }
    }
  }

  /** A token of fixed text followed by a space is lexed back as itself. */
  lemma FixedTextToken(k: Kind, rest: string)
    requires k != NUMBER && k != IDENTIFIER && k != STRING
    requires rest != [] && rest[0] == ' '
    ensures Tokenize(KindText(k) + rest) == [Token(k, TextValue(KindText(k)))] + Tokenize(rest)
  {
    var w := KindText(k);
    if IsKeywordKind(k) {
      KeywordEntry(k);
      WordToken(w, rest);
    } else if IsDoubleCharKind(k) {
      DoubleCharEntry(k);
      DoubleCharToken(w, rest);
    } else {
      SingleCharEntry(k);
      assert w == [w[0]];
      SingleCharToken(w[0], rest);
    }
  }

  lemma NumberThenSpace(n: nat, rest: string)
    requires rest != [] && rest[0] == ' '
    ensures Tokenize(DecimalString(n) + rest) == [Token(NUMBER, IntValue(n))] + Tokenize(rest)
  {
    DecimalRoundTrip(n);
    NumberToken(DecimalString(n), rest);
  }

  lemma IdentifierThenSpace(w: string, rest: string)
    requires IsWord(w) && w !in Reserved && rest != [] && rest[0] == ' '
    ensures Tokenize(w + rest) == [Token(IDENTIFIER, TextValue(w))] + Tokenize(rest)
  {
    WordToken(w, rest);
  }

  /** A token's text followed by a space, the separator Render puts after it. */
  function Spaced(t: Token, r: string): string {
    Lexeme(t) + " " + r
  }

  lemma SpacedIsLexemeThen(t: Token, r: string)
    ensures Spaced(t, r) == Lexeme(t) + (" " + r)
    ensures Tokenize(" " + r) == Tokenize(r)
  {
    IgnoredSkipped(' ', r);
  }

  lemma NumberTokenThenSpace(t: Token, r: string)
    requires Canonical(t) && t.kind == NUMBER
    ensures Tokenize(Spaced(t, r)) == [t] + Tokenize(r)
  {
    SpacedIsLexemeThen(t, r);
    NumberThenSpace(t.value.n, " " + r);
  }

  lemma IdentifierTokenThenSpace(t: Token, r: string)
    requires Canonical(t) && t.kind == IDENTIFIER
    ensures Tokenize(Spaced(t, r)) == [t] + Tokenize(r)
  {
    SpacedIsLexemeThen(t, r);
    IdentifierThenSpace(t.value.text, " " + r);
  }

  lemma SpaceThenNoQuote(r: string)
    requires forall i :: 0 <= i < |r| ==> r[i] != '"'
    ensures forall i :: 0 <= i < LineLength(" " + r) ==> (" " + r)[i] != '"'
  {
    forall i | 0 <= i < LineLength(" " + r) ensures (" " + r)[i] != '"' {
      if i > 0 { assert (" " + r)[i] == r[i - 1]; }
    }
  }

  lemma {:induction false} StringTokenThenSpace(t: Token, r: string)
    requires t.kind == STRING && t.value.TextValue? && IsStringLexeme(t.value.text)
    requires forall i :: 0 <= i < |r| ==> r[i] != '"'
    ensures Tokenize(Spaced(t, r)) == [t] + Tokenize(r)
  {
    SpacedIsLexemeThen(t, r);
    SpaceThenNoQuote(r);
    StringLexemeToken(t.value.text, " " + r);
  }

  lemma OtherTokenThenSpace(t: Token, r: string)
    requires Canonical(t) && t.kind != STRING
    ensures Tokenize(Spaced(t, r)) == [t] + Tokenize(r)
  {
    if t.kind == NUMBER {
      NumberTokenThenSpace(t, r);
    } else if t.kind == IDENTIFIER {
      IdentifierTokenThenSpace(t, r);
    } else {
      FixedTokenThenSpace(t, r);
    }
  }

  lemma FixedTokenThenSpace(t: Token, r: string)
    requires Canonical(t) && t.kind != NUMBER && t.kind != IDENTIFIER && t.kind != STRING
    ensures Tokenize(Spaced(t, r)) == [t] + Tokenize(r)
  {
    SpacedIsLexemeThen(t, r);
    FixedTextToken(t.kind, " " + r);
  }

  /** One well-formed token followed by a space is lexed back as itself. */
  lemma {:induction false} TokenThenSpace(t: Token, r: string)
    requires Canonical(t)
    requires t.kind == STRING ==> forall i :: 0 <= i < |r| ==> r[i] != '"'
    ensures Tokenize(Spaced(t, r)) == [t] + Tokenize(r)
  {
    if t.kind == STRING {
      StringTokenThenSpace(t, r);
    } else {
      OtherTokenThenSpace(t, r);
    }
  }

  /**
   * Re-lexing the rendered text gives back the token sequence, for
   * well-formed tokens among which no STRING follows another.
   */
  lemma {:induction false} RenderRoundTrip(toks: seq<Token>)
    requires AllCanonical(toks) && AtMostOneString(toks)
    ensures Tokenize(Render(toks)) == toks
  {
    if toks != [] {
      var t, rest := toks[0], toks[1..];
      AllCanonicalUncons(toks);
      assert AtMostOneString(rest) by {
        assert forall i :: 0 <= i < |rest| ==> rest[i] == toks[i + 1];
      }
      RenderRoundTrip(rest);
      if t.kind == STRING {
        forall i | 0 <= i < |rest| ensures rest[i].kind != STRING {
          assert rest[i] == toks[i + 1];
        }
        RenderHasNoQuote(rest);
      }
      TokenThenSpace(t, Render(rest));
    }
  }
}
