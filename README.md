# Front end of the CustomLanguage interpreter, in Dafny

This project models the front end of `main.py`, the driver of a small
scripting language built on PLY. It has three parts:

- the **preprocessing** of the source lines: each line is stripped of
  surrounding whitespace and the lines are joined with no separator;
- the **lexer**: the `reserved` table, the `t_*` rules, `t_ignore` and
  `t_error`, and the `get_tokens` loop;
- the **grammar** `p_block` … `p_factor`, whose actions build a syntax tree
  from the node classes (`Statement_Op`, `Bin_op`, `Un_op`,
  `Assignment_op`, `Print_op`, `While_Op`, `Condition_Op`, `Input_op`,
  `Int_val`, `String_val`, `Identifier_val`, `Bool_val`). This model
  makes every syntax error final: the parse result becomes `None`.

Modules, in dependency order:

| module | file | what it holds |
|---|---|---|
| `Wrappers` | wrappers.dfy | `Option` |
| `Preprocessing` | preprocess.dfy | `str.strip()` and the join of main.py:213 |
| `Lexer` | lexer.dfy | token kinds and values, the rule tables, `Scan` (the master regular expression at one position), `Tokenize` (the whole token stream), `Step`/`NextFrom` (one turn and one scan of `lexer.token()`), `TokenCall` (what one call returns and where it leaves `lexpos`), the loop `Lex`, the class `Lexer` with the fields `lexdata`/`lexpos` that `input` and `token` update, and the method `GetTokens` |
| `LexerFacts` | lexer_facts.dfy | what the lexer does on keywords, numbers, operators, blanks, unknown characters, comments and strings; the tokens it produces are canonical; a rendered token sequence lexes back to itself |
| `Ast` | ast.dfy | one `Node` variant per node class |
| `Parser` | parser.dfy | a recursive-descent parser, one function per nonterminal; the six left-recursive expression levels share `Expr(lvl, ..)` and `Tail`, which folds each further `OP operand` onto the tree read so far |
| `Grammar` | grammar.dfy | an independent description of the grammar: which trees each nonterminal builds (`WfExpr`, `WfFactor`, `WfCmd`, `WfBlock`) and the tokens each tree is read from (`UExpr`, `UCmd`) |
| `ParserSoundness` | parser_sound.dfy | whatever the parser returns is well formed and is read from exactly the tokens it consumed |
| `ParserCompleteness` | parser_complete.dfy | every well-formed tree is returned by the parser from its own tokens |
| `ParserTheorems` | theorems.dfy | the two directions together, unambiguity, the unused keywords, the unreachable `Bool_val` |
| `FrontEnd` | frontend.dfy | the pipeline of main.py:213-222 |
| `Examples` | examples.dfy | the trees built for small programs |

The main result is `FrontEnd.ProgramCharacterization`. For any list of
lines, the modelled front end yields the tree `b` if and only if `b` is a
well-formed block whose tokens are exactly what the lexer reads from the
joined lines. The "if" direction holds for main.py too. The "only if"
direction holds because the model ends the parse at the first syntax error.
PLY does not: after `p_error` it discards tokens and may still return a
tree, for example for `x{y=1;}`. The parser is therefore correct against the grammar, and the
grammar is unambiguous with the dangling `else` given to the nearest `if`.
That is what PLY's default shift does on the shift/reduce conflict between
main.py:98 and main.py:99.

Quirks of the code that the model keeps and proves:

- After preprocessing the text has no line break. So a `//` comment
  swallows the rest of the program (`FrontEnd.CommentEndsProgram`). A
  STRING runs to the last `"` of the text (`LexerFacts.StringToLastQuote`).
- `factor` tests an int, then a quoted text, then any `str`. So the
  keywords `true`/`false` become `Identifier_val`, and `Bool_val` is never
  built (`ParserTheorems.ParseNeverBool`).
- `toolkit`, `recover` and `over` have token kinds that no production
  uses. Any program containing one fails to parse
  (`FrontEnd.ProgramRejectsInert`).
- The precedence table declares the relational operators `nonassoc`
  (main.py:72). PLY uses that table only to resolve conflicts, and the
  stratified grammar has none there. So `a > b > c` is accepted and nests
  to the left (`Examples.ComparisonNestsLeft`). This model follows the
  code, not the `nonassoc` declaration.
- The `reserved` table has twelve entries, all modelled.

## Model

| member | source | states |
|---|---|---|
| Preprocessing.Strip | main.py:213 | `str.strip()` on one line; its meaning is stated by `StripPiece`, `StripEnds` and `StripOf` |
| Preprocessing.LeadingSpace | main.py:213 | the count of leading characters `strip()` removes: all of them are whitespace and the next one is not |
| Preprocessing.TrailingSpace | main.py:213 | the count of trailing characters `strip()` removes: all of them are whitespace and the one before is not |
| Preprocessing.StripPiece | main.py:213 | a stripped line is a contiguous piece of the line |
| Preprocessing.StripLeading | main.py:213 | what is removed at the start is whitespace |
| Preprocessing.StripTrailing | main.py:213 | what is removed at the end is whitespace |
| Preprocessing.StripEnds | main.py:213 | a stripped line neither starts nor ends with whitespace |
| Preprocessing.LeadingSpaceOf | main.py:213 | whitespace followed by a non-whitespace character: exactly that whitespace is removed at the start |
| Preprocessing.TrailingSpaceOf | main.py:213 | a non-whitespace character followed by whitespace: exactly that whitespace is removed at the end |
| Preprocessing.StripOf | main.py:213 | conversely, whitespace + core + whitespace, with the core not starting or ending in whitespace, strips to the core |
| Preprocessing.Preprocess | main.py:213 | the text the lexer is given; its meaning is stated by `PreprocessAppend` and `PreprocessHasNoNewline` |
| Preprocessing.PreprocessAppend | main.py:213 | joining one more line appends its stripped text |
| Preprocessing.StripHasNoNewline | main.py:212-213 | a line as `readlines()` returns it has no line break once stripped |
| Preprocessing.PreprocessHasNoNewline | main.py:212-213 | the joined text of such lines has no line break |
| Lexer.DigitRun | main.py:46-47 | length of the longest run of digits `\d+` matches at the start |
| Lexer.IdentRun | main.py:51-52 | length of the longest run of identifier characters |
| Lexer.LineLength | main.py:56-57 | how far `.*` reaches: up to the first line break |
| Lexer.NewlineRun | main.py:60-61 | length of the run of line breaks `\n+` matches |
| Lexer.LastIndex | main.py:32 | the last position of a character in a range, or none, as the greedy `.*` of STRING finds it |
| Lexer.DecimalValue | main.py:48 | `int(t.value)` on a run of digits; its meaning is stated by `LexerFacts.DecimalRoundTrip` and `LexerFacts.DecimalValueAppend` |
| Lexer.DecimalString | main.py:48 | the digits of an int value: non-empty and all digits |
| Lexer.Scan | main.py:26-66 | the rule the master regular expression picks at a position matches a non-empty prefix of the text |
| Lexer.Tokenize | main.py:26-66 | the token stream of a text, which `get_tokens` (main.py:202-209) collects; its meaning is stated by `Lexer.NextIsNextFrom`, `Lexer.GetTokens`, `LexerFacts.TokenizeCanonical` and `LexerFacts.RenderRoundTrip` |
| Lexer.TokenizeStep | main.py:44-66 | one step of the token stream: an ignored character yields nothing, a returned token comes first, a comment, line break or unmatched character yields nothing |
| Lexer.Step | main.py:44-66 | one turn of the loop of `lexer.token()` moves the position forward within the text |
| Lexer.StepTokenize | main.py:44-66 | the token of one turn, if any, is the first of the stream from that position, and the stream goes on after it |
| Lexer.NextFrom | main.py:205 | a call of `lexer.token()`: a found token lies past the start position; no token means the end of the text |
| Lexer.NextFromStep | main.py:205 | `lexer.token()` stops at the first turn that returns a token |
| Lexer.NextIsNextFrom | main.py:205 | from every position, what `lexer.token()` returns is the head of the token stream |
| Lexer.NextFromTokenize | main.py:205 | the token `lexer.token()` returns is the next of the stream, which goes on after it; none means the stream is empty |
| Lexer.TokenCall | main.py:205 | what one call of `lexer.token()` returns and where it leaves the position: past the token it found, or past the end of the text when it finds none, as PLY sets `lexpos` to one more than the text's length |
| Lexer.TokenCallTokenize | main.py:205-207 | the token a call returns is the head of the stream from the old position and the stream goes on from the new one; none means the stream from the old position is empty |
| Lexer.TokenCallAfterEnd | main.py:205 | a call after the end of the text returns none again and moves the position one further |
| Lexer.Lexer.constructor | main.py:215 | a fresh lexer has no input and starts at position 0 |
| Lexer.Lexer.Input | main.py:216 | `lexer.input(s)` stores `s` and resets the position |
| Lexer.Lex | main.py:205 | the loop of `lexer.token()`: passes over ignored characters, comments, line breaks and unmatched characters until a rule returns a token, and returns the token and the new position that `TokenCall` gives |
| Lexer.Lexer.NextToken | main.py:205 | `lexer.token()` on the lexer object: the token and new `lexpos` that `TokenCall` gives for the stored input and position, with the input kept |
| Lexer.GetTokens | main.py:202-209 | the list `get_tokens` collects is exactly the token stream of the input |
| LexerFacts.DigitRunOf | main.py:46-47 | a run of digits followed by a non-digit is matched whole |
| LexerFacts.IdentRunOf | main.py:51-52 | a run of identifier characters followed by a non-identifier character is matched whole |
| LexerFacts.NoDoubleCharRule | main.py:34-40 | no two-character operator starts with a character other than `=`, `!`, `>`, `<` |
| LexerFacts.WordToken | main.py:51-54 | a maximal identifier-shaped word is one token: its keyword kind if it is a key of `reserved`, IDENTIFIER otherwise, with the word as value |
| LexerFacts.NumberToken | main.py:46-49 | a maximal run of digits is one NUMBER token whose value is the run's integer value |
| LexerFacts.DecimalValueAppend | main.py:48 | the integer value of digits followed by one more digit |
| LexerFacts.DecimalRoundTrip | main.py:48 | an int's digits read back as that int |
| LexerFacts.DoubleCharToken | main.py:34-40 | `==`, `!=`, `>=`, `<=` are each one token, never two |
| LexerFacts.SingleCharClass | main.py:26-43 | a one-character operator is matched by no rule before the operator rules |
| LexerFacts.SingleCharScan | main.py:26-43 | a one-character operator not starting a two-character one or a comment is matched by its own rule |
| LexerFacts.SingleCharToken | main.py:26-43 | such an operator is one token with its character as value |
| LexerFacts.IgnoredSkipped | main.py:44 | a space or tab yields no token |
| LexerFacts.UnknownCharSkipped | main.py:64-66 | a character no rule matches is skipped, exactly one, and lexing goes on |
| LexerFacts.LineLengthAppend | main.py:56-57 | `.*` runs through a text without line breaks into what follows |
| LexerFacts.LastIndexIs | main.py:32 | the last occurrence of a character in a range, when it is at `k` |
| LexerFacts.ScanQuote | main.py:32 | at a quote, STRING matches up to the last quote of the line if there is one; otherwise no rule matches |
| LexerFacts.StringTokenAt | main.py:32 | a STRING token keeps its quotes and ends at the last quote of the line |
| LexerFacts.UnclosedQuoteSkipped | main.py:32 | a quote with no later quote on the line is skipped as an unknown character |
| LexerFacts.CommentToLineEnd | main.py:56-58 | a comment yields nothing and ends at the line break |
| LexerFacts.CommentSwallowsRest | main.py:56-58 | in a text without line breaks, `//` yields no token for all of the rest |
| LexerFacts.StringLexemeToken | main.py:32 | a quoted text with no quote after it on the line is one STRING token |
| LexerFacts.StringToLastQuote | main.py:32 | a STRING runs from its quote to the last quote of the line, quotes kept |
| LexerFacts.ReservedTexts | main.py:7-20 | each key of `reserved` is the text of the kind it maps to |
| LexerFacts.ReservedWords | main.py:7-20 | each key of `reserved` is identifier-shaped |
| LexerFacts.KeywordEntry | main.py:7-20 | each keyword kind is reached from its text through `reserved` |
| LexerFacts.KeywordKey | main.py:7-20 | each keyword kind's text is its key in `reserved` |
| LexerFacts.DoubleCharEntry | main.py:34-40 | each two-character kind is reached from its text |
| LexerFacts.SingleCharEntry | main.py:26-43 | each one-character kind is reached from its character |
| LexerFacts.ScanCanonical | main.py:26-66 | every token a rule returns is canonical: int value for NUMBER, non-keyword word for IDENTIFIER, quoted one-line text for STRING, the rule's text otherwise |
| LexerFacts.TokenizeCanonical | main.py:26-66 | every token of the stream is canonical |
| LexerFacts.RenderHasNoQuote | main.py:32 | the text of tokens without STRING has no quote |
| LexerFacts.TokenThenSpace | main.py:26-66 | a canonical token's text followed by a space reads back as that token |
| LexerFacts.RenderRoundTrip | main.py:26-66 | canonical tokens, with no STRING after a STRING, written out with spaces lex back to themselves |
| Parser.OpLevel | main.py:68-76 | the level of each binary operator; its meaning is stated by `OpLevelFollowsPrecedence` |
| Parser.OpLevelFollowsPrecedence | main.py:68-74 | the operators with a level are exactly those of the binary rows of the precedence table, and a row listed later binds tighter |
| Parser.Classify | main.py:182-190 | the one-token `factor` action: an int gives `Int_val`, a quoted text `String_val`, any other text `Identifier_val`, never `Bool_val` |
| Parser.Factor | main.py:170-197 | `factor` consumes at least one token |
| Parser.Unary | main.py:177-179 | `PLUS/MINUS/NOT factor` consumes at least two tokens |
| Parser.Parenthesized | main.py:176 | `LPAR orexpr RPAR` consumes at least three tokens |
| Parser.Expr | main.py:116-168 | an expression level consumes at least one token |
| Parser.Tail | main.py:116-168 | the repetitions of `x OP y` never move backwards |
| Parser.Command | main.py:93-114 | `command` consumes at least one token |
| Parser.AssignCommand | main.py:94 | the assignment production consumes at least one token |
| Parser.PrintCommand | main.py:95 | the `show` production consumes at least one token |
| Parser.WhileCommand | main.py:97 | the `until` production consumes at least one token |
| Parser.IfCommand | main.py:98-99 | the `if` productions consume at least one token |
| Parser.ElsePart | main.py:98-99 | the optional `ELSE command` never moves backwards |
| Parser.ListCommand | main.py:83-91 | `listcommand` keeps the commands read so far as a prefix and appends the later ones |
| Parser.Block | main.py:78-81 | `block` consumes at least one token |
| Parser.Parse | main.py:78-81 | a parsed program is a `BLOCK` with at least one command |
| Grammar.WfLevel | main.py:116-168 | a `Bin_op` of some level has an operator of that level or below |
| Grammar.WfLift | main.py:116-168 | every tree of a level is one of the level above (`x : y`) |
| ParserSoundness.FactorSound | main.py:170-197 | on lexer tokens, what `factor` returns is a well-formed factor read from exactly the tokens consumed |
| ParserSoundness.AtomSound | main.py:182-190 | a NUMBER, IDENTIFIER, TRUE, FALSE or STRING token is one well-formed factor read from that token |
| ParserSoundness.InputSound | main.py:194-195 | `door ( )` read as a factor is a well-formed `Input_op` read from those three tokens |
| ParserSoundness.UnarySound | main.py:177-179 | the same for the sign forms |
| ParserSoundness.ParenSound | main.py:176 | the same for `LPAR orexpr RPAR` |
| ParserSoundness.ExprSound | main.py:116-168 | the same for each expression level |
| ParserSoundness.TailSound | main.py:116-168 | folding `OP operand` onto a well-formed tree keeps it well formed and read from the tokens it spans |
| ParserSoundness.AssignSound | main.py:104-105 | an assignment is `Assignment_op('=', [Identifier_val(name), expr])` read from its tokens |
| ParserSoundness.PrintSound | main.py:106-107 | a print is `Print_op('show', [expr])` read from its tokens |
| ParserSoundness.WhileSound | main.py:108-109 | a loop is `While_Op('until', [cond, body])` read from its tokens |
| ParserSoundness.IfSound | main.py:98-114 | a conditional is `Condition_Op('if', [cond, then])` or `[cond, then, else]`, well formed and read from exactly its tokens, and an `if` without `else` is never followed by ELSE |
| ParserSoundness.ElseSound | main.py:98-99 | after a well-formed `IF ( cond ) command`, the optional `ELSE command` gives a well-formed conditional read from exactly its tokens, and an `if` left without `else` is not followed by ELSE (the shift on the dangling `else`) |
| ParserSoundness.CommandSound | main.py:93-114 | what `command` returns is a well-formed command read from exactly the tokens consumed |
| ParserSoundness.ListSound | main.py:83-91 | `listcommand` appends well-formed commands, read one after the other, and stops where no command starts |
| ParserSoundness.BlockSound | main.py:78-81 | what `block` returns is a `BLOCK` of well-formed commands read from exactly the tokens consumed |
| ParserSoundness.ParseSound | main.py:78-81 | on lexer tokens, a parsed program is a well-formed block whose tokens are the whole input |
| ParserCompleteness.FactorComplete | main.py:170-197 | every well-formed factor is read back by `factor` from its tokens |
| ParserCompleteness.AtomComplete | main.py:182-190 | an `Int_val`, `String_val` or `Identifier_val` is read back by `factor` from its one token |
| ParserCompleteness.UnaryComplete | main.py:177-179 | every well-formed `Un_op` is read back by `factor` from its tokens |
| ParserCompleteness.GroupComplete | main.py:192-193 | every one-child `BLOCK` from parentheses is read back by `factor` from its tokens |
| ParserCompleteness.InputComplete | main.py:194-195 | `Input_op('door')` is read back by `factor` from `door ( )` |
| ParserCompleteness.ParenComplete | main.py:176 | every parenthesised expression is read back from its tokens |
| ParserCompleteness.ExprComplete | main.py:116-168 | every well-formed expression of a level is read back when no operator of that level or below follows |
| ParserCompleteness.CommandComplete | main.py:93-114 | every well-formed command is read back by `command` from its tokens when no ELSE follows an open `if` |
| ParserCompleteness.AssignComplete | main.py:94 | the same for assignments |
| ParserCompleteness.PrintComplete | main.py:95 | the same for `show` |
| ParserCompleteness.WhileComplete | main.py:97 | the same for `until` |
| ParserCompleteness.IfComplete | main.py:98 | the same for `if` without `else` |
| ParserCompleteness.IfElseComplete | main.py:99 | the same for `if` with `else` |
| ParserCompleteness.ListComplete | main.py:83-91 | a sequence of well-formed commands is appended, in order, to the list read so far |
| ParserCompleteness.BlockComplete | main.py:78-81 | every well-formed block is read back by `block` from its tokens |
| ParserCompleteness.ParseComplete | main.py:78-81 | every well-formed block is the result of parsing its own tokens |
| ParserTheorems.ParseCharacterization | main.py:78-197 | on lexer tokens, the parser returns `b` if and only if `b` is a well-formed block whose tokens are the input |
| ParserTheorems.Unambiguous | main.py:78-197 | two well-formed blocks with the same tokens are the same tree |
| ParserTheorems.TrailingTokensRejected | main.py:78-81 | a block followed by any further tokens is a syntax error |
| ParserTheorems.NoInertConcat | main.py:7-24 | tokens of the unused kinds are absent from a concatenation exactly when absent from both parts |
| ParserTheorems.OpKindNotInert | main.py:116-179 | no operator has one of the unused kinds |
| ParserTheorems.ExprNoInert | main.py:116-197 | no expression is read from a FUNCTION, RETURN or FOR token |
| ParserTheorems.ParenNoInert | main.py:176 | no parenthesised expression is either |
| ParserTheorems.CmdNoInert | main.py:93-114 | no command is either |
| ParserTheorems.CmdsNoInert | main.py:83-91 | no list of commands is either |
| ParserTheorems.ParseRejectsInert | main.py:8-13 | token input holding `toolkit`, `recover` or `over` does not parse |
| ParserTheorems.FactorNoBool | main.py:182-190 | no factor holds a `Bool_val` |
| ParserTheorems.ExprNoBool | main.py:182-190 | no expression holds a `Bool_val` |
| ParserTheorems.CmdNoBool | main.py:182-190 | no command holds a `Bool_val` |
| ParserTheorems.ParseNeverBool | main.py:189-190 | no parsed program holds a `Bool_val` |
| FrontEnd.Program | main.py:213-222 | the result of the front end on the lines of a file; its meaning is stated by `ProgramCharacterization` |
| FrontEnd.Run | main.py:213-222 | the token list collected is the token stream of the joined lines, and the result is that of parsing it |
| FrontEnd.ProgramCharacterization | main.py:213-222 | the lines yield `b` if and only if `b` is a well-formed block whose tokens are what the lexer reads from the joined lines |
| FrontEnd.ProgramRejectsInert | main.py:8-13 | lines whose text lexes to `toolkit`, `recover` or `over` do not parse |
| FrontEnd.ProgramNeverBool | main.py:189-190 | no program yields a `Bool_val` |
| FrontEnd.CommentEndsProgram | main.py:57 | in the joined text of lines read from a file, `//` yields no token for all that follows |
| Examples.SingleCommandBlock | main.py:78-87 | a block of one command is read from that command's tokens between braces |
| Examples.SubtractionNestsLeft | main.py:152-159 | `{ x = a - b - c; }` gives `Bin_op('-', [Bin_op('-', [a, b]), c])` |
| Examples.ComparisonNestsLeft | main.py:141-150 | `{ x = a > b > c; }` is accepted and nests to the left |
| Examples.Precedence | main.py:161-179 | `{ x = -a * b + c; }` gives `(( -a) * b) + c` |
| Examples.DanglingElse | main.py:98-99 | in `if (a) if (b) … else …` the `else` belongs to the inner `if` |
| Examples.TrueIsAName | main.py:187-188 | `true` gives `Identifier_val('true')` |
| Examples.ParenthesesBecomeBlock | main.py:192-193 | `(a)` in an expression gives a `BLOCK` with one child; the parentheses of `show` give none |
| Examples.DoorIsInput | main.py:194-195 | `door()` gives `Input_op('door')` |
| Examples.EmptyBlockRejected | main.py:79-85 | `{ }` is a syntax error |
| Examples.StringsMergeTokens | main.py:32 | `{show("a");show("b");}` lexes to one STRING token `"a");show("b"`, for any quote-free `a` and `b` on one line |
| Examples.StringsMerge | main.py:32 | that text parses to one `Print_op` of that single `String_val` |
| Examples.StringsMergeProgram | main.py:213-222 | a source file of that one line yields the same tree |

## Left out

- Opening and reading the file (main.py:211-212, 225): the model takes the
  list of lines as input. `IsReadLine` states what `readlines()`
  guarantees about each line.
- PLY's table construction, `debug=True` output and error recovery after
  `p_error` (main.py:199-200, 222). A syntax error is modelled as `None`;
  PLY instead discards tokens and may go on to return a tree. The shift/reduce
  resolution of the dangling `else` is modelled as PLY's default shift.
- The printed diagnostics of `t_error` and `p_error` (main.py:65, 200),
  and `lineno` counting (main.py:62), which cannot be reached because the
  joined text has no line break.
- numpy in `p_listcommand` (main.py:89): for a list of nodes,
  `flatten(...).tolist()` is a fresh copy of the list. The action is
  therefore modelled as appending to the list read so far (`acc + [c]`).
- `parser.parse(raw_tokens)` feeds PLY's lexer to the parser token by
  token. `FrontEnd.Run` lexes the whole text a second time with
  `GetTokens` and parses that list, which gives the same tokens.
- The evaluation of the tree (main.py:223) and the crash there when the
  parse fails. The node classes live in a `nodes` module that is not part
  of this model.
- Lexer.DecimalValue and LexerFacts.NumberToken are total. In CPython 3.11
  and later, and in the 2022 security releases of 3.7 to 3.10, `int(t.value)`
  (main.py:48) raises ValueError on a run of more than 4300 digits
  (`sys.int_max_str_digits`), for example on the line `x=` followed by 4301
  ones and `;`. That limit depends on the interpreter, so the model gives
  every run of digits its value.
- `\d` in Python also matches non-ASCII decimal digits. The model takes
  ASCII `0`-`9` only.
- `p_factor` would raise an IndexError on an empty text (main.py:185).
  The lexer never produces one; `Parser.Classify` maps it to
  `Identifier_val`.
- `p_command` picks the node class by looking at token values
  (`p[2] == '='`, `p[1] == 'show'`, …). The model picks it by production.
  These agree on every token the lexer produces.
- The parser theorems hold for canonical tokens, the only ones the lexer
  produces (`LexerFacts.TokenizeCanonical`). On arbitrary hand-made
  tokens, the texts the actions copy into the tree could differ from the
  kinds.
- Parser.Factor, Parser.Unary, Parser.Parenthesized, Parser.Expr,
  Parser.Tail, Parser.Command and the other parsing functions: their own
  contracts only state the position bounds that make them terminate. What
  they build is stated by the `ParserSoundness` and `ParserCompleteness`
  lemmas.
