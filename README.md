# Associativity calculator — a Dafny model

`asociatividad.py` is a small calculator that shows how operator
associativity falls out of a recursive-descent grammar:

- `+ - * /` group to the left, because `term` and `expr` loop;
- `**` and `=` group to the right, because `power` and `assignment` recurse.

It has three stages:

- **Lexer.** It walks the text one character at a time and produces tokens on demand. The parser pulls one token per `eat`, so lexing is lazy: a bad character is only reported when the parser asks for it.
- **Parser.** It builds an AST of `Num`, `Var`, `UnaryOp`, `BinaryOp` and `Assign` nodes.
- **Interpreter.** It walks the tree and keeps a dictionary of variables between calls.

The model keeps the source's own shape:

- Each stateful class is a Dafny `class` with the same fields: `Lexer` (`text`, `pos`, `current_char`), `Parser` (`lexer`, `current_token`) and `Interpreter` (`variables`).
- Each method is proved against a pure specification function:
  - `NextToken` for the lexer;
  - `ParseFactor`, `ParsePower`, `ParseTerm`, `ParseExpr`, `ParseAssignment` and `ParseText` for the parser;
  - `Eval` for the interpreter.
- The specification state of the parser is the lexer's cursor together with the current token (`PState`).
- Properties are proved about the specification functions.
- Python exceptions become the `Result` datatype. The `Error` values are:
  - `InvalidCharacter(pos)` for the lexer's error;
  - `InvalidNumber` for the `ValueError` of `float("1..2")`;
  - `UnexpectedToken` for the parser's error;
  - `NameError`;
  - `DivisionByZero` for `ZeroDivisionError`;
  - `UnsupportedPower`, described under "Left out".

Files:

| file | content |
|---|---|
| `numbers.dfy` | Python `int`/`float` values and integer powers |
| `tokens.dfy` | token types, tokens, errors, `Result` |
| `lexer.dfy` | `NextToken`, the class `Lexer`, facts about the token stream |
| `ast.dfy` | AST nodes and the names a tree reads and assigns |
| `parser.dfy` | the grammar as functions, the class `Parser`, `ParseSource` |
| `interpreter.dfy` | Python arithmetic, `Eval`, the class `Interpreter` |
| `chains.dfy` | general theorems: what whole families of texts parse to and evaluate to |
| `scenarios.dfy` | the thirteen expressions of the demonstration, parsed and evaluated, then edge cases |

Two behaviours of the code differ from its comments and description. The model follows the code.

- **`-2 ** 2` is 4, not -4.** The demonstration's comment (`asociatividad.py:408`) says it is `-(2 ** 2) = -4`. But `factor` reads the sign and then the numeral, so the tree is `(-2) ** 2`, which is 4. This is proved by `SignedPowerText`, `SignBeforePower` and `SignBeforePowerValue`.
- **Trailing input is ignored, not an error.** `parse` returns `assignment()` without checking for EOF. So `1 + 2 = 3` is `1 + 2`, `2 3` is `2`, and in `1 2 @` the `@` is never lexed. This is proved by `TrailingAssignIgnored`, `TrailingNumberIgnored` and the three `Trailing*` scenarios.

## Model

| member | source | states |
|---|---|---|
| Lexing.ScanWhile | asociatividad.py:51-52 | the scan loops of `skip_whitespace`, `number` and `identifier` stop at or after the start and never past the end of the text |
| Lexing.ScanWhileSpec | asociatividad.py:49-52 | the run a scanner loop stops at is maximal: every character before the stop is in the class, the one at the stop is not (or the text ended) |
| Lexing.ScanWhileAt | asociatividad.py:49-52 | any position with that maximal-run property is where the scan stops, so the stop is unique |
| Lexing.ParseNumber | asociatividad.py:54-61 | the literal becomes an int exactly when it has no '.'; it fails (with InvalidNumber of that literal) exactly when it is empty, "." or has two dots |
| Lexing.TwoDotsAfterFirst | asociatividad.py:61 | a literal has two dots exactly when another dot follows its first one, which is when `float()` refuses it |
| Lexing.NextToken | asociatividad.py:72-118 | a token other than EOF consumes at least one character and stays within the text; EOF is the bare EOF token at the end of the text; NUMBER and IDENTIFIER tokens carry a number and a name |
| Lexing.SpacesAreSkipped | asociatividad.py:74-77 | lexing from anywhere inside a run of whitespace gives the same answer as lexing after it |
| Lexing.EofIffBlank | asociatividad.py:74-118 | EOF is returned exactly when only whitespace is left, and it is returned again on every later call |
| Lexing.InvalidCharacterIff | asociatividad.py:116 | the lexer fails with an invalid character exactly when the first non-space character starts no token, and it reports that character's position |
| Lexing.IdentifierIsMaximal | asociatividad.py:63-70 | an IDENTIFIER token's name is the whole run of letters, digits and underscores at the first non-space character, and it begins with a letter or underscore |
| Lexing.NumberIsMaximal | asociatividad.py:54-61 | a NUMBER token is the value of the whole run of digits and dots at the first non-space character, which begins with a digit; it is an int exactly when the run has no dot |
| Lexing.StarRunTokens | asociatividad.py:93-98 | a run of stars is cut greedily from its left end: each pair is one POWER token and the next token starts after it, and a star left over at the end of an odd run is MULTIPLY, so `***` is POWER then MULTIPLY |
| Lexing.NumeralValue | asociatividad.py:61 | reading back the decimal text of a natural number gives the number |
| Lexing.LexNumeral | asociatividad.py:79-80 | a numeral followed by a character that cannot continue a number lexes as that integer, ending right after the numeral |
| Lexing.LexIdentifier | asociatividad.py:82-83 | an identifier followed by a character that cannot continue a name lexes as that name, ending right after it |
| Lexing.Lexer.constructor | asociatividad.py:33-36 | the cursor is at 0 and the current character is the first one, if any |
| Lexing.Lexer.Advance | asociatividad.py:41-47 | the position moves on by one and the current character follows it (None past the end) |
| Lexing.Lexer.SkipWhitespace | asociatividad.py:49-52 | the cursor stops at the end of the whitespace run |
| Lexing.Lexer.Number | asociatividad.py:54-61 | the cursor passes the maximal run of digits and dots, and the result is that run's value or its conversion error |
| Lexing.Lexer.Identifier | asociatividad.py:63-70 | the cursor passes the maximal run of name characters, and the result is that run |
| Lexing.Lexer.GetNextToken | asociatividad.py:72-118 | the token, or the error, and the new cursor are those of NextToken at the old cursor; on an invalid character the cursor is left on that character, whose position the error reports |
| Syntax.NoAssignAssignsNothing | asociatividad.py:338-343 | a tree without Assign nodes names no assigned variable |
| Parsing.Consume | asociatividad.py:186-191 | `eat` succeeds only on the expected kind; on another kind it fails with UnexpectedToken of the current token; after success the next token is well formed and, unless the token eaten is EOF, less text remains |
| Parsing.ParseFactor | asociatividad.py:193-225 | a factor consumes input and never holds an Assign |
| Parsing.ParsePower | asociatividad.py:227-240 | a power consumes input, holds no Assign, and leaves no POWER token behind it, because `**` recurses to the right |
| Parsing.ParseTermTail | asociatividad.py:249-257 | the loop consumes no more than the text left, never puts an Assign into a tree that had none, and stops only at a token other than `*` and `/`; it leaves no POWER token unless it started on one |
| Parsing.ParseTerm | asociatividad.py:242-259 | a term leaves no `*`, `/` or `**` token behind it: the loop runs until none is left |
| Parsing.ParseExpr | asociatividad.py:261-278 | an expr stops only at a token that continues no rule (not `+ - * / **`; it may be `=`, `)`, EOF or any other) and holds no Assign |
| Parsing.ParseExprTail | asociatividad.py:268-277 | the loop consumes no more than the text left, never puts an Assign into a tree that had none, and stops only at a token other than `+` and `-`; started after a term, it stops at a token that continues no rule |
| Parsing.ParseAssignment | asociatividad.py:280-293 | Assign nodes occur only as a right-nested chain at the root; a Var result is never left before `=` |
| Parsing.ParseText | asociatividad.py:295-297 | every parse result is a chain of assignments over an assignment-free expression |
| Parsing.FactorRefuses | asociatividad.py:224-225 | a token that cannot start a factor is refused by `factor` and by the whole parse with UnexpectedToken of that token |
| Parsing.AssignmentShape | asociatividad.py:285-293 | `assignment` builds an Assign only when `expr` gave a Var followed by `=`, and otherwise returns what `expr` returned (or its error) |
| Parsing.Parser.Init | asociatividad.py:178-180 | the parser holds the lexer and the first token |
| Parsing.Parser.Create | asociatividad.py:178-180 | the first token is NextToken at the lexer's cursor, or the construction fails with the lexer's error |
| Parsing.Parser.Eat | asociatividad.py:186-191 | on the expected kind the current token and the lexer's cursor become the next token and the cursor after it, as Consume says; otherwise the error is Consume's |
| Parsing.Parser.Factor | asociatividad.py:193-225 | the tree, error and final state are those of ParseFactor |
| Parsing.Parser.Power | asociatividad.py:227-240 | the tree, error and final state are those of ParsePower |
| Parsing.Parser.Term | asociatividad.py:242-259 | the loop's tree, error and final state are those of ParseTerm, a left fold |
| Parsing.Parser.Expr | asociatividad.py:261-278 | the loop's tree, error and final state are those of ParseExpr, a left fold |
| Parsing.Parser.Assignment | asociatividad.py:280-293 | the tree, error and final state are those of ParseAssignment |
| Parsing.Parser.Parse | asociatividad.py:295-297 | parse is assignment |
| Parsing.ParseSource | asociatividad.py:295-297 | building a lexer and parser on a text and parsing gives ParseText of the text |
| Interpretation.Negate | asociatividad.py:324 | unary minus negates the value and keeps int or float |
| Interpretation.Plus | asociatividad.py:309 | the sum of the values; an int only when both operands are ints |
| Interpretation.Minus | asociatividad.py:311 | the difference of the values; an int only when both operands are ints |
| Interpretation.Times | asociatividad.py:313 | the product of the values; an int only when both operands are ints |
| Interpretation.Divide | asociatividad.py:315 | true division gives a float whose product with the divisor is the dividend, and fails with ZeroDivisionError exactly on a zero divisor |
| Interpretation.Power | asociatividad.py:317 | an int to a natural int power is that int power; the result is an int only then; ZeroDivisionError exactly for a zero base with a negative exponent |
| Interpretation.ApplyUnary | asociatividad.py:321-324 | `+a` is `a`, `-a` has the negated value, and neither turns an int into a float or back |
| Interpretation.ApplyBinary | asociatividad.py:308-317 | `+`, `-` and `*` always succeed; `/` can fail only with ZeroDivisionError; `**` only with ZeroDivisionError or an unsupported power |
| Interpretation.Eval | asociatividad.py:306-351 | a walk never removes a variable, and fails only with NameError, ZeroDivisionError or an unsupported power |
| Interpretation.FloatPowerOfInt | asociatividad.py:317 | with exact reals, `b ** n` for ints is the int power, and `float(b) ** n` is the float of the same value |
| Interpretation.EvalFrame | asociatividad.py:338-343 | a walk removes no variable and adds or changes only variables the tree assigns |
| Interpretation.EvalWithoutAssignIsPure | asociatividad.py:306-336 | a tree without Assign leaves the variables unchanged, so evaluating it twice gives the same outcome |
| Interpretation.AssignBindsOnlyTarget | asociatividad.py:338-343 | `x = e` returns what `e` returns; on success it binds `x` to that value over the variables `e` left, on failure it stores nothing; every variable that is neither `x` nor assigned inside `e` keeps its value; for an assignment-free `e`, `x` is the only binding that changes and a failing `e` changes nothing (chains such as `b = a = 10` are covered by `EvalFrame` and `AssignChainEval`) |
| Interpretation.NameErrorIsUnboundRead | asociatividad.py:330-336 | a NameError names a variable the tree reads and that was unbound when the walk started |
| Interpretation.EvalSucceeds | asociatividad.py:306-336 | without `/` and `**`, a tree whose every variable is bound evaluates without error |
| Interpretation.Interpreter.constructor | asociatividad.py:303-304 | the interpreter starts with no variables |
| Interpretation.Interpreter.VisitBinaryOp | asociatividad.py:306-317 | left before right, then the operator; value, error and variables are those of Eval |
| Interpretation.Interpreter.VisitUnaryOp | asociatividad.py:319-324 | value, error and variables are those of Eval |
| Interpretation.Interpreter.VisitNum | asociatividad.py:326-328 | value and variables are those of Eval |
| Interpretation.Interpreter.VisitVar | asociatividad.py:330-336 | the bound value, or NameError, as Eval says |
| Interpretation.Interpreter.VisitAssign | asociatividad.py:338-343 | the right side's value is stored under the target and returned, as Eval says |
| Interpretation.Interpreter.Visit | asociatividad.py:345-351 | dispatch by node kind agrees with Eval |
| Interpretation.Interpreter.Interpret | asociatividad.py:353-355 | the value, error and new variables are those of Eval from the old variables |
| Chains.PowersParse | asociatividad.py:227-240 | `n0 ** n1 ** ... ** nk` parses to the right-nested tree `n0 ** (n1 ** (...))` |
| Chains.MulTailParse | asociatividad.py:249-257 | a run of `* p` and `/ p` links folds onto the accumulated tree from the left |
| Chains.TermParse | asociatividad.py:242-259 | a term text of powers joined by `*` and `/` parses to the left fold of its right-nested powers |
| Chains.ExprParse | asociatividad.py:261-278 | an expression text of terms joined by `+` and `-` parses to the left fold of its terms |
| Chains.FlatExprParse | asociatividad.py:261-297 | any expression of numerals, `+ - * / **` and single spaces, followed by a token that continues no rule, parses to its intended tree: `**` nested right, the others folded left, `**` over `* /` over `+ -` |
| Chains.FlatExprParseWhole | asociatividad.py:261-297 | such an expression on its own parses to its intended tree |
| Chains.TrailingAssignIgnored | asociatividad.py:285-297 | `expr = anything` after an expression that is not a name parses to the expression alone: the `=` and the rest are never read |
| Chains.TrailingNumberIgnored | asociatividad.py:295-297 | a numeral after a complete expression is ignored, since parse never checks for EOF |
| Chains.AssignChainParse | asociatividad.py:280-293 | `n1 = n2 = ... = e` parses to the right-nested chain of Assign nodes |
| Chains.AssignTextParse | asociatividad.py:280-297 | a whole chained-assignment text parses to `Assign(n1, Assign(n2, ... e))` |
| Chains.AssignChainEval | asociatividad.py:338-343 | a chain of assignments returns the value of `e`, binds every name in it to that value, adds exactly those names and leaves every other variable unchanged |
| Chains.DanglingPlus | asociatividad.py:268-276 | a numeral followed by ` +` and nothing else fails with UnexpectedToken(EOF): the term after `+` finds no factor |
| Chains.InvalidAfterNumeral | asociatividad.py:116 | a numeral, a space and a character that starts no token fail with an invalid character at that character's position, reported when the parser asks for the token after the numeral |
| Chains.SignsParse | asociatividad.py:202-208 | a run of signs before a factor parses to nested UnaryOp nodes around that factor, innermost last |
| Chains.SignedPowerText | asociatividad.py:193-240 | `±…±n0 ** n1 ** …` parses with the signs bound to `n0` alone: `(±…±n0) ** (n1 ** …)` |
| Chains.SignedNameText | asociatividad.py:202-216 | signs before a name parse to UnaryOp nodes around the Var |
| Scenarios.SubtractionFoldsLeft | asociatividad.py:372 | `5 - 3 - 2` is `(5 - 3) - 2` and evaluates to 0 |
| Scenarios.DivisionFoldsLeft | asociatividad.py:373 | `8 / 4 / 2` is `(8 / 4) / 2` |
| Scenarios.DivisionFoldsLeftValue | asociatividad.py:373 | `8 / 4 / 2` evaluates to the float 1.0 |
| Scenarios.MultiplicationFoldsLeft | asociatividad.py:374 | `2 * 3 * 4` is `(2 * 3) * 4` |
| Scenarios.MultiplicationFoldsLeftValue | asociatividad.py:374 | `2 * 3 * 4` evaluates to 24 |
| Scenarios.AdditionFoldsLeft | asociatividad.py:375 | `10 + 5 + 3` is `(10 + 5) + 3` |
| Scenarios.AdditionFoldsLeftValue | asociatividad.py:375 | `10 + 5 + 3` evaluates to 18 |
| Scenarios.PowerGroupsRight | asociatividad.py:390 | `2 ** 3 ** 2` is `2 ** (3 ** 2)` |
| Scenarios.PowerGroupsRightValue | asociatividad.py:390 | `2 ** 3 ** 2` evaluates to 512 |
| Scenarios.SecondPowerGroupsRight | asociatividad.py:391 | `3 ** 2 ** 2` is `3 ** (2 ** 2)` |
| Scenarios.SecondPowerGroupsRightValue | asociatividad.py:391 | `3 ** 2 ** 2` evaluates to 81 |
| Scenarios.Precedence | asociatividad.py:406 | `1 + 2 * 3 ** 2 - 4` is `(1 + (2 * (3 ** 2))) - 4` |
| Scenarios.PrecedenceValue | asociatividad.py:406 | `1 + 2 * 3 ** 2 - 4` evaluates to 15 |
| Scenarios.PowerBeforeProduct | asociatividad.py:407 | `2 ** 3 * 4 + 5` is `((2 ** 3) * 4) + 5` |
| Scenarios.PowerBeforeProductValue | asociatividad.py:407 | `2 ** 3 * 4 + 5` evaluates to 37 |
| Scenarios.SignBeforePower | asociatividad.py:408 | `-2 ** 2` is `(-2) ** 2` |
| Scenarios.SignBeforePowerValue | asociatividad.py:408 | `-2 ** 2` evaluates to 4 |
| Scenarios.MixedPrecedence | asociatividad.py:409 | `3 + 4 * 2 ** 3 - 1` is `(3 + (4 * (2 ** 3))) - 1` |
| Scenarios.MixedPrecedenceValue | asociatividad.py:409 | `3 + 4 * 2 ** 3 - 1` evaluates to 34 |
| Scenarios.AssignOnce | asociatividad.py:426 | `a = 5` is `Assign(a, 5)`; on the fresh interpreter it returns 5 and binds `a` to 5 |
| Scenarios.AssignTwice | asociatividad.py:427 | `b = a = 10` is `b = (a = 10)` |
| Scenarios.AssignTwiceValue | asociatividad.py:427 | after `a = 5`, `b = a = 10` returns 10 and binds both `a` and `b` to 10 |
| Scenarios.DoubleNegation | asociatividad.py:202-208 | `--x` is `-(-x)`: for every value `x` is bound to, it gives that value; with `x` unbound it fails with NameError |
| Scenarios.ChainedAssignment | asociatividad.py:428 | `c = b = a = 15` is `c = (b = (a = 15))` |
| Scenarios.ChainedAssignmentValue | asociatividad.py:428 | after `b = a = 10`, `c = b = a = 15` returns 15 and binds `a`, `b` and `c` to 15 |
| Scenarios.DivisionByZeroFails | asociatividad.py:315 | `1 / 0` fails with ZeroDivisionError |
| Scenarios.TrailingAssign | asociatividad.py:285-297 | `1 + 2 = 3` parses to `1 + 2` |
| Scenarios.TrailingNumber | asociatividad.py:295-297 | `2 3` parses to `2` |
| Scenarios.TrailingInvalidCharacter | asociatividad.py:295-297 | `1 2 @` parses to `1`: the bad character is never lexed |
| Scenarios.MissingOperand | asociatividad.py:224-225 | `2 +` fails with UnexpectedToken(EOF) |
| Scenarios.InvalidCharacterRefused | asociatividad.py:116 | `2 @ 3` fails with an invalid character at position 2 |

## Left out

- Floating point: a Python `float` is modelled as an exact `real`, so rounding, overflow, `inf` and `nan` are not modelled.
- Interpretation.Power: a fractional exponent has no exact real value in general. With a non-zero base, `Power` returns UnsupportedPower where Python returns a rounded float, or a complex number for a negative base. Zero to a positive fractional power is 0.0.
- Character classes: `isspace`, `isdigit`, `isalpha` and `isalnum` are restricted to ASCII. Python also accepts other Unicode letters, digits and spaces.
- Exception messages: the texts of the `Exception`, `NameError` and `ZeroDivisionError` messages are not modelled. Only the kind of error is kept, with the position, token or name it mentions.
- `Token.position` (`asociatividad.py:22-27`) is always 0 and nothing reads it, so it is not modelled. `__repr__` methods are left out for the same reason.
- `Parser.variables` (`asociatividad.py:181`) is created and never used, so it is not modelled.
- The `getattr` dispatch of `visit` (`asociatividad.py:345-351`) is a `match` on the node kind. Its "method not found" error cannot happen for the five node kinds and is not modelled.
- Tokens are compared by kind only. An AST node keeps the operator (`UnOp`, `BinOp`) or the name, not the whole token.
- The demonstration and the interactive loop (`asociatividad.py:358` to the end of the file) are console I/O. All thirteen expressions of the demonstration (`asociatividad.py:372-375`, `390-391`, `406-409` and `426-428`) are parsed and evaluated by lemmas of `scenarios.dfy`; the assignments are evaluated in order, each on the variables the one before left. The other lemmas of that file are edge cases that are not part of the demonstration.
- Interpretation.EvalSucceeds: Python's recursion limit is not modelled. `visit` recurses through `visit_BinaryOp` (`asociatividad.py:309`, `351`), two frames per tree level, so a deep tree such as `1` followed by 600 copies of ` + 1` raises RecursionError under CPython's default limit of 1000. `Eval`, `EvalSucceeds` and `Interpreter.Visit` return a value for every depth.
- Parsing.ParseText: the parser's recursion is not bounded either. About 250 nested parentheses (`factor` calls `expr` at `asociatividad.py:220`), about 1000 signs (`asociatividad.py:204`, `208`) or about 1000 `**` links (`asociatividad.py:238`) raise RecursionError in Python. `ParseText`, `Parser.Parse` and the theorems of `chains.dfy` return their tree for any length.
- Lexing.ParseNumber: since Python 3.11, `int()` refuses a literal of more than 4300 digits with ValueError (`asociatividad.py:61`). The model reads numerals of any length, so `ParseNumber`, `NumeralValue` and `LexNumeral` return Ok for them.
- Chains.FlatExprParse: the general parsing theorems cover expressions of natural numerals separated by single spaces. Parentheses, variables, signs inside an expression and other spacing are covered only by `SignedPowerText`, `SignedNameText`, `AssignTextParse` and the concrete scenarios.
