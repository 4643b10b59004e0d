/** The vocabulary shared by the three stages: tokens, the errors the
    pipeline raises, and the Result type that carries them. */
module Tokens {
  import opened Numbers

  datatype Option<+T> = None | Some(value: T)

  /** The kinds of token the lexer emits (TokenType in the source). */
  datatype TokenType =
    | NUMBER | PLUS | MINUS | MULTIPLY | DIVIDE | POWER
    | ASSIGN | LPAREN | RPAREN | IDENTIFIER | EOF

  /** The payload of a token: the number of a NUMBER, the name of an
      IDENTIFIER, the lexeme of an operator, nothing for EOF. */
  datatype TokenValue = Numeric(number: Number) | Text(text: string) | NoValue

  datatype Token = Token(kind: TokenType, value: TokenValue)

  /** NUMBER tokens carry a number and IDENTIFIER tokens a name. */
  predicate WellFormed(t: Token) {
    && (t.kind == NUMBER ==> t.value.Numeric?)
    && (t.kind == IDENTIFIER ==> t.value.Text?)
  }

  /** The lexeme the lexer stores as the value of an operator token. */
  function Lexeme(kind: TokenType): TokenValue {
    match kind
    case PLUS => Text("+")
    case MINUS => Text("-")
    case MULTIPLY => Text("*")
    case DIVIDE => Text("/")
    case POWER => Text("**")
    case ASSIGN => Text("=")
    case LPAREN => Text("(")
    case RPAREN => Text(")")
    case _ => NoValue
  }

  /** The token of an operator, a parenthesis or the end of input. */
  function Sym(kind: TokenType): Token {
    Token(kind, Lexeme(kind))
  }

  /** Every way the pipeline fails.
      InvalidCharacter: the lexer met a character it does not know, at `pos`.
      InvalidNumber: a run of digits and dots that is not a Python number.
      UnexpectedToken: the parser expected something else than `token`.
      NameError: a variable was read before any assignment to it.
      DivisionByZero: `/` by zero, or zero raised to a negative power.
      UnsupportedPower: a fractional exponent, outside this model's numbers. */
  datatype Error =
    | InvalidCharacter(pos: nat)
    | InvalidNumber(literal: string)
    | UnexpectedToken(token: Token)
    | NameError(name: string)
    | DivisionByZero
    | UnsupportedPower

  /** Python's exceptions, as a value. */
  datatype Result<+T> = Ok(value: T) | Err(error: Error)
  {
    predicate IsFailure() {
      Err?
    }

    function PropagateFailure<U>(): Result<U>
      requires Err?
    {
      Err(error)
    }

    function Extract(): T
      requires Ok?
    {
      value
    }
  }
}
