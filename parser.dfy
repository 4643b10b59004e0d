/** The recursive-descent parser. The grammar is the call chain
      assignment -> expr -> term -> power -> factor
    and associativity comes from its shape: term and expr loop and fold to
    the left, power and assignment call themselves on the right, a unary
    sign wraps another factor, and a parenthesised expression restarts at
    expr. Tokens are pulled from the lexer one at a time, so the state of a
    parse is the lexer's cursor together with the current token.
    The functions Parse* specify each rule; the class Parser is the parser
    itself, whose methods are proved to follow them. */
module Parsing {
  import opened Numbers
  import opened Tokens
  import opened Lexing
  import opened Syntax

  /** The lexer's cursor and the parser's `current_token`. */
  datatype PState = PState(pos: nat, tok: Token)

  /** A parsed subtree and the state after it. */
  datatype Parsed = Parsed(node: Node, st: PState)

  /** What is left to read: the unscanned characters, plus one for the
      current token unless it is EOF. Every consumed token lowers it. */
  function Measure(text: string, st: PState): nat {
    (if st.pos <= |text| then |text| - st.pos else 0) + (if st.tok.kind == EOF then 0 else 1)
  }

  /** The token kinds that let an enclosing rule go on. */
  predicate Continues(kind: TokenType) {
    kind in {POWER, MULTIPLY, DIVIDE, PLUS, MINUS}
  }

  /** `eat`: consume the current token if it has the expected kind, pulling
      the next one from the lexer. */
  function Consume(text: string, st: PState, kind: TokenType): (r: Result<PState>)
    ensures r.Ok? ==> WellFormed(r.value.tok) && st.tok.kind == kind
    ensures r.Ok? && kind != EOF ==> Measure(text, r.value) < Measure(text, st)
    ensures st.tok.kind != kind ==> r == Err(UnexpectedToken(st.tok))
  {
    if st.tok.kind == kind then
      var l :- NextToken(text, st.pos);
      Ok(PState(l.next, l.tok))
    else
      Err(UnexpectedToken(st.tok))
  }

  /** factor : (PLUS | MINUS) factor | NUMBER | IDENTIFIER | LPAREN expr RPAREN */
  function ParseFactor(text: string, st: PState): (r: Result<Parsed>)
    requires WellFormed(st.tok)
    ensures r.Ok? ==> Measure(text, r.value.st) < Measure(text, st) && WellFormed(r.value.st.tok)
    ensures r.Ok? ==> NoAssign(r.value.node)
    decreases Measure(text, st), 0
  {
    var tok := st.tok;
    if tok.kind == PLUS then
      var st1 :- Consume(text, st, PLUS);
      var e :- ParseFactor(text, st1);
      Ok(Parsed(UnaryOp(Pos, e.node), e.st))
    else if tok.kind == MINUS then
      var st1 :- Consume(text, st, MINUS);
      var e :- ParseFactor(text, st1);
      Ok(Parsed(UnaryOp(Neg, e.node), e.st))
    else if tok.kind == NUMBER then
      var st1 :- Consume(text, st, NUMBER);
      Ok(Parsed(Num(tok.value.number), st1))
    else if tok.kind == IDENTIFIER then
      var st1 :- Consume(text, st, IDENTIFIER);
      Ok(Parsed(Var(tok.value.text), st1))
    else if tok.kind == LPAREN then
      var st1 :- Consume(text, st, LPAREN);
      var e :- ParseExpr(text, st1);
      var st2 :- Consume(text, e.st, RPAREN);
      Ok(Parsed(e.node, st2))
    else
      Err(UnexpectedToken(tok))
  }

  /** power : factor (POWER power)? -- the right operand is a power. */
  function ParsePower(text: string, st: PState): (r: Result<Parsed>)
    requires WellFormed(st.tok)
    ensures r.Ok? ==> Measure(text, r.value.st) < Measure(text, st) && WellFormed(r.value.st.tok)
    ensures r.Ok? ==> NoAssign(r.value.node) && r.value.st.tok.kind != POWER
    decreases Measure(text, st), 1
  {
    var f :- ParseFactor(text, st);
    if f.st.tok.kind == POWER then
      var st1 :- Consume(text, f.st, POWER);
      var rhs :- ParsePower(text, st1);
      Ok(Parsed(BinaryOp(f.node, Pow, rhs.node), rhs.st))
    else
      Ok(f)
  }

  /** The loop of term: while the current token is MULTIPLY or DIVIDE,
      consume it, parse a power and fold it onto the tree built so far. */
  function ParseTermTail(text: string, acc: Node, st: PState): (r: Result<Parsed>)
    requires WellFormed(st.tok)
    ensures r.Ok? ==> Measure(text, r.value.st) <= Measure(text, st) && WellFormed(r.value.st.tok)
    ensures r.Ok? && NoAssign(acc) ==> NoAssign(r.value.node)
    ensures r.Ok? ==> r.value.st.tok.kind !in {MULTIPLY, DIVIDE}
    ensures r.Ok? && st.tok.kind != POWER ==> r.value.st.tok.kind != POWER
    decreases Measure(text, st), 2
  {
    if st.tok.kind == MULTIPLY || st.tok.kind == DIVIDE then
      var st1 :- if st.tok.kind == MULTIPLY then Consume(text, st, MULTIPLY) else Consume(text, st, DIVIDE);
      var rhs :- ParsePower(text, st1);
      ParseTermTail(text, BinaryOp(acc, if st.tok.kind == MULTIPLY then Mul else Div, rhs.node), rhs.st)
    else
      Ok(Parsed(acc, st))
  }

  /** term : power ((MULTIPLY | DIVIDE) power)* */
  function ParseTerm(text: string, st: PState): (r: Result<Parsed>)
    requires WellFormed(st.tok)
    ensures r.Ok? ==> Measure(text, r.value.st) < Measure(text, st) && WellFormed(r.value.st.tok)
    ensures r.Ok? ==> NoAssign(r.value.node) && r.value.st.tok.kind !in {POWER, MULTIPLY, DIVIDE}
    decreases Measure(text, st), 3
  {
    var p :- ParsePower(text, st);
    ParseTermTail(text, p.node, p.st)
  }

  /** The loop of expr: while the current token is PLUS or MINUS, consume
      it, parse a term and fold it onto the tree built so far. */
  function ParseExprTail(text: string, acc: Node, st: PState): (r: Result<Parsed>)
    requires WellFormed(st.tok)
    ensures r.Ok? ==> Measure(text, r.value.st) <= Measure(text, st) && WellFormed(r.value.st.tok)
    ensures r.Ok? && NoAssign(acc) ==> NoAssign(r.value.node)
    ensures r.Ok? ==> r.value.st.tok.kind !in {PLUS, MINUS}
    ensures r.Ok? && st.tok.kind !in {POWER, MULTIPLY, DIVIDE} ==> !Continues(r.value.st.tok.kind)
    decreases Measure(text, st), 4
  {
    if st.tok.kind == PLUS || st.tok.kind == MINUS then
      var st1 :- if st.tok.kind == PLUS then Consume(text, st, PLUS) else Consume(text, st, MINUS);
      var rhs :- ParseTerm(text, st1);
      ParseExprTail(text, BinaryOp(acc, if st.tok.kind == PLUS then Add else Sub, rhs.node), rhs.st)
    else
      Ok(Parsed(acc, st))
  }

  /** expr : term ((PLUS | MINUS) term)* */
  function ParseExpr(text: string, st: PState): (r: Result<Parsed>)
    requires WellFormed(st.tok)
    ensures r.Ok? ==> Measure(text, r.value.st) < Measure(text, st) && WellFormed(r.value.st.tok)
    ensures r.Ok? ==> NoAssign(r.value.node) && !Continues(r.value.st.tok.kind)
    decreases Measure(text, st), 5
  {
    var t :- ParseTerm(text, st);
    ParseExprTail(text, t.node, t.st)
  }

  /** assignment : expr, then, when expr gave a Var and the current token is
      ASSIGN, that token and another assignment on the right. */
  function ParseAssignment(text: string, st: PState): (r: Result<Parsed>)
    requires WellFormed(st.tok)
    ensures r.Ok? ==> Measure(text, r.value.st) < Measure(text, st) && WellFormed(r.value.st.tok)
    ensures r.Ok? ==> AssignmentsAtRoot(r.value.node) && !Continues(r.value.st.tok.kind)
    ensures r.Ok? && r.value.node.Var? ==> r.value.st.tok.kind != ASSIGN
    decreases Measure(text, st), 6
  {
    var e :- ParseExpr(text, st);
    if e.node.Var? && e.st.tok.kind == ASSIGN then
      var st1 :- Consume(text, e.st, ASSIGN);
      var rhs :- ParseAssignment(text, st1);
      Ok(Parsed(Assign(e.node.name, rhs.node), rhs.st))
    else
      Ok(e)
  }

  /** The whole front end on a text: build the lexer, pull the first token,
      parse one assignment. Nothing checks that the input is used up. */
  function ParseText(text: string): (r: Result<Node>)
    ensures r.Ok? ==> AssignmentsAtRoot(r.value)
  {
    var l :- NextToken(text, 0);
    var p :- ParseAssignment(text, PState(l.next, l.tok));
    Ok(p.node)
  }

  // Properties of the rules.

  /** `factor` refuses every token that cannot start one (EOF, an operator
      other than a sign, `)`, `=`), and so does every rule above it, with
      the token it found. */
  lemma FactorRefuses(text: string, st: PState)
    requires WellFormed(st.tok) && st.tok.kind !in {PLUS, MINUS, NUMBER, IDENTIFIER, LPAREN}
    ensures ParseFactor(text, st) == Err(UnexpectedToken(st.tok))
    ensures ParseAssignment(text, st) == Err(UnexpectedToken(st.tok))
  {
    assert ParsePower(text, st) == Err(UnexpectedToken(st.tok));
    assert ParseTerm(text, st) == Err(UnexpectedToken(st.tok));
    assert ParseExpr(text, st) == Err(UnexpectedToken(st.tok));
  }

  /** `assignment` builds an Assign exactly when `expr` gave a Var and the
      current token after it is ASSIGN; otherwise it returns what `expr`
      returned. */
  lemma AssignmentShape(text: string, st: PState)
    requires WellFormed(st.tok)
    ensures var e, r := ParseExpr(text, st), ParseAssignment(text, st);
            && (r.Ok? && r.value.node.Assign? ==>
                  e.Ok? && e.value.node == Var(r.value.node.target) && e.value.st.tok.kind == ASSIGN)
            && (e.Ok? && !(e.value.node.Var? && e.value.st.tok.kind == ASSIGN) ==> r == e)
            && (e.Err? ==> r == e)
  {
  }

  /** A method's result and final state agree with a rule's specification. */
  ghost predicate Agrees(spec: Result<Parsed>, r: Result<Node>, st: PState) {
    match spec
    case Ok(p) => r == Ok(p.node) && st == p.st
    case Err(e) => r == Err(e)
  }

  /** The parser: the lexer it pulls from and the current token. */
  class Parser {
    const lexer: Lexer
    var currentToken: Token

    ghost predicate Valid()
      reads this, lexer
    {
      lexer.Valid() && WellFormed(currentToken)
    }

    ghost function State(): PState
      reads this, lexer
    {
      PState(lexer.pos, currentToken)
    }

    constructor Init(lexer: Lexer, first: Token)
      requires WellFormed(first)
      ensures this.lexer == lexer && currentToken == first
    {
      this.lexer := lexer;
      currentToken := first;
    }

    /** `Parser(lexer)`: pulls the first token, which may fail. */
    static method Create(lexer: Lexer) returns (r: Result<Parser>)
      requires lexer.Valid()
      modifies lexer
      ensures match NextToken(lexer.text, old(lexer.pos))
              case Ok(l) =>
                && r.Ok? && fresh(r.value) && r.value.lexer == lexer
                && r.value.Valid() && r.value.State() == PState(l.next, l.tok)
              case Err(e) => r == Err(e)
    {
      var first :- lexer.GetNextToken();
      var p := new Parser.Init(lexer, first);
      return Ok(p);
    }

    method Eat(kind: TokenType) returns (r: Result<()>)
      requires Valid()
      modifies this, lexer
      ensures Valid()
      ensures match Consume(lexer.text, old(State()), kind)
              case Ok(st) => r.Ok? && State() == st
              case Err(e) => r == Err(e)
    {
      if currentToken.kind == kind {
        var next :- lexer.GetNextToken();
        currentToken := next;
        return Ok(());
      } else {
        return Err(UnexpectedToken(currentToken));
      }
    }

    method Factor() returns (r: Result<Node>)
      requires Valid()
      modifies this, lexer
      ensures Valid()
      ensures Agrees(ParseFactor(lexer.text, old(State())), r, State())
      decreases Measure(lexer.text, State()), 0
    {
      var token := currentToken;
      if token.kind == PLUS {
        var eaten :- Eat(PLUS);
        var e :- Factor();
        return Ok(UnaryOp(Pos, e));
      } else if token.kind == MINUS {
        var eaten :- Eat(MINUS);
        var e :- Factor();
        return Ok(UnaryOp(Neg, e));
      } else if token.kind == NUMBER {
        var eaten :- Eat(NUMBER);
        return Ok(Num(token.value.number));
      } else if token.kind == IDENTIFIER {
        var eaten :- Eat(IDENTIFIER);
        return Ok(Var(token.value.text));
      } else if token.kind == LPAREN {
        var eaten :- Eat(LPAREN);
        var node :- Expr();
        eaten :- Eat(RPAREN);
        return Ok(node);
      } else {
        return Err(UnexpectedToken(token));
      }
    }

    method Power() returns (r: Result<Node>)
      requires Valid()
      modifies this, lexer
      ensures Valid()
      ensures Agrees(ParsePower(lexer.text, old(State())), r, State())
      decreases Measure(lexer.text, State()), 1
    {
      var node :- Factor();
      if currentToken.kind == POWER {
        var eaten :- Eat(POWER);
        var right :- Power();
        node := BinaryOp(node, Pow, right);
      }
      return Ok(node);
    }

    method Term() returns (r: Result<Node>)
      requires Valid()
      modifies this, lexer
      ensures Valid()
      ensures Agrees(ParseTerm(lexer.text, old(State())), r, State())
      decreases Measure(lexer.text, State()), 3
    {
      var node :- Power();
      while currentToken.kind == MULTIPLY || currentToken.kind == DIVIDE
        invariant Valid()
        invariant ParseTermTail(lexer.text, node, State()) == ParseTerm(lexer.text, old(State()))
        invariant Measure(lexer.text, State()) < old(Measure(lexer.text, State()))
        decreases Measure(lexer.text, State())
      {
        var token := currentToken;
        var eaten;
        if token.kind == MULTIPLY {
          eaten :- Eat(MULTIPLY);
        } else {
          eaten :- Eat(DIVIDE);
        }
        var right :- Power();
        node := BinaryOp(node, if token.kind == MULTIPLY then Mul else Div, right);
      }
      return Ok(node);
    }

    method Expr() returns (r: Result<Node>)
      requires Valid()
      modifies this, lexer
      ensures Valid()
      ensures Agrees(ParseExpr(lexer.text, old(State())), r, State())
      decreases Measure(lexer.text, State()), 5
    {
      var node :- Term();
      while currentToken.kind == PLUS || currentToken.kind == MINUS
        invariant Valid()
        invariant ParseExprTail(lexer.text, node, State()) == ParseExpr(lexer.text, old(State()))
        invariant Measure(lexer.text, State()) < old(Measure(lexer.text, State()))
        decreases Measure(lexer.text, State())
      {
        var token := currentToken;
        var eaten;
        if token.kind == PLUS {
          eaten :- Eat(PLUS);
        } else {
          eaten :- Eat(MINUS);
        }
        var right :- Term();
        node := BinaryOp(node, if token.kind == PLUS then Add else Sub, right);
      }
      return Ok(node);
    }

    method Assignment() returns (r: Result<Node>)
      requires Valid()
      modifies this, lexer
      ensures Valid()
      ensures Agrees(ParseAssignment(lexer.text, old(State())), r, State())
      decreases Measure(lexer.text, State()), 6
    {
      var node :- Expr();
      if node.Var? && currentToken.kind == ASSIGN {
        var eaten :- Eat(ASSIGN);
        var right :- Assignment();
        node := Assign(node.name, right);
      }
      return Ok(node);
    }

    method Parse() returns (r: Result<Node>)
      requires Valid()
      modifies this, lexer
      ensures Valid()
      ensures Agrees(ParseAssignment(lexer.text, old(State())), r, State())
    {
      r := Assignment();
    }
  }

  /** `Parser(Lexer(text)).parse()`. */
  method ParseSource(text: string) returns (r: Result<Node>)
    ensures r == ParseText(text)
  {
    var lexer := new Lexer(text);
    var parser :- Parser.Create(lexer);
    r := parser.Parse();
  }
}
