/** Associativity and precedence, for all inputs of a given shape.
    A flat expression is numerals joined by binary operators, written with
    one space around each operator. Its text is generated from a description
    (chains of powers inside chains of products inside a chain of sums),
    and the parse of every such text is proved to be the expected tree:
    `+ - * /` fold to the left, `**` groups to the right, `**` binds tighter
    than `* /`, which bind tighter than `+ -`. The same is done for chains of
    assignments and for unary signs. */
module Chains {
  import opened Numbers
  import opened Tokens
  import opened Lexing
  import opened Syntax
  import opened Parsing
  import opened Interpretation

  /** Lexing at `q` gives the current token and cursor of `st`. */
  predicate LexesTo(text: string, q: nat, st: PState) {
    NextToken(text, q) == Ok(Lexed(st.tok, st.pos))
  }

  function Lit(n: nat): Node {
    Num(Int(n))
  }

  function NumTok(n: nat): Token {
    Token(NUMBER, Numeric(Int(n)))
  }

  function NameTok(x: string): Token {
    Token(IDENTIFIER, Text(x))
  }

  function OpText(op: BinOp): string {
    match op
    case Add => "+"
    case Sub => "-"
    case Mul => "*"
    case Div => "/"
    case Pow => "**"
  }

  function OpKind(op: BinOp): TokenType {
    match op
    case Add => PLUS
    case Sub => MINUS
    case Mul => MULTIPLY
    case Div => DIVIDE
    case Pow => POWER
  }

  /** A binary operator with one space on each side. */
  function Sep(op: BinOp): string {
    " " + OpText(op) + " "
  }

  /** What may follow a token without joining it: nothing, or a space. */
  predicate Boundary(rest: string) {
    rest == [] || rest[0] == ' '
  }

  lemma Suffix(text: string, q: nat, a: string, b: string)
    requires q <= |text| && text[q..] == a + b
    ensures q + |a| <= |text| && text[q..q + |a|] == a && text[q + |a|..] == b
  {
    assert text[q..][..|a|] == a;
    assert text[q..][|a|..] == b;
  }

  // Single tokens.

  /** The state after lexing at the start of a numeral. */
  function NumStart(q: nat, n: nat): PState {
    PState(q + |Numeral(n)|, NumTok(n))
  }

  lemma LexNum(text: string, q: nat, n: nat, rest: string)
    requires q <= |text| && text[q..] == Numeral(n) + rest && Boundary(rest)
    ensures LexesTo(text, q, NumStart(q, n))
  {
    Suffix(text, q, Numeral(n), rest);
    if rest != [] {
      assert text[q + |Numeral(n)|] == rest[0];
    }
    LexNumeral(text, q, n);
  }

  lemma LexName(text: string, q: nat, x: string, rest: string)
    requires IsIdentifier(x)
    requires q <= |text| && text[q..] == x + rest && Boundary(rest)
    ensures LexesTo(text, q, PState(q + |x|, NameTok(x)))
  {
    Suffix(text, q, x, rest);
    if rest != [] {
      assert text[q + |x|] == rest[0];
    }
    LexIdentifier(text, q, x);
  }

  /** An operator followed by a space is one token. */
  lemma LexOpAt(text: string, p: nat, op: BinOp)
    requires p + |OpText(op)| < |text|
    requires text[p..p + |OpText(op)|] == OpText(op) && text[p + |OpText(op)|] == ' '
    ensures NextToken(text, p) == Ok(Lexed(Sym(OpKind(op)), p + |OpText(op)|))
  {
    assert text[p] == OpText(op)[0];
    if op == Pow {
      assert text[p + 1] == '*';
    }
  }

  /** An operator between spaces is one token. */
  lemma LexSep(text: string, q: nat, op: BinOp, rest: string)
    requires q <= |text| && text[q..] == Sep(op) + rest
    ensures LexesTo(text, q, PState(q + 1 + |OpText(op)|, Sym(OpKind(op))))
    ensures q + |Sep(op)| <= |text| && text[q + 1 + |OpText(op)|] == ' '
    ensures text[q + |Sep(op)|..] == rest
  {
    var k := |OpText(op)|;
    Suffix(text, q, Sep(op), rest);
    assert text[q..q + k + 2] == Sep(op);
    assert text[q] == ' ';
    assert text[q + 1..q + 1 + k] == OpText(op);
    assert text[q + 1 + k] == ' ';
    LexOpAt(text, q + 1, op);
    SpacesAreSkipped(text, q, q + 1);
  }

  /** `=` between spaces is an ASSIGN token. */
  lemma LexAssignSep(text: string, q: nat, rest: string)
    requires q <= |text| && text[q..] == " = " + rest
    ensures LexesTo(text, q, PState(q + 2, Sym(ASSIGN)))
    ensures q + 3 <= |text| && text[q + 2] == ' ' && text[q + 3..] == rest
  {
    Suffix(text, q, " = ", rest);
    assert text[q] == ' ' && text[q + 1] == '=' && text[q + 2] == ' ';
    SpacesAreSkipped(text, q, q + 1);
  }

  /** A space before a token is skipped. */
  lemma SpaceBefore(text: string, p: nat, n: nat, st: PState)
    requires n == p + 1 && p < |text| && text[p] == ' ' && LexesTo(text, n, st)
    ensures LexesTo(text, p, st)
  {
    SpacesAreSkipped(text, p, p + 1);
  }

  /** The end of the text is EOF, however often it is asked for. */
  lemma LexEnd(text: string)
    ensures LexesTo(text, |text|, PState(|text|, Sym(EOF)))
  {
    EofIffBlank(text, |text|);
  }

  // Flat expressions.

  /** `base ** e1 ** ... ** ek`. */
  datatype Powers = Powers(base: nat, exps: seq<nat>)

  /** An operator and its right operand. */
  datatype Link<T> = Link(op: BinOp, arg: T)

  /** Powers joined by `*` and `/`. */
  datatype Term = Term(first: Powers, links: seq<Link<Powers>>)

  /** Terms joined by `+` and `-`. */
  datatype Expr = Expr(first: Term, links: seq<Link<Term>>)

  predicate MulOps(links: seq<Link<Powers>>) {
    forall i | 0 <= i < |links| :: links[i].op in {Mul, Div}
  }

  predicate AddOps(links: seq<Link<Term>>) {
    && (forall i | 0 <= i < |links| :: links[i].op in {Add, Sub})
    && (forall i | 0 <= i < |links| :: MulOps(links[i].arg.links))
  }

  predicate ValidExpr(e: Expr) {
    MulOps(e.first.links) && AddOps(e.links)
  }

  function PowText(p: Powers): string
    decreases |p.exps|
  {
    if p.exps == [] then Numeral(p.base)
    else Numeral(p.base) + Sep(Pow) + PowText(Powers(p.exps[0], p.exps[1..]))
  }

  function MulText(links: seq<Link<Powers>>): string {
    if links == [] then "" else Sep(links[0].op) + PowText(links[0].arg) + MulText(links[1..])
  }

  function TermText(t: Term): string {
    PowText(t.first) + MulText(t.links)
  }

  function AddText(links: seq<Link<Term>>): string {
    if links == [] then "" else Sep(links[0].op) + TermText(links[0].arg) + AddText(links[1..])
  }

  function ExprText(e: Expr): string {
    TermText(e.first) + AddText(e.links)
  }

  /** The intended trees: powers nest to the right, ... */
  function PowTree(p: Powers): Node
    decreases |p.exps|
  {
    if p.exps == [] then Lit(p.base)
    else BinaryOp(Lit(p.base), Pow, PowTree(Powers(p.exps[0], p.exps[1..])))
  }

  /** ... products and quotients nest to the left, ... */
  function MulFold(acc: Node, links: seq<Link<Powers>>): Node
    decreases |links|
  {
    if links == [] then acc
    else MulFold(BinaryOp(acc, links[0].op, PowTree(links[0].arg)), links[1..])
  }

  function TermTree(t: Term): Node {
    MulFold(PowTree(t.first), t.links)
  }

  /** ... and so do sums and differences. */
  function AddFold(acc: Node, links: seq<Link<Term>>): Node
    decreases |links|
  {
    if links == [] then acc
    else AddFold(BinaryOp(acc, links[0].op, TermTree(links[0].arg)), links[1..])
  }

  function ExprTree(e: Expr): Node {
    AddFold(TermTree(e.first), e.links)
  }

  /** The state after lexing at the start of a tail of links: the first
      operator, or `fin` when there is none. */
  function Head<T>(q: nat, links: seq<Link<T>>, fin: PState): PState {
    if links == [] then fin else PState(q + 1 + |OpText(links[0].op)|, Sym(OpKind(links[0].op)))
  }

  // Single steps of the parser.

  /** `eat` of the expected kind moves to the state lexed after it. */
  lemma ConsumeStep(text: string, st: PState, kind: TokenType, nxt: PState)
    requires st.tok.kind == kind && LexesTo(text, st.pos, nxt)
    ensures Consume(text, st, kind) == Ok(nxt)
  {
  }

  /** A NUMBER token is a whole factor. */
  lemma FactorNum(text: string, st: PState, n: nat, nxt: PState)
    requires st.tok == NumTok(n) && LexesTo(text, st.pos, nxt)
    ensures ParseFactor(text, st) == Ok(Parsed(Lit(n), nxt))
  {
    ConsumeStep(text, st, NUMBER, nxt);
  }

  /** A factor not followed by `**` is a whole power. */
  lemma PowerOfFactor(text: string, st: PState, f: Parsed)
    requires WellFormed(st.tok) && ParseFactor(text, st) == Ok(f) && f.st.tok.kind != POWER
    ensures ParsePower(text, st) == Ok(f)
  {
  }

  /** A factor followed by `**` takes the power after it as its exponent. */
  lemma PowerOfPower(text: string, st: PState, f: Parsed, st1: PState, rhs: Parsed)
    requires WellFormed(st.tok) && ParseFactor(text, st) == Ok(f) && f.st.tok.kind == POWER
    requires LexesTo(text, f.st.pos, st1) && ParsePower(text, st1) == Ok(rhs)
    ensures ParsePower(text, st) == Ok(Parsed(BinaryOp(f.node, Pow, rhs.node), rhs.st))
  {
    ConsumeStep(text, f.st, POWER, st1);
  }

  /** The text of `**` between spaces. */
  lemma PowSep()
    ensures |OpText(Pow)| == 2 && OpKind(Pow) == POWER && |Sep(Pow)| == 4
  {
  }

  lemma PowTextLength(p: Powers)
    requires p.exps != []
    ensures |PowText(p)| == |Numeral(p.base)| + 4 + |PowText(Powers(p.exps[0], p.exps[1..]))|
  {
  }

  /** An operator between spaces starts with a space. */
  lemma SepBoundary(op: BinOp, rest: string)
    ensures Boundary(Sep(op) + rest)
  {
  }

  /** Three pieces and a rest, regrouped, and the text after the first. */
  lemma Split3(text: string, q: nat, x: string, y: string, z: string, rest: string)
    requires q <= |text| && text[q..] == x + y + z + rest
    ensures text[q..] == x + (y + (z + rest))
    ensures q + |x| <= |text| && text[q + |x|..] == y + (z + rest)
  {
    assert text[q..] == x + (y + (z + rest));
    Suffix(text, q, x, y + (z + rest));
  }

  /** The chain after the first `**` of a chain of two or more powers. */
  function PowTail(p: Powers): Powers
    requires p.exps != []
  {
    Powers(p.exps[0], p.exps[1..])
  }

  // Chains of powers.

  /** The text from `q` to `e` is the chain `p`, then comes `rest`. */
  predicate PowTextAt(text: string, q: nat, e: nat, p: Powers, rest: string) {
    q <= |text| && text[q..] == PowText(p) + rest && e == q + |PowText(p)| && Boundary(rest)
  }

  /** `power`, at the first token of the chain `p` at `q`, builds its tree
      and stops at `fin`. */
  predicate PowParsesAt(text: string, q: nat, p: Powers, fin: PState) {
    && LexesTo(text, q, NumStart(q, p.base))
    && ParsePower(text, NumStart(q, p.base)) == Ok(Parsed(PowTree(p), fin))
  }

  /** A chain of one numeral. */
  lemma PowBaseText(text: string, q: nat, e: nat, p: Powers, rest: string)
    requires p.exps == [] && PowTextAt(text, q, e, p, rest)
    ensures text[q..] == Numeral(p.base) + rest && e == q + |Numeral(p.base)|
  {
  }

  /** A chain of two or more powers: its first numeral, ending at `a`,
      `**` between spaces, then the chain after it, up to the same end. */
  lemma PowTailText(text: string, q: nat, a: nat, b: nat, e: nat, p: Powers, rest: string)
    requires p.exps != [] && a == q + |Numeral(p.base)| && b == a + 4 && PowTextAt(text, q, e, p, rest)
    ensures PowTextAt(text, b, e, PowTail(p), rest)
    ensures text[q..] == Numeral(p.base) + (Sep(Pow) + (PowText(PowTail(p)) + rest))
    ensures a <= |text| && text[a..] == Sep(Pow) + (PowText(PowTail(p)) + rest)
  {
    var next := PowTail(p);
    PowSep();
    PowTextLength(p);
    Split3(text, q, Numeral(p.base), Sep(Pow), PowText(next), rest);
    Suffix(text, a, Sep(Pow), PowText(next) + rest);
  }

  /** `**` between spaces. */
  lemma LexPowSep(text: string, q: nat, rest: string)
    requires q <= |text| && text[q..] == Sep(Pow) + rest
    ensures LexesTo(text, q, PState(q + 3, Sym(POWER)))
    ensures q + 4 <= |text| && text[q + 3] == ' ' && text[q + 4..] == rest
  {
    PowSep();
    LexSep(text, q, Pow, rest);
  }

  /** The tokens a chain of two or more powers starts with: a numeral
      ending at `a`, then `**` and a space. */
  predicate PowHead(text: string, q: nat, n: nat) {
    var a := q + |Numeral(n)|;
    && LexesTo(text, q, NumStart(q, n))
    && LexesTo(text, a, PState(a + 3, Sym(POWER)))
    && a + 3 < |text| && text[a + 3] == ' '
  }

  lemma PowHeadLex(text: string, q: nat, a: nat, n: nat, rest: string)
    requires a == q + |Numeral(n)| && q <= |text| && text[q..] == Numeral(n) + (Sep(Pow) + rest)
    requires a <= |text| && text[a..] == Sep(Pow) + rest
    ensures PowHead(text, q, n)
  {
    SepBoundary(Pow, rest);
    LexNum(text, q, n, Sep(Pow) + rest);
    LexPowSep(text, a, rest);
  }

  /** A numeral, `**`, a space and a power: `power` nests the power as the
      right operand. */
  lemma PowStep(text: string, q: nat, a: nat, b: nat, p: Powers, fin: PState)
    requires p.exps != [] && a == q + |Numeral(p.base)| && b == a + 4 && PowHead(text, q, p.base)
    requires PowParsesAt(text, b, PowTail(p), fin)
    ensures PowParsesAt(text, q, p, fin)
  {
    var st1 := NumStart(b, PowTail(p).base);
    PowStepTokens(text, q, a, b, p.base, st1, Parsed(PowTree(PowTail(p)), fin));
  }

  /** The token-level part of PowStep: a numeral, `**` and a space before a
      power whose tree is `rhs`. */
  lemma PowStepTokens(text: string, q: nat, a: nat, b: nat, n: nat, st1: PState, rhs: Parsed)
    requires a == q + |Numeral(n)| && b == a + 4 && PowHead(text, q, n)
    requires LexesTo(text, b, st1) && ParsePower(text, st1) == Ok(rhs)
    ensures ParsePower(text, NumStart(q, n)) == Ok(Parsed(BinaryOp(Lit(n), Pow, rhs.node), rhs.st))
  {
    PowHeadSpace(text, q, a, b, n, st1);
    var o := a + 3;
    var f := Parsed(Lit(n), PState(o, Sym(POWER)));
    assert f.st.pos == o;
    PowerOfPower(text, NumStart(q, n), f, st1, rhs);
  }

  /** A numeral, then `**` and a space before the token `st1`: `factor`
      reads the numeral and stops at `**`, which is followed by `st1`. */
  lemma PowHeadSpace(text: string, q: nat, a: nat, b: nat, n: nat, st1: PState)
    requires a == q + |Numeral(n)| && b == a + 4 && PowHead(text, q, n) && LexesTo(text, b, st1)
    ensures WellFormed(NumStart(q, n).tok)
    ensures ParseFactor(text, NumStart(q, n)) == Ok(Parsed(Lit(n), PState(a + 3, Sym(POWER))))
    ensures LexesTo(text, a + 3, st1)
  {
    var s, o := NumStart(q, n), a + 3;
    var op := PState(o, Sym(POWER));
    PowHeadFactor(text, q, a, n, s, op);
    SpaceBefore(text, o, b, st1);
  }

  /** A numeral not followed by `**` is a whole power. */
  lemma PowBase(text: string, q: nat, e: nat, p: Powers, rest: string, fin: PState)
    requires p.exps == [] && PowTextAt(text, q, e, p, rest)
    requires LexesTo(text, e, fin) && fin.tok.kind != POWER
    ensures PowParsesAt(text, q, p, fin)
  {
    PowBaseText(text, q, e, p, rest);
    LexNum(text, q, p.base, rest);
    FactorNum(text, NumStart(q, p.base), p.base, fin);
    PowerOfFactor(text, NumStart(q, p.base), Parsed(Lit(p.base), fin));
  }

  /** A chain of powers is parsed by `power` as a tree nested to the right,
      up to the first token that is not `**`. */
  lemma {:induction false} PowersParse(text: string, q: nat, e: nat, p: Powers, rest: string, fin: PState)
    requires PowTextAt(text, q, e, p, rest)
    requires LexesTo(text, e, fin) && fin.tok.kind != POWER
    ensures PowParsesAt(text, q, p, fin)
    decreases |p.exps|
  {
    if p.exps == [] {
      PowBase(text, q, e, p, rest, fin);
    } else {
      var a := q + |Numeral(p.base)|;
      var b := a + 4;
      PowTailText(text, q, a, b, e, p, rest);
      PowersParse(text, b, e, PowTail(p), rest, fin);
      PowHeadLex(text, q, a, p.base, PowText(PowTail(p)) + rest);
      PowStep(text, q, a, b, p, fin);
    }
  }

  /** An operator between spaces at the start of a chain of links is the
      token the chain starts with, ending at `o`; a space follows. */
  lemma OpLex<T>(text: string, q: nat, o: nat, links: seq<Link<T>>, rest: string, fin: PState)
    requires links != [] && o == q + 1 + |OpText(links[0].op)|
    requires q <= |text| && text[q..] == Sep(links[0].op) + rest
    ensures Head(q, links, fin) == PState(o, Sym(OpKind(links[0].op)))
    ensures LexesTo(text, q, Head(q, links, fin))
    ensures o < |text| && text[o] == ' ' && q + |Sep(links[0].op)| == o + 1
  {
    SepLength(links[0].op);
    LexSep(text, q, links[0].op, rest);
  }

  // Chains of products and quotients.

  lemma SepLength(op: BinOp)
    ensures |Sep(op)| == |OpText(op)| + 2
  {
  }

  /** What follows a chain of links starts with a space or is `rest`. */
  lemma MulRestBoundary(links: seq<Link<Powers>>, rest: string)
    requires Boundary(rest)
    ensures Boundary(MulText(links) + rest)
  {
    if links != [] {
      assert (MulText(links) + rest)[0] == Sep(links[0].op)[0];
    }
  }

  lemma MulOpsTail(links: seq<Link<Powers>>)
    requires links != [] && MulOps(links)
    ensures links[0].op in {Mul, Div} && MulOps(links[1..])
  {
    forall i | 0 <= i < |links[1..]|
      ensures links[1..][i].op in {Mul, Div}
    {
      assert links[1..][i] == links[i + 1];
    }
  }

  /** The token at the start of links joined by `*` and `/`. */
  lemma MulHeadKind(q: nat, links: seq<Link<Powers>>, fin: PState)
    requires MulOps(links) && fin.tok.kind !in {POWER, MULTIPLY, DIVIDE}
    ensures Head(q, links, fin).tok.kind != POWER
  {
    if links != [] {
      MulOpsTail(links);
    }
  }

  /** The text from `q` to `e` is a chain of links joined by `*` and `/`,
      then comes `rest`. */
  predicate MulTextAt(text: string, q: nat, e: nat, links: seq<Link<Powers>>, rest: string) {
    && MulOps(links)
    && q <= |text| && text[q..] == MulText(links) + rest && e == q + |MulText(links)| && Boundary(rest)
  }

  /** The loop of `term`, at the first token of the links at `q`, folds
      them onto `acc` and stops at `fin`. */
  predicate MulParsesAt(text: string, q: nat, links: seq<Link<Powers>>, fin: PState, acc: Node) {
    && LexesTo(text, q, Head(q, links, fin))
    && ParseTermTail(text, acc, Head(q, links, fin)) == Ok(Parsed(MulFold(acc, links), fin))
  }

  /** The first link of a chain: its operator between spaces, then its
      power from `b` to `next`, then the other links from `next` on. */
  lemma MulLinkText(text: string, q: nat, b: nat, next: nat, e: nat, links: seq<Link<Powers>>, rest: string)
    requires links != [] && b == q + |Sep(links[0].op)| && next == b + |PowText(links[0].arg)|
    requires MulTextAt(text, q, e, links, rest)
    ensures MulTextAt(text, next, e, links[1..], rest)
    ensures PowTextAt(text, b, next, links[0].arg, MulText(links[1..]) + rest)
    ensures text[q..] == Sep(links[0].op) + (PowText(links[0].arg) + (MulText(links[1..]) + rest))
    ensures links[0].op in {Mul, Div} && MulOps(links[1..])
  {
    var op, arg := links[0].op, links[0].arg;
    Split3(text, q, Sep(op), PowText(arg), MulText(links[1..]), rest);
    Suffix(text, b, PowText(arg), MulText(links[1..]) + rest);
    MulOpsTail(links);
    MulRestBoundary(links[1..], rest);
  }

  /** One turn of the loop of `term`: `*` or `/` and the power after it
      are folded onto `acc`. */
  lemma MulStepParse(text: string, st: PState, acc: Node, op: BinOp, st1: PState, rhs: Parsed)
    requires op in {Mul, Div} && st.tok == Sym(OpKind(op))
    requires LexesTo(text, st.pos, st1) && ParsePower(text, st1) == Ok(rhs)
    ensures WellFormed(st.tok) && WellFormed(st1.tok)
    ensures ParseTermTail(text, acc, st) == ParseTermTail(text, BinaryOp(acc, op, rhs.node), rhs.st)
  {
    ConsumeStep(text, st, OpKind(op), st1);
  }

  lemma MulStep(text: string, q: nat, o: nat, b: nat, next: nat, links: seq<Link<Powers>>, fin: PState, acc: Node, acc1: Node)
    requires links != [] && links[0].op in {Mul, Div} && acc1 == BinaryOp(acc, links[0].op, PowTree(links[0].arg))
    requires Head(q, links, fin) == PState(o, Sym(OpKind(links[0].op)))
    requires LexesTo(text, q, Head(q, links, fin)) && o < |text| && text[o] == ' ' && b == o + 1
    requires PowParsesAt(text, b, links[0].arg, Head(next, links[1..], fin))
    requires MulParsesAt(text, next, links[1..], fin, acc1)
    ensures MulParsesAt(text, q, links, fin, acc)
  {
    var st1 := NumStart(b, links[0].arg.base);
    SpaceBefore(text, o, b, st1);
    MulStepParse(text, Head(q, links, fin), acc, links[0].op, st1, Parsed(PowTree(links[0].arg), Head(next, links[1..], fin)));
  }

  /** No link: the loop of `term` stops at once. */
  lemma MulBase(text: string, q: nat, e: nat, links: seq<Link<Powers>>, rest: string, fin: PState, acc: Node)
    requires links == [] && MulTextAt(text, q, e, links, rest)
    requires LexesTo(text, e, fin) && fin.tok.kind !in {POWER, MULTIPLY, DIVIDE}
    ensures MulParsesAt(text, q, links, fin, acc)
  {
    assert e == q;
  }

  /** The loop of `term` folds a chain of `*` and `/` links to the left, up
      to the first token that continues neither a power nor a product. */
  lemma {:induction false} MulTailParse(text: string, q: nat, e: nat, links: seq<Link<Powers>>, rest: string, fin: PState, acc: Node)
    requires MulTextAt(text, q, e, links, rest)
    requires LexesTo(text, e, fin) && fin.tok.kind !in {POWER, MULTIPLY, DIVIDE}
    ensures MulParsesAt(text, q, links, fin, acc)
    decreases |links|
  {
    if links == [] {
      MulBase(text, q, e, links, rest, fin, acc);
    } else {
      var b := q + |Sep(links[0].op)|;
      var next := b + |PowText(links[0].arg)|;
      var acc1 := BinaryOp(acc, links[0].op, PowTree(links[0].arg));
      MulLinkText(text, q, b, next, e, links, rest);
      MulTailParse(text, next, e, links[1..], rest, fin, acc1);
      MulLinkParse(text, q, b, next, links, rest, fin, acc, acc1);
    }
  }

  /** The first link, given its text and the parse of the others. */
  lemma MulLinkParse(text: string, q: nat, b: nat, next: nat, links: seq<Link<Powers>>, rest: string, fin: PState, acc: Node, acc1: Node)
    requires links != [] && b == q + |Sep(links[0].op)| && next == b + |PowText(links[0].arg)|
    requires acc1 == BinaryOp(acc, links[0].op, PowTree(links[0].arg))
    requires PowTextAt(text, b, next, links[0].arg, MulText(links[1..]) + rest)
    requires text[q..] == Sep(links[0].op) + (PowText(links[0].arg) + (MulText(links[1..]) + rest))
    requires links[0].op in {Mul, Div} && MulOps(links[1..]) && fin.tok.kind !in {POWER, MULTIPLY, DIVIDE}
    requires MulParsesAt(text, next, links[1..], fin, acc1)
    ensures MulParsesAt(text, q, links, fin, acc)
  {
    var o := q + 1 + |OpText(links[0].op)|;
    MulHeadKind(next, links[1..], fin);
    PowersParse(text, b, next, links[0].arg, MulText(links[1..]) + rest, Head(next, links[1..], fin));
    OpLex(text, q, o, links, PowText(links[0].arg) + (MulText(links[1..]) + rest), fin);
    MulStep(text, q, o, b, next, links, fin, acc, acc1);
  }

  // Terms.

  /** The text from `q` to `e` is the term `t`, then comes `rest`. */
  predicate TermTextAt(text: string, q: nat, e: nat, t: Term, rest: string) {
    && MulOps(t.links)
    && q <= |text| && text[q..] == TermText(t) + rest && e == q + |TermText(t)| && Boundary(rest)
  }

  /** `term`, at the first token of `t` at `q`, builds its tree and stops
      at `fin`. */
  predicate TermParsesAt(text: string, q: nat, t: Term, fin: PState) {
    && LexesTo(text, q, NumStart(q, t.first.base))
    && ParseTerm(text, NumStart(q, t.first.base)) == Ok(Parsed(TermTree(t), fin))
  }

  /** A term is its first power, ending at `c`, then its links. */
  lemma TermSplit(text: string, q: nat, c: nat, e: nat, t: Term, rest: string)
    requires c == q + |PowText(t.first)| && TermTextAt(text, q, e, t, rest)
    ensures PowTextAt(text, q, c, t.first, MulText(t.links) + rest)
    ensures MulTextAt(text, c, e, t.links, rest)
  {
    var a, b := PowText(t.first), MulText(t.links);
    assert TermText(t) == a + b;
    assert text[q..] == a + (b + rest);
    Suffix(text, q, a, b + rest);
    assert text[c..] == b + rest && e == c + |b|;
    MulRestBoundary(t.links, rest);
  }

  lemma TermStep(text: string, q: nat, c: nat, t: Term, fin: PState, acc: Node)
    requires acc == PowTree(t.first)
    requires PowParsesAt(text, q, t.first, Head(c, t.links, fin))
    requires MulParsesAt(text, c, t.links, fin, acc)
    ensures TermParsesAt(text, q, t, fin)
  {
  }

  /** `term` parses a term: its powers nest to the right and its products
      and quotients fold to the left. */
  lemma TermParse(text: string, q: nat, e: nat, t: Term, rest: string, fin: PState)
    requires TermTextAt(text, q, e, t, rest)
    requires LexesTo(text, e, fin) && fin.tok.kind !in {POWER, MULTIPLY, DIVIDE}
    ensures TermParsesAt(text, q, t, fin)
  {
    var c, acc := q + |PowText(t.first)|, PowTree(t.first);
    TermSplit(text, q, c, e, t, rest);
    MulTailParse(text, c, e, t.links, rest, fin, acc);
    MulHeadKind(c, t.links, fin);
    PowersParse(text, q, c, t.first, MulText(t.links) + rest, Head(c, t.links, fin));
    TermStep(text, q, c, t, fin, acc);
  }

  // Chains of sums and differences.

  /** What follows a chain of links starts with a space or is `rest`. */
  lemma AddRestBoundary(links: seq<Link<Term>>, rest: string)
    requires Boundary(rest)
    ensures Boundary(AddText(links) + rest)
  {
    if links != [] {
      assert (AddText(links) + rest)[0] == Sep(links[0].op)[0];
    }
  }

  lemma AddOpsTail(links: seq<Link<Term>>)
    requires links != [] && AddOps(links)
    ensures links[0].op in {Add, Sub} && MulOps(links[0].arg.links) && AddOps(links[1..])
  {
    forall i | 0 <= i < |links[1..]|
      ensures links[1..][i].op in {Add, Sub} && MulOps(links[1..][i].arg.links)
    {
      assert links[1..][i] == links[i + 1];
    }
  }

  /** The token at the start of links joined by `+` and `-`. */
  lemma AddHeadKind(q: nat, links: seq<Link<Term>>, fin: PState)
    requires AddOps(links) && !Continues(fin.tok.kind)
    ensures Head(q, links, fin).tok.kind !in {POWER, MULTIPLY, DIVIDE}
  {
    if links != [] {
      AddOpsTail(links);
    }
  }

  /** The text from `q` to `e` is a chain of links joined by `+` and `-`,
      then comes `rest`. */
  predicate AddTextAt(text: string, q: nat, e: nat, links: seq<Link<Term>>, rest: string) {
    && AddOps(links)
    && q <= |text| && text[q..] == AddText(links) + rest && e == q + |AddText(links)| && Boundary(rest)
  }

  /** The loop of `expr`, at the first token of the links at `q`, folds
      them onto `acc` and stops at `fin`. */
  predicate AddParsesAt(text: string, q: nat, links: seq<Link<Term>>, fin: PState, acc: Node) {
    && LexesTo(text, q, Head(q, links, fin))
    && ParseExprTail(text, acc, Head(q, links, fin)) == Ok(Parsed(AddFold(acc, links), fin))
  }

  /** The first link of a chain: its operator between spaces, then its
      term from `b` to `next`, then the other links from `next` on. */
  lemma AddLinkText(text: string, q: nat, b: nat, next: nat, e: nat, links: seq<Link<Term>>, rest: string)
    requires links != [] && b == q + |Sep(links[0].op)| && next == b + |TermText(links[0].arg)|
    requires AddTextAt(text, q, e, links, rest)
    ensures AddTextAt(text, next, e, links[1..], rest)
    ensures TermTextAt(text, b, next, links[0].arg, AddText(links[1..]) + rest)
    ensures text[q..] == Sep(links[0].op) + (TermText(links[0].arg) + (AddText(links[1..]) + rest))
    ensures links[0].op in {Add, Sub} && AddOps(links[1..])
  {
    var op, arg := links[0].op, links[0].arg;
    Split3(text, q, Sep(op), TermText(arg), AddText(links[1..]), rest);
    Suffix(text, b, TermText(arg), AddText(links[1..]) + rest);
    AddOpsTail(links);
    AddRestBoundary(links[1..], rest);
  }

  /** One turn of the loop of `expr`: `+` or `-` and the term after it
      are folded onto `acc`. */
  lemma AddStepParse(text: string, st: PState, acc: Node, op: BinOp, st1: PState, rhs: Parsed)
    requires op in {Add, Sub} && st.tok == Sym(OpKind(op))
    requires LexesTo(text, st.pos, st1) && ParseTerm(text, st1) == Ok(rhs)
    ensures WellFormed(st.tok) && WellFormed(st1.tok)
    ensures ParseExprTail(text, acc, st) == ParseExprTail(text, BinaryOp(acc, op, rhs.node), rhs.st)
  {
    ConsumeStep(text, st, OpKind(op), st1);
  }

  lemma AddStep(text: string, q: nat, o: nat, b: nat, next: nat, links: seq<Link<Term>>, fin: PState, acc: Node, acc1: Node)
    requires links != [] && links[0].op in {Add, Sub} && acc1 == BinaryOp(acc, links[0].op, TermTree(links[0].arg))
    requires Head(q, links, fin) == PState(o, Sym(OpKind(links[0].op)))
    requires LexesTo(text, q, Head(q, links, fin)) && o < |text| && text[o] == ' ' && b == o + 1
    requires TermParsesAt(text, b, links[0].arg, Head(next, links[1..], fin))
    requires AddParsesAt(text, next, links[1..], fin, acc1)
    ensures AddParsesAt(text, q, links, fin, acc)
  {
    var st1 := NumStart(b, links[0].arg.first.base);
    SpaceBefore(text, o, b, st1);
    AddStepParse(text, Head(q, links, fin), acc, links[0].op, st1, Parsed(TermTree(links[0].arg), Head(next, links[1..], fin)));
  }

  /** No link: the loop of `expr` stops at once. */
  lemma AddBase(text: string, q: nat, e: nat, links: seq<Link<Term>>, rest: string, fin: PState, acc: Node)
    requires links == [] && AddTextAt(text, q, e, links, rest)
    requires LexesTo(text, e, fin) && !Continues(fin.tok.kind)
    ensures AddParsesAt(text, q, links, fin, acc)
  {
    assert e == q;
  }

  /** The loop of `expr` folds a chain of `+` and `-` links to the left, up
      to the first token that continues no rule. */
  lemma {:induction false} AddTailParse(text: string, q: nat, e: nat, links: seq<Link<Term>>, rest: string, fin: PState, acc: Node)
    requires AddTextAt(text, q, e, links, rest)
    requires LexesTo(text, e, fin) && !Continues(fin.tok.kind)
    ensures AddParsesAt(text, q, links, fin, acc)
    decreases |links|
  {
    if links == [] {
      AddBase(text, q, e, links, rest, fin, acc);
    } else {
      var b := q + |Sep(links[0].op)|;
      var next := b + |TermText(links[0].arg)|;
      var acc1 := BinaryOp(acc, links[0].op, TermTree(links[0].arg));
      AddLinkText(text, q, b, next, e, links, rest);
      AddTailParse(text, next, e, links[1..], rest, fin, acc1);
      AddLinkParse(text, q, b, next, links, rest, fin, acc, acc1);
    }
  }

  /** The first link, given its text and the parse of the others. */
  lemma AddLinkParse(text: string, q: nat, b: nat, next: nat, links: seq<Link<Term>>, rest: string, fin: PState, acc: Node, acc1: Node)
    requires links != [] && b == q + |Sep(links[0].op)| && next == b + |TermText(links[0].arg)|
    requires acc1 == BinaryOp(acc, links[0].op, TermTree(links[0].arg))
    requires TermTextAt(text, b, next, links[0].arg, AddText(links[1..]) + rest)
    requires text[q..] == Sep(links[0].op) + (TermText(links[0].arg) + (AddText(links[1..]) + rest))
    requires links[0].op in {Add, Sub} && AddOps(links[1..]) && !Continues(fin.tok.kind)
    requires AddParsesAt(text, next, links[1..], fin, acc1)
    ensures AddParsesAt(text, q, links, fin, acc)
  {
    var o := q + 1 + |OpText(links[0].op)|;
    AddHeadKind(next, links[1..], fin);
    TermParse(text, b, next, links[0].arg, AddText(links[1..]) + rest, Head(next, links[1..], fin));
    OpLex(text, q, o, links, TermText(links[0].arg) + (AddText(links[1..]) + rest), fin);
    AddStep(text, q, o, b, next, links, fin, acc, acc1);
  }

  // Expressions.

  /** The text from `q` to `e` is the expression `x`, then comes `rest`. */
  predicate ExprTextAt(text: string, q: nat, e: nat, x: Expr, rest: string) {
    && ValidExpr(x)
    && q <= |text| && text[q..] == ExprText(x) + rest && e == q + |ExprText(x)| && Boundary(rest)
  }

  /** `expr`, at the first token of `x` at `q`, builds its tree and stops
      at `fin`. */
  predicate ExprParsesAt(text: string, q: nat, x: Expr, fin: PState) {
    && LexesTo(text, q, NumStart(q, x.first.first.base))
    && ParseExpr(text, NumStart(q, x.first.first.base)) == Ok(Parsed(ExprTree(x), fin))
  }

  /** An expression is its first term, ending at `c`, then its links. */
  lemma ExprSplit(text: string, q: nat, c: nat, e: nat, x: Expr, rest: string)
    requires c == q + |TermText(x.first)| && ExprTextAt(text, q, e, x, rest)
    ensures TermTextAt(text, q, c, x.first, AddText(x.links) + rest)
    ensures AddTextAt(text, c, e, x.links, rest)
  {
    var a, b := TermText(x.first), AddText(x.links);
    assert ExprText(x) == a + b;
    assert text[q..] == a + (b + rest);
    Suffix(text, q, a, b + rest);
    assert text[c..] == b + rest && e == c + |b|;
    AddRestBoundary(x.links, rest);
  }

  lemma ExprStep(text: string, q: nat, c: nat, x: Expr, fin: PState, acc: Node)
    requires acc == TermTree(x.first)
    requires TermParsesAt(text, q, x.first, Head(c, x.links, fin))
    requires AddParsesAt(text, c, x.links, fin, acc)
    ensures ExprParsesAt(text, q, x, fin)
  {
  }

  /** `expr` parses a flat expression: powers nest to the right, products
      and quotients fold to the left inside each term, and the terms fold
      to the left. */
  lemma ExprParse(text: string, q: nat, e: nat, x: Expr, rest: string, fin: PState)
    requires ExprTextAt(text, q, e, x, rest)
    requires LexesTo(text, e, fin) && !Continues(fin.tok.kind)
    ensures ExprParsesAt(text, q, x, fin)
  {
    var c, acc := q + |TermText(x.first)|, TermTree(x.first);
    ExprSplit(text, q, c, e, x, rest);
    AddTailParse(text, c, e, x.links, rest, fin, acc);
    AddHeadKind(c, x.links, fin);
    TermParse(text, q, c, x.first, AddText(x.links) + rest, Head(c, x.links, fin));
    ExprStep(text, q, c, x, fin, acc);
  }

  // Whole texts.

  lemma {:induction false} MulFoldNotVar(acc: Node, links: seq<Link<Powers>>)
    requires !acc.Var?
    ensures !MulFold(acc, links).Var?
    decreases |links|
  {
    if links != [] {
      MulFoldNotVar(BinaryOp(acc, links[0].op, PowTree(links[0].arg)), links[1..]);
    }
  }

  lemma {:induction false} AddFoldNotVar(acc: Node, links: seq<Link<Term>>)
    requires !acc.Var?
    ensures !AddFold(acc, links).Var?
    decreases |links|
  {
    if links != [] {
      AddFoldNotVar(BinaryOp(acc, links[0].op, TermTree(links[0].arg)), links[1..]);
    }
  }

  /** The tree of a flat expression is a number or a binary operation. */
  lemma ExprTreeNotVar(x: Expr)
    ensures !ExprTree(x).Var?
  {
    MulFoldNotVar(PowTree(x.first.first), x.first.links);
    AddFoldNotVar(TermTree(x.first), x.links);
  }

  /** `assignment` returns what `expr` returned unless that is a Var. */
  lemma AssignmentOfExpr(text: string, st: PState, e: Parsed)
    requires WellFormed(st.tok) && ParseExpr(text, st) == Ok(e) && !e.node.Var?
    ensures ParseAssignment(text, st) == Ok(e)
  {
  }

  /** The whole front end on a flat expression followed by `rest`: the
      parse is the expected tree whatever token `rest` starts with, as long
      as it continues no rule. Nothing after that token is looked at. */
  lemma FlatExprParse(x: Expr, rest: string, fin: PState)
    requires ValidExpr(x) && Boundary(rest)
    requires LexesTo(ExprText(x) + rest, |ExprText(x)|, fin) && !Continues(fin.tok.kind)
    ensures ParseText(ExprText(x) + rest) == Ok(ExprTree(x))
  {
    var text := ExprText(x) + rest;
    assert text[0..] == ExprText(x) + rest;
    ExprParse(text, 0, |ExprText(x)|, x, rest, fin);
    ExprTreeNotVar(x);
    AssignmentOfExpr(text, NumStart(0, x.first.first.base), Parsed(ExprTree(x), fin));
  }

  /** A flat expression on its own parses to the expected tree. */
  lemma FlatExprParseWhole(x: Expr)
    requires ValidExpr(x)
    ensures ParseText(ExprText(x)) == Ok(ExprTree(x))
  {
    LexEnd(ExprText(x));
    assert ExprText(x) + "" == ExprText(x);
    FlatExprParse(x, "", PState(|ExprText(x)|, Sym(EOF)));
  }

  /** An `=` after a flat expression is left where it is, with whatever
      follows it: the tree is the expression's. */
  lemma TrailingAssignIgnored(x: Expr, tail: string)
    requires ValidExpr(x)
    ensures ParseText(ExprText(x) + (" = " + tail)) == Ok(ExprTree(x))
  {
    var text := ExprText(x) + (" = " + tail);
    var e := |ExprText(x)|;
    assert text[e..] == " = " + tail;
    LexAssignSep(text, e, tail);
    FlatExprParse(x, " = " + tail, PState(e + 2, Sym(ASSIGN)));
  }

  /** A numeral after a flat expression is left where it is, and whatever
      follows it is never lexed. */
  lemma TrailingNumberIgnored(x: Expr, n: nat, tail: string)
    requires ValidExpr(x) && Boundary(tail)
    ensures ParseText(ExprText(x) + (" " + Numeral(n) + tail)) == Ok(ExprTree(x))
  {
    var rest := " " + Numeral(n) + tail;
    var text := ExprText(x) + rest;
    var e := |ExprText(x)|;
    var c := e + 1;
    TrailingNumberLex(text, e, c, n, rest, tail);
    FlatExprParse(x, rest, NumStart(c, n));
  }

  lemma TrailingNumberLex(text: string, e: nat, c: nat, n: nat, rest: string, tail: string)
    requires c == e + 1 && rest == " " + Numeral(n) + tail && Boundary(tail)
    requires e <= |text| && text[e..] == rest
    ensures LexesTo(text, e, NumStart(c, n))
  {
    assert text[c..] == Numeral(n) + tail;
    LexNum(text, c, n, tail);
    SpaceBefore(text, e, c, NumStart(c, n));
  }

  // Chains of assignments.

  /** `n1 = n2 = ... = x`. */
  function AssignText(names: seq<string>, x: Expr): string {
    if names == [] then ExprText(x) else names[0] + " = " + AssignText(names[1..], x)
  }

  /** The intended tree: assignments nest to the right. */
  function AssignTree(names: seq<string>, e: Node): Node {
    if names == [] then e else Assign(names[0], AssignTree(names[1..], e))
  }

  predicate Identifiers(names: seq<string>) {
    names == [] || (IsIdentifier(names[0]) && Identifiers(names[1..]))
  }

  /** The state after lexing at the start of a chain of assignments. */
  function AssignStart(q: nat, names: seq<string>, x: Expr): PState {
    if names == [] then NumStart(q, x.first.first.base) else PState(q + |names[0]|, NameTok(names[0]))
  }

  /** The text from `q` to `e` is the chain, then comes `rest`. */
  predicate AssignTextAt(text: string, q: nat, e: nat, names: seq<string>, x: Expr, rest: string) {
    && Identifiers(names) && ValidExpr(x)
    && q <= |text| && text[q..] == AssignText(names, x) + rest && e == q + |AssignText(names, x)| && Boundary(rest)
  }

  /** `assignment`, at the first token of the chain at `q`, builds its tree
      and stops at `fin`. */
  predicate AssignParsesAt(text: string, q: nat, names: seq<string>, x: Expr, fin: PState) {
    && LexesTo(text, q, AssignStart(q, names, x))
    && ParseAssignment(text, AssignStart(q, names, x)) == Ok(Parsed(AssignTree(names, ExprTree(x)), fin))
  }

  /** An IDENTIFIER token is a whole factor, a Var. */
  lemma FactorName(text: string, st: PState, x: string, nxt: PState)
    requires st.tok == NameTok(x) && LexesTo(text, st.pos, nxt)
    ensures ParseFactor(text, st) == Ok(Parsed(Var(x), nxt))
  {
    ConsumeStep(text, st, IDENTIFIER, nxt);
  }

  /** A name followed by `=` is a whole expression, a Var. */
  lemma NameExpr(text: string, st: PState, x: string, nxt: PState)
    requires st.tok == NameTok(x) && LexesTo(text, st.pos, nxt) && nxt.tok == Sym(ASSIGN)
    ensures ParseExpr(text, st) == Ok(Parsed(Var(x), nxt))
  {
    var f := Parsed(Var(x), nxt);
    FactorName(text, st, x, nxt);
    PowerOfFactor(text, st, f);
    assert ParseTerm(text, st) == Ok(f);
  }

  /** A name, `=` and an assignment: the name is bound to the assignment. */
  lemma AssignStep(text: string, st: PState, x: string, op: PState, st1: PState, rhs: Parsed)
    requires st.tok == NameTok(x) && LexesTo(text, st.pos, op) && op.tok == Sym(ASSIGN)
    requires LexesTo(text, op.pos, st1) && ParseAssignment(text, st1) == Ok(rhs)
    ensures ParseAssignment(text, st) == Ok(Parsed(Assign(x, rhs.node), rhs.st))
  {
    NameExpr(text, st, x, op);
    ConsumeStep(text, op, ASSIGN, st1);
  }

  /** The first name of a chain, `=`, then the chain after it from `b` on. */
  lemma AssignLinkText(text: string, q: nat, a: nat, b: nat, e: nat, names: seq<string>, x: Expr, rest: string)
    requires names != [] && a == q + |names[0]| && b == a + 3 && AssignTextAt(text, q, e, names, x, rest)
    ensures AssignTextAt(text, b, e, names[1..], x, rest)
    ensures text[q..] == names[0] + (" = " + (AssignText(names[1..], x) + rest))
    ensures a <= |text| && text[a..] == " = " + (AssignText(names[1..], x) + rest)
    ensures IsIdentifier(names[0])
  {
    Split3(text, q, names[0], " = ", AssignText(names[1..], x), rest);
    Suffix(text, a, " = ", AssignText(names[1..], x) + rest);
  }

  /** The first name and `=`, given the parse of the chain after them. */
  lemma AssignLinkParse(text: string, q: nat, a: nat, b: nat, names: seq<string>, x: Expr, rest: string, fin: PState)
    requires names != [] && a == q + |names[0]| && b == a + 3 && IsIdentifier(names[0])
    requires q <= |text| && text[q..] == names[0] + (" = " + (AssignText(names[1..], x) + rest))
    requires a <= |text| && text[a..] == " = " + (AssignText(names[1..], x) + rest)
    requires AssignParsesAt(text, b, names[1..], x, fin)
    ensures AssignParsesAt(text, q, names, x, fin)
  {
    var o := a + 2;
    var op, st1 := PState(o, Sym(ASSIGN)), AssignStart(b, names[1..], x);
    var st := PState(a, NameTok(names[0]));
    AssignLinkShape(q, a, names, x, st);
    AssignHead(text, q, a, o, names[0], AssignText(names[1..], x) + rest);
    SpaceBefore(text, o, b, st1);
    AssignStep(text, st, names[0], op, st1, Parsed(AssignTree(names[1..], ExprTree(x)), fin));
  }

  lemma AssignLinkShape(q: nat, a: nat, names: seq<string>, x: Expr, st: PState)
    requires names != [] && a == q + |names[0]| && st == PState(a, NameTok(names[0]))
    ensures AssignStart(q, names, x) == st
    ensures AssignTree(names, ExprTree(x)) == Assign(names[0], AssignTree(names[1..], ExprTree(x)))
  {
  }

  /** A name, then `=` between spaces, ending at `o`. */
  lemma AssignHead(text: string, q: nat, a: nat, o: nat, x: string, tail: string)
    requires a == q + |x| && o == a + 2 && IsIdentifier(x)
    requires q <= |text| && text[q..] == x + (" = " + tail)
    requires a <= |text| && text[a..] == " = " + tail
    ensures LexesTo(text, q, PState(a, NameTok(x))) && LexesTo(text, a, PState(o, Sym(ASSIGN)))
    ensures o < |text| && text[o] == ' '
  {
    LexName(text, q, x, " = " + tail);
    LexAssignSep(text, a, tail);
  }

  /** No name: the chain is a flat expression. */
  lemma AssignBase(text: string, q: nat, e: nat, names: seq<string>, x: Expr, rest: string, fin: PState)
    requires names == [] && AssignTextAt(text, q, e, names, x, rest)
    requires LexesTo(text, e, fin) && !Continues(fin.tok.kind)
    ensures AssignParsesAt(text, q, names, x, fin)
  {
    ExprParse(text, q, e, x, rest, fin);
    ExprTreeNotVar(x);
    AssignmentOfExpr(text, NumStart(q, x.first.first.base), Parsed(ExprTree(x), fin));
  }

  /** `assignment` nests a chain of assignments to the right. */
  lemma {:induction false} AssignChainParse(text: string, q: nat, e: nat, names: seq<string>, x: Expr, rest: string, fin: PState)
    requires AssignTextAt(text, q, e, names, x, rest)
    requires LexesTo(text, e, fin) && !Continues(fin.tok.kind)
    ensures AssignParsesAt(text, q, names, x, fin)
    decreases |names|
  {
    if names == [] {
      AssignBase(text, q, e, names, x, rest, fin);
    } else {
      var a := q + |names[0]|;
      var b := a + 3;
      AssignLinkText(text, q, a, b, e, names, x, rest);
      AssignChainParse(text, b, e, names[1..], x, rest, fin);
      AssignLinkParse(text, q, a, b, names, x, rest, fin);
    }
  }

  /** The whole front end on a chain of assignments over a flat
      expression. */
  lemma AssignTextParse(names: seq<string>, x: Expr)
    requires Identifiers(names) && ValidExpr(x)
    ensures ParseText(AssignText(names, x)) == Ok(AssignTree(names, ExprTree(x)))
  {
    var text := AssignText(names, x);
    assert text[0..] == text + "";
    LexEnd(text);
    AssignChainParse(text, 0, |text|, names, x, "", PState(|text|, Sym(EOF)));
  }

  /** The names of a chain, as a set. */
  function NameSet(names: seq<string>): set<string> {
    set i | 0 <= i < |names| :: names[i]
  }

  /** Evaluating a chain of assignments binds every name of it to the value
      of the expression, returns that value, and changes no other binding. */
  lemma {:induction false} AssignChainEval(names: seq<string>, e: Node, env: Env)
    requires NoAssign(e) && Eval(e, env).result.Ok?
    ensures var v, o := Eval(e, env).result.value, Eval(AssignTree(names, e), env);
            && o.result == Ok(v)
            && o.env.Keys == env.Keys + NameSet(names)
            && (forall x | x in NameSet(names) :: o.env[x] == v)
            && (forall x | x in env && x !in NameSet(names) :: o.env[x] == env[x])
    decreases |names|
  {
    if names == [] {
      EvalWithoutAssignIsPure(e, env);
    } else {
      AssignChainEval(names[1..], e, env);
      assert NameSet(names) == {names[0]} + NameSet(names[1..]) by {
        forall y | y in NameSet(names) ensures y in {names[0]} + NameSet(names[1..]) {
          var i :| 0 <= i < |names| && names[i] == y;
          if i > 0 {
            assert names[1..][i - 1] == y;
          }
        }
      }
    }
  }

  // Unary signs.

  function SignChar(s: UnOp): char {
    match s
    case Pos => '+'
    case Neg => '-'
  }

  function SignKind(s: UnOp): TokenType {
    match s
    case Pos => PLUS
    case Neg => MINUS
  }

  /** Signs written next to each other, as in `--x`. */
  function SignText(signs: seq<UnOp>): string {
    if signs == [] then "" else [SignChar(signs[0])] + SignText(signs[1..])
  }

  /** The intended tree: each sign wraps what follows it. */
  function Signed(signs: seq<UnOp>, n: Node): Node {
    if signs == [] then n else UnaryOp(signs[0], Signed(signs[1..], n))
  }

  /** The state after lexing at the start of signs before an operand that
      starts in state `at`. */
  function SignStart(q: nat, signs: seq<UnOp>, at: PState): PState {
    if signs == [] then at else PState(q + 1, Sym(SignKind(signs[0])))
  }

  lemma SignTextLength(signs: seq<UnOp>)
    ensures |SignText(signs)| == |signs|
  {
  }

  /** A sign is one token, however the text goes on. */
  lemma LexSign(text: string, q: nat, s: UnOp)
    requires q < |text| && text[q] == SignChar(s)
    ensures LexesTo(text, q, PState(q + 1, Sym(SignKind(s))))
  {
  }

  /** A sign before a factor wraps that factor. */
  lemma FactorSign(text: string, st: PState, s: UnOp, st1: PState, f: Parsed)
    requires st.tok == Sym(SignKind(s)) && LexesTo(text, st.pos, st1)
    requires WellFormed(st1.tok) && ParseFactor(text, st1) == Ok(f)
    ensures ParseFactor(text, st) == Ok(Parsed(UnaryOp(s, f.node), f.st))
  {
    ConsumeStep(text, st, SignKind(s), st1);
  }

  /** `factor` on signs before an operand: each sign wraps exactly one
      factor, so the signs nest around the operand alone. */
  lemma {:induction false} SignsParse(text: string, q: nat, c: nat, signs: seq<UnOp>, at: PState, f: Parsed)
    requires c == q + |signs| && c <= |text| && text[q..c] == SignText(signs)
    requires LexesTo(text, c, at) && ParseFactor(text, at) == Ok(f)
    ensures LexesTo(text, q, SignStart(q, signs, at)) && WellFormed(SignStart(q, signs, at).tok)
    ensures ParseFactor(text, SignStart(q, signs, at)) == Ok(Parsed(Signed(signs, f.node), f.st))
    decreases |signs|
  {
    if signs != [] {
      assert text[q] == SignText(signs)[0];
      assert text[q + 1..c] == SignText(signs[1..]);
      SignsParse(text, q + 1, c, signs[1..], at, f);
      LexSign(text, q, signs[0]);
      FactorSign(text, SignStart(q, signs, at), signs[0], SignStart(q + 1, signs[1..], at),
        Parsed(Signed(signs[1..], f.node), f.st));
    }
  }

  /** The intended tree of signs before a chain of powers: the signs wrap
      the first numeral only, and `**` takes that as its left operand. */
  function SignedPowTree(signs: seq<UnOp>, p: Powers): Node {
    if p.exps == [] then Signed(signs, Lit(p.base))
    else BinaryOp(Signed(signs, Lit(p.base)), Pow, PowTree(PowTail(p)))
  }

  /** Signs bind tighter than `**`: `-2 ** 2` is `(-2) ** 2`. */
  lemma SignedPowerParse(text: string, q: nat, c: nat, e: nat, signs: seq<UnOp>, p: Powers, rest: string, fin: PState)
    requires c == q + |signs| && q <= |text| && text[q..] == SignText(signs) + (PowText(p) + rest)
    requires e == c + |PowText(p)| && Boundary(rest)
    requires LexesTo(text, e, fin) && fin.tok.kind != POWER
    ensures LexesTo(text, q, SignStart(q, signs, NumStart(c, p.base)))
    ensures ParsePower(text, SignStart(q, signs, NumStart(c, p.base))) == Ok(Parsed(SignedPowTree(signs, p), fin))
  {
    SignTextLength(signs);
    Suffix(text, q, SignText(signs), PowText(p) + rest);
    if p.exps == [] {
      SignedNumeralParse(text, q, c, e, signs, p, rest, fin);
    } else {
      SignedPowersParse(text, q, c, c + |Numeral(p.base)|, e, signs, p, rest, fin);
    }
  }

  /** Signs before a numeral not followed by `**`. */
  lemma SignedNumeralParse(text: string, q: nat, c: nat, e: nat, signs: seq<UnOp>, p: Powers, rest: string, fin: PState)
    requires p.exps == [] && c == q + |signs| && c <= |text| && text[q..c] == SignText(signs)
    requires PowTextAt(text, c, e, p, rest)
    requires LexesTo(text, e, fin) && fin.tok.kind != POWER
    ensures LexesTo(text, q, SignStart(q, signs, NumStart(c, p.base)))
    ensures ParsePower(text, SignStart(q, signs, NumStart(c, p.base))) == Ok(Parsed(SignedPowTree(signs, p), fin))
  {
    var at := NumStart(c, p.base);
    PowBase(text, c, e, p, rest, fin);
    PowBaseText(text, c, e, p, rest);
    assert at.pos == e;
    FactorNum(text, at, p.base, fin);
    SignsParse(text, q, c, signs, at, Parsed(Lit(p.base), fin));
    PowerOfFactor(text, SignStart(q, signs, at), Parsed(Signed(signs, Lit(p.base)), fin));
  }

  /** Signs before a chain of two or more powers. */
  lemma SignedPowersParse(text: string, q: nat, c: nat, a: nat, e: nat, signs: seq<UnOp>, p: Powers, rest: string, fin: PState)
    requires p.exps != [] && c == q + |signs| && c <= |text| && text[q..c] == SignText(signs)
    requires a == c + |Numeral(p.base)| && PowTextAt(text, c, e, p, rest)
    requires LexesTo(text, e, fin) && fin.tok.kind != POWER
    ensures LexesTo(text, q, SignStart(q, signs, NumStart(c, p.base)))
    ensures ParsePower(text, SignStart(q, signs, NumStart(c, p.base))) == Ok(Parsed(SignedPowTree(signs, p), fin))
  {
    var at, op, b := NumStart(c, p.base), PState(a + 3, Sym(POWER)), a + 4;
    PowTailText(text, c, a, b, e, p, rest);
    PowersParse(text, b, e, PowTail(p), rest, fin);
    PowHeadLex(text, c, a, p.base, PowText(PowTail(p)) + rest);
    PowHeadFactor(text, c, a, p.base, at, op);
    SignsParse(text, q, c, signs, at, Parsed(Lit(p.base), op));
    SignedPowerStep(text, q, a, b, signs, p, at, fin);
  }

  /** The numeral at the head of a chain of powers is a whole factor. */
  lemma PowHeadFactor(text: string, c: nat, a: nat, n: nat, at: PState, op: PState)
    requires a == c + |Numeral(n)| && at == NumStart(c, n) && op == PState(a + 3, Sym(POWER))
    requires PowHead(text, c, n)
    ensures LexesTo(text, c, at) && ParseFactor(text, at) == Ok(Parsed(Lit(n), op))
    ensures a + 3 < |text| && text[a + 3] == ' '
  {
    FactorNum(text, at, n, op);
  }

  lemma SignedPowerStep(text: string, q: nat, a: nat, b: nat, signs: seq<UnOp>, p: Powers, at: PState, fin: PState)
    requires p.exps != [] && b == a + 4 && a + 3 < |text| && text[a + 3] == ' ' && WellFormed(SignStart(q, signs, at).tok)
    requires ParseFactor(text, SignStart(q, signs, at)) == Ok(Parsed(Signed(signs, Lit(p.base)), PState(a + 3, Sym(POWER))))
    requires PowParsesAt(text, b, PowTail(p), fin)
    ensures ParsePower(text, SignStart(q, signs, at)) == Ok(Parsed(SignedPowTree(signs, p), fin))
  {
    var st1 := NumStart(b, PowTail(p).base);
    SpaceBefore(text, a + 3, b, st1);
    PowerOfPower(text, SignStart(q, signs, at), Parsed(Signed(signs, Lit(p.base)), PState(a + 3, Sym(POWER))),
      st1, Parsed(PowTree(PowTail(p)), fin));
  }

  /** A power followed by a token that continues no rule is a whole
      assignment, unless it is a Var. */
  lemma PowerIsAssignment(text: string, st: PState, f: Parsed)
    requires WellFormed(st.tok) && ParsePower(text, st) == Ok(f)
    requires !Continues(f.st.tok.kind) && !f.node.Var?
    ensures ParseAssignment(text, st) == Ok(f)
  {
    assert ParseTerm(text, st) == Ok(f);
    assert ParseExpr(text, st) == Ok(f);
  }

  lemma SignedNotVar(signs: seq<UnOp>, n: Node)
    requires signs != [] || !n.Var?
    ensures !Signed(signs, n).Var?
  {
  }

  /** The whole front end on signs before a chain of powers: the signs
      wrap the first numeral, and `**` takes the result as its left
      operand. */
  lemma SignedPowerText(signs: seq<UnOp>, p: Powers)
    ensures ParseText(SignText(signs) + PowText(p)) == Ok(SignedPowTree(signs, p))
  {
    var text := SignText(signs) + PowText(p);
    var c := |signs|;
    var fin := PState(|text|, Sym(EOF));
    var st := SignStart(0, signs, NumStart(c, p.base));
    SignTextLength(signs);
    assert text[0..] == SignText(signs) + (PowText(p) + "");
    LexEnd(text);
    SignedPowerParse(text, 0, c, |text|, signs, p, "", fin);
    SignedNotVar(signs, Lit(p.base));
    assert WellFormed(st.tok);
    PowerIsAssignment(text, st, Parsed(SignedPowTree(signs, p), fin));
  }

  /** The whole front end on signs before a name, as in `--x`: each sign
      wraps what follows it. */
  lemma SignedNameText(signs: seq<UnOp>, x: string)
    requires signs != [] && IsIdentifier(x)
    ensures ParseText(SignText(signs) + x) == Ok(Signed(signs, Var(x)))
  {
    var text := SignText(signs) + x;
    var c := |signs|;
    var fin := PState(|text|, Sym(EOF));
    var at := PState(|text|, NameTok(x));
    SignTextLength(signs);
    Suffix(text, 0, SignText(signs), x);
    assert text[c..] == x + "";
    LexName(text, c, x, "");
    LexEnd(text);
    FactorName(text, at, x, fin);
    SignsParse(text, 0, c, signs, at, Parsed(Var(x), fin));
    var st := SignStart(0, signs, at);
    PowerOfFactor(text, st, Parsed(Signed(signs, Var(x)), fin));
    SignedNotVar(signs, Var(x));
    PowerIsAssignment(text, st, Parsed(Signed(signs, Var(x)), fin));
  }

  // Failures.

  /** A numeral and a `+` with nothing after it: `factor` finds EOF where
      the right operand should start. */
  lemma DanglingPlus(text: string, n: nat)
    requires text == Numeral(n) + " +"
    ensures ParseText(text) == Err(UnexpectedToken(Sym(EOF)))
  {
    var a := |Numeral(n)|;
    var e := a + 2;
    var st, plus, eof := NumStart(0, n), PState(e, Sym(PLUS)), PState(e, Sym(EOF));
    DanglingPlusLex(text, a, e, n);
    FactorNum(text, st, n, plus);
    PowerOfFactor(text, st, Parsed(Lit(n), plus));
    FactorRefuses(text, eof);
    assert ParseTerm(text, st) == Ok(Parsed(Lit(n), plus));
    assert ParseExprTail(text, Lit(n), plus) == Err(UnexpectedToken(Sym(EOF)));
    assert ParseAssignment(text, st) == Err(UnexpectedToken(Sym(EOF)));
  }

  lemma DanglingPlusLex(text: string, a: nat, e: nat, n: nat)
    requires text == Numeral(n) + " +" && a == |Numeral(n)| && e == a + 2
    ensures LexesTo(text, 0, NumStart(0, n))
    ensures LexesTo(text, a, PState(e, Sym(PLUS)))
    ensures LexesTo(text, e, PState(e, Sym(EOF)))
  {
    var o := a + 1;
    var plus := PState(e, Sym(PLUS));
    assert text[0..] == Numeral(n) + " +";
    LexNum(text, 0, n, " +");
    assert text[o] == '+';
    LexSign(text, o, Pos);
    SpaceBefore(text, a, o, plus);
    LexEnd(text);
  }

  /** A numeral, a space and a character that starts no token: the parser
      asks for the token after the numeral, and the lexer refuses that
      character at its position. */
  lemma InvalidAfterNumeral(text: string, n: nat, c: char, tail: string, p: nat)
    requires text == Numeral(n) + (" " + ([c] + tail)) && p == |Numeral(n)| + 1
    requires !StartsToken(c) && !IsSpace(c)
    ensures ParseText(text) == Err(InvalidCharacter(p))
  {
    var st := NumStart(0, n);
    InvalidAfterNumeralLex(text, p - 1, n, c, tail);
    assert ParseFactor(text, st) == Err(InvalidCharacter(p));
    assert ParsePower(text, st) == Err(InvalidCharacter(p));
    assert ParseTerm(text, st) == Err(InvalidCharacter(p));
    assert ParseExpr(text, st) == Err(InvalidCharacter(p));
  }

  lemma InvalidAfterNumeralLex(text: string, a: nat, n: nat, c: char, tail: string)
    requires text == Numeral(n) + (" " + ([c] + tail)) && a == |Numeral(n)|
    requires !StartsToken(c) && !IsSpace(c)
    ensures LexesTo(text, 0, NumStart(0, n))
    ensures NextToken(text, a) == Err(InvalidCharacter(a + 1))
  {
    assert text[0..] == Numeral(n) + (" " + ([c] + tail));
    LexNum(text, 0, n, " " + ([c] + tail));
    assert text[a] == ' ' && text[a + 1] == c;
    SpacesAreSkipped(text, a, a + 1);
  }
}
