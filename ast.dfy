/** The abstract syntax tree the parser builds and the interpreter walks. */
module Syntax {
  import opened Numbers

  /** The operator of a unary node: the token was PLUS or MINUS. */
  datatype UnOp = Pos | Neg

  /** The operator of a binary node: the token was PLUS, MINUS, MULTIPLY,
      DIVIDE or POWER. */
  datatype BinOp = Add | Sub | Mul | Div | Pow

  /** Num, Var, UnaryOp, BinaryOp and Assign; an Assign keeps the name of
      the Var node that is its target. */
  datatype Node =
    | Num(value: Number)
    | Var(name: string)
    | UnaryOp(sign: UnOp, expr: Node)
    | BinaryOp(left: Node, op: BinOp, right: Node)
    | Assign(target: string, right: Node)

  /** The tree has no Assign node. */
  predicate NoAssign(n: Node) {
    match n
    case Num(_) => true
    case Var(_) => true
    case UnaryOp(_, e) => NoAssign(e)
    case BinaryOp(l, _, r) => NoAssign(l) && NoAssign(r)
    case Assign(_, _) => false
  }

  /** Assign nodes occur only at the root and as the right child of an
      Assign: a chain of assignments over an assignment-free expression. */
  predicate AssignmentsAtRoot(n: Node) {
    match n
    case Assign(_, r) => AssignmentsAtRoot(r)
    case _ => NoAssign(n)
  }

  /** The names the tree assigns to. */
  function AssignedNames(n: Node): set<string> {
    match n
    case Num(_) => {}
    case Var(_) => {}
    case UnaryOp(_, e) => AssignedNames(e)
    case BinaryOp(l, _, r) => AssignedNames(l) + AssignedNames(r)
    case Assign(x, r) => {x} + AssignedNames(r)
  }

  /** The names the tree reads. */
  function ReadNames(n: Node): set<string> {
    match n
    case Num(_) => {}
    case Var(x) => {x}
    case UnaryOp(_, e) => ReadNames(e)
    case BinaryOp(l, _, r) => ReadNames(l) + ReadNames(r)
    case Assign(_, r) => ReadNames(r)
  }

  /** A tree without Assign nodes assigns nothing. */
  lemma {:induction false} NoAssignAssignsNothing(n: Node)
    requires NoAssign(n)
    ensures AssignedNames(n) == {}
  {
    match n
    case Num(_) =>
    case Var(_) =>
    case UnaryOp(_, e) => NoAssignAssignsNothing(e);
    case BinaryOp(l, _, r) => NoAssignAssignsNothing(l); NoAssignAssignsNothing(r);
  }
}
