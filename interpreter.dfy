/** The tree-walking interpreter. `Eval` specifies a walk: the value (or
    the error) and the variables afterwards; the class Interpreter holds the
    `variables` dictionary and its visit methods are proved to follow Eval.
    Only an Assign node writes to the dictionary. */
module Interpretation {
  import opened Numbers
  import opened Tokens
  import opened Syntax

  /** The interpreter's `variables`. */
  type Env = map<string, Number>

  // Arithmetic on Python numbers: int op int stays int for + - * and for **
  // with a natural exponent; any float operand, and every /, gives a float.

  function Negate(a: Number): (r: Number)
    ensures r.Real() == -a.Real() && (r.Int? <==> a.Int?)
  {
    match a
    case Int(i) => Int(-i)
    case Float(x) => Float(-x)
  }

  function Plus(a: Number, b: Number): (r: Number)
    ensures r.Real() == a.Real() + b.Real() && (r.Int? <==> a.Int? && b.Int?)
  {
    if a.Int? && b.Int? then Int(a.i + b.i) else Float(a.Real() + b.Real())
  }

  function Minus(a: Number, b: Number): (r: Number)
    ensures r.Real() == a.Real() - b.Real() && (r.Int? <==> a.Int? && b.Int?)
  {
    if a.Int? && b.Int? then Int(a.i - b.i) else Float(a.Real() - b.Real())
  }

  function Times(a: Number, b: Number): (r: Number)
    ensures r.Real() == a.Real() * b.Real() && (r.Int? <==> a.Int? && b.Int?)
  {
    if a.Int? && b.Int? then Int(a.i * b.i) else Float(a.Real() * b.Real())
  }

  /** True division: always a float; ZeroDivisionError on a zero divisor. */
  function Divide(a: Number, b: Number): (r: Result<Number>)
    ensures r.Err? <==> b.Real() == 0.0
    ensures r.Err? ==> r.error == DivisionByZero
    ensures r.Ok? ==> r.value.Float? && r.value.Real() * b.Real() == a.Real()
  {
    if b.Real() == 0.0 then Err(DivisionByZero) else Ok(Float(a.Real() / b.Real()))
  }

  /** `a ** b`. An int to a natural int power is an int; an integral
      exponent otherwise gives a float (a negative one divides, so a zero
      base fails); zero to a fractional power is 0.0 or fails; any other
      fractional power has no exact value and is UnsupportedPower. */
  function Power(a: Number, b: Number): (r: Result<Number>)
    ensures a.Int? && b.Int? && b.i >= 0 ==> r == Ok(Int(IntPow(a.i, b.i)))
    ensures r.Ok? ==> (r.value.Int? <==> a.Int? && b.Int? && b.i >= 0)
    ensures r.Err? && r.error == DivisionByZero <==> a.Real() == 0.0 && b.Real() < 0.0
    ensures r.Err? && r.error != DivisionByZero ==> r.error == UnsupportedPower
  {
    var e := b.Real();
    if a.Int? && b.Int? && b.i >= 0 then
      Ok(Int(IntPow(a.i, b.i)))
    else if e == e.Floor as real then
      var n := e.Floor;
      if n >= 0 then
        Ok(Float(RealPow(a.Real(), n)))
      else if a.Real() == 0.0 then
        Err(DivisionByZero)
      else
        RealPowNonZero(a.Real(), -n);
        Ok(Float(1.0 / RealPow(a.Real(), -n)))
    else if a.Real() == 0.0 then
      if e > 0.0 then Ok(Float(0.0)) else Err(DivisionByZero)
    else
      Err(UnsupportedPower)
  }

  /** `+a` is `a`; `-a` negates; neither changes int into float. */
  function ApplyUnary(sign: UnOp, a: Number): (r: Number)
    ensures sign == Pos ==> r == a
    ensures sign == Neg ==> r.Real() == -a.Real()
    ensures r.Int? <==> a.Int?
  {
    match sign
    case Pos => a
    case Neg => Negate(a)
  }

  /** The operator a BinaryOp node names. Only `/` and `**` can fail, and
      only with ZeroDivisionError or, for `**`, an unsupported power. */
  function ApplyBinary(op: BinOp, a: Number, b: Number): (r: Result<Number>)
    ensures op in {Add, Sub, Mul} ==> r.Ok?
    ensures r.Err? && op == Div ==> r.error == DivisionByZero
    ensures r.Err? ==> op in {Div, Pow} && (r.error == DivisionByZero || r.error == UnsupportedPower)
  {
    match op
    case Add => Ok(Plus(a, b))
    case Sub => Ok(Minus(a, b))
    case Mul => Ok(Times(a, b))
    case Div => Divide(a, b)
    case Pow => Power(a, b)
  }

  /** The value of a walk, or its error, and the variables afterwards. */
  datatype Outcome = Outcome(result: Result<Number>, env: Env)

  /** One walk of the tree: children left before right, the right side of an
      Assign before the store. On an error the walk stops, and the
      assignments it already made stay. */
  function Eval(n: Node, env: Env): (o: Outcome)
    ensures env.Keys <= o.env.Keys
    ensures o.result.Err? ==> o.result.error.NameError? || o.result.error == DivisionByZero
                              || o.result.error == UnsupportedPower
    decreases n
  {
    match n
    case Num(v) => Outcome(Ok(v), env)
    case Var(x) =>
      if x in env then Outcome(Ok(env[x]), env) else Outcome(Err(NameError(x)), env)
    case UnaryOp(sign, e) =>
      var o := Eval(e, env);
      if o.result.Err? then o else Outcome(Ok(ApplyUnary(sign, o.result.value)), o.env)
    case BinaryOp(l, op, r) =>
      var lo := Eval(l, env);
      if lo.result.Err? then lo
      else
        var ro := Eval(r, lo.env);
        if ro.result.Err? then ro
        else Outcome(ApplyBinary(op, lo.result.value, ro.result.value), ro.env)
    case Assign(x, r) =>
      var o := Eval(r, env);
      if o.result.Err? then o else Outcome(o.result, o.env[x := o.result.value])
  }

  /** With exact reals, an int raised to a natural int power and the same
      int as a float raised to that power have the same value; only the
      first is an int. */
  lemma FloatPowerOfInt(b: int, e: nat)
    ensures Power(Int(b), Int(e)) == Ok(Int(IntPow(b, e)))
    ensures Power(Float(b as real), Int(e)) == Ok(Float(IntPow(b, e) as real))
  {
    RealPowOfInt(b, e);
  }

  /** A walk only adds or overwrites bindings of the names the tree assigns:
      no binding is removed, no other binding changes. */
  lemma {:induction false} EvalFrame(n: Node, env: Env)
    ensures var out := Eval(n, env).env;
            && env.Keys <= out.Keys <= env.Keys + AssignedNames(n)
            && forall x | x in env && x !in AssignedNames(n) :: out[x] == env[x]
  {
    match n
    case Num(_) =>
    case Var(_) =>
    case UnaryOp(_, e) => EvalFrame(e, env);
    case BinaryOp(l, _, r) =>
      EvalFrame(l, env);
      var lo := Eval(l, env);
      if lo.result.Ok? {
        EvalFrame(r, lo.env);
      }
    case Assign(x, r) => EvalFrame(r, env);
  }

  /** A tree without Assign leaves the variables as they were, so evaluating
      it again gives the same outcome. */
  lemma EvalWithoutAssignIsPure(n: Node, env: Env)
    requires NoAssign(n)
    ensures Eval(n, env).env == env
    ensures Eval(n, Eval(n, env).env) == Eval(n, env)
  {
    EvalFrame(n, env);
    NoAssignAssignsNothing(n);
    var out := Eval(n, env).env;
    assert out.Keys == env.Keys;
    assert forall x | x in out :: out[x] == env[x];
  }

  /** `x = e`: the right side is walked first and its value is returned and
      then bound to `x`; if it fails, the error is returned and nothing is
      stored. A variable that is neither `x` nor assigned inside `e` keeps
      its value. For an assignment-free `e`, `x` is the only binding that
      changes, and a failing `e` changes nothing. */
  lemma AssignBindsOnlyTarget(x: string, e: Node, env: Env)
    ensures var o, r := Eval(Assign(x, e), env), Eval(e, env);
            && o.result == r.result
            && (r.result.Ok? ==> o.env == r.env[x := r.result.value])
            && (r.result.Err? ==> o.env == r.env)
            && (forall y | y in env && y != x && y !in AssignedNames(e) :: y in o.env && o.env[y] == env[y])
    ensures var o, v := Eval(Assign(x, e), env), Eval(e, env).result;
            NoAssign(e) ==>
              && (v.Ok? ==> o == Outcome(v, env[x := v.value]))
              && (v.Err? ==> o == Outcome(v, env))
  {
    EvalFrame(e, env);
    if NoAssign(e) {
      EvalWithoutAssignIsPure(e, env);
    }
  }

  /** A NameError names a variable the tree reads and the walk found
      unbound. */
  lemma {:induction false} NameErrorIsUnboundRead(n: Node, env: Env, x: string)
    requires Eval(n, env).result == Err(NameError(x))
    ensures x in ReadNames(n) && x !in env
  {
    match n
    case Num(_) =>
    case Var(_) =>
    case UnaryOp(_, e) => NameErrorIsUnboundRead(e, env, x);
    case BinaryOp(l, _, r) =>
      var lo := Eval(l, env);
      if lo.result.Err? {
        NameErrorIsUnboundRead(l, env, x);
      } else {
        EvalFrame(l, env);
        NameErrorIsUnboundRead(r, lo.env, x);
      }
    case Assign(_, r) => NameErrorIsUnboundRead(r, env, x);
  }

  /** The tree uses only + - * and signs. */
  predicate RingOnly(n: Node) {
    match n
    case Num(_) => true
    case Var(_) => true
    case UnaryOp(_, e) => RingOnly(e)
    case BinaryOp(l, op, r) => op in {Add, Sub, Mul} && RingOnly(l) && RingOnly(r)
    case Assign(_, r) => RingOnly(r)
  }

  /** Without / and **, a walk whose every read variable is bound succeeds:
      NameError, DivisionByZero and UnsupportedPower are the only failures. */
  lemma {:induction false} EvalSucceeds(n: Node, env: Env)
    requires RingOnly(n) && ReadNames(n) <= env.Keys
    ensures Eval(n, env).result.Ok?
  {
    match n
    case Num(_) =>
    case Var(_) =>
    case UnaryOp(_, e) => EvalSucceeds(e, env);
    case BinaryOp(l, _, r) =>
      EvalSucceeds(l, env);
      EvalFrame(l, env);
      EvalSucceeds(r, Eval(l, env).env);
    case Assign(_, r) => EvalSucceeds(r, env);
  }

  /** The interpreter and its `variables`, which persist across calls. */
  class Interpreter {
    var variables: Env

    constructor ()
      ensures variables == map[]
    {
      variables := map[];
    }

    method VisitBinaryOp(node: Node) returns (r: Result<Number>)
      requires node.BinaryOp?
      modifies this
      ensures Outcome(r, variables) == Eval(node, old(variables))
      decreases node, 0
    {
      var left :- Visit(node.left);
      var right :- Visit(node.right);
      r := ApplyBinary(node.op, left, right);
    }

    method VisitUnaryOp(node: Node) returns (r: Result<Number>)
      requires node.UnaryOp?
      modifies this
      ensures Outcome(r, variables) == Eval(node, old(variables))
      decreases node, 0
    {
      var v :- Visit(node.expr);
      r := Ok(ApplyUnary(node.sign, v));
    }

    method VisitNum(node: Node) returns (r: Result<Number>)
      requires node.Num?
      ensures Outcome(r, variables) == Eval(node, variables)
    {
      r := Ok(node.value);
    }

    method VisitVar(node: Node) returns (r: Result<Number>)
      requires node.Var?
      ensures Outcome(r, variables) == Eval(node, variables)
    {
      var name := node.name;
      if name in variables {
        r := Ok(variables[name]);
      } else {
        r := Err(NameError(name));
      }
    }

    /** The one place the variables change. */
    method VisitAssign(node: Node) returns (r: Result<Number>)
      requires node.Assign?
      modifies this
      ensures Outcome(r, variables) == Eval(node, old(variables))
      decreases node, 0
    {
      var value :- Visit(node.right);
      variables := variables[node.target := value];
      r := Ok(value);
    }

    method Visit(node: Node) returns (r: Result<Number>)
      modifies this
      ensures Outcome(r, variables) == Eval(node, old(variables))
      decreases node, 1
    {
      match node
      case BinaryOp(_, _, _) => r := VisitBinaryOp(node);
      case UnaryOp(_, _) => r := VisitUnaryOp(node);
      case Num(_) => r := VisitNum(node);
      case Var(_) => r := VisitVar(node);
      case Assign(_, _) => r := VisitAssign(node);
    }

    method Interpret(tree: Node) returns (r: Result<Number>)
      modifies this
      ensures Outcome(r, variables) == Eval(tree, old(variables))
    {
      r := Visit(tree);
    }
  }
}
