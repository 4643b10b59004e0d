/** The thirteen expressions the program's demonstration runs, each obtained
    from the general theorems: the text, the tree it parses to, and what it
    evaluates to. The assignments run one after another on one interpreter,
    as the demonstration does. After them come edge cases of the code that
    the demonstration does not show: an unbound name, division by zero,
    input left over after an expression, a missing operand and a character
    that starts no token. */
module Scenarios {
  import opened Numbers
  import opened Tokens
  import opened Lexing
  import opened Syntax
  import opened Parsing
  import opened Interpretation
  import opened Chains

  /** A term of one numeral. */
  function One(n: nat): Term {
    Term(Powers(n, []), [])
  }

  /** `5 - 3 - 2` is `(5 - 3) - 2`, which is 0. */
  lemma SubtractionFoldsLeft()
    ensures ParseText("5 - 3 - 2") == Ok(BinaryOp(BinaryOp(Lit(5), Sub, Lit(3)), Sub, Lit(2)))
    ensures Eval(BinaryOp(BinaryOp(Lit(5), Sub, Lit(3)), Sub, Lit(2)), map[]).result == Ok(Int(0))
  {
    var x := Expr(One(5), [Link(Sub, One(3)), Link(Sub, One(2))]);
    assert ExprText(x) == "5 - 3 - 2";
    FlatExprParseWhole(x);
  }

  /** `8 / 4 / 2` is `(8 / 4) / 2`, ... */
  lemma DivisionFoldsLeft()
    ensures ParseText("8 / 4 / 2") == Ok(BinaryOp(BinaryOp(Lit(8), Div, Lit(4)), Div, Lit(2)))
  {
    var x := Expr(Term(Powers(8, []), [Link(Div, Powers(4, [])), Link(Div, Powers(2, []))]), []);
    assert ExprText(x) == "8 / 4 / 2";
    FlatExprParseWhole(x);
  }

  /** ... which is the float 1.0: true division turns the ints into
      floats. */
  lemma DivisionFoldsLeftValue()
    ensures Eval(BinaryOp(BinaryOp(Lit(8), Div, Lit(4)), Div, Lit(2)), map[]).result == Ok(Float(1.0))
  {
    assert Divide(Int(8), Int(4)) == Ok(Float(2.0));
  }

  /** `2 * 3 * 4` is `(2 * 3) * 4`, ... */
  lemma MultiplicationFoldsLeft()
    ensures ParseText("2 * 3 * 4") == Ok(BinaryOp(BinaryOp(Lit(2), Mul, Lit(3)), Mul, Lit(4)))
  {
    var x := Expr(Term(Powers(2, []), [Link(Mul, Powers(3, [])), Link(Mul, Powers(4, []))]), []);
    assert ExprText(x) == "2 * 3 * 4";
    FlatExprParseWhole(x);
  }

  /** ... which is 24. */
  lemma MultiplicationFoldsLeftValue()
    ensures Eval(BinaryOp(BinaryOp(Lit(2), Mul, Lit(3)), Mul, Lit(4)), map[]).result == Ok(Int(24))
  {
  }

  /** `10 + 5 + 3` is `(10 + 5) + 3`, ... */
  lemma AdditionFoldsLeft()
    ensures ParseText("10 + 5 + 3") == Ok(BinaryOp(BinaryOp(Lit(10), Add, Lit(5)), Add, Lit(3)))
  {
    var x := Expr(One(10), [Link(Add, One(5)), Link(Add, One(3))]);
    AdditionText(x);
    FlatExprParseWhole(x);
  }

  /** ... which is 18. */
  lemma AdditionFoldsLeftValue()
    ensures Eval(BinaryOp(BinaryOp(Lit(10), Add, Lit(5)), Add, Lit(3)), map[]).result == Ok(Int(18))
  {
  }

  lemma AdditionText(x: Expr)
    requires x == Expr(One(10), [Link(Add, One(5)), Link(Add, One(3))])
    ensures ExprText(x) == "10 + 5 + 3"
  {
    assert Numeral(10) == "10";
    assert AddText(x.links[1..]) == " + 3";
  }

  /** `2 ** 3 ** 2` is `2 ** (3 ** 2)`, ... */
  lemma PowerGroupsRight()
    ensures ParseText("2 ** 3 ** 2") == Ok(BinaryOp(Lit(2), Pow, BinaryOp(Lit(3), Pow, Lit(2))))
  {
    var x := Expr(Term(Powers(2, [3, 2]), []), []);
    assert ExprText(x) == "2 ** 3 ** 2";
    FlatExprParseWhole(x);
  }

  /** ... which is 512. */
  lemma PowerGroupsRightValue()
    ensures Eval(BinaryOp(Lit(2), Pow, BinaryOp(Lit(3), Pow, Lit(2))), map[]).result == Ok(Int(512))
  {
    assert Eval(BinaryOp(Lit(3), Pow, Lit(2)), map[]).result == Power(Int(3), Int(2)) == Ok(Int(9));
    assert Power(Int(2), Int(9)) == Ok(Int(512));
  }

  /** `3 ** 2 ** 2` is `3 ** (2 ** 2)`, ... */
  lemma SecondPowerGroupsRight()
    ensures ParseText("3 ** 2 ** 2") == Ok(BinaryOp(Lit(3), Pow, BinaryOp(Lit(2), Pow, Lit(2))))
  {
    var x := Expr(Term(Powers(3, [2, 2]), []), []);
    assert ExprText(x) == "3 ** 2 ** 2";
    FlatExprParseWhole(x);
  }

  /** ... which is 81. */
  lemma SecondPowerGroupsRightValue()
    ensures Eval(BinaryOp(Lit(3), Pow, BinaryOp(Lit(2), Pow, Lit(2))), map[]).result == Ok(Int(81))
  {
    assert Eval(BinaryOp(Lit(2), Pow, Lit(2)), map[]).result == Power(Int(2), Int(2)) == Ok(Int(4));
    assert Power(Int(3), Int(4)) == Ok(Int(81));
  }

  /** `1 + 2 * 3 ** 2 - 4` is `(1 + (2 * (3 ** 2))) - 4`, ... */
  lemma Precedence()
    ensures ParseText("1 + 2 * 3 ** 2 - 4")
            == Ok(BinaryOp(BinaryOp(Lit(1), Add, BinaryOp(Lit(2), Mul, BinaryOp(Lit(3), Pow, Lit(2)))), Sub, Lit(4)))
  {
    var x := Expr(One(1), [Link(Add, Term(Powers(2, []), [Link(Mul, Powers(3, [2]))])), Link(Sub, One(4))]);
    PrecedenceText(x);
    FlatExprParseWhole(x);
  }

  lemma PrecedenceText(x: Expr)
    requires x == Expr(One(1), [Link(Add, Term(Powers(2, []), [Link(Mul, Powers(3, [2]))])), Link(Sub, One(4))])
    ensures ExprText(x) == "1 + 2 * 3 ** 2 - 4"
  {
    assert TermText(x.links[0].arg) == "2 * 3 ** 2";
  }

  /** ... which is 15. */
  lemma PrecedenceValue()
    ensures Eval(BinaryOp(BinaryOp(Lit(1), Add, BinaryOp(Lit(2), Mul, BinaryOp(Lit(3), Pow, Lit(2)))), Sub, Lit(4)), map[]).result
            == Ok(Int(15))
  {
    var env: Env := map[];
    assert Eval(BinaryOp(Lit(3), Pow, Lit(2)), env) == Outcome(Power(Int(3), Int(2)), env) == Outcome(Ok(Int(9)), env);
    assert Eval(BinaryOp(Lit(2), Mul, BinaryOp(Lit(3), Pow, Lit(2))), env) == Outcome(Ok(Int(18)), env);
    assert Eval(BinaryOp(Lit(1), Add, BinaryOp(Lit(2), Mul, BinaryOp(Lit(3), Pow, Lit(2)))), env) == Outcome(Ok(Int(19)), env);
  }

  /** `2 ** 3 * 4 + 5` is `((2 ** 3) * 4) + 5`, ... */
  lemma PowerBeforeProduct()
    ensures ParseText("2 ** 3 * 4 + 5")
            == Ok(BinaryOp(BinaryOp(BinaryOp(Lit(2), Pow, Lit(3)), Mul, Lit(4)), Add, Lit(5)))
  {
    var x := Expr(Term(Powers(2, [3]), [Link(Mul, Powers(4, []))]), [Link(Add, One(5))]);
    PowerBeforeProductText(x);
    FlatExprParseWhole(x);
  }

  lemma PowerBeforeProductText(x: Expr)
    requires x == Expr(Term(Powers(2, [3]), [Link(Mul, Powers(4, []))]), [Link(Add, One(5))])
    ensures ExprText(x) == "2 ** 3 * 4 + 5"
  {
    assert TermText(x.first) == "2 ** 3 * 4";
  }

  /** ... which is 37. */
  lemma PowerBeforeProductValue()
    ensures Eval(BinaryOp(BinaryOp(BinaryOp(Lit(2), Pow, Lit(3)), Mul, Lit(4)), Add, Lit(5)), map[]).result
            == Ok(Int(37))
  {
    var env: Env := map[];
    assert Eval(BinaryOp(Lit(2), Pow, Lit(3)), env) == Outcome(Power(Int(2), Int(3)), env) == Outcome(Ok(Int(8)), env);
    assert Eval(BinaryOp(BinaryOp(Lit(2), Pow, Lit(3)), Mul, Lit(4)), env) == Outcome(Ok(Int(32)), env);
  }

  /** `-2 ** 2` is `(-2) ** 2`: the sign binds tighter than `**`, ... */
  lemma SignBeforePower()
    ensures ParseText("-2 ** 2") == Ok(BinaryOp(UnaryOp(Neg, Lit(2)), Pow, Lit(2)))
  {
    assert SignText([Neg]) + PowText(Powers(2, [2])) == "-2 ** 2";
    SignedPowerText([Neg], Powers(2, [2]));
  }

  /** ... so it is 4. */
  lemma SignBeforePowerValue()
    ensures Eval(BinaryOp(UnaryOp(Neg, Lit(2)), Pow, Lit(2)), map[]).result == Ok(Int(4))
  {
    assert Eval(UnaryOp(Neg, Lit(2)), map[]).result == Ok(Int(-2));
    assert Power(Int(-2), Int(2)) == Ok(Int(4));
  }

  /** `3 + 4 * 2 ** 3 - 1` is `(3 + (4 * (2 ** 3))) - 1`, ... */
  lemma MixedPrecedence()
    ensures ParseText("3 + 4 * 2 ** 3 - 1")
            == Ok(BinaryOp(BinaryOp(Lit(3), Add, BinaryOp(Lit(4), Mul, BinaryOp(Lit(2), Pow, Lit(3)))), Sub, Lit(1)))
  {
    var x := Expr(One(3), [Link(Add, Term(Powers(4, []), [Link(Mul, Powers(2, [3]))])), Link(Sub, One(1))]);
    MixedPrecedenceText(x);
    FlatExprParseWhole(x);
  }

  lemma MixedPrecedenceText(x: Expr)
    requires x == Expr(One(3), [Link(Add, Term(Powers(4, []), [Link(Mul, Powers(2, [3]))])), Link(Sub, One(1))])
    ensures ExprText(x) == "3 + 4 * 2 ** 3 - 1"
  {
    MixedTermText(x.links[0].arg);
  }

  lemma MixedTermText(t: Term)
    requires t == Term(Powers(4, []), [Link(Mul, Powers(2, [3]))])
    ensures TermText(t) == "4 * 2 ** 3"
  {
    assert PowText(t.links[0].arg) == "2 ** 3";
  }

  /** ... which is 34. */
  lemma MixedPrecedenceValue()
    ensures Eval(BinaryOp(BinaryOp(Lit(3), Add, BinaryOp(Lit(4), Mul, BinaryOp(Lit(2), Pow, Lit(3)))), Sub, Lit(1)), map[]).result
            == Ok(Int(34))
  {
    var env: Env := map[];
    assert Eval(BinaryOp(Lit(2), Pow, Lit(3)), env) == Outcome(Power(Int(2), Int(3)), env) == Outcome(Ok(Int(8)), env);
    assert Eval(BinaryOp(Lit(4), Mul, BinaryOp(Lit(2), Pow, Lit(3))), env) == Outcome(Ok(Int(32)), env);
    assert Eval(BinaryOp(Lit(3), Add, BinaryOp(Lit(4), Mul, BinaryOp(Lit(2), Pow, Lit(3)))), env) == Outcome(Ok(Int(35)), env);
  }

  /** `a = 5` on a fresh interpreter binds `a` to 5 and returns 5; ... */
  lemma AssignOnce()
    ensures ParseText("a = 5") == Ok(Assign("a", Lit(5)))
    ensures Eval(Assign("a", Lit(5)), map[]) == Outcome(Ok(Int(5)), map["a" := Int(5)])
  {
    var names, x := ["a"], Expr(One(5), []);
    assert AssignText(names, x) == "a = 5";
    assert Identifiers(names);
    AssignTextParse(names, x);
  }

  /** ... then `b = a = 10` is `b = (a = 10)`, ... */
  lemma AssignTwice()
    ensures ParseText("b = a = 10") == Ok(Assign("b", Assign("a", Lit(10))))
  {
    var names, x := ["b", "a"], Expr(One(10), []);
    assert Numeral(10) == "10";
    assert AssignText(names, x) == "b = a = 10";
    assert Identifiers(names);
    AssignTextParse(names, x);
  }

  /** ... which rebinds `a` and binds `b`, both to 10; ... */
  lemma AssignTwiceValue()
    ensures Eval(Assign("b", Assign("a", Lit(10))), map["a" := Int(5)])
            == Outcome(Ok(Int(10)), map["a" := Int(10), "b" := Int(10)])
  {
    var env: Env := map["a" := Int(5)];
    assert Eval(Assign("a", Lit(10)), env) == Outcome(Ok(Int(10)), env["a" := Int(10)]);
    assert env["a" := Int(10)]["b" := Int(10)] == map["a" := Int(10), "b" := Int(10)];
  }

  /** `--x` is `-(-x)`: the value of `x` when it is bound, a NameError
      when it is not. */
  lemma DoubleNegation()
    ensures ParseText("--x") == Ok(UnaryOp(Neg, UnaryOp(Neg, Var("x"))))
    ensures forall v: Number :: Eval(UnaryOp(Neg, UnaryOp(Neg, Var("x"))), map["x" := v]).result == Ok(v)
    ensures Eval(UnaryOp(Neg, UnaryOp(Neg, Var("x"))), map[]).result == Err(NameError("x"))
  {
    assert SignText([Neg, Neg]) + "x" == "--x";
    SignedNameText([Neg, Neg], "x");
    DoubleNegationValue();
  }

  lemma DoubleNegationValue()
    ensures forall v: Number :: Eval(UnaryOp(Neg, UnaryOp(Neg, Var("x"))), map["x" := v]).result == Ok(v)
    ensures Eval(UnaryOp(Neg, UnaryOp(Neg, Var("x"))), map[]).result == Err(NameError("x"))
  {
    forall v: Number
      ensures Eval(UnaryOp(Neg, UnaryOp(Neg, Var("x"))), map["x" := v]).result == Ok(v)
    {
      var env := map["x" := v];
      assert Eval(Var("x"), env) == Outcome(Ok(v), env);
      assert Eval(UnaryOp(Neg, Var("x")), env) == Outcome(Ok(Negate(v)), env);
      assert Negate(Negate(v)) == v;
    }
  }

  /** ... and last `c = b = a = 15` is `c = (b = (a = 15))`, ... */
  lemma ChainedAssignment()
    ensures ParseText("c = b = a = 15") == Ok(Assign("c", Assign("b", Assign("a", Lit(15)))))
  {
    var names, x := ["c", "b", "a"], Expr(One(15), []);
    assert AssignText(names, x) == "c = b = a = 15";
    assert Identifiers(names);
    AssignTextParse(names, x);
  }

  /** ... which rebinds `a` and `b` and binds `c`, all to 15, and returns
      15. */
  lemma ChainedAssignmentValue()
    ensures Eval(Assign("c", Assign("b", Assign("a", Lit(15)))), map["a" := Int(10), "b" := Int(10)])
            == Outcome(Ok(Int(15)), map["a" := Int(15), "b" := Int(15), "c" := Int(15)])
  {
    var env: Env := map["a" := Int(10), "b" := Int(10)];
    var env1 := env["a" := Int(15)];
    var env2 := env1["b" := Int(15)];
    assert Eval(Assign("a", Lit(15)), env) == Outcome(Ok(Int(15)), env1);
    assert Eval(Assign("b", Assign("a", Lit(15))), env) == Outcome(Ok(Int(15)), env2);
    assert env2["c" := Int(15)] == map["a" := Int(15), "b" := Int(15), "c" := Int(15)];
  }

  /** `1 / 0` fails with ZeroDivisionError. */
  lemma DivisionByZeroFails()
    ensures ParseText("1 / 0") == Ok(BinaryOp(Lit(1), Div, Lit(0)))
    ensures Eval(BinaryOp(Lit(1), Div, Lit(0)), map[]).result == Err(DivisionByZero)
  {
    var x := Expr(Term(Powers(1, []), [Link(Div, Powers(0, []))]), []);
    assert ExprText(x) == "1 / 0";
    FlatExprParseWhole(x);
  }

  /** Nothing checks that the input is used up: `1 + 2 = 3` is `1 + 2`; ... */
  lemma TrailingAssign()
    ensures ParseText("1 + 2 = 3") == Ok(BinaryOp(Lit(1), Add, Lit(2)))
  {
    var sum := Expr(One(1), [Link(Add, One(2))]);
    assert ExprText(sum) + (" = " + "3") == "1 + 2 = 3";
    TrailingAssignIgnored(sum, "3");
  }

  /** ... `2 3` is `2`; ... */
  lemma TrailingNumber()
    ensures ParseText("2 3") == Ok(Lit(2))
  {
    assert ExprText(Expr(One(2), [])) + (" " + Numeral(3) + "") == "2 3";
    TrailingNumberIgnored(Expr(One(2), []), 3, "");
  }

  /** ... and in `1 2 @` the `@` is never lexed. */
  lemma TrailingInvalidCharacter()
    ensures ParseText("1 2 @") == Ok(Lit(1))
  {
    assert ExprText(Expr(One(1), [])) + (" " + Numeral(2) + " @") == "1 2 @";
    TrailingNumberIgnored(Expr(One(1), []), 2, " @");
  }

  /** `2 +` fails: after `+`, `factor` finds EOF. */
  lemma MissingOperand()
    ensures ParseText("2 +") == Err(UnexpectedToken(Sym(EOF)))
  {
    assert Numeral(2) == "2";
    DanglingPlus("2 +", 2);
  }

  /** `2 @ 3` fails where the `@` stands, when the lexer is asked for the
      token after `2`. */
  lemma InvalidCharacterRefused()
    ensures ParseText("2 @ 3") == Err(InvalidCharacter(2))
  {
    assert Numeral(2) == "2";
    InvalidAfterNumeral("2 @ 3", 2, '@', " 3", 2);
  }
}
