/**
 * The generator on the inputs of the repository's own unit tests, and on a
 * few inputs that show its edge cases. Each example instantiates the
 * general translation theorems: a layout certificate says where the tokens
 * of the input lie, and the reference translation of the input's syntax
 * tree is spelled out line by line.
 */
module Examples {
  import opened Options
  import opened Chars
  import opened Lines
  import opened CodeGenSpec
  import opened Cursor
  import opened Syntax
  import opened Shapes
  import opened Translation

  /**
   * A layout certificate: from token `i` on, token `k` of `toks` is at
   * `stops[k]` of `s`, and `stops[k + 1]` is where the spaces after it end.
   */
  predicate LaidFrom(s: string, toks: seq<string>, stops: seq<int>, i: nat)
    requires |stops| == |toks| + 1 && i <= |toks|
    decreases |toks| - i
  {
    0 <= stops[i] <= |s| &&
    (i < |toks| ==>
       WordAt(s, stops[i], toks[i]) && stops[i + 1] == SkipWhite(s, stops[i] + |toks[i]|) &&
       LaidFrom(s, toks, stops, i + 1))
  }

  /** A certified layout is what `Scan` finds. */
  lemma {:induction false} LaidScan(s: string, toks: seq<string>, stops: seq<int>, i: nat)
    requires |stops| == |toks| + 1 && i <= |toks| && LaidFrom(s, toks, stops, i)
    ensures Scan(s, stops[i], toks[i..]).Some? && Scan(s, stops[i], toks[i..]).value == stops[|toks|]
    decreases |toks| - i
  {
    if i == |toks| {
      assert toks[i..] == [];
    } else {
      LaidScan(s, toks, stops, i + 1);
      assert toks[i..] == [toks[i]] + toks[i + 1..];
      ScanCons(s, stops[i], toks[i], toks[i + 1..]);
    }
  }

  /** `expression` on an input laid out as the tokens of `e`, stopping at `q`. */
  lemma ExpressionExample(input: string, e: Expr, toks: seq<string>, stops: seq<int>, q: nat)
    requires ValidExpr(e) && ExprTokens(e) == toks
    requires |stops| == |toks| + 1 && stops[0] == 0 && stops[|toks|] == q && LaidFrom(input, toks, stops, 0)
    requires 0 < |input| && ExprStop(e, input, q)
    ensures At(Expression(Start(input)), q) && Expression(Start(input)).out == Emitted(ExprCode(e))
  {
    LaidScan(input, toks, stops, 0);
    assert toks[0..] == toks;
    StartAt(input);
    ExprEmits(Start(input), 0, e, q);
  }

  /** `assignment` on an input laid out as the tokens of `a`, stopping at `q`. */
  lemma AssignmentExample(input: string, a: Assign, toks: seq<string>, stops: seq<int>, q: nat)
    requires ValidName(a.name) && ValidExpr(a.e) && AssignTokens(a) == toks
    requires 0 < |input| && |stops| == |toks| + 1 && stops[0] == SkipWhite(input, 0) && stops[|toks|] == q
    requires LaidFrom(input, toks, stops, 0) && ExprStop(a.e, input, q)
    ensures At(Assignment(Start(input)), q) && Assignment(Start(input)).out == Emitted(AssignCode(a))
  {
    LaidScan(input, toks, stops, 0);
    assert toks[0..] == toks;
    StartAt(input);
    AssignEmits(Start(input), 0, a, q);
  }

  /** `given_single_term_expression_output_move_instruction` (compiler.rs): `expression` on `1`. */
  lemma SingleTerm()
    ensures var r := Expression(Start("1"));
            r.fault.None? && r.lookahead.None? && r.out == Emitted(["MOVE #1,D0"])
  {
    SingleTermParsed();
    SingleTermCode();
    SingleTermLayout();
    ExpressionExample("1", SingleTermTree, ["1"], [0, 1], 1);
  }

  const SingleTermTree := Expr(First(Term(Num('1'), NoMul)), End)

  lemma SingleTermParsed()
    ensures ValidExpr(SingleTermTree) && ExprTokens(SingleTermTree) == ["1"] && ExprStop(SingleTermTree, "1", 1)
  {

  }

  lemma SingleTermCode()
    ensures ExprCode(SingleTermTree) == ["MOVE #1,D0"]
  {
    assert "MOVE #" + ['1'] + ",D0" == "MOVE #1,D0";
  }

  lemma SingleTermLayout()
    ensures LaidFrom("1", ["1"], [0, 1], 0)
  {
    var s, t, ps := "1", ["1"], [0, 1];
    assert LaidFrom(s, t, ps, 0);
  }

  /** `given_add_operation_output_add_instructions` (compiler.rs): `expression` on `1 + 2`. */
  lemma AddOperation()
    ensures var r := Expression(Start("1 + 2"));
            r.fault.None? && r.lookahead.None? && r.out == Emitted(["MOVE #1,D0", "MOVE D0,-(SP)", "MOVE #2,D0", "ADD (SP)+,D0"])
  {
    AddOperationParsed();
    AddOperationCode();
    AddOperationLayout();
    ExpressionExample("1 + 2", AddOperationTree, ["1", "+", "2"], [0, 2, 4, 5], 5);
  }

  const AddOperationTree := Expr(First(Term(Num('1'), NoMul)), Then(Plus, Term(Num('2'), NoMul), End))

  lemma AddOperationParsed()
    ensures ValidExpr(AddOperationTree) && ExprTokens(AddOperationTree) == ["1", "+", "2"] && ExprStop(AddOperationTree, "1 + 2", 5)
  {

  }

  lemma AddOperationCode()
    ensures ExprCode(AddOperationTree) == ["MOVE #1,D0", "MOVE D0,-(SP)", "MOVE #2,D0", "ADD (SP)+,D0"]
  {
    assert "MOVE #" + ['1'] + ",D0" == "MOVE #1,D0";
    assert "MOVE #" + ['2'] + ",D0" == "MOVE #2,D0";
  }

  lemma AddOperationLayout()
    ensures LaidFrom("1 + 2", ["1", "+", "2"], [0, 2, 4, 5], 0)
  {
    var s, t, ps := "1 + 2", ["1", "+", "2"], [0, 2, 4, 5];
    assert LaidFrom(s, t, ps, 2);
    assert LaidFrom(s, t, ps, 1);
    assert LaidFrom(s, t, ps, 0);
  }

  /** `given_subtract_operation_output_subtract_instructions` (compiler.rs): `expression` on `1-2`. */
  lemma SubtractOperation()
    ensures var r := Expression(Start("1-2"));
            r.fault.None? && r.lookahead.None? && r.out == Emitted(["MOVE #1,D0", "MOVE D0,-(SP)", "MOVE #2,D0", "SUB (SP)+,D0", "NEG D0"])
  {
    SubtractOperationParsed();
    SubtractOperationCode();
    SubtractOperationLayout();
    ExpressionExample("1-2", SubtractOperationTree, ["1", "-", "2"], [0, 1, 2, 3], 3);
  }

  const SubtractOperationTree := Expr(First(Term(Num('1'), NoMul)), Then(Minus, Term(Num('2'), NoMul), End))

  lemma SubtractOperationParsed()
    ensures ValidExpr(SubtractOperationTree) && ExprTokens(SubtractOperationTree) == ["1", "-", "2"] && ExprStop(SubtractOperationTree, "1-2", 3)
  {

  }

  lemma SubtractOperationCode()
    ensures ExprCode(SubtractOperationTree) == ["MOVE #1,D0", "MOVE D0,-(SP)", "MOVE #2,D0", "SUB (SP)+,D0", "NEG D0"]
  {
    assert "MOVE #" + ['1'] + ",D0" == "MOVE #1,D0";
    assert "MOVE #" + ['2'] + ",D0" == "MOVE #2,D0";
  }

  lemma SubtractOperationLayout()
    ensures LaidFrom("1-2", ["1", "-", "2"], [0, 1, 2, 3], 0)
  {
    var s, t, ps := "1-2", ["1", "-", "2"], [0, 1, 2, 3];
    assert LaidFrom(s, t, ps, 2);
    assert LaidFrom(s, t, ps, 1);
    assert LaidFrom(s, t, ps, 0);
  }

  /** `given_multiple_operators_output_correct_assembly` (compiler.rs): `expression` on `1-2+3-4+7`. */
  lemma MultipleOperators()
    ensures var r := Expression(Start("1-2+3-4+7"));
            r.fault.None? && r.lookahead.None? && r.out == Emitted(["MOVE #1,D0", "MOVE D0,-(SP)", "MOVE #2,D0", "SUB (SP)+,D0", "NEG D0", "MOVE D0,-(SP)", "MOVE #3,D0", "ADD (SP)+,D0", "MOVE D0,-(SP)", "MOVE #4,D0", "SUB (SP)+,D0", "NEG D0", "MOVE D0,-(SP)", "MOVE #7,D0", "ADD (SP)+,D0"])
  {
    MultipleOperatorsParsed();
    MultipleOperatorsCode();
    MultipleOperatorsLayout();
    ExpressionExample("1-2+3-4+7", MultipleOperatorsTree, ["1", "-", "2", "+", "3", "-", "4", "+", "7"], [0, 1, 2, 3, 4, 5, 6, 7, 8, 9], 9);
  }

  const MultipleOperatorsTree := Expr(First(Term(Num('1'), NoMul)), Then(Minus, Term(Num('2'), NoMul), Then(Plus, Term(Num('3'), NoMul), Then(Minus, Term(Num('4'), NoMul), Then(Plus, Term(Num('7'), NoMul), End)))))

  lemma MultipleOperatorsParsed()
    ensures ValidExpr(MultipleOperatorsTree) && ExprTokens(MultipleOperatorsTree) == ["1", "-", "2", "+", "3", "-", "4", "+", "7"] && ExprStop(MultipleOperatorsTree, "1-2+3-4+7", 9)
  {

  }

  lemma MultipleOperatorsCode()
    ensures ExprCode(MultipleOperatorsTree) == ["MOVE #1,D0", "MOVE D0,-(SP)", "MOVE #2,D0", "SUB (SP)+,D0", "NEG D0", "MOVE D0,-(SP)", "MOVE #3,D0", "ADD (SP)+,D0", "MOVE D0,-(SP)", "MOVE #4,D0", "SUB (SP)+,D0", "NEG D0", "MOVE D0,-(SP)", "MOVE #7,D0", "ADD (SP)+,D0"]
  {
    assert "MOVE #" + ['1'] + ",D0" == "MOVE #1,D0";
    assert "MOVE #" + ['2'] + ",D0" == "MOVE #2,D0";
    assert "MOVE #" + ['3'] + ",D0" == "MOVE #3,D0";
    assert "MOVE #" + ['4'] + ",D0" == "MOVE #4,D0";
    assert "MOVE #" + ['7'] + ",D0" == "MOVE #7,D0";
  }

  lemma MultipleOperatorsLayout()
    ensures LaidFrom("1-2+3-4+7", ["1", "-", "2", "+", "3", "-", "4", "+", "7"], [0, 1, 2, 3, 4, 5, 6, 7, 8, 9], 0)
  {
    var s, t, ps := "1-2+3-4+7", ["1", "-", "2", "+", "3", "-", "4", "+", "7"], [0, 1, 2, 3, 4, 5, 6, 7, 8, 9];
    assert LaidFrom(s, t, ps, 8);
    assert LaidFrom(s, t, ps, 7);
    assert LaidFrom(s, t, ps, 6);
    assert LaidFrom(s, t, ps, 5);
    assert LaidFrom(s, t, ps, 4);
    assert LaidFrom(s, t, ps, 3);
    assert LaidFrom(s, t, ps, 2);
    assert LaidFrom(s, t, ps, 1);
    assert LaidFrom(s, t, ps, 0);
  }

  /** `given_multiply_output_multiply_assembly` (compiler.rs): `expression` on `2*3`. */
  lemma MultiplyOperation()
    ensures var r := Expression(Start("2*3"));
            r.fault.None? && r.lookahead.None? && r.out == Emitted(["MOVE #2,D0", "MOVE D0,-(SP)", "MOVE #3,D0", "MULS (SP)+,D0"])
  {
    MultiplyOperationParsed();
    MultiplyOperationCode();
    MultiplyOperationLayout();
    ExpressionExample("2*3", MultiplyOperationTree, ["2", "*", "3"], [0, 1, 2, 3], 3);
  }

  const MultiplyOperationTree := Expr(First(Term(Num('2'), Mul(Times, Num('3')))), End)

  lemma MultiplyOperationParsed()
    ensures ValidExpr(MultiplyOperationTree) && ExprTokens(MultiplyOperationTree) == ["2", "*", "3"] && ExprStop(MultiplyOperationTree, "2*3", 3)
  {

  }

  lemma MultiplyOperationCode()
    ensures ExprCode(MultiplyOperationTree) == ["MOVE #2,D0", "MOVE D0,-(SP)", "MOVE #3,D0", "MULS (SP)+,D0"]
  {
    assert "MOVE #" + ['2'] + ",D0" == "MOVE #2,D0";
    assert "MOVE #" + ['3'] + ",D0" == "MOVE #3,D0";
  }

  lemma MultiplyOperationLayout()
    ensures LaidFrom("2*3", ["2", "*", "3"], [0, 1, 2, 3], 0)
  {
    var s, t, ps := "2*3", ["2", "*", "3"], [0, 1, 2, 3];
    assert LaidFrom(s, t, ps, 2);
    assert LaidFrom(s, t, ps, 1);
    assert LaidFrom(s, t, ps, 0);
  }

  /** `given_divide_output_divide_assembly` (compiler.rs): `expression` on `2/3`. */
  lemma DivideOperation()
    ensures var r := Expression(Start("2/3"));
            r.fault.None? && r.lookahead.None? && r.out == Emitted(["MOVE #2,D0", "MOVE D0,-(SP)", "MOVE #3,D0", "MOVE (SP)+,D1", "DIVS D1,D0"])
  {
    DivideOperationParsed();
    DivideOperationCode();
    DivideOperationLayout();
    ExpressionExample("2/3", DivideOperationTree, ["2", "/", "3"], [0, 1, 2, 3], 3);
  }

  const DivideOperationTree := Expr(First(Term(Num('2'), Mul(Over, Num('3')))), End)

  lemma DivideOperationParsed()
    ensures ValidExpr(DivideOperationTree) && ExprTokens(DivideOperationTree) == ["2", "/", "3"] && ExprStop(DivideOperationTree, "2/3", 3)
  {

  }

  lemma DivideOperationCode()
    ensures ExprCode(DivideOperationTree) == ["MOVE #2,D0", "MOVE D0,-(SP)", "MOVE #3,D0", "MOVE (SP)+,D1", "DIVS D1,D0"]
  {
    assert "MOVE #" + ['2'] + ",D0" == "MOVE #2,D0";
    assert "MOVE #" + ['3'] + ",D0" == "MOVE #3,D0";
  }

  lemma DivideOperationLayout()
    ensures LaidFrom("2/3", ["2", "/", "3"], [0, 1, 2, 3], 0)
  {
    var s, t, ps := "2/3", ["2", "/", "3"], [0, 1, 2, 3];
    assert LaidFrom(s, t, ps, 2);
    assert LaidFrom(s, t, ps, 1);
    assert LaidFrom(s, t, ps, 0);
  }

  /** `given_parentheses_output_correct_assembly` (compiler.rs): `expression` on `( 1+2 )`. */
  lemma Parentheses()
    ensures var r := Expression(Start("( 1+2 )"));
            r.fault.None? && r.lookahead.None? && r.out == Emitted(["MOVE #1,D0", "MOVE D0,-(SP)", "MOVE #2,D0", "ADD (SP)+,D0"])
  {
    ParenthesesParsed();
    ParenthesesCode();
    ParenthesesLayout();
    ExpressionExample("( 1+2 )", ParenthesesTree, ["(", "1", "+", "2", ")"], [0, 2, 3, 4, 6, 7], 7);
  }

  const ParenthesesTree := Expr(First(Term(Paren(Expr(First(Term(Num('1'), NoMul)), Then(Plus, Term(Num('2'), NoMul), End))), NoMul)), End)

  lemma ParenthesesParsed()
    ensures ValidExpr(ParenthesesTree) && ExprTokens(ParenthesesTree) == ["(", "1", "+", "2", ")"] && ExprStop(ParenthesesTree, "( 1+2 )", 7)
  {

  }

  lemma ParenthesesCode()
    ensures ExprCode(ParenthesesTree) == ["MOVE #1,D0", "MOVE D0,-(SP)", "MOVE #2,D0", "ADD (SP)+,D0"]
  {
    assert "MOVE #" + ['1'] + ",D0" == "MOVE #1,D0";
    assert "MOVE #" + ['2'] + ",D0" == "MOVE #2,D0";
  }

  lemma ParenthesesLayout()
    ensures LaidFrom("( 1+2 )", ["(", "1", "+", "2", ")"], [0, 2, 3, 4, 6, 7], 0)
  {
    var s, t, ps := "( 1+2 )", ["(", "1", "+", "2", ")"], [0, 2, 3, 4, 6, 7];
    assert LaidFrom(s, t, ps, 4);
    assert LaidFrom(s, t, ps, 3);
    assert LaidFrom(s, t, ps, 2);
    assert LaidFrom(s, t, ps, 1);
    assert LaidFrom(s, t, ps, 0);
  }

  /** `expression` on `2*3*4`: `term` takes one `*` with an `if`, not a loop, so it stops with the second `*` unconsumed as the lookahead. */
  lemma StopsAtSecondOperator()
    ensures var r := Expression(Start("2*3*4"));
            r.fault.None? && r.counter == 3 && r.lookahead == Some('*') && r.out == Emitted(["MOVE #2,D0", "MOVE D0,-(SP)", "MOVE #3,D0", "MULS (SP)+,D0"])
  {
    StopsAtSecondOperatorParsed();
    StopsAtSecondOperatorCode();
    StopsAtSecondOperatorLayout();
    ExpressionExample("2*3*4", StopsAtSecondOperatorTree, ["2", "*", "3"], [0, 1, 2, 3], 3);
  }

  const StopsAtSecondOperatorTree := Expr(First(Term(Num('2'), Mul(Times, Num('3')))), End)

  lemma StopsAtSecondOperatorParsed()
    ensures ValidExpr(StopsAtSecondOperatorTree) && ExprTokens(StopsAtSecondOperatorTree) == ["2", "*", "3"] && ExprStop(StopsAtSecondOperatorTree, "2*3*4", 3)
  {

  }

  lemma StopsAtSecondOperatorCode()
    ensures ExprCode(StopsAtSecondOperatorTree) == ["MOVE #2,D0", "MOVE D0,-(SP)", "MOVE #3,D0", "MULS (SP)+,D0"]
  {
    assert "MOVE #" + ['2'] + ",D0" == "MOVE #2,D0";
    assert "MOVE #" + ['3'] + ",D0" == "MOVE #3,D0";
  }

  lemma StopsAtSecondOperatorLayout()
    ensures LaidFrom("2*3*4", ["2", "*", "3"], [0, 1, 2, 3], 0)
  {
    var s, t, ps := "2*3*4", ["2", "*", "3"], [0, 1, 2, 3];
    assert LaidFrom(s, t, ps, 2);
    assert LaidFrom(s, t, ps, 1);
    assert LaidFrom(s, t, ps, 0);
  }

  /** `given_complex_arithmetic_output_correct_assembly` (compiler.rs): `expression` on `( 1 + 2)/((3 + 4)+(5 - 6))`. */
  lemma ComplexArithmetic()
    ensures var r := Expression(Start(ComplexInput));
            r.fault.None? && r.lookahead.None? && r.out == Emitted(ComplexCode)
  {
    ComplexArithmeticParsed();
    ComplexArithmeticCode();
    ComplexArithmeticLayout();
    ExpressionExample(ComplexInput, ComplexArithmeticTree, ComplexTokens, ComplexStops, 26);
  }

  /* Written in pieces, so that each position is found without walking the whole literal. */
  const ComplexInput := "( 1 + " + "2)/((" + "3 + 4" + ")+(5 " + "- 6))"
  const ComplexTokens :=
    (["("] + ["1", "+", "2"] + [")"]) + (["/"] + (["("] + ["(", "3", "+", "4", ")", "+", "(", "5", "-", "6", ")"] + [")"]))
  const ComplexCode :=
    ["MOVE #1,D0", "MOVE D0,-(SP)", "MOVE #2,D0", "ADD (SP)+,D0"] + ["MOVE D0,-(SP)"] +
    ["MOVE #3,D0", "MOVE D0,-(SP)", "MOVE #4,D0", "ADD (SP)+,D0", "MOVE D0,-(SP)", "MOVE #5,D0", "MOVE D0,-(SP)", "MOVE #6,D0", "SUB (SP)+,D0", "NEG D0", "ADD (SP)+,D0"] +
    ["MOVE (SP)+,D1", "DIVS D1,D0"]
  const ComplexStops := [0, 2, 4, 6] + [7, 8, 9, 10] + [11, 13, 15, 16] + [17, 18, 19, 21] + [23, 24, 25, 26]

  const OnePlusTwo := Expr(First(Term(Num('1'), NoMul)), Then(Plus, Term(Num('2'), NoMul), End))
  const ThreePlusFour := Expr(First(Term(Num('3'), NoMul)), Then(Plus, Term(Num('4'), NoMul), End))
  const FiveMinusSix := Expr(First(Term(Num('5'), NoMul)), Then(Minus, Term(Num('6'), NoMul), End))
  const Divisor := Expr(First(Term(Paren(ThreePlusFour), NoMul)), Then(Plus, Term(Paren(FiveMinusSix), NoMul), End))
  const ComplexArithmeticTree := Expr(First(Term(Paren(OnePlusTwo), Mul(Over, Paren(Divisor)))), End)

  lemma OnePlusTwoFacts()
    ensures ValidExpr(OnePlusTwo) && ExprTokens(OnePlusTwo) == ["1", "+", "2"]
    ensures ExprCode(OnePlusTwo) == ["MOVE #1,D0", "MOVE D0,-(SP)", "MOVE #2,D0", "ADD (SP)+,D0"]
  {
    assert "MOVE #" + ['1'] + ",D0" == "MOVE #1,D0";
    assert "MOVE #" + ['2'] + ",D0" == "MOVE #2,D0";
  }

  lemma ThreePlusFourFacts()
    ensures ValidExpr(ThreePlusFour) && ExprTokens(ThreePlusFour) == ["3", "+", "4"]
    ensures ExprCode(ThreePlusFour) == ["MOVE #3,D0", "MOVE D0,-(SP)", "MOVE #4,D0", "ADD (SP)+,D0"]
  {
    assert "MOVE #" + ['3'] + ",D0" == "MOVE #3,D0";
    assert "MOVE #" + ['4'] + ",D0" == "MOVE #4,D0";
  }

  lemma FiveMinusSixFacts()
    ensures ValidExpr(FiveMinusSix) && ExprTokens(FiveMinusSix) == ["5", "-", "6"]
    ensures ExprCode(FiveMinusSix) == ["MOVE #5,D0", "MOVE D0,-(SP)", "MOVE #6,D0", "SUB (SP)+,D0", "NEG D0"]
  {
    assert "MOVE #" + ['5'] + ",D0" == "MOVE #5,D0";
    assert "MOVE #" + ['6'] + ",D0" == "MOVE #6,D0";
  }

  lemma DivisorFacts()
    ensures ValidExpr(Divisor) && ExprTokens(Divisor) == ["(", "3", "+", "4", ")", "+", "(", "5", "-", "6", ")"]
    ensures ExprCode(Divisor) == ["MOVE #3,D0", "MOVE D0,-(SP)", "MOVE #4,D0", "ADD (SP)+,D0", "MOVE D0,-(SP)", "MOVE #5,D0", "MOVE D0,-(SP)", "MOVE #6,D0", "SUB (SP)+,D0", "NEG D0", "ADD (SP)+,D0"]
  {
    ThreePlusFourFacts();
    FiveMinusSixFacts();
  }

  lemma ComplexArithmeticParsed()
    ensures ValidExpr(ComplexArithmeticTree) && ExprTokens(ComplexArithmeticTree) == ComplexTokens
    ensures ExprStop(ComplexArithmeticTree, ComplexInput, 26)
  {
    OnePlusTwoFacts();
    DivisorFacts();
  }

  lemma ComplexArithmeticCode()
    ensures ExprCode(ComplexArithmeticTree) == ComplexCode
  {
    OnePlusTwoFacts();
    DivisorFacts();
  }

  lemma ComplexLayout16(s: string, t: seq<string>, ps: seq<int>)
    requires s == ComplexInput && t == ComplexTokens && ps == ComplexStops
    ensures LaidFrom(s, t, ps, 16)
  {
    assert LaidFrom(s, t, ps, 18);
    assert LaidFrom(s, t, ps, 17);
    assert LaidFrom(s, t, ps, 16);
  }

  lemma ComplexLayout13(s: string, t: seq<string>, ps: seq<int>)
    requires s == ComplexInput && t == ComplexTokens && ps == ComplexStops && LaidFrom(s, t, ps, 16)
    ensures LaidFrom(s, t, ps, 13)
  {
    assert LaidFrom(s, t, ps, 15);
    assert LaidFrom(s, t, ps, 14);
    assert LaidFrom(s, t, ps, 13);
  }

  lemma ComplexLayout10(s: string, t: seq<string>, ps: seq<int>)
    requires s == ComplexInput && t == ComplexTokens && ps == ComplexStops && LaidFrom(s, t, ps, 13)
    ensures LaidFrom(s, t, ps, 10)
  {
    assert LaidFrom(s, t, ps, 12);
    assert LaidFrom(s, t, ps, 11);
    assert LaidFrom(s, t, ps, 10);
  }

  lemma ComplexLayout7(s: string, t: seq<string>, ps: seq<int>)
    requires s == ComplexInput && t == ComplexTokens && ps == ComplexStops && LaidFrom(s, t, ps, 10)
    ensures LaidFrom(s, t, ps, 7)
  {
    assert LaidFrom(s, t, ps, 9);
    assert LaidFrom(s, t, ps, 8);
    assert LaidFrom(s, t, ps, 7);
  }

  lemma ComplexLayout4(s: string, t: seq<string>, ps: seq<int>)
    requires s == ComplexInput && t == ComplexTokens && ps == ComplexStops && LaidFrom(s, t, ps, 7)
    ensures LaidFrom(s, t, ps, 4)
  {
    assert LaidFrom(s, t, ps, 6);
    assert LaidFrom(s, t, ps, 5);
    assert LaidFrom(s, t, ps, 4);
  }

  lemma ComplexLayout2(s: string, t: seq<string>, ps: seq<int>)
    requires s == ComplexInput && t == ComplexTokens && ps == ComplexStops && LaidFrom(s, t, ps, 4)
    ensures LaidFrom(s, t, ps, 2)
  {
    assert LaidFrom(s, t, ps, 3);
    assert LaidFrom(s, t, ps, 2);
  }

  lemma ComplexLayout0(s: string, t: seq<string>, ps: seq<int>)
    requires s == ComplexInput && t == ComplexTokens && ps == ComplexStops && LaidFrom(s, t, ps, 2)
    ensures LaidFrom(s, t, ps, 0)
  {
    assert LaidFrom(s, t, ps, 1);
    assert LaidFrom(s, t, ps, 0);
  }

  lemma ComplexArithmeticLayout()
    ensures LaidFrom(ComplexInput, ComplexTokens, ComplexStops, 0)
  {
    ComplexLayout16(ComplexInput, ComplexTokens, ComplexStops);
    ComplexLayout13(ComplexInput, ComplexTokens, ComplexStops);
    ComplexLayout10(ComplexInput, ComplexTokens, ComplexStops);
    ComplexLayout7(ComplexInput, ComplexTokens, ComplexStops);
    ComplexLayout4(ComplexInput, ComplexTokens, ComplexStops);
    ComplexLayout2(ComplexInput, ComplexTokens, ComplexStops);
    ComplexLayout0(ComplexInput, ComplexTokens, ComplexStops);
  }

  /** `given_multi_char_identifier` (compiler.rs): `assignment` on `jake = 10`. */
  lemma MultiCharIdentifier()
    ensures var r := Assignment(Start("jake = 10"));
            r.fault.None? && r.counter == 8 && r.lookahead == Some('0') && r.out == Emitted(["MOVE #1,D0", "LEA jake(PC),A0", "MOVE D0,(A0)"])
  {
    MultiCharIdentifierParsed();
    MultiCharIdentifierCode();
    MultiCharIdentifierLayout();
    AssignmentExample("jake = 10", MultiCharIdentifierTree, ["jake", "=", "1"], [0, 5, 7, 8], 8);
  }

  const MultiCharIdentifierTree := Assign("jake", Expr(First(Term(Num('1'), NoMul)), End))

  lemma MultiCharIdentifierParsed()
    ensures ValidName(MultiCharIdentifierTree.name) && ValidExpr(MultiCharIdentifierTree.e)
    ensures AssignTokens(MultiCharIdentifierTree) == ["jake", "=", "1"] && ExprStop(MultiCharIdentifierTree.e, "jake = 10", 8)
  {
  }

  lemma MultiCharIdentifierCode()
    ensures AssignCode(MultiCharIdentifierTree) == ["MOVE #1,D0", "LEA jake(PC),A0", "MOVE D0,(A0)"]
  {
    assert "MOVE #" + ['1'] + ",D0" == "MOVE #1,D0";
    assert "LEA " + "jake" + "(PC),A0" == "LEA jake(PC),A0";
  }

  lemma MultiCharIdentifierLayout()
    ensures SkipWhite("jake = 10", 0) == 0 && LaidFrom("jake = 10", ["jake", "=", "1"], [0, 5, 7, 8], 0)
  {
    var s, t, ps := "jake = 10", ["jake", "=", "1"], [0, 5, 7, 8];
    assert LaidFrom(s, t, ps, 2);
    assert LaidFrom(s, t, ps, 1);
    assert LaidFrom(s, t, ps, 0);
  }

  /** `given_arbitray_whitespace_should_output_correctly` (compiler.rs): `assignment` on `  b =   1 +   3    / 2`. */
  lemma ArbitraryWhitespace()
    ensures var r := Assignment(Start("  b =   1 +   3    / 2"));
            r.fault.None? && r.lookahead.None? && r.out == Emitted(["MOVE #1,D0", "MOVE D0,-(SP)", "MOVE #3,D0", "MOVE D0,-(SP)", "MOVE #2,D0", "MOVE (SP)+,D1", "DIVS D1,D0", "ADD (SP)+,D0", "LEA b(PC),A0", "MOVE D0,(A0)"])
  {
    ArbitraryWhitespaceParsed();
    ArbitraryWhitespaceCode();
    ArbitraryWhitespaceLayout();
    AssignmentExample("  b =   1 +   3    / 2", ArbitraryWhitespaceTree, ["b", "=", "1", "+", "3", "/", "2"], [2, 4, 8, 10, 14, 19, 21, 22], 22);
  }

  const ArbitraryWhitespaceTree := Assign("b", Expr(First(Term(Num('1'), NoMul)), Then(Plus, Term(Num('3'), Mul(Over, Num('2'))), End)))

  lemma ArbitraryWhitespaceParsed()
    ensures ValidName(ArbitraryWhitespaceTree.name) && ValidExpr(ArbitraryWhitespaceTree.e)
    ensures AssignTokens(ArbitraryWhitespaceTree) == ["b", "=", "1", "+", "3", "/", "2"] && ExprStop(ArbitraryWhitespaceTree.e, "  b =   1 +   3    / 2", 22)
  {
  }

  lemma ArbitraryWhitespaceCode()
    ensures AssignCode(ArbitraryWhitespaceTree) == ["MOVE #1,D0", "MOVE D0,-(SP)", "MOVE #3,D0", "MOVE D0,-(SP)", "MOVE #2,D0", "MOVE (SP)+,D1", "DIVS D1,D0", "ADD (SP)+,D0", "LEA b(PC),A0", "MOVE D0,(A0)"]
  {
    assert "MOVE #" + ['1'] + ",D0" == "MOVE #1,D0";
    assert "MOVE #" + ['3'] + ",D0" == "MOVE #3,D0";
    assert "MOVE #" + ['2'] + ",D0" == "MOVE #2,D0";
    assert "LEA " + "b" + "(PC),A0" == "LEA b(PC),A0";
  }

  lemma ArbitraryWhitespaceLayout()
    ensures SkipWhite("  b =   1 +   3    / 2", 0) == 2 && LaidFrom("  b =   1 +   3    / 2", ["b", "=", "1", "+", "3", "/", "2"], [2, 4, 8, 10, 14, 19, 21, 22], 0)
  {
    var s, t, ps := "  b =   1 +   3    / 2", ["b", "=", "1", "+", "3", "/", "2"], [2, 4, 8, 10, 14, 19, 21, 22];
    assert SkipWhite(s, 1) == 2;
    assert SkipWhite(s, 0) == 2;
    assert LaidFrom(s, t, ps, 6);
    assert LaidFrom(s, t, ps, 5);
    assert SkipWhite(s, 18) == 19;
    assert SkipWhite(s, 17) == 19;
    assert SkipWhite(s, 16) == 19;
    assert SkipWhite(s, 15) == 19;
    assert LaidFrom(s, t, ps, 4);
    assert SkipWhite(s, 13) == 14;
    assert SkipWhite(s, 12) == 14;
    assert SkipWhite(s, 11) == 14;
    assert LaidFrom(s, t, ps, 3);
    assert LaidFrom(s, t, ps, 2);
    assert SkipWhite(s, 7) == 8;
    assert SkipWhite(s, 6) == 8;
    assert SkipWhite(s, 5) == 8;
    assert LaidFrom(s, t, ps, 1);
    assert LaidFrom(s, t, ps, 0);
  }

  /** `expression` on `a`: the name runs to the end of the input and `get_name` panics. */
  lemma TrailingName()
    ensures Expression(Start("a")).fault == Some(UnwrapNone)
  {
    var st := Start("a");
    StartAt("a");
    StepFirst(st);
    TrailingNamePanics(st, 0);
  }
}
