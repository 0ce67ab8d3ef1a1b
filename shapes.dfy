/**
 * How each construct's tokens, reference translation and generator step
 * decompose, one construct at a time. The translation proofs chain these
 * instead of unfolding the definitions themselves.
 */
module Shapes {
  import opened Options
  import opened Chars
  import opened Lines
  import opened CodeGenSpec
  import opened Syntax

  /* Tokens */

  lemma TokensParen(e: Expr)
    ensures FactorTokens(Paren(e)) == [['(']] + (ExprTokens(e) + [[')']])
  {
  }

  lemma TokensMul(t: Term)
    requires t.mul.Mul?
    ensures TermTokens(t) == FactorTokens(t.f) + ([[MulChar(t.mul.op)]] + FactorTokens(t.mul.g))
  {
  }

  lemma TokensNoMul(t: Term)
    requires t.mul.NoMul?
    ensures TermTokens(t) == FactorTokens(t.f)
  {
    assert FactorTokens(t.f) + [] == FactorTokens(t.f);
  }

  lemma TokensThen(tl: Tail)
    requires tl.Then?
    ensures TailTokens(tl) == [[AddChar(tl.op)]] + (TermTokens(tl.t) + TailTokens(tl.next))
  {
  }

  lemma TokensSign(e: Expr)
    requires e.lead.Sign?
    ensures ExprTokens(e) == TailTokens(e.tail)
  {
  }

  lemma TokensFirst(e: Expr)
    requires e.lead.First?
    ensures ExprTokens(e) == TermTokens(e.lead.t) + TailTokens(e.tail)
  {
  }

  lemma TokensAssign(a: Assign)
    ensures AssignTokens(a) == [a.name] + ([['=']] + ExprTokens(a.e))
  {
  }

  lemma TokensStatements(prog: seq<Assign>)
    requires prog != []
    ensures StatementsTokens(prog) == (AssignTokens(prog[0]) + [";"]) + StatementsTokens(prog[1..])
  {
  }

  lemma TokensProgram(prog: seq<Assign>)
    ensures ProgramTokens(prog) == [['{']] + (StatementsTokens(prog) + [['}']])
  {
  }

  /* Reference translation, as emitted text */

  lemma EmittedPair(x: string, y: string)
    ensures Emitted([x, y]) == Emitted([x]) + Emitted([y])
  {
    EmittedAppend([x], [y]);
    assert [x] + [y] == [x, y];
  }

  lemma CodeTimes(t: Term)
    requires t.mul.Mul? && t.mul.op == Times
    ensures Emitted(TermCode(t)) ==
            Emitted(FactorCode(t.f)) + Emitted(["MOVE D0,-(SP)"]) + Emitted(FactorCode(t.mul.g)) + Emitted(["MULS (SP)+,D0"])
  {
    var fc, gc := FactorCode(t.f), FactorCode(t.mul.g);
    var push := ["MOVE D0,-(SP)"];
    EmittedAppend(fc, push);
    EmittedAppend(fc + push, gc);
    EmittedAppend(fc + push + gc, ["MULS (SP)+,D0"]);
  }

  lemma CodeOver(t: Term)
    requires t.mul.Mul? && t.mul.op == Over
    ensures Emitted(TermCode(t)) ==
            Emitted(FactorCode(t.f)) + Emitted(["MOVE D0,-(SP)"]) + Emitted(FactorCode(t.mul.g))
            + Emitted(["MOVE (SP)+,D1"]) + Emitted(["DIVS D1,D0"])
  {
    var fc, gc := FactorCode(t.f), FactorCode(t.mul.g);
    var push := ["MOVE D0,-(SP)"];
    EmittedAppend(fc, push);
    EmittedAppend(fc + push, gc);
    EmittedAppend(fc + push + gc, ["MOVE (SP)+,D1", "DIVS D1,D0"]);
    EmittedPair("MOVE (SP)+,D1", "DIVS D1,D0");
  }

  lemma CodeNoMul(t: Term)
    requires t.mul.NoMul?
    ensures TermCode(t) == FactorCode(t.f)
  {
  }

  lemma CodePlus(tl: Tail)
    requires tl.Then? && tl.op == Plus
    ensures Emitted(TailCode(tl)) ==
            Emitted(["MOVE D0,-(SP)"]) + Emitted(TermCode(tl.t)) + Emitted(["ADD (SP)+,D0"]) + Emitted(TailCode(tl.next))
  {
    var push, tc := ["MOVE D0,-(SP)"], TermCode(tl.t);
    EmittedAppend(push, tc);
    EmittedAppend(push + tc, ["ADD (SP)+,D0"]);
    EmittedAppend(push + tc + ["ADD (SP)+,D0"], TailCode(tl.next));
  }

  lemma CodeMinus(tl: Tail)
    requires tl.Then? && tl.op == Minus
    ensures Emitted(TailCode(tl)) ==
            Emitted(["MOVE D0,-(SP)"]) + Emitted(TermCode(tl.t)) + Emitted(["SUB (SP)+,D0"]) + Emitted(["NEG D0"])
            + Emitted(TailCode(tl.next))
  {
    var push, tc := ["MOVE D0,-(SP)"], TermCode(tl.t);
    var sub := ["SUB (SP)+,D0", "NEG D0"];
    EmittedAppend(push, tc);
    EmittedAppend(push + tc, sub);
    EmittedPair("SUB (SP)+,D0", "NEG D0");
    EmittedAppend(push + tc + sub, TailCode(tl.next));
  }

  lemma CodeSign(e: Expr)
    requires e.lead.Sign?
    ensures Emitted(ExprCode(e)) == Emitted(["CLR D0"]) + Emitted(TailCode(e.tail))
  {
    EmittedAppend(["CLR D0"], TailCode(e.tail));
  }

  lemma CodeFirst(e: Expr)
    requires e.lead.First?
    ensures Emitted(ExprCode(e)) == Emitted(TermCode(e.lead.t)) + Emitted(TailCode(e.tail))
  {
    EmittedAppend(TermCode(e.lead.t), TailCode(e.tail));
  }

  lemma CodeAssign(a: Assign)
    ensures Emitted(AssignCode(a)) ==
            Emitted(ExprCode(a.e)) + Emitted(["LEA " + a.name + "(PC),A0"]) + Emitted(["MOVE D0,(A0)"])
  {
    EmittedAppend(ExprCode(a.e), ["LEA " + a.name + "(PC),A0", "MOVE D0,(A0)"]);
    EmittedPair("LEA " + a.name + "(PC),A0", "MOVE D0,(A0)");
  }

  lemma CodeStatements(prog: seq<Assign>)
    requires prog != []
    ensures Emitted(ProgramCode(prog)) == Emitted(AssignCode(prog[0])) + Emitted(ProgramCode(prog[1..]))
  {
    EmittedAppend(AssignCode(prog[0]), ProgramCode(prog[1..]));
  }

  /*
   * Writing pieces to the output one after another leaves the same text as
   * writing their concatenation at once; the generator's lemmas use these to
   * regroup what a step appends behind what was already written.
   */

  lemma AppendTwo(out: string, a: string, b: string)
    ensures out + a + b == out + (a + b)
  {
  }

  lemma AppendThree(out: string, a: string, b: string, c: string)
    ensures out + a + b + c == out + (a + b + c)
  {
  }

  lemma AppendFour(out: string, a: string, b: string, c: string, d: string)
    ensures out + a + b + c + d == out + (a + b + c + d)
  {
  }

  lemma AppendFive(out: string, a: string, b: string, c: string, d: string, e: string)
    ensures out + a + b + c + d + e == out + (a + b + c + d + e)
  {
  }

  /* One step of each generator function, on a running generator */

  lemma StepParen(st: Gen)
    requires st.fault.None? && st.lookahead == Some('(')
    ensures CodeGenSpec.Factor(st) == MatchChar(Expression(MatchChar(st, '(')), ')')
  {
  }

  lemma StepCall(st: Gen)
    requires st.fault.None? && st.lookahead.Some? && IsAlpha(st.lookahead.value)
    requires GetName(st).0.fault.None? && GetName(st).0.lookahead == Some('(')
    ensures CodeGenSpec.Factor(st) == EmitLine(MatchChar(MatchChar(GetName(st).0, '('), ')'), "BSR " + GetName(st).1)
  {
  }

  /** The two operands of a multiplicative term, with the push between them. */
  function MulOperands(st: Gen, x: char): Gen {
    CodeGenSpec.Factor(MatchChar(EmitLine(CodeGenSpec.Factor(st), "MOVE D0,-(SP)"), x))
  }

  lemma StepTimes(st: Gen)
    requires st.fault.None? && CodeGenSpec.Factor(st).fault.None? && CodeGenSpec.Factor(st).lookahead == Some('*')
    ensures CodeGenSpec.Term(st) == EmitLine(MulOperands(st, '*'), "MULS (SP)+,D0")
  {
  }

  lemma StepOver(st: Gen)
    requires st.fault.None? && CodeGenSpec.Factor(st).fault.None? && CodeGenSpec.Factor(st).lookahead == Some('/')
    ensures CodeGenSpec.Term(st) == EmitLine(EmitLine(MulOperands(st, '/'), "MOVE (SP)+,D1"), "DIVS D1,D0")
  {
  }

  lemma StepFactorOnly(st: Gen)
    requires st.fault.None?
    requires CodeGenSpec.Factor(st).lookahead.Some? ==> !IsMulop(CodeGenSpec.Factor(st).lookahead.value)
    ensures CodeGenSpec.Term(st) == CodeGenSpec.Factor(st)
  {
  }

  /** The push, the operator and the right operand of an additive step. */
  function AddOperand(st: Gen, x: char): Gen {
    CodeGenSpec.Term(MatchChar(EmitLine(st, "MOVE D0,-(SP)"), x))
  }

  lemma StepPlus(st: Gen)
    requires st.fault.None? && st.lookahead == Some('+')
    ensures ExprTail(st) == ExprTail(EmitLine(AddOperand(st, '+'), "ADD (SP)+,D0"))
  {
  }

  lemma StepMinus(st: Gen)
    requires st.fault.None? && st.lookahead == Some('-')
    ensures ExprTail(st) == ExprTail(EmitLine(EmitLine(AddOperand(st, '-'), "SUB (SP)+,D0"), "NEG D0"))
  {
  }

  lemma StepTailEnd(st: Gen)
    requires st.lookahead.Some? ==> !IsAddop(st.lookahead.value)
    ensures ExprTail(st) == st
  {
  }

  lemma StepSign(st: Gen)
    requires st.fault.None? && st.lookahead.Some? && IsAddop(st.lookahead.value)
    ensures Expression(st) == ExprTail(EmitLine(st, "CLR D0"))
  {
  }

  lemma StepFirst(st: Gen)
    requires st.fault.None? && st.lookahead.Some? && !IsAddop(st.lookahead.value)
    ensures Expression(st) == ExprTail(CodeGenSpec.Term(st))
  {
  }

  lemma StepAssign(st: Gen)
    ensures Assignment(st) ==
            EmitLine(EmitLine(Expression(MatchChar(GetName(Whitespace(st)).0, '=')),
                              "LEA " + GetName(Whitespace(st)).1 + "(PC),A0"), "MOVE D0,(A0)")
  {
  }

  lemma StepBlock(st: Gen)
    requires st.fault.None? && st.lookahead.Some? && st.lookahead.value != '}'
    ensures BlockLoop(st) == BlockLoop(Statement(st))
  {
  }
}
