/**
 * The generator and the interpreter together: the text `expression` writes
 * for an expression of digits, `+` and parentheses, fed to `eval`, leaves
 * the expression's value in D0 and the stack as it found it. Anything with
 * `-`, `*`, `/`, a name or a call is rejected by the interpreter.
 */
module Pipeline {
  import opened Options
  import opened Chars
  import opened Lines
  import opened CodeGenSpec
  import opened Cursor
  import opened Syntax
  import opened Translation
  import opened AsmSpec
  import opened AsmProps
  import opened Examples

  /** No line holds a line terminator, so splitting the writer's text gives the lines back. */
  predicate NoTerminators(ls: seq<string>) {
    forall i | 0 <= i < |ls| :: '\n' !in ls[i]
  }

  lemma NoTerminatorsAppend(a: seq<string>, b: seq<string>)
    requires NoTerminators(a) && NoTerminators(b)
    ensures NoTerminators(a + b)
  {
    forall i | 0 <= i < |a + b|
      ensures '\n' !in (a + b)[i]
    {
      if i >= |a| {
        assert (a + b)[i] == b[i - |a|];
      }
    }
  }

  lemma NameClean(n: string)
    requires ValidName(n)
    ensures '\n' !in n
  {
    assert forall i | 0 <= i < |n| :: n[i] != '\n';
  }

  /** Every line of the reference translation of a valid factor is free of terminators, and there is one at least. */
  lemma {:induction false} FactorCodeClean(f: Factor)
    requires ValidFactor(f)
    ensures FactorCode(f) != [] && NoTerminators(FactorCode(f))
    decreases f
  {
    match f
    case Num(c) =>
      assert FactorCode(f)[0] == "MOVE #" + [c] + ",D0";
      assert IsDigit(c);
    case Var(n) =>
      NameClean(n);
      assert FactorCode(f)[0] == "MOVE " + n + "(PC),D0";
    case Call(n) =>
      NameClean(n);
      assert FactorCode(f)[0] == "BSR " + n;
    case Paren(e) =>
      ExprCodeClean(e);
  }

  lemma {:induction false} TermCodeClean(t: Term)
    requires ValidTerm(t)
    ensures TermCode(t) != [] && NoTerminators(TermCode(t))
    decreases t, 1
  {
    FactorCodeClean(t.f);
    if t.mul.Mul? {
      FactorCodeClean(t.mul.g);
      var push := ["MOVE D0,-(SP)"];
      var finish: seq<string> := if t.mul.op == Times then ["MULS (SP)+,D0"] else ["MOVE (SP)+,D1", "DIVS D1,D0"];
      assert NoTerminators(push) && NoTerminators(finish);
      NoTerminatorsAppend(FactorCode(t.f), push);
      NoTerminatorsAppend(FactorCode(t.f) + push, FactorCode(t.mul.g));
      NoTerminatorsAppend(FactorCode(t.f) + push + FactorCode(t.mul.g), finish);
    }
  }

  lemma {:induction false} TailCodeClean(tl: Tail)
    requires ValidTail(tl)
    ensures NoTerminators(TailCode(tl))
    decreases tl
  {
    if tl.Then? {
      TermCodeClean(tl.t);
      TailCodeClean(tl.next);
      var push := ["MOVE D0,-(SP)"];
      var finish: seq<string> := if tl.op == Plus then ["ADD (SP)+,D0"] else ["SUB (SP)+,D0", "NEG D0"];
      assert NoTerminators(push) && NoTerminators(finish);
      NoTerminatorsAppend(push, TermCode(tl.t));
      NoTerminatorsAppend(push + TermCode(tl.t), finish);
      NoTerminatorsAppend(push + TermCode(tl.t) + finish, TailCode(tl.next));
    }
  }

  lemma {:induction false} ExprCodeClean(e: Expr)
    requires ValidExpr(e)
    ensures ExprCode(e) != [] && NoTerminators(ExprCode(e))
    decreases e, 2
  {
    var head := if e.lead.Sign? then ["CLR D0"] else TermCode(e.lead.t);
    if e.lead.First? {
      TermCodeClean(e.lead.t);
    } else {
      assert NoTerminators(head);
    }
    TailCodeClean(e.tail);
    NoTerminatorsAppend(head, TailCode(e.tail));
  }

  /* Running the reference translation of an additive expression. */

  /** The code of an additive factor loads its value into D0; nothing else changes. */
  lemma {:induction false} FactorRuns(m: Machine, f: Factor)
    requires m.fault.None? && ValidFactor(f) && AdditiveFactor(f)
    ensures RunLines(m, FactorCode(f)) == m.(d0 := Some(FactorValue(f)))
    decreases f
  {
    if f.Num? {
      MoveImmediate(m, f.digit, '0');
      assert "MOVE #" + [f.digit] + ",D" + ['0'] == "MOVE #" + [f.digit] + ",D0";
      assert FactorCode(f)[1..] == [];
    } else {
      ExprRuns(m, f.e);
    }
  }

  /**
   * One `+ term` at the machine level: D0 is pushed, `code` loads `b` into
   * D0 without touching anything else, and the pushed value is popped and
   * added to it. D0 gains `b` and the stack is as before.
   */
  lemma PushLoadAdd(m: Machine, code: seq<string>, a: int, b: int)
    requires m.fault.None? && m.d0 == Some(a)
    requires RunLines(m.(stack := m.stack + [a]), code) == m.(stack := m.stack + [a], d0 := Some(b))
    ensures RunLines(m, ["MOVE D0,-(SP)"] + code + ["ADD (SP)+,D0"]) == m.(d0 := Some(a + b))
  {
    var pushed := m.(stack := m.stack + [a]);
    var loaded := m.(stack := m.stack + [a], d0 := Some(b));
    var added := m.(d0 := Some(a + b));
    RunOne(m, "MOVE D0,-(SP)");
    PushD0(m);
    RunThen(m, ["MOVE D0,-(SP)"], code, pushed, loaded);
    PopAddD0(loaded, m.stack, a, b);
    RunOne(loaded, "ADD (SP)+,D0");
    RunThen(m, ["MOVE D0,-(SP)"] + code, ["ADD (SP)+,D0"], loaded, added);
  }

  /**
   * The code of an additive tail adds each of its terms to D0 in turn:
   * D0 ends up holding its old value plus the tail's sum, and the stack is
   * restored.
   */
  lemma {:induction false} TailRuns(m: Machine, tl: Tail, a: int)
    requires m.fault.None? && m.d0 == Some(a) && ValidTail(tl) && AdditiveTail(tl)
    ensures RunLines(m, TailCode(tl)) == m.(d0 := Some(a + TailValue(tl)))
    decreases tl
  {
    if tl.Then? {
      var f := tl.t.f;
      var step := ["MOVE D0,-(SP)"] + FactorCode(f) + ["ADD (SP)+,D0"];
      var b := a + FactorValue(f);
      assert TailCode(tl) == step + TailCode(tl.next);
      assert TailValue(tl) == FactorValue(f) + TailValue(tl.next);
      FactorRuns(m.(stack := m.stack + [a]), f);
      PushLoadAdd(m, FactorCode(f), a, FactorValue(f));
      TailRuns(m.(d0 := Some(b)), tl.next, b);
      RunThen(m, step, TailCode(tl.next), m.(d0 := Some(b)), m.(d0 := Some(b + TailValue(tl.next))));
    }
  }

  /** The code of an additive expression leaves its value in D0 and nothing else changed. */
  lemma {:induction false} ExprRuns(m: Machine, e: Expr)
    requires m.fault.None? && ValidExpr(e) && Additive(e)
    ensures RunLines(m, ExprCode(e)) == m.(d0 := Some(ExprValue(e)))
    decreases e
  {
    var f := e.lead.t.f;
    var v := FactorValue(f);
    assert ExprValue(e) == v + TailValue(e.tail);
    assert ExprCode(e) == FactorCode(f) + TailCode(e.tail);
    FactorRuns(m, f);
    TailRuns(m.(d0 := Some(v)), e.tail, v);
    RunThen(m, FactorCode(f), TailCode(e.tail), m.(d0 := Some(v)), m.(d0 := Some(ExprValue(e))));
  }

  /** Two runs one after the other are one run of the joined lines. */
  lemma RunThen(m: Machine, a: seq<string>, b: seq<string>, m1: Machine, m2: Machine)
    requires RunLines(m, a) == m1 && RunLines(m1, b) == m2
    ensures RunLines(m, a + b) == m2
  {
    RunAppend(m, a, b);
  }

  /** Running a single line is processing it. */
  lemma RunOne(m: Machine, line: string)
    ensures RunLines(m, [line]) == Process(m, line)
  {
    assert [line][1..] == [];
  }

  /** `ADD (SP)+,D0` on a stack with `a` on top and `b` in D0: the sum in D0, `a` popped. */
  lemma PopAddD0(m: Machine, below: seq<int>, a: int, b: int)
    requires m.fault.None? && m.stack == below + [a] && m.d0 == Some(b)
    ensures Process(m, "ADD (SP)+,D0") == m.(stack := below, d0 := Some(a + b))
  {
    PopAdd(m, '0');
    assert "ADD (SP)+,D" + ['0'] == "ADD (SP)+,D0";
    assert m.stack[..|m.stack| - 1] == below && m.stack[|m.stack| - 1] == a;
  }

  /* Compile, then run. */

  lemma {:induction false} AdditiveTailLast(tl: Tail)
    requires tl.Then? && AdditiveTail(tl)
    ensures !EndsWithVar(TailLast(tl))
    decreases tl
  {
    if tl.next.Then? {
      AdditiveTailLast(tl.next);
    } else {
      assert AdditiveTerm(tl.t) && AdditiveFactor(tl.t.f);
    }
  }

  /** An additive expression never ends with a name, so nothing needs to follow it. */
  lemma AdditiveLast(e: Expr)
    requires Additive(e)
    ensures !EndsWithVar(LastTerm(e))
  {
    if e.tail.Then? {
      AdditiveTailLast(e.tail);
    } else {
      assert AdditiveTerm(e.lead.t) && AdditiveFactor(e.lead.t.f);
    }
  }

  /**
   * The end-to-end property: compile an expression of digits, `+` and
   * parentheses with `expression`, hand the writer's text to `eval` on a
   * fresh interpreter, and D0 holds the expression's sum; D1 is still unset
   * and the stack is empty again.
   */
  lemma CompileThenRun(input: string, e: Expr)
    requires ValidExpr(e) && Additive(e) && Scan(input, 0, ExprTokens(e)) == Some(|input|)
    ensures Eval(Blank(), Expression(Start(input)).out) == Machine(Some(ExprValue(e)), None, [], None)
  {
    AdditiveLast(e);
    ExpressionCompiles(input, e);
    ExprCodeClean(e);
    EvalEmitted(Blank(), ExprCode(e));
    ExprRuns(Blank(), e);
  }

  /** `given_input_split_into_instructions` (assembly_interpreter.rs): `1+2` compiled and run leaves 3 in D0. */
  lemma OnePlusTwoRuns()
    ensures Eval(Blank(), Expression(Start("1+2")).out).d0 == Some(3)
  {
    AddOperationParsed();
    OnePlusTwoLayout();
    LaidScan("1+2", ["1", "+", "2"], [0, 1, 2, 3], 0);
    assert ["1", "+", "2"][0..] == ["1", "+", "2"];
    CompileThenRun("1+2", AddOperationTree);
  }

  lemma OnePlusTwoLayout()
    ensures LaidFrom("1+2", ["1", "+", "2"], [0, 1, 2, 3], 0)
  {
    var s, t, ps := "1+2", ["1", "+", "2"], [0, 1, 2, 3];
    assert LaidFrom(s, t, ps, 3);
    assert LaidFrom(s, t, ps, 2);
    assert LaidFrom(s, t, ps, 1);
  }

  /**
   * A subtraction is compiled, but the interpreter cannot run it: after the
   * two operands are loaded, `SUB` has no decoder and the run stops there.
   */
  lemma {:induction false} MinusRejected(m: Machine, e: Expr)
    requires m.fault.None? && ValidExpr(e) && e.lead.First? && AdditiveTerm(e.lead.t)
    requires e.tail.Then? && e.tail.op == Minus && AdditiveTerm(e.tail.t)
    ensures RunLines(m, ExprCode(e)).fault == Some(UnknownOpcode)
  {
    var f, g := e.lead.t.f, e.tail.t.f;
    assert ValidTerm(e.lead.t) && ValidTerm(e.tail.t);
    var a, b := FactorValue(f), FactorValue(g);
    var loaded := m.(d0 := Some(a));
    var pushed := loaded.(stack := m.stack + [a]);
    var second := pushed.(d0 := Some(b));
    var rest := ["SUB (SP)+,D0", "NEG D0"] + TailCode(e.tail.next);
    assert TermCode(e.tail.t) == FactorCode(g);
    assert ExprCode(e) == FactorCode(f) + (["MOVE D0,-(SP)"] + FactorCode(g) + rest);
    FactorRuns(m, f);
    PushD0(loaded);
    RunOne(loaded, "MOVE D0,-(SP)");
    FactorRuns(pushed, g);
    RunThen(loaded, ["MOVE D0,-(SP)"], FactorCode(g), pushed, second);
    SubtractUnsupported(second);
    var failed := Fail(second, UnknownOpcode);
    assert rest == ["SUB (SP)+,D0"] + rest[1..];
    FaultSticks(failed, rest[1..]);
    RunThen(second, ["SUB (SP)+,D0"], rest[1..], failed, failed);
    RunOne(second, "SUB (SP)+,D0");
    RunThen(loaded, ["MOVE D0,-(SP)"] + FactorCode(g), rest, second, failed);
    RunThen(m, FactorCode(f), ["MOVE D0,-(SP)"] + FactorCode(g) + rest, loaded, failed);
  }

  /** `1-2` compiles, and `eval` on its text panics at the `SUB`. */
  lemma OneMinusTwoRejected()
    ensures Eval(Blank(), Expression(Start("1-2")).out).fault == Some(UnknownOpcode)
  {
    SubtractOperation();
    SubtractOperationParsed();
    SubtractOperationCode();
    ExprCodeClean(SubtractOperationTree);
    EvalEmitted(Blank(), ExprCode(SubtractOperationTree));
    MinusRejected(Blank(), SubtractOperationTree);
  }
}
