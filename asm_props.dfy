/**
 * What the interpreter does with each instruction the code generator emits,
 * and how whole programs run: faults stick, runs compose, and evaluating a
 * writer's text runs exactly the lines that were written.
 */
module AsmProps {
  import opened Options
  import opened Chars
  import opened Lines
  import opened AsmSpec

  /** A line with a space: the opcode is the text before the first space, the operands the text after it. */
  lemma SplitLine(opcode: string, rands: string)
    requires forall j | 0 <= j < |opcode| :: opcode[j] != ' '
    ensures SplitInstruction(opcode + " " + rands) == (opcode, rands)
  {
    var line := opcode + " " + rands;
    OpcodeEndAt(line, 0, |opcode|);
    assert line[..|opcode|] == opcode;
    assert line[|opcode| + 1..] == rands;
  }

  // One step of the operand decoder each: the instruction lemmas below chain them.

  lemma StepEnd(op: Opcode, m: Machine, rands: string, i: nat, argPos: nat, temp: int)
    requires i == |rands|
    ensures Decode(op, m, rands, i, argPos, temp) == m
  {
  }

  lemma StepComma(op: Opcode, m: Machine, rands: string, i: nat, argPos: nat, temp: int)
    requires m.fault.None? && i < |rands| && rands[i] == ','
    ensures Decode(op, m, rands, i, argPos, temp) == Decode(op, m, rands, i + 1, argPos + 1, temp)
  {
  }

  lemma StepSource(op: Opcode, m: Machine, rands: string, i: nat, temp: int)
    requires m.fault.None? && i + 1 < |rands| && rands[i] == 'D' && rands[i + 1] in "01"
    ensures var reg := if rands[i + 1] == '0' then m.d0 else m.d1;
            Decode(op, m, rands, i, 0, temp) ==
            if reg.None? then Fail(m, UnsetRegister) else Decode(op, m, rands, i + 2, 0, reg.value)
  {
  }

  lemma StepPush(op: Opcode, m: Machine, rands: string, i: nat, argPos: nat, temp: int)
    requires m.fault.None? && i + 5 <= |rands| && rands[i] == '-'
    requires rands[i + 1] == '(' && rands[i + 2] == 'S' && rands[i + 3] == 'P' && rands[i + 4] == ')'
    ensures Decode(op, m, rands, i, argPos, temp) == Decode(op, m.(stack := m.stack + [temp]), rands, i + 5, argPos, temp)
  {
  }

  lemma StepPop(m: Machine, rands: string, i: nat, argPos: nat, temp: int)
    requires m.fault.None? && i + 5 <= |rands| && rands[i] == '('
    requires rands[i + 1] == 'S' && rands[i + 2] == 'P' && rands[i + 3] == ')' && rands[i + 4] == '+'
    ensures Decode(Add, m, rands, i, argPos, temp) ==
            if m.stack == [] then Fail(m, EmptyStack)
            else Decode(Add, m.(stack := m.stack[..|m.stack| - 1]), rands, i + 5, argPos, m.stack[|m.stack| - 1])
  {
  }

  lemma StepImmediate(op: Opcode, m: Machine, rands: string, i: nat, argPos: nat, temp: int)
    requires m.fault.None? && i + 1 < |rands| && rands[i] == '#' && IsDigit(rands[i + 1])
    ensures Decode(op, m, rands, i, argPos, temp) == Decode(op, m, rands, i + 2, argPos, DigitValue(rands[i + 1]))
  {
  }

  lemma StepMoveTarget(m: Machine, rands: string, i: nat, temp: int)
    requires m.fault.None? && i + 1 < |rands| && rands[i] == 'D' && rands[i + 1] in "01"
    ensures var m' := if rands[i + 1] == '0' then m.(d0 := Some(temp)) else m.(d1 := Some(temp));
            Decode(Move, m, rands, i, 1, temp) == Decode(Move, m', rands, i + 2, 1, temp)
  {
  }

  lemma StepAddTarget(m: Machine, rands: string, i: nat, temp: int)
    requires m.fault.None? && i + 1 < |rands| && rands[i] == 'D' && rands[i + 1] in "01"
    ensures Decode(Add, m, rands, i, 1, temp) ==
            if m.d0.None? then Fail(m, UnsetRegister)
            else
              var sum := temp + m.d0.value;
              Decode(Add, if rands[i + 1] == '0' then m.(d0 := Some(sum)) else m.(d1 := Some(sum)), rands, i + 2, 1, temp)
  {
  }

  lemma StepUnknown(op: Opcode, m: Machine, rands: string, i: nat, argPos: nat, temp: int)
    requires m.fault.None? && i < |rands| && rands[i] !in "(#,-D"
    ensures Decode(op, m, rands, i, argPos, temp) == Fail(m, UnknownOperand(rands[i]))
  {
  }

  lemma StepMoveParen(m: Machine, rands: string, i: nat, argPos: nat, temp: int)
    requires m.fault.None? && i < |rands| && rands[i] == '('
    ensures Decode(Move, m, rands, i, argPos, temp) == Fail(m, UnknownOperand('('))
  {
  }

  /** The malformed operands each decoder panics on, wherever they stand in the operand text. */
  lemma DecodeFaults(op: Opcode, m: Machine, rands: string, i: nat, argPos: nat, temp: int)
    requires m.fault.None? && i < |rands|
    ensures rands[i] == 'D' && argPos >= 2 ==> Decode(op, m, rands, i, argPos, temp) == Fail(m, BadArgPosition(argPos))
    ensures rands[i] == 'D' && argPos < 2 && i + 1 < |rands| && rands[i + 1] !in "01" ==>
              Decode(op, m, rands, i, argPos, temp) == Fail(m, UnknownRegister(rands[i + 1]))
    ensures rands[i] == '#' && i + 1 < |rands| && !IsDigit(rands[i + 1]) ==>
              Decode(op, m, rands, i, argPos, temp) == Fail(m, NotADigit(rands[i + 1]))
    ensures rands[i] == '-' && i + 5 <= |rands| && !(rands[i + 1] == '(' && rands[i + 2] == 'S' && rands[i + 3] == 'P' && rands[i + 4] == ')') ==>
              Decode(op, m, rands, i, argPos, temp) == Fail(m, BadStackOp)
    ensures op == Add && rands[i] == '(' && i + 5 <= |rands| && !(rands[i + 1] == 'S' && rands[i + 2] == 'P' && rands[i + 3] == ')' && rands[i + 4] == '+') ==>
              Decode(op, m, rands, i, argPos, temp) == Fail(m, BadStackOp)
    ensures op == Add && i + 5 <= |rands| && rands[i..i + 5] == "(SP)+" && m.stack == [] ==>
              Decode(op, m, rands, i, argPos, temp) == Fail(m, EmptyStack)
    ensures (rands[i] == '-' || (op == Add && rands[i] == '(')) && i + 5 > |rands| ==>
              Decode(op, m, rands, i, argPos, temp) == Fail(m, OutOfBounds)
    ensures (rands[i] == '#' || (rands[i] == 'D' && argPos < 2)) && i + 1 == |rands| ==>
              Decode(op, m, rands, i, argPos, temp) == Fail(m, OutOfBounds)
    ensures rands[i] !in "(#,-D" ==> Decode(op, m, rands, i, argPos, temp) == Fail(m, UnknownOperand(rands[i]))
  {
  }

  /** A MOVE line goes to the MOVE decoder with the text after the first space. */
  lemma ProcessMove(m: Machine, rands: string)
    requires m.fault.None?
    ensures Process(m, "MOVE " + rands) == Decode(Move, m, rands, 0, 0, 0)
  {
    assert ("MOVE " + rands)[5..] == rands;
  }

  /** An ADD line goes to the ADD decoder with the text after the first space. */
  lemma ProcessAdd(m: Machine, rands: string)
    requires m.fault.None?
    ensures Process(m, "ADD " + rands) == Decode(Add, m, rands, 0, 0, 0)
  {
    assert ("ADD " + rands)[4..] == rands;
  }

  /** The operands `#c,Dr`: load the digit into the register. */
  lemma DecodeImmediate(m: Machine, c: char, r: char)
    requires m.fault.None? && IsDigit(c) && (r == '0' || r == '1')
    ensures Decode(Move, m, "#" + [c] + ",D" + [r], 0, 0, 0) ==
            if r == '0' then m.(d0 := Some(DigitValue(c))) else m.(d1 := Some(DigitValue(c)))
  {
    var rands := "#" + [c] + ",D" + [r];
    assert rands[0] == '#' && rands[1] == c && rands[2] == ',' && rands[3] == 'D' && rands[4] == r;
    var v := DigitValue(c);
    StepImmediate(Move, m, rands, 0, 0, 0);
    StepComma(Move, m, rands, 2, 0, v);
    StepMoveTarget(m, rands, 3, v);
    StepEnd(Move, if r == '0' then m.(d0 := Some(v)) else m.(d1 := Some(v)), rands, 5, 1, v);
  }

  /** `MOVE #c,D0` and `MOVE #c,D1`: load a digit into a register; nothing else changes. */
  lemma MoveImmediate(m: Machine, c: char, r: char)
    requires m.fault.None? && IsDigit(c) && (r == '0' || r == '1')
    ensures Process(m, "MOVE #" + [c] + ",D" + [r]) ==
            if r == '0' then m.(d0 := Some(DigitValue(c))) else m.(d1 := Some(DigitValue(c)))
  {
    ProcessMove(m, "#" + [c] + ",D" + [r]);
    assert "MOVE " + ("#" + [c] + ",D" + [r]) == "MOVE #" + [c] + ",D" + [r];
    DecodeImmediate(m, c, r);
  }

  /** The operands `Dr,-(SP)`: push register r. */
  lemma DecodePush(m: Machine, r: char)
    requires m.fault.None? && (r == '0' || r == '1')
    ensures var reg := if r == '0' then m.d0 else m.d1;
            Decode(Move, m, "D" + [r] + ",-(SP)", 0, 0, 0) ==
            if reg.Some? then m.(stack := m.stack + [reg.value]) else Fail(m, UnsetRegister)
  {
    var rands := "D" + [r] + ",-(SP)";
    assert rands[0] == 'D' && rands[1] == r && rands[2] == ',' && rands[3] == '-';
    assert rands[4] == '(' && rands[5] == 'S' && rands[6] == 'P' && rands[7] == ')';
    StepSource(Move, m, rands, 0, 0);
    var reg := if r == '0' then m.d0 else m.d1;
    if reg.Some? {
      var v := reg.value;
      StepComma(Move, m, rands, 2, 0, v);
      StepPush(Move, m, rands, 3, 1, v);
      StepEnd(Move, m.(stack := m.stack + [v]), rands, 8, 1, v);
    }
  }

  /**
   * `MOVE D0,-(SP)` and `MOVE D1,-(SP)`: push the register, so the stack
   * grows by exactly that value and the registers are unchanged; it panics
   * when the register was never set.
   */
  lemma PushRegister(m: Machine, r: char)
    requires m.fault.None? && (r == '0' || r == '1')
    ensures var reg := if r == '0' then m.d0 else m.d1;
            Process(m, "MOVE D" + [r] + ",-(SP)") ==
            if reg.Some? then m.(stack := m.stack + [reg.value]) else Fail(m, UnsetRegister)
  {
    ProcessMove(m, "D" + [r] + ",-(SP)");
    assert "MOVE " + ("D" + [r] + ",-(SP)") == "MOVE D" + [r] + ",-(SP)";
    DecodePush(m, r);
  }

  /** `MOVE D0,-(SP)`, the push the code generator emits before every right operand. */
  lemma PushD0(m: Machine)
    requires m.fault.None?
    ensures Process(m, "MOVE D0,-(SP)") ==
            if m.d0.Some? then m.(stack := m.stack + [m.d0.value]) else Fail(m, UnsetRegister)
  {
    PushRegister(m, '0');
    assert "MOVE D" + ['0'] + ",-(SP)" == "MOVE D0,-(SP)";
  }

  /** The operands `(SP)+,Dr` of ADD: pop, add D0, write the register. */
  lemma DecodePopAdd(m: Machine, r: char)
    requires m.fault.None? && (r == '0' || r == '1')
    ensures Decode(Add, m, "(SP)+,D" + [r], 0, 0, 0) ==
            if m.stack == [] then Fail(m, EmptyStack)
            else
              var popped := m.(stack := m.stack[..|m.stack| - 1]);
              if m.d0.None? then Fail(popped, UnsetRegister)
              else
                var sum := m.stack[|m.stack| - 1] + m.d0.value;
                if r == '0' then popped.(d0 := Some(sum)) else popped.(d1 := Some(sum))
  {
    var rands := "(SP)+,D" + [r];
    assert rands[0] == '(' && rands[1] == 'S' && rands[2] == 'P' && rands[3] == ')' && rands[4] == '+';
    assert rands[5] == ',' && rands[6] == 'D' && rands[7] == r;
    StepPop(m, rands, 0, 0, 0);
    if m.stack != [] {
      var top := m.stack[|m.stack| - 1];
      var popped := m.(stack := m.stack[..|m.stack| - 1]);
      StepComma(Add, popped, rands, 5, 0, top);
      StepAddTarget(popped, rands, 6, top);
      if m.d0.Some? {
        var sum := top + m.d0.value;
        StepEnd(Add, if r == '0' then popped.(d0 := Some(sum)) else popped.(d1 := Some(sum)), rands, 8, 1, top);
      }
    }
  }

  /**
   * `ADD (SP)+,Dr`: pop the top of the stack and add D0 to it; the sum goes
   * to the named register. For D1 as well the sum is taken with D0, not D1.
   */
  lemma PopAdd(m: Machine, r: char)
    requires m.fault.None? && (r == '0' || r == '1')
    ensures Process(m, "ADD (SP)+,D" + [r]) ==
            if m.stack == [] then Fail(m, EmptyStack)
            else
              var popped := m.(stack := m.stack[..|m.stack| - 1]);
              if m.d0.None? then Fail(popped, UnsetRegister)
              else
                var sum := m.stack[|m.stack| - 1] + m.d0.value;
                if r == '0' then popped.(d0 := Some(sum)) else popped.(d1 := Some(sum))
  {
    ProcessAdd(m, "(SP)+,D" + [r]);
    assert "ADD " + ("(SP)+,D" + [r]) == "ADD (SP)+,D" + [r];
    DecodePopAdd(m, r);
  }

  /** `MOVE (SP)+,D1`: the MOVE decoder has no `(SP)+` operand, so it panics on the `(`. */
  lemma PopMoveUnsupported(m: Machine)
    requires m.fault.None?
    ensures Process(m, "MOVE (SP)+,D1") == Fail(m, UnknownOperand('('))
  {
    ProcessMove(m, "(SP)+,D1");
    assert "MOVE " + "(SP)+,D1" == "MOVE (SP)+,D1";
    StepMoveParen(m, "(SP)+,D1", 0, 0, 0);
  }

  /** The operands `D0,(A0)` of MOVE: D0 is read, then the `(` is not an operand MOVE knows. */
  lemma DecodeStore(m: Machine)
    requires m.fault.None?
    ensures Decode(Move, m, "D0,(A0)", 0, 0, 0) == Fail(m, if m.d0.Some? then UnknownOperand('(') else UnsetRegister)
  {
    var rands := "D0,(A0)";
    assert rands[0] == 'D' && rands[1] == '0' && rands[2] == ',' && rands[3] == '(';
    StepSource(Move, m, rands, 0, 0);
    if m.d0.Some? {
      StepComma(Move, m, rands, 2, 0, m.d0.value);
      StepMoveParen(m, rands, 3, 1, m.d0.value);
    }
  }

  /** `MOVE D0,(A0)`: after reading D0, the MOVE decoder panics on the `(` of the address operand. */
  lemma StoreUnsupported(m: Machine)
    requires m.fault.None?
    ensures Process(m, "MOVE D0,(A0)") == Fail(m, if m.d0.Some? then UnknownOperand('(') else UnsetRegister)
  {
    ProcessMove(m, "D0,(A0)");
    assert "MOVE " + "D0,(A0)" == "MOVE D0,(A0)";
    DecodeStore(m);
  }

  /** `MOVE n(PC),D0` for a name that does not start with `D`: the decoder panics on its first letter. */
  lemma LoadUnsupported(m: Machine, n: string)
    requires m.fault.None? && |n| > 0 && IsAlpha(n[0]) && n[0] != 'D'
    requires forall j | 0 <= j < |n| :: n[j] != ' '
    ensures Process(m, "MOVE " + n + "(PC),D0") == Fail(m, UnknownOperand(n[0]))
  {
    var rands := n + "(PC),D0";
    ProcessMove(m, rands);
    assert "MOVE " + rands == "MOVE " + n + "(PC),D0";
    assert rands[0] == n[0];
    StepUnknown(Move, m, rands, 0, 0, 0);
  }

  /** An opcode without a decoder panics, and the machine is otherwise unchanged. */
  lemma OpcodeUnsupported(m: Machine, opcode: string, rands: string)
    requires m.fault.None? && opcode != "MOVE" && opcode != "ADD"
    requires forall j | 0 <= j < |opcode| :: opcode[j] != ' '
    ensures Process(m, opcode + " " + rands) == Fail(m, UnknownOpcode)
  {
    SplitLine(opcode, rands);
    ProcessDispatch(m, opcode + " " + rands);
  }

  /** `SUB (SP)+,D0`, the first instruction of a subtraction, has no decoder. */
  lemma SubtractUnsupported(m: Machine)
    requires m.fault.None?
    ensures Process(m, "SUB (SP)+,D0") == Fail(m, UnknownOpcode)
  {
    OpcodeUnsupported(m, "SUB", "(SP)+,D0");
    assert "SUB" + " " + "(SP)+,D0" == "SUB (SP)+,D0";
  }

  /** A panicked interpreter runs no further line. */
  lemma {:induction false} FaultSticks(m: Machine, ls: seq<string>)
    requires m.fault.Some?
    ensures RunLines(m, ls) == m
    decreases |ls|
  {
    if ls != [] {
      FaultSticks(Process(m, ls[0]), ls[1..]);
    }
  }

  /** Running `a + b` is running `a`, then `b` on the machine `a` leaves. */
  lemma {:induction false} RunAppend(m: Machine, a: seq<string>, b: seq<string>)
    ensures RunLines(m, a + b) == RunLines(RunLines(m, a), b)
    decreases |a|
  {
    if a == [] {
      assert a + b == b;
    } else {
      assert (a + b)[0] == a[0] && (a + b)[1..] == a[1..] + b;
      RunAppend(Process(m, a[0]), a[1..], b);
    }
  }

  /** `eval` on the text of a writer runs exactly the lines that were written. */
  lemma EvalEmitted(m: Machine, ls: seq<string>)
    requires m.fault.None? && ls != [] && forall i | 0 <= i < |ls| :: '\n' !in ls[i]
    ensures Eval(m, Emitted(ls)) == RunLines(m, ls)
  {
    SplitEmitted(ls);
  }
}
