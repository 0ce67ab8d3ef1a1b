/**
 * The straight-line assembly interpreter as functions on a snapshot of its
 * machine: two optional registers and a stack whose top is its last element.
 * A panic of the interpreter is a `fault`; a faulted machine never changes.
 */
module AsmSpec {
  import opened Options
  import opened Chars
  import opened Lines

  /** Why the interpreter stopped. */
  datatype MachineFault =
    | UnknownOpcode                   // an opcode other than MOVE and ADD
    | UnsetRegister                   // `d0.unwrap()` or `d1.unwrap()` on an unset register
    | EmptyStack                      // `stack.pop().unwrap()` on an empty stack
    | UnknownRegister(r: char)        // `D` followed by something other than 0 or 1
    | BadArgPosition(pos: nat)        // a register operand after the second comma
    | NotADigit(c: char)              // `#` not followed by a decimal digit
    | BadStackOp                      // `-` or `(` not followed by the stack idiom
    | UnknownOperand(c: char)         // any other operand character
    | OutOfBounds                     // an index or slice past the end of the text

  datatype Machine = Machine(d0: Option<int>, d1: Option<int>, stack: seq<int>, fault: Option<MachineFault>)

  /** `AssemblyInterpreter::new`. */
  function Blank(): (m: Machine)
    ensures m.d0.None? && m.d1.None? && m.stack == [] && m.fault.None?
  {
    Machine(None, None, [], None)
  }

  function Fail(m: Machine, f: MachineFault): (r: Machine)
    ensures r.fault == Some(f) && r.d0 == m.d0 && r.d1 == m.d1 && r.stack == m.stack
  {
    m.(fault := Some(f))
  }

  /** The two opcodes with a decoder; the tagged form of the opcode text. */
  datatype Opcode = Move | Add

  /** What one pass of a decoder's loop body does: go on from a new state, or panic. */
  datatype Progress = Next(m: Machine, i: nat, argPos: nat, temp: int) | Stop(f: MachineFault)

  /**
   * One pass of the loop body of `move_op` (op = Move) or `add_op`
   * (op = Add) at index `i`, with the argument position `argPos` and the
   * temporary `temp`. The two decoders differ only in the `(SP)+` case,
   * which MOVE lacks, and in what a register at argument position 1 receives.
   */
  function DecodeStep(op: Opcode, m: Machine, rands: string, i: nat, argPos: nat, temp: int): (p: Progress)
    requires i < |rands|
    ensures p.Next? ==> p.i > i
  {
    var c := rands[i];
    if c == '(' && op == Add then
      if i + 5 > |rands| then Stop(OutOfBounds)
      else if !(rands[i + 1] == 'S' && rands[i + 2] == 'P' && rands[i + 3] == ')' && rands[i + 4] == '+') then Stop(BadStackOp)
      else if m.stack == [] then Stop(EmptyStack)
      else Next(m.(stack := m.stack[..|m.stack| - 1]), i + 5, argPos, m.stack[|m.stack| - 1])
    else if c == '#' then
      if i + 1 >= |rands| then Stop(OutOfBounds)
      else if !IsDigit(rands[i + 1]) then Stop(NotADigit(rands[i + 1]))
      else Next(m, i + 2, argPos, DigitValue(rands[i + 1]))
    else if c == ',' then
      Next(m, i + 1, argPos + 1, temp)
    else if c == '-' then
      if i + 5 > |rands| then Stop(OutOfBounds)
      else if !(rands[i + 1] == '(' && rands[i + 2] == 'S' && rands[i + 3] == 'P' && rands[i + 4] == ')') then Stop(BadStackOp)
      else Next(m.(stack := m.stack + [temp]), i + 5, argPos, temp)
    else if c == 'D' then
      if argPos >= 2 then Stop(BadArgPosition(argPos))
      else if i + 1 >= |rands| then Stop(OutOfBounds)
      else if rands[i + 1] != '0' && rands[i + 1] != '1' then Stop(UnknownRegister(rands[i + 1]))
      else if argPos == 0 then
        // a source register: read it into the temporary
        var reg := if rands[i + 1] == '0' then m.d0 else m.d1;
        if reg.None? then Stop(UnsetRegister) else Next(m, i + 2, argPos, reg.value)
      else if op == Move then
        // a destination register of MOVE: overwrite it
        Next(if rands[i + 1] == '0' then m.(d0 := Some(temp)) else m.(d1 := Some(temp)), i + 2, argPos, temp)
      else if m.d0.None? then Stop(UnsetRegister)
      else
        // a destination register of ADD: the temporary plus D0, for D1 as well as D0
        var sum := temp + m.d0.value;
        Next(if rands[i + 1] == '0' then m.(d0 := Some(sum)) else m.(d1 := Some(sum)), i + 2, argPos, temp)
    else Stop(UnknownOperand(c))
  }

  /** The whole decoder loop from index `i`: passes until the operands run out or a panic. */
  function Decode(op: Opcode, m: Machine, rands: string, i: nat, argPos: nat, temp: int): (r: Machine)
    decreases |rands| - i
  {
    if m.fault.Some? || i >= |rands| then m
    else
      match DecodeStep(op, m, rands, i, argPos, temp)
      case Stop(f) => Fail(m, f)
      case Next(m', i', argPos', temp') => Decode(op, m', rands, i', argPos', temp')
  }

  /** Where the opcode ends: the first space at or after `i`, else the end of the line. */
  function OpcodeEnd(line: string, i: nat): (k: nat)
    requires i <= |line|
    ensures i <= k <= |line|
    ensures forall j | i <= j < k :: line[j] != ' '
    ensures k < |line| ==> line[k] == ' '
    decreases |line| - i
  {
    if i == |line| || line[i] == ' ' then i else OpcodeEnd(line, i + 1)
  }

  /** `OpcodeEnd` finds exactly the first space at or after `i`. */
  lemma {:induction false} OpcodeEndAt(line: string, i: nat, k: nat)
    requires i <= k <= |line|
    requires forall j | i <= j < k :: line[j] != ' '
    requires k < |line| ==> line[k] == ' '
    ensures OpcodeEnd(line, i) == k
    decreases k - i
  {
    if i < k {
      OpcodeEndAt(line, i + 1, k);
    }
  }

  /** The split of `process_instruction`: opcode and operand text. Without a
      space the opcode is the whole line and so is the operand text. */
  function SplitInstruction(line: string): (r: (string, string))
    ensures ' ' in line ==> line == r.0 + " " + r.1 && ' ' !in r.0
    ensures ' ' !in line ==> r == (line, line)
  {
    var k := OpcodeEnd(line, 0);
    if k < |line| then (line[..k], line[k + 1..]) else (line, line)
  }

  /**
   * `process_instruction`: the opcode is the text before the first space and
   * the operands the text after it (the whole line when it has no space).
   * Only MOVE and ADD have a decoder. The opcode is recognised here by the
   * characters the line starts with; `ProcessDispatch` proves this the same
   * as splitting the line and comparing the opcode text.
   */
  function Process(m: Machine, line: string): (r: Machine)
  {
    if m.fault.Some? then m
    else if |line| >= 5 && line[0] == 'M' && line[1] == 'O' && line[2] == 'V' && line[3] == 'E' && line[4] == ' ' then
      Decode(Move, m, line[5..], 0, 0, 0)
    else if line == "MOVE" then Decode(Move, m, line, 0, 0, 0)
    else if |line| >= 4 && line[0] == 'A' && line[1] == 'D' && line[2] == 'D' && line[3] == ' ' then
      Decode(Add, m, line[4..], 0, 0, 0)
    else if line == "ADD" then Decode(Add, m, line, 0, 0, 0)
    else Fail(m, UnknownOpcode)
  }

  /** Splitting the line at its first space and matching the opcode text is what `Process` does. */
  lemma ProcessDispatch(m: Machine, line: string)
    requires m.fault.None?
    ensures var (opcode, rands) := SplitInstruction(line);
            Process(m, line) ==
            if opcode == "MOVE" then Decode(Move, m, rands, 0, 0, 0)
            else if opcode == "ADD" then Decode(Add, m, rands, 0, 0, 0)
            else Fail(m, UnknownOpcode)
  {
    var (opcode, rands) := SplitInstruction(line);
    if |line| >= 5 && line[0] == 'M' && line[1] == 'O' && line[2] == 'V' && line[3] == 'E' && line[4] == ' ' {
      OpcodeEndAt(line, 0, 4);
      assert line[..4] == "MOVE";
    } else if |line| >= 4 && line[0] == 'A' && line[1] == 'D' && line[2] == 'D' && line[3] == ' ' {
      OpcodeEndAt(line, 0, 3);
      assert line[..3] == "ADD";
    } else if line != "MOVE" && line != "ADD" {
      if ' ' in line {
        assert line == opcode + " " + rands;
        assert opcode != "MOVE" by {
          assert |opcode| == 4 ==> line[4] == ' ' && line[..4] == opcode;
        }
        assert opcode != "ADD" by {
          assert |opcode| == 3 ==> line[3] == ' ' && line[..3] == opcode;
        }
      }
    }
  }


  /** The lines run one after the other. */
  function RunLines(m: Machine, lines: seq<string>): (r: Machine)
    decreases |lines|
  {
    if lines == [] then m else RunLines(Process(m, lines[0]), lines[1..])
  }

  /** `eval`: drop the first character, split on "\n", run every line. */
  function Eval(m: Machine, text: string): (r: Machine)
  {
    if m.fault.Some? then m
    else if |text| == 0 then Fail(m, OutOfBounds)
    else RunLines(m, Split(text[1..]))
  }
}
