/**
 * The assembly interpreter as the source has it: an object whose registers
 * and stack the opcode decoders overwrite, push and pop in place. Every
 * method is proved to do what the function of the same name in AsmSpec says.
 */
module Asm {
  import opened Options
  import opened Chars
  import opened Lines
  import opened AsmSpec

  class AssemblyInterpreter {
    var d0: Option<int>
    var d1: Option<int>
    var stack: seq<int>
    /** Set when the interpreter panics; nothing runs after it. */
    var fault: Option<MachineFault>

    function Snapshot(): Machine
      reads this
    {
      Machine(d0, d1, stack, fault)
    }

    /** `AssemblyInterpreter::new`: both registers unset, the stack empty. */
    constructor ()
      ensures Snapshot() == Blank()
    {
      d0, d1, stack, fault := None, None, [], None;
    }

    method Eval(input: string)
      modifies this
      ensures Snapshot() == AsmSpec.Eval(old(Snapshot()), input)
    {
      if fault.Some? { return; }
      if |input| == 0 {
        fault := Some(OutOfBounds);
        return;
      }
      var instructions := Split(input[1..]);
      for k := 0 to |instructions|
        invariant RunLines(Snapshot(), instructions[k..]) == AsmSpec.Eval(old(Snapshot()), input)
      {
        assert instructions[k..] == [instructions[k]] + instructions[k + 1..];
        ProcessInstruction(instructions[k]);
      }
    }

    method ProcessInstruction(instruction: string)
      modifies this
      ensures Snapshot() == Process(old(Snapshot()), instruction)
    {
      if fault.Some? { return; }
      var opcode := "";
      var index := 0;
      for i := 0 to |instruction|
        invariant opcode == instruction[..i] && index == 0
        invariant forall j | 0 <= j < i :: instruction[j] != ' '
      {
        if instruction[i] == ' ' {
          index := i + 1;
          break;
        }
        opcode := opcode + [instruction[i]];
      }
      // index is 0 when the line has no space, else one past the first space
      assert index == 0 ==> opcode == instruction;
      assert index != 0 ==> index == |opcode| + 1 && instruction[|opcode|] == ' ';
      var rands := instruction[index..];
      OpcodeEndAt(instruction, 0, |opcode|);
      ProcessDispatch(Snapshot(), instruction);
      if opcode == "MOVE" {
        MoveOp(rands);
      } else if opcode == "ADD" {
        AddOp(rands);
      } else {
        fault := Some(UnknownOpcode);
      }
    }

    method AddOp(rands: string)
      requires fault.None?
      modifies this
      ensures Snapshot() == Decode(Add, old(Snapshot()), rands, 0, 0, 0)
    {
      var temp := 0;
      var i := 0;
      var argPos := 0;
      for n := 0 to |rands|
        invariant n <= i
        invariant fault.None?
        invariant Decode(Add, Snapshot(), rands, i, argPos, temp) == Decode(Add, old(Snapshot()), rands, 0, 0, 0)
      {
        if i >= |rands| {
          break;
        }
        var c := rands[i];
        if c == '(' {
          if i + 5 > |rands| {
            fault := Some(OutOfBounds);
            return;
          }
          if !(rands[i + 1] == 'S' && rands[i + 2] == 'P' && rands[i + 3] == ')' && rands[i + 4] == '+') {
            fault := Some(BadStackOp);
            return;
          }
          if stack == [] {
            fault := Some(EmptyStack);
            return;
          }
          temp := stack[|stack| - 1];
          stack := stack[..|stack| - 1];
          i := i + 5;
        } else if c == '#' {
          if i + 1 >= |rands| {
            fault := Some(OutOfBounds);
            return;
          }
          if !IsDigit(rands[i + 1]) {
            fault := Some(NotADigit(rands[i + 1]));
            return;
          }
          temp := DigitValue(rands[i + 1]);
          i := i + 2;
        } else if c == ',' {
          argPos := argPos + 1;
          i := i + 1;
        } else if c == '-' {
          if i + 5 > |rands| {
            fault := Some(OutOfBounds);
            return;
          }
          if !(rands[i + 1] == '(' && rands[i + 2] == 'S' && rands[i + 3] == 'P' && rands[i + 4] == ')') {
            fault := Some(BadStackOp);
            return;
          }
          stack := stack + [temp];
          i := i + 5;
        } else if c == 'D' {
          if argPos >= 2 {
            fault := Some(BadArgPosition(argPos));
            return;
          }
          if i + 1 >= |rands| {
            fault := Some(OutOfBounds);
            return;
          }
          var r := rands[i + 1];
          if r != '0' && r != '1' {
            fault := Some(UnknownRegister(r));
            return;
          }
          if argPos == 0 {
            var reg := if r == '0' then d0 else d1;
            if reg.None? {
              fault := Some(UnsetRegister);
              return;
            }
            temp := reg.value;
          } else {
            if d0.None? {
              fault := Some(UnsetRegister);
              return;
            }
            if r == '0' {
              d0 := Some(temp + d0.value);
            } else {
              d1 := Some(temp + d0.value);
            }
          }
          i := i + 2;
        } else {
          fault := Some(UnknownOperand(c));
          return;
        }
      }
    }

    method MoveOp(rands: string)
      requires fault.None?
      modifies this
      ensures Snapshot() == Decode(Move, old(Snapshot()), rands, 0, 0, 0)
    {
      var temp := 0;
      var i := 0;
      var argPos := 0;
      for n := 0 to |rands|
        invariant n <= i
        invariant fault.None?
        invariant Decode(Move, Snapshot(), rands, i, argPos, temp) == Decode(Move, old(Snapshot()), rands, 0, 0, 0)
      {
        if i >= |rands| {
          break;
        }
        var c := rands[i];
        if c == '#' {
          if i + 1 >= |rands| {
            fault := Some(OutOfBounds);
            return;
          }
          if !IsDigit(rands[i + 1]) {
            fault := Some(NotADigit(rands[i + 1]));
            return;
          }
          temp := DigitValue(rands[i + 1]);
          i := i + 2;
        } else if c == ',' {
          argPos := argPos + 1;
          i := i + 1;
        } else if c == '-' {
          if i + 5 > |rands| {
            fault := Some(OutOfBounds);
            return;
          }
          if !(rands[i + 1] == '(' && rands[i + 2] == 'S' && rands[i + 3] == 'P' && rands[i + 4] == ')') {
            fault := Some(BadStackOp);
            return;
          }
          stack := stack + [temp];
          i := i + 5;
        } else if c == 'D' {
          if argPos >= 2 {
            fault := Some(BadArgPosition(argPos));
            return;
          }
          if i + 1 >= |rands| {
            fault := Some(OutOfBounds);
            return;
          }
          var r := rands[i + 1];
          if r != '0' && r != '1' {
            fault := Some(UnknownRegister(r));
            return;
          }
          if argPos == 0 {
            var reg := if r == '0' then d0 else d1;
            if reg.None? {
              fault := Some(UnsetRegister);
              return;
            }
            temp := reg.value;
          } else if r == '0' {
            d0 := Some(temp);
          } else {
            d1 := Some(temp);
          }
          i := i + 2;
        } else {
          fault := Some(UnknownOperand(c));
          return;
        }
      }
    }
  }
}
