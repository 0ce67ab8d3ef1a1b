# A model of a tiny 68000 code generator and its assembly interpreter

The repository holds two components that share one text format:

* a recursive-descent **code generator** (`src/compiler.rs`). It reads a
  character buffer through a one-character lookahead and emits 68000-style
  instruction lines to a writer. The grammar runs program → block →
  statement → assignment → expression → term → factor → ident.
* a straight-line **assembly interpreter** (`src/assembly_interpreter.rs`).
  It runs such text on two optional registers `D0`/`D1` and a stack. Only
  `MOVE` and `ADD` have a decoder.

Both are modelled in the form the source has.

* The generator is the class `CodeGen.Compiler`. Its fields are `source`,
  `counter`, `lookahead`, `lCount` and `out`, plus a `fault` field that
  records a panic. Every method, loops included, is proved to produce exactly
  the snapshot that a function in `CodeGenSpec` gives for the old snapshot.
* The interpreter is the class `Asm.AssemblyInterpreter`. Its fields are `d0`,
  `d1`, `stack` and `fault`. Its decoders are index loops, proved against
  `AsmSpec`.
* A panic is a sticky fault: once it is set, no operation changes anything.
* The writer is folded into the generator. `writeln` appends `"\n"` and then
  the line, so the text of lines `ls` is `Lines.Emitted(ls)`.
* The reader is folded in too. The constructor takes the buffer that the test
  reader would return.

The properties are proved against three independent definitions.

* **Syntax trees.** `Syntax` defines expressions, terms, factors and
  assignments. For each it gives the token sequence and a syntax-directed
  *reference translation* (`ExprCode`, `AssignCode`, ...). `Cursor.Scan`
  says where the tokens of a tree may lie in a buffer, with any run of spaces
  and tabs after each token. `Translation` proves that the character-level
  generator emits exactly the reference translation of every tree laid out
  like this. So the output depends only on the tokens, not on the spacing.
* **Values.** `Syntax.ExprValue` is the sum that an expression of digits, `+`
  and parentheses denotes. `Pipeline` proves that compiling such an expression
  and running the text on a fresh interpreter leaves its value in D0. It
  also proves that a subtraction is compiled but cannot be run.
* **Labels.** `Labels.DigitsValue` reads a label's digits back, which makes
  `new_label` injective.

`Examples` instantiates the general theorems on the inputs of the
repository's unit tests. Their expected outputs are derived from the
emitting code.

## Model

| member | source | states |
|---|---|---|
| CodeGenSpec.Init | src/compiler.rs:27-30 | on a nonempty buffer the lookahead becomes the first character and the cursor invariant holds; an empty buffer faults with an index out of bounds |
| CodeGenSpec.Start | src/compiler.rs:16-30 | a fresh initialised generator over a nonempty input is at position 0 with empty output and no fault |
| CodeGenSpec.GetChar | src/compiler.rs:37-48 | before the last character it advances `counter` by one and the lookahead is `source[counter]`; at the last character it sets the lookahead to None and leaves `counter`; the output never changes and the cursor invariant (`counter <= |source|-1`) is kept |
| CodeGenSpec.ExpectedFault | src/compiler.rs:50-62 | `expected(what)` appends the line `Error: <what> expected` after an empty line, faults with `Expected(what)` and consumes nothing |
| CodeGenSpec.EmitLine | src/compiler.rs:68-70 | the writer's text grows by exactly `"\n" + line`; the cursor is untouched |
| CodeGenSpec.Whitespace | src/compiler.rs:193-204 | it never faults on a nonempty buffer, never writes, and stops on a lookahead that is None or not a space or tab |
| CodeGenSpec.MatchChar | src/compiler.rs:72-81 | on `x` it consumes `x` and the spaces and tabs after it without writing; on another character it is `expected("\"x\"")`; on a missing lookahead it faults with an unwrap of None |
| CodeGenSpec.NameLoop | src/compiler.rs:100-104 | it only appends alphanumerics to the token, and it stops on a lookahead that is not alphanumeric unless it faults |
| CodeGenSpec.GetName | src/compiler.rs:95-111 | on success the name is nonempty, starts with a letter and is all alphanumerics; a non-letter lookahead gives `Name expected` |
| CodeGenSpec.GetNum | src/compiler.rs:113-122 | on success it returns the lookahead, which is a digit, and writes nothing; a non-digit gives `Integer expected` |
| CodeGenSpec.Multiply | src/compiler.rs:124-128 | each call consumes input, which is the termination argument of the mutual recursion |
| CodeGenSpec.Divide | src/compiler.rs:130-135 | each call consumes input |
| CodeGenSpec.Add | src/compiler.rs:176-180 | each call consumes input |
| CodeGenSpec.Subtract | src/compiler.rs:182-187 | each call consumes input |
| CodeGenSpec.ExprTail | src/compiler.rs:213-225 | the additive loop leaves no `+` or `-` as lookahead unless it faults |
| CodeGenSpec.Statement | src/compiler.rs:237-240 | each statement consumes input, which makes the block loop terminate |
| CodeGenSpec.Label | src/compiler.rs:255-259 | a label is `L` followed by at least two digits |
| CodeGen.Compiler.constructor | src/compiler.rs:16-25 | the fields are the buffer, counter 0, no lookahead, label count 0 and empty output |
| CodeGen.Compiler.Init | src/compiler.rs:27-30 | the new state is `CodeGenSpec.Init` of the old one |
| CodeGen.Compiler.GetChar | src/compiler.rs:37-48 | the new state is `CodeGenSpec.GetChar` of the old one |
| CodeGen.Compiler.Expected | src/compiler.rs:50-62 | the new state is `CodeGenSpec.ExpectedFault` of the old one |
| CodeGen.Compiler.EmitLine | src/compiler.rs:68-70 | the new state is `CodeGenSpec.EmitLine` of the old one |
| CodeGen.Compiler.Whitespace | src/compiler.rs:200-204 | the `while` loop produces `CodeGenSpec.Whitespace` of the old state |
| CodeGen.Compiler.MatchChar | src/compiler.rs:72-81 | the new state is `CodeGenSpec.MatchChar` of the old one |
| CodeGen.Compiler.GetName | src/compiler.rs:95-111 | the loop produces the state and token of `CodeGenSpec.GetName` |
| CodeGen.Compiler.GetNum | src/compiler.rs:113-122 | the new state and digit are `CodeGenSpec.GetNum` of the old state |
| CodeGen.Compiler.Ident | src/compiler.rs:152-161 | the new state is `CodeGenSpec.Ident` of the old one |
| CodeGen.Compiler.Factor | src/compiler.rs:163-174 | the new state is `CodeGenSpec.Factor` of the old one |
| CodeGen.Compiler.Multiply | src/compiler.rs:124-128 | the new state is `CodeGenSpec.Multiply` of the old one |
| CodeGen.Compiler.Divide | src/compiler.rs:130-135 | the new state is `CodeGenSpec.Divide` of the old one |
| CodeGen.Compiler.Term | src/compiler.rs:137-150 | the new state is `CodeGenSpec.Term` of the old one |
| CodeGen.Compiler.Add | src/compiler.rs:176-180 | the new state is `CodeGenSpec.Add` of the old one |
| CodeGen.Compiler.Subtract | src/compiler.rs:182-187 | the new state is `CodeGenSpec.Subtract` of the old one |
| CodeGen.Compiler.Expression | src/compiler.rs:206-226 | the leading-sign test and the additive `while` loop produce `CodeGenSpec.Expression` of the old state |
| CodeGen.Compiler.Assignment | src/compiler.rs:228-235 | the new state is `CodeGenSpec.Assignment` of the old one |
| CodeGen.Compiler.Statement | src/compiler.rs:237-240 | the new state is `CodeGenSpec.Statement` of the old one |
| CodeGen.Compiler.Block | src/compiler.rs:242-248 | the statement loop up to `}` produces `CodeGenSpec.Block` of the old state |
| CodeGen.Compiler.Program | src/compiler.rs:250-253 | the new state is `CodeGenSpec.Program` of the old one |
| CodeGen.Compiler.NewLabel | src/compiler.rs:255-259 | it returns `Label(lCount)` and increments `lCount` by one; nothing else changes |
| Cursor.StepAt | src/compiler.rs:37-48 | at position p before the end, `get_char` moves the cursor to p+1 and writes nothing |
| Cursor.WhitespaceAt | src/compiler.rs:193-204 | `whitespace` moves the cursor past exactly the run of spaces and tabs |
| Cursor.MatchAt | src/compiler.rs:72-81 | a matching character is consumed together with the spaces and tabs after it |
| Cursor.MatchMismatch | src/compiler.rs:72-81 | on a mismatch the output gains `Error: "x" expected`, the fault is `Expected("\"x\"")` and the cursor does not move |
| Cursor.NameLoopAt | src/compiler.rs:100-104 | the name loop collects exactly the run of alphanumerics from the cursor |
| Cursor.NameAt | src/compiler.rs:95-111 | `get_name` on a name followed by any character that does not extend it returns the maximal alphanumeric run that starts with a letter and leaves the cursor on the first character after it that is not a space or tab, or at the end of the input |
| Cursor.NameAtEnd | src/compiler.rs:101-103 | a name that runs to the end of the buffer faults with an unwrap of None |
| Cursor.NameNotAlpha | src/compiler.rs:95-98 | a lookahead that is not a letter gives `Name expected` and the error line |
| Cursor.DigitFactorAt | src/compiler.rs:113-122 | a digit factor consumes one digit and its trailing spaces and emits exactly `MOVE #d,D0` |
| Cursor.FactorNotStarted | src/compiler.rs:163-174 | a factor that starts with neither `(`, a letter nor a digit gives `Integer expected` without moving |
| Cursor.LeadingSign | src/compiler.rs:206-211 | a leading `+` or `-` emits `CLR D0`, consumes nothing and hands the sign to the additive loop |
| Translation.FactorVarEmits | src/compiler.rs:152-161 | a variable followed by a stop character emits exactly `MOVE name(PC),D0` |
| Translation.FactorCallEmits | src/compiler.rs:152-161 | `name ( )` emits exactly `BSR name` |
| Translation.TrailingNamePanics | src/compiler.rs:101-103 | a variable at the very end of the input makes the factor and the term fault |
| Translation.FactorEmits | src/compiler.rs:163-174 | each kind of factor emits its reference translation and moves the cursor past its tokens |
| Translation.TermEmits | src/compiler.rs:137-150 | a term with at most one `*` or `/` emits the left factor, `MOVE D0,-(SP)`, the right factor, then `MULS (SP)+,D0` or `MOVE (SP)+,D1` and `DIVS D1,D0` |
| Translation.TailEmits | src/compiler.rs:176-187 | every additive operator, left to right, emits `MOVE D0,-(SP)`, the term, then `ADD (SP)+,D0` or `SUB (SP)+,D0` and `NEG D0` |
| Translation.ExprEmits | src/compiler.rs:206-226 | `expression` emits exactly `ExprCode` of the tree laid out at the cursor, with or without a leading sign |
| Translation.AssignEmits | src/compiler.rs:228-235 | `assignment` emits the expression's code, then `LEA name(PC),A0` and `MOVE D0,(A0)` |
| Translation.StatementEmits | src/compiler.rs:237-240 | a statement is an assignment and its `;` |
| Translation.BlockLoopEmits | src/compiler.rs:242-248 | the statements of a block up to `}` emit the concatenation of their translations |
| Translation.ProgramEmits | src/compiler.rs:250-253 | `program` emits the translations of all statements of `{ ... }` |
| Translation.ExpressionCompiles | src/compiler.rs:206-226 | an expression that is the whole input compiles without a fault to exactly its reference translation |
| Translation.ProgramCompiles | src/compiler.rs:250-253 | a whole program compiles without a fault to exactly its reference translation |
| Translation.LayoutIrrelevant | src/compiler.rs:189-204 | two inputs with the same tokens and different spacing compile to the same text |
| Labels.DecimalRoundTrip | src/compiler.rs:256 | reading back the decimal digits of n gives n |
| Labels.LabelValue | src/compiler.rs:256 | the digits of `Label(n)` denote n, because zero padding does not change the value |
| Labels.LabelInjective | src/compiler.rs:255-259 | `Label(a) == Label(b)` exactly when `a == b`, so the labels of one generator are pairwise distinct |
| Labels.LabelLength | src/compiler.rs:256 | a label is three characters exactly when n < 100, so padding never cuts digits |
| Labels.LabelSamples | src/compiler.rs:256 | `L00`, `L07`, `L12`, `L123` |
| Examples.SingleTerm | src/compiler.rs:312-323 | `1` compiles to `MOVE #1,D0` |
| Examples.AddOperation | src/compiler.rs:325-336 | `1 + 2` compiles to the push, the load and `ADD (SP)+,D0` |
| Examples.SubtractOperation | src/compiler.rs:338-349 | `1-2` compiles to the push, the load, `SUB (SP)+,D0` and `NEG D0` |
| Examples.MultipleOperators | src/compiler.rs:351-364 | `1-2+3-4+7` compiles left to right |
| Examples.MultiplyOperation | src/compiler.rs:366-377 | `2*3` ends with `MULS (SP)+,D0` |
| Examples.DivideOperation | src/compiler.rs:379-390 | `2/3` ends with `MOVE (SP)+,D1` and `DIVS D1,D0` |
| Examples.Parentheses | src/compiler.rs:392-405 | `( 1+2 )` compiles like `1+2` |
| Examples.ComplexArithmetic | src/compiler.rs:407-420 | `( 1 + 2)/((3 + 4)+(5 - 6))` compiles to its 18 lines |
| Examples.StopsAtSecondOperator | src/compiler.rs:137-150 | on `2*3*4`, `term` takes one `*` and stops before the second |
| Examples.MultiCharIdentifier | src/compiler.rs:422-435 | `jake = 10` compiles only the digit `1` and stops before the `0` |
| Examples.ArbitraryWhitespace | src/compiler.rs:437-450 | `  b =   1 +   3    / 2` compiles, with its spaces ignored |
| Examples.TrailingName | src/compiler.rs:101-103 | `expression` on the input `a` faults with an unwrap of None |
| AsmSpec.Blank | src/assembly_interpreter.rs:14-21 | a new interpreter has both registers unset and an empty stack |
| AsmSpec.DecodeStep | src/assembly_interpreter.rs:74-121 | every pass of a decoder loop that does not panic advances the index, so the decoders terminate |
| AsmSpec.OpcodeEnd | src/assembly_interpreter.rs:45-52 | the opcode ends at the first space, or at the end of a line without one |
| AsmSpec.SplitInstruction | src/assembly_interpreter.rs:42-54 | a line with a space is the opcode, a space and the operand text, and the opcode has no space; a line without a space is both the opcode and the operand text |
| AsmSpec.ProcessDispatch | src/assembly_interpreter.rs:40-66 | processing a line is splitting it and then running the MOVE decoder, the ADD decoder or a panic on any other opcode |
| Asm.AssemblyInterpreter.constructor | src/assembly_interpreter.rs:14-21 | the snapshot is `Blank()` |
| Asm.AssemblyInterpreter.Eval | src/assembly_interpreter.rs:23-38 | the loop over the split lines produces `AsmSpec.Eval` of the old machine |
| Asm.AssemblyInterpreter.ProcessInstruction | src/assembly_interpreter.rs:40-66 | the opcode loop and the dispatch produce `AsmSpec.Process` of the old machine |
| Asm.AssemblyInterpreter.AddOp | src/assembly_interpreter.rs:68-123 | the operand loop produces the ADD decoder's machine |
| Asm.AssemblyInterpreter.MoveOp | src/assembly_interpreter.rs:125-173 | the operand loop produces the MOVE decoder's machine |
| AsmProps.SplitLine | src/assembly_interpreter.rs:42-54 | a line `opcode + " " + rands`, with no space in the opcode, splits back into exactly that opcode and those operands |
| AsmProps.DecodeFaults | src/assembly_interpreter.rs:79-120 | a register after the second comma, a register digit other than 0 or 1, a non-digit after `#`, a malformed `-(SP)`, a malformed `(SP)+` in ADD, a pop from an empty stack, a `#`, `D`, `-(SP)` or `(SP)+` cut short by the end of the operands, and any other operand character each panic with their own error |
| AsmProps.MoveImmediate | src/assembly_interpreter.rs:136-139 | `MOVE #c,Dr` sets register r to the digit; the other register and the stack are unchanged |
| AsmProps.PushRegister | src/assembly_interpreter.rs:144-158 | `MOVE Dr,-(SP)` appends register r to the stack and leaves both registers; an unset register panics |
| AsmProps.PopAdd | src/assembly_interpreter.rs:79-83 | `ADD (SP)+,Dr` pops the top and writes top + D0 to Dr, also for D1; an empty stack or an unset D0 panics |
| AsmProps.PopMoveUnsupported | src/assembly_interpreter.rs:135-170 | `MOVE (SP)+,D1`, which `divide` emits, panics because MOVE has no `(` operand |
| AsmProps.StoreUnsupported | src/assembly_interpreter.rs:135-170 | `MOVE D0,(A0)`, which `assignment` emits, panics on the `(` |
| AsmProps.LoadUnsupported | src/assembly_interpreter.rs:170 | `MOVE name(PC),D0` panics on the name's first letter unless the name starts with `D` |
| AsmProps.OpcodeUnsupported | src/assembly_interpreter.rs:59-63 | any opcode other than MOVE and ADD panics and leaves the machine as it was |
| AsmProps.SubtractUnsupported | src/assembly_interpreter.rs:59-63 | `SUB (SP)+,D0` panics |
| AsmProps.FaultSticks | src/assembly_interpreter.rs:33-35 | after a panic no further line changes the machine |
| AsmProps.RunAppend | src/assembly_interpreter.rs:33-35 | running `a + b` is running `a` and then `b` |
| AsmProps.EvalEmitted | src/assembly_interpreter.rs:23-38 | `eval` on a writer's text drops the leading newline and runs exactly the lines that were written |
| Pipeline.ExprCodeClean | src/compiler.rs:206-226 | the generated lines are nonempty and contain no line terminator, so `eval` sees them one per line |
| Pipeline.FactorRuns | src/assembly_interpreter.rs:125-173 | the code of an additive factor loads its value into D0 and changes nothing else |
| Pipeline.TailRuns | src/assembly_interpreter.rs:68-123 | each `+ t` step adds the term's value to D0 and leaves the stack as it found it |
| Pipeline.ExprRuns | src/assembly_interpreter.rs:23-123 | the code of an additive expression leaves its value in D0 and changes nothing else |
| Pipeline.CompileThenRun | src/assembly_interpreter.rs:184-198 | compiling an expression of digits, `+` and parentheses and evaluating the text leaves its value in D0, D1 unset and the stack empty |
| Pipeline.OnePlusTwoRuns | src/assembly_interpreter.rs:184-198 | `1+2` compiled and evaluated leaves 3 in D0 |
| Pipeline.MinusRejected | src/assembly_interpreter.rs:59-63 | an expression whose first operator is `-`, with a digit or an additive parenthesised expression on each side of it, compiles to text whose evaluation panics at the `SUB` |
| Pipeline.OneMinusTwoRejected | src/compiler.rs:338-349 | `1-2` compiles, and evaluating its text panics |

## Left out

* Reading input from stdin or files (`src/reader.rs`), the command line in
  `src/main.rs` and the console writer are I/O and are not modelled. The
  buffer is a parameter, and `writeln` is folded into the `out` field.
* The refill branch of `get_char` (`src/compiler.rs:38-40`) re-reads the same
  buffer. On an empty buffer the next step is an index out of bounds, which the
  model records as the `OutOfBounds` fault.
* The diagnostic text keeps only the message. The ANSI colour codes around it
  and the `println!` debug output of the interpreter are left out.
* A panic is a fault that stops all later work. The model does not keep
  partial updates that the unwinding would expose, since nothing observes
  them.
* `emit` (`src/compiler.rs:64-66`) is used only by `post_label`. `post_label`,
  `keyword`, `condition` and `match_token` (`src/compiler.rs:261-291`) are an
  unfinished `if`/`else` facility that no other code reaches.
* `SUB`, `NEG`, `MULS`, `DIVS`, `CLR`, `BSR` and `LEA` have no decoder in the
  interpreter. Their meaning is not invented; they panic like any other
  unknown opcode.
* The interpreter's `output` field is initialised to `None` and never used.
* `isize` overflow is not modelled, because registers and stack entries are
  unbounded integers. The values that occur are single digits and their sums.
* `IsAlpha` accepts only ASCII letters. Rust's `is_alphabetic` also accepts
  other Unicode letters.
* The expected outputs of the unit tests come from `test_data/`, which is not
  part of this model. The expected lines in `Examples` are derived from the
  emitting code.
* `AsmSpec.Process` recognises the opcode by the characters the line starts
  with. `AsmSpec.ProcessDispatch` proves this equal to splitting at the first
  space and comparing the opcode text, and `ProcessInstruction` does the
  split with a loop.
* `UnknownOpcode` carries no text, just as the panic message carries none.
