/**
 * The code generator as the source has it: an object whose methods move a
 * one-character lookahead cursor over a buffer and append instruction lines
 * to a writer. Every method is proved to do exactly what the function of the
 * same name in CodeGenSpec says, on the snapshot of the fields.
 */
module CodeGen {
  import opened Options
  import opened Chars
  import S = CodeGenSpec

  class Compiler {
    var source: seq<char>
    var counter: nat
    var lookahead: Option<char>
    var lCount: nat
    /** The text the in-memory writer has accumulated. */
    var out: string
    /** Set when the generator panics; nothing runs after it. */
    var fault: Option<S.Fault>

    function Snapshot(): S.Gen
      reads this
    {
      S.Gen(source, counter, lookahead, lCount, out, fault)
    }

    /** `Compiler::new`, with the buffer its reader returns. */
    constructor (input: seq<char>)
      ensures Snapshot() == S.Fresh(input)
    {
      source, counter, lookahead := input, 0, None;
      lCount, out, fault := 0, "", None;
    }

    method Init()
      requires fault.None?
      modifies this
      ensures Snapshot() == S.Init(old(Snapshot()))
    {
      if counter < |source| {
        lookahead := Some(source[counter]);
      } else {
        fault := Some(S.OutOfBounds);
      }
    }

    method GetChar()
      modifies this
      ensures Snapshot() == S.GetChar(old(Snapshot()))
    {
      if fault.Some? { return; }
      if |source| < 1 {
        // the refill returns the same empty buffer, and `len() - 1` underflows
        fault := Some(S.OutOfBounds);
        return;
      }
      if counter >= |source| - 1 {
        lookahead := None;
        return;
      }
      counter := counter + 1;
      lookahead := Some(source[counter]);
    }

    /** `error` followed by the panic of `abort`. */
    method Expected(what: string)
      requires fault.None?
      modifies this
      ensures Snapshot() == S.ExpectedFault(old(Snapshot()), what)
    {
      out := out + "\n" + S.ErrorLine(what + " expected");
      fault := Some(S.Expected(what));
    }

    method EmitLine(line: string)
      modifies this
      ensures Snapshot() == S.EmitLine(old(Snapshot()), line)
    {
      if fault.Some? { return; }
      out := out + "\n" + line;
    }

    predicate IsWhitespace()
      reads this
    {
      lookahead.Some? && IsWhite(lookahead.value)
    }

    method Whitespace()
      modifies this
      ensures Snapshot() == S.Whitespace(old(Snapshot()))
    {
      while fault.None? && IsWhitespace()
        invariant S.Whitespace(Snapshot()) == S.Whitespace(old(Snapshot()))
        decreases S.Measure(Snapshot())
      {
        GetChar();
      }
    }

    method MatchChar(x: char)
      modifies this
      ensures Snapshot() == S.MatchChar(old(Snapshot()), x)
    {
      if fault.Some? { return; }
      if lookahead.None? {
        fault := Some(S.UnwrapNone);
        return;
      }
      if lookahead.value == x {
        GetChar();
        Whitespace();
      } else {
        Expected(S.Quote(x));
      }
    }

    method GetName() returns (token: string)
      modifies this
      ensures (Snapshot(), token) == S.GetName(old(Snapshot()))
    {
      token := "";
      if fault.Some? { return; }
      if lookahead.None? {
        fault := Some(S.UnwrapNone);
        return;
      }
      if !IsAlpha(lookahead.value) {
        Expected("Name");
        return;
      }
      ghost var start := Snapshot();
      while fault.None?
        invariant S.NameLoop(Snapshot(), token) == S.NameLoop(start, "")
        decreases S.Measure(Snapshot())
      {
        if lookahead.None? {
          fault := Some(S.UnwrapNone);
        } else if !IsAlphanum(lookahead.value) {
          break;
        } else {
          token := token + [lookahead.value];
          GetChar();
        }
      }
      Whitespace();
    }

    method GetNum() returns (num: char)
      modifies this
      ensures (Snapshot(), num) == S.GetNum(old(Snapshot()))
    {
      num := '0';
      if fault.Some? { return; }
      if lookahead.None? {
        fault := Some(S.UnwrapNone);
        return;
      }
      if !IsDigit(lookahead.value) {
        Expected("Integer");
        return;
      }
      num := lookahead.value;
      GetChar();
      Whitespace();
    }

    method Ident()
      modifies this
      ensures Snapshot() == S.Ident(old(Snapshot()))
    {
      var name := GetName();
      if fault.Some? { return; }
      if lookahead.None? {
        fault := Some(S.UnwrapNone);
        return;
      }
      if lookahead.value == '(' {
        MatchChar('(');
        MatchChar(')');
        EmitLine("BSR " + name);
      } else {
        EmitLine("MOVE " + name + "(PC),D0");
      }
    }

    method Factor()
      modifies this
      decreases S.Measure(Snapshot()), 0
      ensures Snapshot() == S.Factor(old(Snapshot()))
    {
      if fault.Some? { return; }
      if lookahead.None? {
        fault := Some(S.UnwrapNone);
        return;
      }
      if lookahead.value == '(' {
        MatchChar('(');
        Expression();
        MatchChar(')');
      } else if IsAlpha(lookahead.value) {
        Ident();
      } else {
        var d := GetNum();
        EmitLine("MOVE #" + [d] + ",D0");
      }
    }

    method Multiply()
      modifies this
      decreases S.Measure(Snapshot()), 0
      ensures Snapshot() == S.Multiply(old(Snapshot()))
    {
      if fault.Some? { return; }
      MatchChar('*');
      Factor();
      EmitLine("MULS (SP)+,D0");
    }

    method Divide()
      modifies this
      decreases S.Measure(Snapshot()), 0
      ensures Snapshot() == S.Divide(old(Snapshot()))
    {
      if fault.Some? { return; }
      MatchChar('/');
      Factor();
      EmitLine("MOVE (SP)+,D1");
      EmitLine("DIVS D1,D0");
    }

    method Term()
      modifies this
      decreases S.Measure(Snapshot()), 1
      ensures Snapshot() == S.Term(old(Snapshot()))
    {
      if fault.Some? { return; }
      Factor();
      if fault.None? && lookahead.Some? && IsMulop(lookahead.value) {
        EmitLine("MOVE D0,-(SP)");
        if lookahead.value == '*' {
          Multiply();
        } else {
          Divide();
        }
      }
    }

    method Add()
      modifies this
      decreases S.Measure(Snapshot()), 0
      ensures Snapshot() == S.Add(old(Snapshot()))
    {
      if fault.Some? { return; }
      MatchChar('+');
      Term();
      EmitLine("ADD (SP)+,D0");
    }

    method Subtract()
      modifies this
      decreases S.Measure(Snapshot()), 0
      ensures Snapshot() == S.Subtract(old(Snapshot()))
    {
      if fault.Some? { return; }
      MatchChar('-');
      Term();
      EmitLine("SUB (SP)+,D0");
      EmitLine("NEG D0");
    }

    method Expression()
      modifies this
      decreases S.Measure(Snapshot()), 3
      ensures Snapshot() == S.Expression(old(Snapshot()))
    {
      if fault.Some? { return; }
      if lookahead.None? {
        fault := Some(S.UnwrapNone);
        return;
      }
      if IsAddop(lookahead.value) {
        EmitLine("CLR D0");
      } else {
        Term();
      }
      ghost var first := Snapshot();
      while fault.None? && lookahead.Some? && IsAddop(lookahead.value)
        invariant S.ExprTail(Snapshot()) == S.ExprTail(first)
        invariant S.Measure(Snapshot()) <= S.Measure(old(Snapshot()))
        decreases S.Measure(Snapshot())
      {
        EmitLine("MOVE D0,-(SP)");
        if lookahead.value == '+' {
          Add();
        } else {
          Subtract();
        }
      }
    }

    method Assignment()
      modifies this
      ensures Snapshot() == S.Assignment(old(Snapshot()))
    {
      Whitespace();
      var name := GetName();
      MatchChar('=');
      Expression();
      EmitLine("LEA " + name + "(PC),A0");
      EmitLine("MOVE D0,(A0)");
    }

    method Statement()
      modifies this
      ensures Snapshot() == S.Statement(old(Snapshot()))
    {
      Assignment();
      MatchChar(';');
    }

    method Block()
      modifies this
      ensures Snapshot() == S.Block(old(Snapshot()))
    {
      MatchChar('{');
      ghost var first := Snapshot();
      while fault.None?
        invariant S.BlockLoop(Snapshot()) == S.BlockLoop(first)
        decreases S.Measure(Snapshot())
      {
        if lookahead.None? {
          fault := Some(S.UnwrapNone);
        } else if lookahead.value == '}' {
          break;
        } else {
          Statement();
        }
      }
      MatchChar('}');
    }

    method Program()
      modifies this
      ensures Snapshot() == S.Program(old(Snapshot()))
    {
      Whitespace();
      Block();
    }

    /** `new_label`: the next label of this instance. */
    method NewLabel() returns (tag: string)
      modifies this
      ensures tag == S.Label(old(lCount))
      ensures Snapshot() == old(Snapshot()).(lCount := old(lCount) + 1)
    {
      var digits := S.Decimal(lCount);
      tag := "L" + (if |digits| < 2 then "0" + digits else digits);
      lCount := lCount + 1;
    }
  }
}
