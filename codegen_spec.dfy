/**
 * The recursive-descent code generator as functions on a snapshot of its
 * state. Every function here is the meaning of one method of the generator
 * (module CodeGen); a panic of the generator is a `fault`, after which every
 * function leaves the snapshot as it is (the panic unwinds everything).
 */
module CodeGenSpec {
  import opened Options
  import opened Chars
  import opened Lines

  /** Why the generator stopped. */
  datatype Fault =
    | UnwrapNone              // `lookahead.unwrap()` after the last character was consumed
    | OutOfBounds             // `source[counter]` or `len() - 1` on an empty buffer
    | Expected(what: string)  // `expected(what)`, which logs a diagnostic and aborts

  /** The generator's fields: the cursor, the label counter and the writer's text. */
  datatype Gen = Gen(
    source: seq<char>,
    counter: nat,
    lookahead: Option<char>,
    lCount: nat,
    out: string,
    fault: Option<Fault>)

  /** `Compiler::new` with a reader that holds `input`. */
  function Fresh(input: seq<char>): Gen {
    Gen(input, 0, None, 0, "", None)
  }

  /** The cursor invariant that `init` establishes: `counter` is a valid index and
      the lookahead is the character under it, or None once the last one is consumed. */
  ghost predicate Wf(st: Gen) {
    0 < |st.source| && st.counter < |st.source| &&
    (st.lookahead.None? ==> st.counter == |st.source| - 1) &&
    (st.lookahead.Some? ==> st.lookahead.value == st.source[st.counter])
  }

  /** Input still to be decided on; it strictly drops whenever a character is consumed. */
  function Measure(st: Gen): nat {
    if st.fault.Some? then 0
    else 1 + (if st.counter < |st.source| then |st.source| - st.counter else 0)
           + (if st.lookahead.Some? then 1 else 0)
  }

  /** What every step keeps: same buffer and label counter, output only appended
      to, no more input, a stopped generator stays stopped, the cursor invariant. */
  ghost predicate Steps(st: Gen, r: Gen) {
    r.source == st.source && r.lCount == st.lCount &&
    st.out <= r.out && Measure(r) <= Measure(st) &&
    (st.fault.Some? ==> r == st) &&
    (Wf(st) ==> Wf(r))
  }

  function Abort(st: Gen, f: Fault): (r: Gen)
    requires st.fault.None?
    ensures Steps(st, r) && r.fault == Some(f) && r.out == st.out
  {
    st.(fault := Some(f))
  }

  /** The diagnostic passed to `writeln` by `error` (without its colour codes). */
  function ErrorLine(message: string): string {
    "\nError: " + message
  }

  function Quote(x: char): string {
    "\"" + [x] + "\""
  }

  /** `expected(what)`: log "<what> expected", then abort. */
  function ExpectedFault(st: Gen, what: string): (r: Gen)
    requires st.fault.None?
    ensures Steps(st, r) && r.fault == Some(Expected(what))
    ensures r.out == st.out + Emitted([ErrorLine(what + " expected")])
    ensures r.counter == st.counter && r.lookahead == st.lookahead
  {
    st.(out := st.out + "\n" + ErrorLine(what + " expected"), fault := Some(Expected(what)))
  }

  /** `emit_line`: the writer appends "\n" and the line. */
  function EmitLine(st: Gen, line: string): (r: Gen)
    ensures Steps(st, r) && Measure(r) == Measure(st)
    ensures st.fault.None? ==> r.fault.None? && r.out == st.out + Emitted([line])
    ensures r.counter == st.counter && r.lookahead == st.lookahead
  {
    if st.fault.Some? then st else st.(out := st.out + "\n" + line)
  }

  /** `init`: the lookahead becomes the character under the cursor. */
  function Init(st: Gen): (r: Gen)
    requires st.fault.None?
    ensures st.counter == 0 && 0 < |st.source| && st.lookahead.None? ==> Wf(r) && r.fault.None?
    ensures |st.source| == 0 ==> r.fault == Some(OutOfBounds)
  {
    if st.counter < |st.source| then st.(lookahead := Some(st.source[st.counter]))
    else Abort(st, OutOfBounds)
  }

  /** A generator over `input`, initialised. */
  function Start(input: seq<char>): (r: Gen)
    ensures 0 < |input| ==> Wf(r) && r.fault.None? && r.counter == 0 && r.out == "" && r.source == input
  {
    Init(Fresh(input))
  }

  /** `get_char`: one cursor step. */
  function GetChar(st: Gen): (r: Gen)
    ensures Steps(st, r)
    ensures st.fault.None? && st.lookahead.Some? ==> Measure(r) < Measure(st)
    ensures st.fault.None? && 0 < |st.source| ==> r.fault.None? && r.out == st.out
    ensures st.fault.None? && st.counter + 1 < |st.source| ==>
              r.counter == st.counter + 1 && r.lookahead == Some(st.source[r.counter])
    ensures st.fault.None? && 0 < |st.source| <= st.counter + 1 ==>
              r.counter == st.counter && r.lookahead.None?
  {
    if st.fault.Some? then st
    else if |st.source| < 1 then Abort(st, OutOfBounds)
    else if st.counter >= |st.source| - 1 then st.(lookahead := None)
    else st.(counter := st.counter + 1, lookahead := Some(st.source[st.counter + 1]))
  }

  /** `whitespace`: skip spaces and tabs. */
  function Whitespace(st: Gen): (r: Gen)
    decreases Measure(st)
    ensures Steps(st, r) && r.out == st.out
    ensures st.fault.None? && 0 < |st.source| ==> r.fault.None?
    ensures r.fault.None? ==> r.lookahead.None? || !IsWhite(r.lookahead.value)
  {
    if st.fault.None? && st.lookahead.Some? && IsWhite(st.lookahead.value) then Whitespace(GetChar(st))
    else st
  }

  /** `match_char(x)`: consume `x` and the whitespace after it, or abort with `"x" expected`. */
  function MatchChar(st: Gen, x: char): (r: Gen)
    ensures Steps(st, r)
    ensures st.fault.None? ==> Measure(r) < Measure(st)
    ensures st.fault.None? && st.lookahead == Some(x) && 0 < |st.source| ==>
              r.fault.None? && r.out == st.out && (r.lookahead.None? || !IsWhite(r.lookahead.value))
    ensures st.fault.None? && st.lookahead.Some? && st.lookahead.value != x ==>
              r == ExpectedFault(st, Quote(x))
    ensures st.fault.None? && st.lookahead.None? ==> r == Abort(st, UnwrapNone)
  {
    if st.fault.Some? then st
    else if st.lookahead.None? then Abort(st, UnwrapNone)
    else if st.lookahead.value == x then Whitespace(GetChar(st))
    else ExpectedFault(st, Quote(x))
  }

  /** The loop of `get_name`: append alphanumerics to `token` while consuming them. */
  function NameLoop(st: Gen, token: string): (r: (Gen, string))
    decreases Measure(st)
    ensures Steps(st, r.0) && r.0.out == st.out
    ensures token <= r.1 && forall i | |token| <= i < |r.1| :: IsAlphanum(r.1[i])
    ensures st.fault.None? && r.0.fault.None? ==>
              r.0.lookahead.Some? && !IsAlphanum(r.0.lookahead.value)
  {
    if st.fault.Some? then (st, token)
    else if st.lookahead.None? then (Abort(st, UnwrapNone), token)
    else if !IsAlphanum(st.lookahead.value) then (st, token)
    else NameLoop(GetChar(st), token + [st.lookahead.value])
  }

  /** `get_name`: a name must start with a letter; it runs while alphanumerics follow. */
  function GetName(st: Gen): (r: (Gen, string))
    ensures Steps(st, r.0)
    ensures st.fault.None? && r.0.fault.None? ==>
              |r.1| > 0 && IsAlpha(r.1[0]) && (forall i | 0 <= i < |r.1| :: IsAlphanum(r.1[i])) &&
              r.0.out == st.out
    ensures st.fault.None? && st.lookahead.Some? && !IsAlpha(st.lookahead.value) ==>
              r.0 == ExpectedFault(st, "Name")
  {
    if st.fault.Some? then (st, "")
    else if st.lookahead.None? then (Abort(st, UnwrapNone), "")
    else if !IsAlpha(st.lookahead.value) then (ExpectedFault(st, "Name"), "")
    else
      var (s1, token) := NameLoop(st, "");
      (Whitespace(s1), token)
  }

  /** `get_num`: exactly one decimal digit. */
  function GetNum(st: Gen): (r: (Gen, char))
    ensures Steps(st, r.0)
    ensures st.fault.None? && r.0.fault.None? ==> IsDigit(r.1) && st.lookahead == Some(r.1) && r.0.out == st.out
    ensures st.fault.None? && st.lookahead.Some? && !IsDigit(st.lookahead.value) ==>
              r.0 == ExpectedFault(st, "Integer")
  {
    if st.fault.Some? then (st, '0')
    else if st.lookahead.None? then (Abort(st, UnwrapNone), '0')
    else if !IsDigit(st.lookahead.value) then (ExpectedFault(st, "Integer"), '0')
    else (Whitespace(GetChar(st)), st.lookahead.value)
  }

  /** `ident`: a call `name()` or a load of the variable `name`. */
  function Ident(st: Gen): (r: Gen)
    ensures Steps(st, r)
  {
    var (s1, name) := GetName(st);
    if s1.fault.Some? then s1
    else if s1.lookahead.None? then Abort(s1, UnwrapNone)
    else if s1.lookahead.value == '(' then
      EmitLine(MatchChar(MatchChar(s1, '('), ')'), "BSR " + name)
    else EmitLine(s1, "MOVE " + name + "(PC),D0")
  }

  /*
   * factor, term, multiply, divide, expression, add and subtract are mutually
   * recursive. Each call either consumes input first or moves to a lower
   * rank (the second component of the decreases clauses).
   */

  /** `factor`: a parenthesised expression, an identifier, or a one-digit number. */
  function Factor(st: Gen): (r: Gen)
    decreases Measure(st), 0
    ensures Steps(st, r)
  {
    if st.fault.Some? then st
    else if st.lookahead.None? then Abort(st, UnwrapNone)
    else if st.lookahead.value == '(' then MatchChar(Expression(MatchChar(st, '(')), ')')
    else if IsAlpha(st.lookahead.value) then Ident(st)
    else
      var (s1, d) := GetNum(st);
      EmitLine(s1, "MOVE #" + [d] + ",D0")
  }

  /** `multiply`: the right operand, then multiply it by the pushed left operand. */
  function Multiply(st: Gen): (r: Gen)
    decreases Measure(st), 0
    ensures Steps(st, r)
    ensures st.fault.None? ==> Measure(r) < Measure(st)
  {
    if st.fault.Some? then st
    else EmitLine(Factor(MatchChar(st, '*')), "MULS (SP)+,D0")
  }

  /** `divide`: the right operand, pop the left one into D1, then divide. */
  function Divide(st: Gen): (r: Gen)
    decreases Measure(st), 0
    ensures Steps(st, r)
    ensures st.fault.None? ==> Measure(r) < Measure(st)
  {
    if st.fault.Some? then st
    else EmitLine(EmitLine(Factor(MatchChar(st, '/')), "MOVE (SP)+,D1"), "DIVS D1,D0")
  }

  /** `term`: a factor and at most one `*` or `/` with a second factor (an `if`, not a loop). */
  function Term(st: Gen): (r: Gen)
    decreases Measure(st), 1
    ensures Steps(st, r)
  {
    if st.fault.Some? then st
    else
      var s1 := Factor(st);
      if s1.fault.None? && s1.lookahead.Some? && IsMulop(s1.lookahead.value) then
        var s2 := EmitLine(s1, "MOVE D0,-(SP)");
        if s1.lookahead.value == '*' then Multiply(s2) else Divide(s2)
      else s1
  }

  /** `add`: the right term, then add the pushed left operand. */
  function Add(st: Gen): (r: Gen)
    decreases Measure(st), 0
    ensures Steps(st, r)
    ensures st.fault.None? ==> Measure(r) < Measure(st)
  {
    if st.fault.Some? then st
    else EmitLine(Term(MatchChar(st, '+')), "ADD (SP)+,D0")
  }

  /** `subtract`: the right term, subtract it from the pushed left operand, negate. */
  function Subtract(st: Gen): (r: Gen)
    decreases Measure(st), 0
    ensures Steps(st, r)
    ensures st.fault.None? ==> Measure(r) < Measure(st)
  {
    if st.fault.Some? then st
    else EmitLine(EmitLine(Term(MatchChar(st, '-')), "SUB (SP)+,D0"), "NEG D0")
  }

  /** The loop of `expression`: while an additive operator follows, push and combine. */
  function ExprTail(st: Gen): (r: Gen)
    decreases Measure(st), 2
    ensures Steps(st, r)
    ensures r.fault.None? ==> r.lookahead.None? || !IsAddop(r.lookahead.value)
  {
    if st.fault.None? && st.lookahead.Some? && IsAddop(st.lookahead.value) then
      var s1 := EmitLine(st, "MOVE D0,-(SP)");
      ExprTail(if st.lookahead.value == '+' then Add(s1) else Subtract(s1))
    else st
  }

  /** `expression`: a leading sign clears D0 instead of parsing a first term. */
  function Expression(st: Gen): (r: Gen)
    decreases Measure(st), 3
    ensures Steps(st, r)
  {
    if st.fault.Some? then st
    else if st.lookahead.None? then Abort(st, UnwrapNone)
    else
      var s1 := if IsAddop(st.lookahead.value) then EmitLine(st, "CLR D0") else Term(st);
      ExprTail(s1)
  }

  /** `assignment`: name, `=`, expression, then store D0 at the name's address. */
  function Assignment(st: Gen): (r: Gen)
    ensures Steps(st, r)
  {
    var (s1, name) := GetName(Whitespace(st));
    var s2 := Expression(MatchChar(s1, '='));
    EmitLine(EmitLine(s2, "LEA " + name + "(PC),A0"), "MOVE D0,(A0)")
  }

  /** `statement`: an assignment and its `;`. */
  function Statement(st: Gen): (r: Gen)
    ensures Steps(st, r)
    ensures st.fault.None? ==> Measure(r) < Measure(st)
  {
    MatchChar(Assignment(st), ';')
  }

  /** The loop of `block`: statements until the lookahead is `}`. */
  function BlockLoop(st: Gen): (r: Gen)
    decreases Measure(st)
    ensures Steps(st, r)
  {
    if st.fault.Some? then st
    else if st.lookahead.None? then Abort(st, UnwrapNone)
    else if st.lookahead.value == '}' then st
    else BlockLoop(Statement(st))
  }

  /** `block`: `{`, statements, `}`. */
  function Block(st: Gen): (r: Gen)
    ensures Steps(st, r)
  {
    MatchChar(BlockLoop(MatchChar(st, '{')), '}')
  }

  /** `program`: leading whitespace, then one block. */
  function Program(st: Gen): (r: Gen)
    ensures Steps(st, r)
  {
    Block(Whitespace(st))
  }

  /** `n` in decimal, most significant digit first, without leading zeros. */
  function Decimal(n: nat): (s: string)
    ensures |s| > 0 && forall i | 0 <= i < |s| :: IsDigit(s[i])
  {
    if n < 10 then [DigitChar(n)] else Decimal(n / 10) + [DigitChar(n % 10)]
  }

  /** `format!("L{:0>2}", n)`: `L` and `n` in decimal, left-padded with `0` to two digits. */
  function Label(n: nat): (s: string)
    ensures |s| >= 3 && s[0] == 'L' && forall i | 1 <= i < |s| :: IsDigit(s[i])
  {
    var digits := Decimal(n);
    "L" + (if |digits| < 2 then "0" + digits else digits)
  }
}
