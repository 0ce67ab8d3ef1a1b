/**
 * The generator's cursor, stated by position: `At(st, p)` says the
 * generator is running with its lookahead on character `p` of the source
 * (`p == |source|` once everything is consumed). The lemmas here say how
 * far each scanning step moves the cursor and what it leaves behind.
 */
module Cursor {
  import opened Options
  import opened Chars
  import opened Lines
  import opened CodeGenSpec

  predicate At(st: Gen, p: nat) {
    st.fault.None? && 0 < |st.source| && p <= |st.source| &&
    (p < |st.source| ==> st.counter == p && st.lookahead == Some(st.source[p])) &&
    (p == |st.source| ==> st.counter == |st.source| - 1 && st.lookahead.None?)
  }

  /** The first position at or after `p` that is not a space or tab. */
  function SkipWhite(s: string, p: nat): (q: nat)
    requires p <= |s|
    decreases |s| - p
    ensures p <= q <= |s|
    ensures q == |s| || !IsWhite(s[q])
  {
    if p < |s| && IsWhite(s[p]) then SkipWhite(s, p + 1) else p
  }

  /** Everything `SkipWhite` passes over is a space or a tab. */
  lemma {:induction false} SkipsOnlyWhite(s: string, p: nat, i: nat)
    requires p <= |s| && p <= i < SkipWhite(s, p)
    ensures IsWhite(s[i])
    decreases |s| - p
  {
    if i > p {
      SkipsOnlyWhite(s, p + 1, i);
    }
  }

  /** The word `w` is in `s` at `p`. */
  predicate WordAt(s: string, p: nat, w: string) {
    p + |w| <= |s| && forall i | 0 <= i < |w| :: s[p + i] == w[i]
  }

  /** The same, as a slice. */
  lemma WordSlice(s: string, p: nat, w: string)
    requires WordAt(s, p, w)
    ensures s[p..p + |w|] == w
  {
    forall i | 0 <= i < |w|
      ensures s[p..p + |w|][i] == w[i]
    {
      assert s[p + i] == w[i];
    }
  }

  /**
   * Where the tokens `toks`, each followed by any run of spaces and tabs,
   * end when laid out from position `p` of `s`; None when `s` does not hold them there.
   */
  function Scan(s: string, p: nat, toks: seq<string>): (r: Option<nat>)
    requires p <= |s|
    decreases |toks|
    ensures r.Some? ==> p <= r.value <= |s|
  {
    if toks == [] then Some(p)
    else if WordAt(s, p, toks[0]) then
      Scan(s, SkipWhite(s, p + |toks[0]|), toks[1..])
    else None
  }

  lemma {:induction false} ScanAppend(s: string, p: nat, a: seq<string>, b: seq<string>)
    requires p <= |s|
    ensures Scan(s, p, a + b) == if Scan(s, p, a).None? then None else Scan(s, Scan(s, p, a).value, b)
    decreases |a|
  {
    if a == [] {
      assert a + b == b;
    } else {
      assert (a + b)[0] == a[0] && (a + b)[1..] == a[1..] + b;
      var w := a[0];
      if WordAt(s, p, w) {
        var p' := SkipWhite(s, p + |w|);
        ScanAppend(s, p', a[1..], b);
        assert Scan(s, p, a + b) == Scan(s, p', a[1..] + b);
        assert Scan(s, p, a) == Scan(s, p', a[1..]);
      } else {
        assert Scan(s, p, a + b) == None && Scan(s, p, a) == None;
      }
    }
  }

  /** A word token at the front: it is in `s` at `p`, and the rest is laid out after its gap. */
  lemma ScanWord(s: string, p: nat, w: string, rest: seq<string>)
    requires p <= |s|
    requires Scan(s, p, [w] + rest).Some?
    ensures WordAt(s, p, w)
    ensures Scan(s, p, [w] + rest) == Scan(s, SkipWhite(s, p + |w|), rest)
  {
    assert ([w] + rest)[0] == w && ([w] + rest)[1..] == rest;
  }

  /** Laying out one more token in front: where `w` sits at `p`, scanning goes on after it. */
  lemma ScanCons(s: string, p: nat, w: string, rest: seq<string>)
    requires p <= |s| && WordAt(s, p, w)
    ensures Scan(s, p, [w] + rest) == Scan(s, SkipWhite(s, p + |w|), rest)
  {
    assert ([w] + rest)[0] == w && ([w] + rest)[1..] == rest;
  }

  /** A one-character token at the front. */
  lemma ScanChar(s: string, p: nat, c: char, rest: seq<string>)
    requires p <= |s|
    requires Scan(s, p, [[c]] + rest).Some?
    ensures p < |s| && s[p] == c
    ensures Scan(s, p, [[c]] + rest) == Scan(s, SkipWhite(s, p + 1), rest)
  {
    ScanWord(s, p, [c], rest);
    assert s[p + 0] == [c][0];
  }

  /** The last token is a single character. */
  lemma ScanOne(s: string, p: nat, c: char)
    requires p <= |s| && Scan(s, p, [[c]]).Some?
    ensures p < |s| && s[p] == c && Scan(s, p, [[c]]) == Some(SkipWhite(s, p + 1))
  {
    assert s[p + 0] == [c][0];
  }

  /** Laid-out `a + b`: `a` ends where `b` starts. */
  lemma ScanSplit(s: string, p: nat, a: seq<string>, b: seq<string>, q: nat) returns (m: nat)
    requires p <= |s| && Scan(s, p, a + b) == Some(q)
    ensures Scan(s, p, a) == Some(m) && m <= |s| && Scan(s, m, b) == Some(q)
  {
    ScanAppend(s, p, a, b);
    m := Scan(s, p, a).value;
  }

  /** Laid-out tokens that start with the one-character token `c`. */
  lemma ScanHead(s: string, p: nat, c: char, rest: seq<string>, q: nat) returns (p1: nat)
    requires p <= |s| && Scan(s, p, [[c]] + rest) == Some(q)
    ensures p < |s| && s[p] == c && p1 == SkipWhite(s, p + 1) && Scan(s, p1, rest) == Some(q)
  {
    ScanChar(s, p, c, rest);
    p1 := SkipWhite(s, p + 1);
  }

  /** Laid-out tokens that start with the word `w`. */
  lemma ScanHeadWord(s: string, p: nat, w: string, rest: seq<string>, q: nat) returns (p1: nat)
    requires p <= |s| && Scan(s, p, [w] + rest) == Some(q)
    ensures WordAt(s, p, w)
    ensures p1 == SkipWhite(s, p + |w|) && Scan(s, p1, rest) == Some(q)
  {
    ScanWord(s, p, w, rest);
    p1 := SkipWhite(s, p + |w|);
  }

  /** `init` on a nonempty buffer puts the cursor on its first character. */
  lemma StartAt(input: string)
    requires 0 < |input|
    ensures At(Start(input), 0) && Start(input).out == "" && Start(input).source == input
  {
  }

  /** `get_char` moves the cursor by exactly one position. */
  lemma StepAt(st: Gen, p: nat)
    requires At(st, p) && p < |st.source|
    ensures At(GetChar(st), p + 1) && GetChar(st).out == st.out && GetChar(st).source == st.source
  {
  }

  /** `whitespace` moves the cursor past every space and tab, and no further. */
  lemma {:induction false} WhitespaceAt(st: Gen, p: nat)
    requires At(st, p)
    ensures At(Whitespace(st), SkipWhite(st.source, p))
    ensures Whitespace(st).out == st.out && Whitespace(st).source == st.source
    decreases |st.source| - p
  {
    if p < |st.source| && IsWhite(st.source[p]) {
      StepAt(st, p);
      WhitespaceAt(GetChar(st), p + 1);
    }
  }

  /** `match_char(x)` with `x` under the cursor consumes it and every space and tab after it. */
  lemma MatchAt(st: Gen, p: nat, x: char)
    requires At(st, p) && p < |st.source| && st.source[p] == x
    ensures At(MatchChar(st, x), SkipWhite(st.source, p + 1))
    ensures MatchChar(st, x).out == st.out && MatchChar(st, x).source == st.source
  {
    StepAt(st, p);
    WhitespaceAt(GetChar(st), p + 1);
  }

  /** `match_char(x)` on another character logs `"x" expected`, stops, and consumes nothing. */
  lemma MatchMismatch(st: Gen, x: char)
    requires st.fault.None? && st.lookahead.Some? && st.lookahead.value != x
    ensures MatchChar(st, x).fault == Some(Expected(Quote(x)))
    ensures MatchChar(st, x).counter == st.counter && MatchChar(st, x).lookahead == st.lookahead
    ensures MatchChar(st, x).out == st.out + Emitted(["\nError: \"" + [x] + "\" expected"])
  {
    assert ErrorLine(Quote(x) + " expected") == "\nError: \"" + [x] + "\" expected";
  }

  /** The name loop reads the alphanumerics from `p` up to the first other character at `k`. */
  lemma {:induction false} NameLoopAt(st: Gen, p: nat, token: string, k: nat)
    requires At(st, p) && p <= k < |st.source|
    requires forall i | p <= i < k :: IsAlphanum(st.source[i])
    requires !IsAlphanum(st.source[k])
    ensures At(NameLoop(st, token).0, k)
    ensures NameLoop(st, token).0.out == st.out && NameLoop(st, token).0.source == st.source
    ensures NameLoop(st, token).1 == token + st.source[p..k]
    decreases k - p
  {
    if p < k {
      StepAt(st, p);
      NameLoopAt(GetChar(st), p + 1, token + [st.source[p]], k);
      assert token + [st.source[p]] + st.source[p + 1..k] == token + st.source[p..k];
    }
  }

  /** The name loop that reaches the end of the source unwraps an empty lookahead. */
  lemma {:induction false} NameLoopRunsOut(st: Gen, p: nat, token: string)
    requires At(st, p)
    requires forall i | p <= i < |st.source| :: IsAlphanum(st.source[i])
    ensures NameLoop(st, token).0.fault == Some(UnwrapNone)
    decreases |st.source| - p
  {
    if p < |st.source| {
      StepAt(st, p);
      NameLoopRunsOut(GetChar(st), p + 1, token + [st.source[p]]);
    }
  }

  /** The characters of a word laid out at `p` are the word's characters. */
  lemma WordChars(s: string, p: nat, n: string)
    requires WordAt(s, p, n)
    requires forall i | 0 <= i < |n| :: IsAlphanum(n[i])
    ensures forall i | p <= i < p + |n| :: IsAlphanum(s[i])
    ensures |n| > 0 ==> s[p] == n[0]
  {
    forall i | p <= i < p + |n|
      ensures IsAlphanum(s[i])
    {
      assert s[p + (i - p)] == n[i - p];
    }
    if |n| > 0 {
      assert s[p + 0] == n[0];
    }
  }

  /** When the first character after the whitespace at `k` is not alphanumeric, neither is the one at `k`. */
  lemma WordEnds(s: string, k: nat, q: nat)
    requires k <= |s| && q == SkipWhite(s, k) && q < |s| && !IsAlphanum(s[q])
    ensures k < |s| && !IsAlphanum(s[k])
  {
    if k < q {
      SkipsOnlyWhite(s, k, k);
    }
  }

  /** The name loop over the word `n` laid out at `p`, stopped by the character after it. */
  lemma NameLoopOver(st: Gen, p: nat, n: string)
    requires At(st, p) && p + |n| < |st.source| && WordAt(st.source, p, n)
    requires forall i | 0 <= i < |n| :: IsAlphanum(n[i])
    requires !IsAlphanum(st.source[p + |n|])
    ensures At(NameLoop(st, "").0, p + |n|)
    ensures NameLoop(st, "").0.out == st.out && NameLoop(st, "").0.source == st.source
    ensures NameLoop(st, "").1 == n
  {
    WordChars(st.source, p, n);
    WordSlice(st.source, p, n);
    NameLoopAt(st, p, "", p + |n|);
    assert "" + st.source[p..p + |n|] == n;
  }

  /** `get_name` on a letter: the name loop, then whitespace. */
  lemma GetNameStep(st: Gen)
    requires st.fault.None? && st.lookahead.Some? && IsAlpha(st.lookahead.value)
    ensures GetName(st) == (Whitespace(NameLoop(st, "").0), NameLoop(st, "").1)
  {
  }

  /**
   * `get_name` on a name `n` laid out at `p` returns `n` and moves past it
   * and the spaces and tabs after it, provided the character right after
   * `n` does not extend the name.
   */
  lemma NameAt(st: Gen, p: nat, n: string)
    requires At(st, p) && |n| > 0 && IsAlpha(n[0]) && forall i | 0 <= i < |n| :: IsAlphanum(n[i])
    requires WordAt(st.source, p, n)
    requires p + |n| < |st.source| && !IsAlphanum(st.source[p + |n|])
    ensures At(GetName(st).0, SkipWhite(st.source, p + |n|))
    ensures GetName(st).0.out == st.out && GetName(st).0.source == st.source
    ensures GetName(st).1 == n
  {
    WordChars(st.source, p, n);
    NameLoopOver(st, p, n);
    GetNameStep(st);
    WhitespaceAt(NameLoop(st, "").0, p + |n|);
  }

  /** A name that runs to the last character of the source makes `get_name` unwrap None. */
  lemma NameAtEnd(st: Gen, p: nat)
    requires At(st, p) && p < |st.source| && IsAlpha(st.source[p])
    requires forall i | p <= i < |st.source| :: IsAlphanum(st.source[i])
    ensures GetName(st).0.fault == Some(UnwrapNone)
  {
    NameLoopRunsOut(st, p, "");
  }

  /** A name must start with a letter. */
  lemma NameNotAlpha(st: Gen)
    requires st.fault.None? && st.lookahead.Some? && !IsAlpha(st.lookahead.value)
    ensures GetName(st).0.fault == Some(Expected("Name"))
    ensures GetName(st).0.out == st.out + Emitted(["\nError: Name expected"])
  {
  }

  /**
   * A digit factor consumes exactly that one digit and the whitespace after
   * it, and emits exactly one line.
   */
  lemma DigitFactorAt(st: Gen, p: nat)
    requires At(st, p) && p < |st.source| && IsDigit(st.source[p])
    ensures At(Factor(st), SkipWhite(st.source, p + 1)) && Factor(st).source == st.source
    ensures Factor(st).out == st.out + Emitted(["MOVE #" + [st.source[p]] + ",D0"])
  {
    StepAt(st, p);
    WhitespaceAt(GetChar(st), p + 1);
  }

  /** A factor that starts with neither `(`, a letter nor a digit stops with `Integer expected`. */
  lemma FactorNotStarted(st: Gen)
    requires st.fault.None? && st.lookahead.Some?
    requires var c := st.lookahead.value; c != '(' && !IsAlpha(c) && !IsDigit(c)
    ensures Factor(st).fault == Some(Expected("Integer"))
    ensures Factor(st).out == st.out + Emitted([ErrorLine("Integer expected")])
    ensures Factor(st).counter == st.counter
  {
    assert GetNum(st).0 == ExpectedFault(st, "Integer");
    assert Factor(st) == GetNum(st).0;
  }

  /** A leading `+` or `-` emits `CLR D0` and leaves the sign for the additive loop. */
  lemma LeadingSign(st: Gen)
    requires st.fault.None? && st.lookahead.Some? && IsAddop(st.lookahead.value)
    ensures Expression(st) == ExprTail(st.(out := st.out + Emitted(["CLR D0"])))
  {
  }
}
