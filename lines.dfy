/**
 * The text format shared by the two components: the generator's in-memory
 * writer appends "\n" + line for every `writeln`, and the interpreter splits
 * the text on "\n" after dropping its first character.
 */
module Lines {

  /** The writer's accumulated text after `writeln(l)` for each `l` in `ls`, in order. */
  function Emitted(ls: seq<string>): (s: string)
    ensures |s| >= |ls|
  {
    if ls == [] then "" else "\n" + ls[0] + Emitted(ls[1..])
  }

  lemma {:induction false} EmittedAppend(a: seq<string>, b: seq<string>)
    ensures Emitted(a + b) == Emitted(a) + Emitted(b)
  {
    if a == [] {
      assert a + b == b;
    } else {
      assert (a + b)[0] == a[0] && (a + b)[1..] == a[1..] + b;
      EmittedAppend(a[1..], b);
    }
  }

  /** `str::split("\n")`: the pieces between line terminators, always at least one. */
  function Split(s: string): (r: seq<string>)
    ensures |r| >= 1
  {
    if |s| == 0 then [""]
    else if s[0] == '\n' then [""] + Split(s[1..])
    else
      var rest := Split(s[1..]);
      [[s[0]] + rest[0]] + rest[1..]
  }

  lemma {:induction false} SplitNoTerminator(s: string)
    requires '\n' !in s
    ensures Split(s) == [s]
  {
    if |s| > 0 {
      assert '\n' !in s[1..] by {
        forall i | 0 <= i < |s[1..]| ensures s[1..][i] != '\n' {
          assert s[1..][i] == s[i + 1];
        }
      }
      SplitNoTerminator(s[1..]);
      assert [s[0]] + s[1..] == s;
    }
  }

  lemma {:induction false} SplitAt(s: string, t: string)
    ensures Split(s + "\n" + t) == Split(s) + Split(t)
  {
    if |s| == 0 {
      assert s + "\n" + t == "\n" + t;
      assert ("\n" + t)[1..] == t;
    } else {
      var u := s + "\n" + t;
      assert u[0] == s[0];
      assert u[1..] == s[1..] + "\n" + t;
      SplitAt(s[1..], t);
      var rest, right := Split(s[1..]), Split(t);
      if s[0] == '\n' {
        assert Split(u) == [""] + (rest + right);
      } else {
        assert (rest + right)[0] == rest[0];
        assert (rest + right)[1..] == rest[1..] + right;
        assert Split(u) == [[s[0]] + rest[0]] + (rest[1..] + right);
      }
    }
  }

  /**
   * Dropping the leading terminator of a writer's text and splitting it
   * gives back exactly the lines that were written, provided none of them
   * holds a terminator itself.
   */
  lemma {:induction false} SplitEmitted(ls: seq<string>)
    requires ls != []
    requires forall i | 0 <= i < |ls| :: '\n' !in ls[i]
    ensures Split(Emitted(ls)[1..]) == ls
  {
    var tail := Emitted(ls[1..]);
    assert Emitted(ls) == "\n" + (ls[0] + tail);
    assert Emitted(ls)[1..] == ls[0] + tail;
    SplitNoTerminator(ls[0]);
    if |ls| == 1 {
      assert tail == "";
      assert ls[0] + tail == ls[0];
    } else {
      SplitEmitted(ls[1..]);
      assert tail == "\n" + tail[1..];
      assert ls[0] + tail == ls[0] + "\n" + tail[1..];
      SplitAt(ls[0], tail[1..]);
      assert ls == [ls[0]] + ls[1..];
    }
  }
}
