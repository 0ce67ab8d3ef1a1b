/**
 * Character classes shared by the code generator and the interpreter.
 * Alphabetic characters are restricted to ASCII letters and digits to the
 * decimal digits '0'..'9' (what `to_digit(10)` and `is_digit(10)` accept).
 */
module Chars {

  predicate IsAlpha(c: char) {
    ('a' <= c <= 'z') || ('A' <= c <= 'Z')
  }

  predicate IsDigit(c: char) {
    '0' <= c <= '9'
  }

  predicate IsAlphanum(c: char) {
    IsAlpha(c) || IsDigit(c)
  }

  /** The generator's whitespace: space and tab only, never a line terminator. */
  predicate IsWhite(c: char) {
    c == ' ' || c == '\t'
  }

  predicate IsAddop(c: char) {
    c == '+' || c == '-'
  }

  predicate IsMulop(c: char) {
    c == '*' || c == '/'
  }

  function DigitValue(c: char): (n: nat)
    requires IsDigit(c)
    ensures n < 10
  {
    c as int - '0' as int
  }

  function DigitChar(n: nat): (c: char)
    requires n < 10
    ensures IsDigit(c) && DigitValue(c) == n
  {
    ('0' as int + n) as char
  }
}
