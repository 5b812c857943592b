// Small shared datatypes and the string normalisation the gateway applies to
// account names. Case folding and trimming are modelled on ASCII.

module Basics {
  datatype Option<+T> = None | Some(value: T)
}

module Text {
  function LowerChar(c: char): char {
    if 'A' <= c <= 'Z' then ((c as int) + 32) as char else c
  }

  function Lower(s: string): string {
    seq(|s|, i requires 0 <= i < |s| => LowerChar(s[i]))
  }

  predicate IsSpace(c: char) {
    c == ' ' || '\t' <= c <= '\r'
  }

  function TrimLeft(s: string): string {
    if s != [] && IsSpace(s[0]) then TrimLeft(s[1..]) else s
  }

  function TrimRight(s: string): string {
    if s != [] && IsSpace(s[|s| - 1]) then TrimRight(s[..|s| - 1]) else s
  }

  function Trim(s: string): string {
    TrimRight(TrimLeft(s))
  }

  // The account key every wallet operation normalises its argument to.
  function Norm(s: string): string {
    Trim(Lower(s))
  }

  predicate EqualFold(a: string, b: string) {
    Lower(a) == Lower(b)
  }
}
