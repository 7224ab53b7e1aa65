/** The few string operations the modelled code needs, on ASCII text. */
module Text {

  function LowerChar(c: char): char
  {
    if 'A' <= c <= 'Z' then ((c as int) + 32) as char else c
  }

  /** `str.lower`. */
  function Lower(s: string): string
  {
    if s == [] then [] else [LowerChar(s[0])] + Lower(s[1..])
  }

  predicate IsSpace(c: char)
  {
    c == ' ' || c == '\t' || c == '\n' || c == '\r'
  }

  /** `" ".join(s.split())`, where `gap` says that a space is owed before the next letter. */
  function Squeeze(s: string, started: bool, gap: bool): string
  {
    if s == [] then []
    else if IsSpace(s[0]) then Squeeze(s[1..], started, true)
    else (if started && gap then " " else "") + [s[0]] + Squeeze(s[1..], true, false)
  }

  /** `" ".join(value.strip().lower().split())`. */
  function Norm(s: string): string
  {
    Squeeze(Lower(s), false, false)
  }

  /** `sub in s`. */
  predicate Contains(s: string, sub: string)
  {
    exists i :: 0 <= i <= |s| && sub <= s[i..]
  }
}
