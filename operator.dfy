/**
 * The operator's answers at the prompts. Every prompt looks only at the first
 * character of the line typed, lower-cased (`input(...)[:1].lower()`).
 */
module Operator {

  /** The resolver's commands; any other answer, the empty line included,
      is `Other`. */
  datatype Command = Rotate | Delete | Ignore | Other

  /** Lower-casing of one character. Only the ASCII capitals are mapped: no
      other single character lower-cases to one of the letters the prompts
      compare with. */
  function Lower(c: char): (l: char)
    ensures 'A' <= c <= 'Z' ==> l as int == c as int + 32
    ensures !('A' <= c <= 'Z') ==> l == c
  {
    if 'A' <= c <= 'Z' then (c as int + 32) as char else c
  }

  /** `line[:1].lower()`: the lower-cased first character, or the empty
      string for an empty line. */
  function Initial(line: string): (s: string)
    ensures |s| == if line == [] then 0 else 1
  {
    if line == [] then [] else [Lower(line[0])]
  }

  /** The command a line at the "(r)otate, (d)elete or (i)gnore" prompt
      selects. */
  function Parse(line: string): (c: Command)
    ensures c == Rotate <==> line != [] && (line[0] == 'r' || line[0] == 'R')
    ensures c == Delete <==> line != [] && (line[0] == 'd' || line[0] == 'D')
    ensures c == Ignore <==> line != [] && (line[0] == 'i' || line[0] == 'I')
  {
    var i := Initial(line);
    if i == "r" then Rotate
    else if i == "d" then Delete
    else if i == "i" then Ignore
    else Other
  }

  /** Whether an answer to "are you sure ... (y/n)" confirms. */
  function Confirms(line: string): (yes: bool)
    ensures yes <==> line != [] && (line[0] == 'y' || line[0] == 'Y')
  {
    Initial(line) == "y"
  }
}
