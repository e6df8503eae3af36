/** String helpers shared by the backend modules: ASCII case mapping (Python's
    str.lower/str.upper restricted to the letters A-Z) and substring search
    (Python's `in` on two strings). */
module Text {

  function LowerChar(c: char): (r: char)
    ensures 'A' <= c <= 'Z' ==> 'a' <= r <= 'z' && r as int == c as int + 32
    ensures !('A' <= c <= 'Z') ==> r == c
  {
    if 'A' <= c <= 'Z' then (c as int + 32) as char else c
  }

  function UpperChar(c: char): (r: char)
    ensures 'a' <= c <= 'z' ==> 'A' <= r <= 'Z' && r as int == c as int - 32
    ensures !('a' <= c <= 'z') ==> r == c
  {
    if 'a' <= c <= 'z' then (c as int - 32) as char else c
  }

  /** str.lower(): maps every character and keeps the length. */
  function Lower(s: string): (r: string)
    ensures |r| == |s|
    ensures forall i :: 0 <= i < |s| ==> r[i] == LowerChar(s[i])
  {
    if s == [] then [] else [LowerChar(s[0])] + Lower(s[1..])
  }

  function Upper(s: string): (r: string)
    ensures |r| == |s|
    ensures forall i :: 0 <= i < |s| ==> r[i] == UpperChar(s[i])
  {
    if s == [] then [] else [UpperChar(s[0])] + Upper(s[1..])
  }

  /** `sub` occurs in `s` starting at index `i`. */
  predicate OccursAt(sub: string, s: string, i: int)
  {
    0 <= i && i + |sub| <= |s| && s[i..i + |sub|] == sub
  }

  /** Python's `sub in s`: scans the start positions from `from` upwards. */
  function ContainsFrom(sub: string, s: string, from: nat): (r: bool)
    decreases |s| - from
    ensures r <==> exists i :: from <= i && OccursAt(sub, s, i)
  {
    if from + |sub| > |s| then
      assert forall i :: from <= i ==> !OccursAt(sub, s, i);
      false
    else if s[from..from + |sub|] == sub then
      assert OccursAt(sub, s, from);
      true
    else
      ContainsFrom(sub, s, from + 1)
  }

  predicate Contains(s: string, sub: string)
  {
    ContainsFrom(sub, s, 0)
  }
}
