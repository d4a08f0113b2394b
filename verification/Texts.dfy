/** When a separator splits a text in one way only. */
module Texts {
  /** A separator that does not occur after it splits a text in one way only. */
  lemma LastSeparator(x: string, s: string, y: string, t: string, c: char)
    requires x + [c] + s == y + [c] + t && c !in s && c !in t
    ensures x == y && s == t
  {
    var text := x + [c] + s;
    assert text[|x|] == c && text[|y|] == (y + [c] + t)[|y|] == c;
    assert x == text[..|x|] && s == text[|x| + 1..];
    assert y == (y + [c] + t)[..|y|] && t == (y + [c] + t)[|y| + 1..];
  }

  /** And one that does not occur before it. */
  lemma FirstSeparator(x: string, s: string, y: string, t: string, c: char)
    requires x + [c] + s == y + [c] + t && c !in x && c !in y
    ensures x == y && s == t
  {
    var text := x + [c] + s;
    assert text[|x|] == c && text[|y|] == (y + [c] + t)[|y|] == c;
    assert x == text[..|x|] && s == text[|x| + 1..];
    assert y == (y + [c] + t)[..|y|] && t == (y + [c] + t)[|y| + 1..];
  }
}
