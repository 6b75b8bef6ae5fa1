/** `escapeRegExp` from electron/index.ts: makes a string safe to embed in a
    regular expression by putting a backslash before every metacharacter. */
module RegExp {

  /** The characters of the class `[.*+?^${}()|[\]\\]`. */
  const Metacharacters: set<char> :=
    {'.', '*', '+', '?', '^', '$', '{', '}', '(', ')', '|', '[', ']', '\\'}

  /** `string.replace(/[.*+?^${}()|[\]\\]/g, "\\$&")`. */
  function EscapeRegExp(s: string): (r: string)
    ensures |r| >= |s|
    decreases |s|
  {
    if s == [] then []
    else (if s[0] in Metacharacters then ['\\', s[0]] else [s[0]]) + EscapeRegExp(s[1..])
  }

  /** A pattern made only of atoms that each match one fixed character: an
      escaped metacharacter, or any character that is not a metacharacter. */
  predicate LiteralPattern(r: string)
    decreases |r|
  {
    if r == [] then true
    else if r[0] == '\\' then |r| >= 2 && r[1] in Metacharacters && LiteralPattern(r[2..])
    else r[0] !in Metacharacters && LiteralPattern(r[1..])
  }

  /** The text a literal pattern matches: each atom's character. */
  function MatchedText(r: string): string
    requires LiteralPattern(r)
    decreases |r|
  {
    if r == [] then []
    else if r[0] == '\\' then [r[1]] + MatchedText(r[2..])
    else [r[0]] + MatchedText(r[1..])
  }

  /** The escaped string is a literal pattern, and the one text it matches is
      the original string. */
  lemma {:induction false} EscapeMatchesItself(s: string)
    ensures LiteralPattern(EscapeRegExp(s))
    ensures MatchedText(EscapeRegExp(s)) == s
    decreases |s|
  {
    if s != [] {
      EscapeMatchesItself(s[1..]);
      var r := EscapeRegExp(s);
      if s[0] in Metacharacters {
        assert r[2..] == EscapeRegExp(s[1..]);
      } else {
        assert r[1..] == EscapeRegExp(s[1..]);
      }
    }
  }

  /** Strings without metacharacters are left as they are. */
  lemma {:induction false} EscapePlain(s: string)
    requires forall i :: 0 <= i < |s| ==> s[i] !in Metacharacters
    ensures EscapeRegExp(s) == s
    decreases |s|
  {
    if s != [] {
      EscapePlain(s[1..]);
    }
  }
}
