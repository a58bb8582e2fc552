/** Key patterns as the Redis KEYS command matches them: `*` matches any run of characters, `?`
    one character, `[...]` one character of a class (with `^` negation, `a-z` ranges and `\`
    escapes), `\` makes the next character literal, and every other character matches itself.
    Case is significant. */
module Glob {
  import opened Text

  predicate IsMeta(c: char) {
    c == '*' || c == '?' || c == '[' || c == '\\'
  }

  /** A pattern part in which every character stands for itself. */
  predicate Literal(t: string) {
    forall i :: 0 <= i < |t| ==> !IsMeta(t[i])
  }

  /** A class range `a-b` holds `c`; the bounds may be given in either order. */
  predicate InRange(a: char, b: char, c: char) {
    (a <= c <= b) || (b <= c <= a)
  }

  /** The outcome of scanning a class: whether it holds the character, and the pattern after
      its closing `]`. */
  datatype ClassScan = ClassScan(hit: bool, rest: string)

  /** Scans the members of a class. A class that is never closed ends with the pattern. */
  function Members(p: string, c: char): (r: ClassScan)
    ensures |r.rest| <= |p|
    decreases |p|
  {
    if p == [] then ClassScan(false, [])
    else if p[0] == '\\' && |p| >= 2 then
      var r := Members(p[2..], c); ClassScan(r.hit || p[1] == c, r.rest)
    else if p[0] == ']' then ClassScan(false, p[1..])
    else if |p| >= 3 && p[1] == '-' then
      var r := Members(p[3..], c); ClassScan(r.hit || InRange(p[0], p[2], c), r.rest)
    else
      var r := Members(p[1..], c); ClassScan(r.hit || p[0] == c, r.rest)
  }

  /** The class that follows a `[`, with its optional leading `^`. */
  function Class(p: string, c: char): (r: ClassScan)
    ensures |r.rest| <= |p|
  {
    if p != [] && p[0] == '^' then
      var r := Members(p[1..], c); ClassScan(!r.hit, r.rest)
    else Members(p, c)
  }

  /** Whether the key `s` matches the pattern `p`. */
  predicate Match(p: string, s: string)
    decreases |p| + |s|
  {
    if p == [] then s == []
    else if p[0] == '*' then Match(p[1..], s) || (s != [] && Match(p, s[1..]))
    else if s == [] then false
    else if p[0] == '?' then Match(p[1..], s[1..])
    else if p[0] == '[' then
      var r := Class(p[1..], s[0]); r.hit && Match(r.rest, s[1..])
    else if p[0] == '\\' && |p| >= 2 then p[1] == s[0] && Match(p[2..], s[1..])
    else p[0] == s[0] && Match(p[1..], s[1..])
  }

  /** A lone `*` matches every key. */
  lemma {:induction false} StarMatchesAll(s: string)
    ensures Match("*", s)
  {
    if s != [] {
      StarMatchesAll(s[1..]);
    }
  }

  /** A literal text followed by `*` matches exactly the keys that start with that text. */
  lemma {:induction false} LiteralStarIsPrefix(t: string, s: string)
    requires Literal(t)
    ensures Match(t + "*", s) <==> HasPrefix(s, t)
    decreases |t|
  {
    if t == [] {
      assert t + "*" == "*";
      StarMatchesAll(s);
    } else {
      var p := t + "*";
      assert p[0] == t[0] && !IsMeta(t[0]);
      assert p[1..] == t[1..] + "*";
      assert Literal(t[1..]) by {
        forall i | 0 <= i < |t[1..]| ensures !IsMeta(t[1..][i]) {
          assert t[1..][i] == t[i + 1];
        }
      }
      if s != [] {
        LiteralStarIsPrefix(t[1..], s[1..]);
        assert t <= s <==> t[0] == s[0] && t[1..] <= s[1..];
      }
    }
  }

  /** A literal text at the head of the pattern consumes the same text at the head of the key. */
  lemma {:induction false} LiteralHead(t: string, p: string, s: string)
    requires Literal(t)
    ensures Match(t + p, t + s) == Match(p, s)
    decreases |t|
  {
    if t != [] {
      assert !IsMeta(t[0]);
      assert (t + p)[0] == t[0] && (t + s)[0] == t[0];
      assert (t + p)[1..] == t[1..] + p && (t + s)[1..] == t[1..] + s;
      assert Literal(t[1..]) by {
        forall i | 0 <= i < |t[1..]| ensures !IsMeta(t[1..][i]) {
          assert t[1..][i] == t[i + 1];
        }
      }
      LiteralHead(t[1..], p, s);
    } else {
      assert t + p == p && t + s == s;
    }
  }
}
