/** The fragment of Python's `re` that the allow-list's path patterns use, with
    the meaning `re` gives it.  `Match` is `pattern.match(path)`: the pattern has
    to match some prefix of the path, because `match` is anchored at the start
    only.  This module is the reference the hand-written path predicates of
    module Patterns are proved against. */
module Regex {

  predicate IsDigit(ch: char) { '0' <= ch <= '9' }
  predicate IsLower(ch: char) { 'a' <= ch <= 'z' }
  predicate IsUpper(ch: char) { 'A' <= ch <= 'Z' }
  predicate IsWord(ch: char) { IsLower(ch) || IsUpper(ch) || IsDigit(ch) || ch == '_' }

  /** The character classes the path patterns use; `\d` and `\w` in their ASCII meaning. */
  datatype CharClass =
    | AnyButNewline          // `.`
    | Digit                  // `\d`
    | Word                   // `\w`
    | Lower                  // `[a-z]`
    | LowerOrDigit           // `[a-z0-9]`
    | OneOf(chars: string)   // `[BAT]`
    | NoneOf(chars: string)  // `[^/?#]`

  predicate InClass(c: CharClass, ch: char) {
    match c
    case AnyButNewline => ch != '\n'
    case Digit => IsDigit(ch)
    case Word => IsWord(ch)
    case Lower => IsLower(ch)
    case LowerOrDigit => IsLower(ch) || IsDigit(ch)
    case OneOf(cs) => ch in cs
    case NoneOf(cs) => ch !in cs
  }

  predicate AllIn(c: CharClass, s: string) {
    forall i :: 0 <= i < |s| ==> InClass(c, s[i])
  }

  /** A regular expression.  Patterns are written right-nested and end in `Empty`:
      `Cat(x, Cat(y, Empty))` is `xy`. */
  datatype Re =
    | Empty                        // the empty string
    | Lit(text: string)            // a literal, such as `/albums/`
    | One(cls: CharClass)          // one character of a class
    | Many(each: CharClass)        // `c+` or `c+?`: both accept the same strings
    | Cat(first: Re, rest: Re)     // concatenation
    | Alt(left: Re, right: Re)     // `(?:a|b)`
    | Opt(inner: Re)               // `(?:a)?`

  /** r matches the whole of s. */
  ghost predicate Full(r: Re, s: string)
    decreases r
  {
    match r
    case Empty => s == []
    case Lit(w) => s == w
    case One(c) => |s| == 1 && InClass(c, s[0])
    case Many(c) => |s| > 0 && AllIn(c, s)
    case Cat(a, b) => exists k :: 0 <= k <= |s| && Full(a, s[..k]) && Full(b, s[k..])
    case Alt(a, b) => Full(a, s) || Full(b, s)
    case Opt(a) => s == [] || Full(a, s)
  }

  /** Python's `r.match(s)` succeeds: r matches some prefix of s. */
  ghost predicate Match(r: Re, s: string) {
    exists k :: 0 <= k <= |s| && Full(r, s[..k])
  }

  /** a matches a prefix of s and r matches from where a stopped. */
  ghost predicate MatchAfter(a: Re, r: Re, s: string) {
    exists j :: 0 <= j <= |s| && Full(a, s[..j]) && Match(r, s[j..])
  }

  /** Slicing a slice, as `Cat` needs it. */
  lemma Slices(s: string, j: nat, k: nat)
    requires j <= k <= |s|
    ensures s[..k][..j] == s[..j]
    ensures s[..k][j..] == s[j..][..k - j]
    ensures s[j..][k - j..] == s[k..]
  {
    assert s[..k][j..] == s[j..k];
    assert s[j..][..k - j] == s[j..k];
  }

  lemma CatSplit(a: Re, r: Re, s: string)
    ensures Match(Cat(a, r), s) <==> MatchAfter(a, r, s)
  {
    if Match(Cat(a, r), s) {
      CatSplitDown(a, r, s);
    }
    if MatchAfter(a, r, s) {
      CatSplitUp(a, r, s);
    }
  }

  lemma CatSplitDown(a: Re, r: Re, s: string)
    requires Match(Cat(a, r), s)
    ensures MatchAfter(a, r, s)
  {
    var k :| 0 <= k <= |s| && Full(Cat(a, r), s[..k]);
    var j :| 0 <= j <= k && Full(a, s[..k][..j]) && Full(r, s[..k][j..]);
    Slices(s, j, k);
    assert Full(r, s[j..][..k - j]);
  }

  lemma CatSplitUp(a: Re, r: Re, s: string)
    requires MatchAfter(a, r, s)
    ensures Match(Cat(a, r), s)
  {
    var j :| 0 <= j <= |s| && Full(a, s[..j]) && Match(r, s[j..]);
    var m :| 0 <= m <= |s| - j && Full(r, s[j..][..m]);
    CatWitness(a, r, s, j, m);
  }

  /** a matches the first j characters and r the m after them. */
  lemma CatWitness(a: Re, r: Re, s: string, j: nat, m: nat)
    requires j + m <= |s| && Full(a, s[..j]) && Full(r, s[j..][..m])
    ensures Match(Cat(a, r), s)
  {
    Slices(s, j, j + m);
    FullCat(a, r, s[..j + m], j);
  }

  /** The witness for `Cat`: a split point. */
  lemma FullCat(a: Re, r: Re, x: string, j: nat)
    requires j <= |x| && Full(a, x[..j]) && Full(r, x[j..])
    ensures Full(Cat(a, r), x)
  {
  }

  /** Every pattern ending in `Empty` can stop anywhere: `Empty` matches at every position. */
  lemma MatchEmpty(s: string)
    ensures Match(Empty, s)
  {
    assert Full(Empty, s[..0]);
  }

  lemma MatchLit(w: string, r: Re, s: string)
    ensures Match(Cat(Lit(w), r), s) <==> w <= s && Match(r, s[|w|..])
  {
    CatSplit(Lit(w), r, s);
    if w <= s && Match(r, s[|w|..]) {
      assert s[..|w|] == w;
    }
  }

  lemma MatchOne(c: CharClass, r: Re, s: string)
    ensures Match(Cat(One(c), r), s) <==> |s| > 0 && InClass(c, s[0]) && Match(r, s[1..])
  {
    CatSplit(One(c), r, s);
    if Match(Cat(One(c), r), s) {
      var j :| 0 <= j <= |s| && Full(One(c), s[..j]) && Match(r, s[j..]);
      assert s[..j][0] == s[0];
    }
    if |s| > 0 && InClass(c, s[0]) && Match(r, s[1..]) {
      assert Full(One(c), s[..1]);
    }
  }

  lemma MatchMany(c: CharClass, r: Re, s: string)
    ensures Match(Cat(Many(c), r), s) <==> exists j :: 0 < j <= |s| && AllIn(c, s[..j]) && Match(r, s[j..])
  {
    CatSplit(Many(c), r, s);
  }

  lemma MatchAlt(a: Re, b: Re, r: Re, s: string)
    ensures Match(Cat(Alt(a, b), r), s) <==> Match(Cat(a, r), s) || Match(Cat(b, r), s)
  {
    CatSplit(Alt(a, b), r, s);
    CatSplit(a, r, s);
    CatSplit(b, r, s);
  }

  lemma MatchOpt(a: Re, r: Re, s: string)
    ensures Match(Cat(Opt(a), r), s) <==> Match(r, s) || Match(Cat(a, r), s)
  {
    CatSplit(Opt(a), r, s);
    CatSplit(a, r, s);
    if Match(r, s) {
      assert s[..0] == [] && s[0..] == s;
    }
    if Match(Cat(Opt(a), r), s) {
      var j :| 0 <= j <= |s| && Full(Opt(a), s[..j]) && Match(r, s[j..]);
      if s[..j] == [] {
        assert j == 0 && s[j..] == s;
      }
    }
  }

  lemma MatchAssoc(a: Re, b: Re, r: Re, s: string)
    ensures Match(Cat(Cat(a, b), r), s) <==> Match(Cat(a, Cat(b, r)), s)
  {
    CatSplit(Cat(a, b), r, s);
    CatSplit(a, Cat(b, r), s);
    if MatchAfter(Cat(a, b), r, s) {
      AssocRight(a, b, r, s);
    }
    if MatchAfter(a, Cat(b, r), s) {
      AssocLeft(a, b, r, s);
    }
  }

  lemma AssocRight(a: Re, b: Re, r: Re, s: string)
    requires MatchAfter(Cat(a, b), r, s)
    ensures MatchAfter(a, Cat(b, r), s)
  {
    var j :| 0 <= j <= |s| && Full(Cat(a, b), s[..j]) && Match(r, s[j..]);
    var i :| 0 <= i <= j && Full(a, s[..j][..i]) && Full(b, s[..j][i..]);
    Slices(s, i, j);
    CatSplit(b, r, s[i..]);
    assert Full(b, s[i..][..j - i]) && Match(r, s[i..][j - i..]);
    assert Match(Cat(b, r), s[i..]);
  }

  lemma AssocLeft(a: Re, b: Re, r: Re, s: string)
    requires MatchAfter(a, Cat(b, r), s)
    ensures MatchAfter(Cat(a, b), r, s)
  {
    var i :| 0 <= i <= |s| && Full(a, s[..i]) && Match(Cat(b, r), s[i..]);
    CatSplit(b, r, s[i..]);
    var m :| 0 <= m <= |s| - i && Full(b, s[i..][..m]) && Match(r, s[i..][m..]);
    AssocLeftWitness(a, b, r, s, i, m);
  }

  lemma AssocLeftWitness(a: Re, b: Re, r: Re, s: string, i: nat, m: nat)
    requires i + m <= |s| && Full(a, s[..i]) && Full(b, s[i..][..m]) && Match(r, s[i..][m..])
    ensures MatchAfter(Cat(a, b), r, s)
  {
    Slices(s, i, i + m);
    FullCat(a, b, s[..i + m], i);
  }

  /** Because `match` is anchored at the start only, what follows an accepted
      prefix is never looked at. */
  lemma MatchExtends(r: Re, s: string, t: string)
    requires Match(r, s)
    ensures Match(r, s + t)
  {
    var k :| 0 <= k <= |s| && Full(r, s[..k]);
    assert (s + t)[..k] == s[..k];
  }

  /** `c+` closing a pattern: one character of c is enough. */
  lemma MatchManyLast(c: CharClass, s: string)
    ensures Match(Cat(Many(c), Empty), s) <==> |s| > 0 && InClass(c, s[0])
  {
    MatchMany(c, Empty, s);
    if |s| > 0 && InClass(c, s[0]) {
      MatchEmpty(s[1..]);
      assert AllIn(c, s[..1]);
    }
    if Match(Cat(Many(c), Empty), s) {
      var j :| 0 < j <= |s| && AllIn(c, s[..j]) && Match(Empty, s[j..]);
      assert s[..j][0] == s[0];
    }
  }
}
