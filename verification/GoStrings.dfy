/** The string operations of Go's standard library the components lean on. Characters are code points. */
module GoStrings {
  /** unicode.IsSpace. */
  predicate IsSpace(c: char) {
    '\t' <= c <= '\r' || c == ' ' || c == '\U{85}' || c == '\U{a0}' || c == '\U{1680}' || '\U{2000}' <= c <= '\U{200a}'
    || '\U{2028}' <= c <= '\U{2029}' || c == '\U{202f}' || c == '\U{205f}' || c == '\U{3000}'
  }

  predicate AllSpace(s: string) {
    forall i | 0 <= i < |s| :: IsSpace(s[i])
  }

  function TrimLeft(s: string): (r: string)
    ensures |r| <= |s| && r == s[|s| - |r|..] && AllSpace(s[..|s| - |r|])
    ensures r != "" ==> !IsSpace(r[0])
  {
    if s != "" && IsSpace(s[0]) then
      var r := TrimLeft(s[1..]);
      assert s[..|s| - |r|] == [s[0]] + s[1..][..|s| - 1 - |r|];
      r
    else s
  }

  function TrimRight(s: string): (r: string)
    ensures r <= s && AllSpace(s[|r|..])
    ensures r != "" ==> !IsSpace(r[|r| - 1])
  {
    if s != "" && IsSpace(s[|s| - 1]) then
      var r := TrimRight(s[..|s| - 1]);
      assert s[|r|..] == s[..|s| - 1][|r|..] + [s[|s| - 1]];
      r
    else s
  }

  /** strings.TrimSpace. */
  function TrimSpace(s: string): (r: string)
    ensures r != "" ==> !IsSpace(r[0]) && !IsSpace(r[|r| - 1])
  {
    TrimRight(TrimLeft(s))
  }

  predicate Blank(s: string) {
    TrimSpace(s) == ""
  }

  lemma TrimmedStays(s: string)
    requires s != "" ==> !IsSpace(s[0]) && !IsSpace(s[|s| - 1])
    ensures TrimSpace(s) == s
  {
  }

  /** Trimming takes spaces off both ends, and nothing else. */
  lemma TrimSplits(s: string) returns (pre: string, post: string)
    ensures s == pre + TrimSpace(s) + post && AllSpace(pre) && AllSpace(post)
  {
    hide IsSpace, AllSpace, TrimLeft, TrimRight;
    var left := TrimLeft(s);
    var right := TrimRight(left);
    pre, post := s[..|s| - |left|], left[|right|..];
    Halves(s, |s| - |left|);
    Halves(left, |right|);
    assert left[..|right|] == right;
    assert s == pre + (right + post) == pre + right + post;
  }

  ghost predicate CutTo(s: string, t: string, i: nat, j: nat) {
    i <= j <= |s| && t == s[i..j] && AllSpace(s[..i]) && AllSpace(s[j..])
  }

  /** Without the spaces around it, and not beginning or ending with one. */
  ghost predicate Trimmed(s: string, t: string) {
    (t != "" ==> !IsSpace(t[0]) && !IsSpace(t[|t| - 1])) && exists i, j :: CutTo(s, t, i, j)
  }

  lemma TrimIsTrimmed(s: string)
    ensures Trimmed(s, TrimSpace(s))
  {
    var pre, post := TrimSplits(s);
    var j := |pre + TrimSpace(s)|;
    assert s[|pre|..j] == TrimSpace(s) && s[..|pre|] == pre && s[j..] == post;
    assert CutTo(s, TrimSpace(s), |pre|, j);
  }

  /** There is one way to trim. */
  lemma TrimmedIff(s: string, t: string)
    ensures Trimmed(s, t) <==> TrimSpace(s) == t
  {
    TrimIsTrimmed(s);
    if Trimmed(s, t) { TrimmedOnce(s, t, TrimSpace(s)); }
  }

  lemma TrimmedOnce(s: string, t: string, u: string)
    requires Trimmed(s, t) && Trimmed(s, u)
    ensures t == u
  {
    hide IsSpace, AllSpace;
    var i, j :| CutTo(s, t, i, j);
    var k, l :| CutTo(s, u, k, l);
    if t != "" { CutWithin(s, t, u, i, j, k, l); }
    if u != "" { CutWithin(s, u, t, k, l, i, j); }
  }

  /** What does not begin or end with a space is not cut into by cutting off spaces. */
  lemma CutWithin(s: string, t: string, u: string, i: nat, j: nat, k: nat, l: nat)
    requires CutTo(s, t, i, j) && CutTo(s, u, k, l) && t != "" && !IsSpace(t[0]) && !IsSpace(t[|t| - 1])
    ensures k <= i && j <= l
  {
    hide IsSpace, AllSpace;
    assert t[0] == s[i] && t[|t| - 1] == s[j - 1];
    if i < k { SpaceAt(s[..k], i); }
    if l < j { SpaceAt(s[l..], j - 1 - l); }
  }

  lemma SpaceAt(s: string, i: nat)
    requires AllSpace(s) && i < |s|
    ensures IsSpace(s[i])
  {
  }

  lemma Halves(s: string, n: nat)
    requires n <= |s|
    ensures s == s[..n] + s[n..]
  {
  }

  /** Blank is what holds nothing but spaces. */
  lemma BlankIff(s: string)
    ensures Blank(s) <==> AllSpace(s)
  {
    var pre, post := TrimSplits(s);
    if !Blank(s) { assert s[|pre|] == TrimSpace(s)[0]; }
  }

  /** unicode.ToUpper and unicode.ToLower, as far as ASCII letters are concerned: exactly these characters become one
      that was not. Other letters are left as they are. */
  function Upper(c: char): char {
    if 'a' <= c <= 'z' then c - ' '
    else if c == '\U{131}' then 'I'
    else if c == '\U{17f}' then 'S'
    else c
  }

  function Lower(c: char): char {
    if 'A' <= c <= 'Z' then c + ' '
    else if c == '\U{130}' then 'i'
    else if c == '\U{212a}' then 'k'
    else c
  }

  function ToUpper(s: string): string {
    seq(|s|, i requires 0 <= i < |s| => Upper(s[i]))
  }

  function ToLower(s: string): string {
    seq(|s|, i requires 0 <= i < |s| => Lower(s[i]))
  }

  /** The characters whose upper case is this one. */
  predicate ReadsUpper(c: char, upper: char) {
    c == upper || ('A' <= upper <= 'Z' && c == upper + ' ')
    || (c == '\U{131}' && upper == 'I') || (c == '\U{17f}' && upper == 'S')
  }

  /** The characters whose lower case is this one. */
  predicate ReadsLower(c: char, lower: char) {
    c == lower || ('a' <= lower <= 'z' && c == lower - ' ')
    || (c == '\U{130}' && lower == 'i') || (c == '\U{212a}' && lower == 'k')
  }

  ghost predicate Spells(s: string, word: string, like: (char, char) -> bool) {
    |s| == |word| && forall i | 0 <= i < |s| :: like(s[i], word[i])
  }

  /** Read in upper case, a string is a word of capitals exactly if it spells it, in whatever case. */
  lemma UpperSpells(s: string, word: string)
    requires forall c | c in word :: !('a' <= c <= 'z') && c != '\U{131}' && c != '\U{17f}'
    ensures ToUpper(s) == word <==> Spells(s, word, ReadsUpper)
  {
    if |s| == |word| {
      forall i | 0 <= i < |s| ensures ToUpper(s)[i] == word[i] <==> ReadsUpper(s[i], word[i]) {
        assert word[i] in word;
      }
    }
  }

  /** The same in lower case. */
  lemma LowerSpells(s: string, word: string)
    requires forall c | c in word :: !('A' <= c <= 'Z') && c != '\U{130}' && c != '\U{212a}'
    ensures ToLower(s) == word <==> Spells(s, word, ReadsLower)
  {
    if |s| == |word| {
      forall i | 0 <= i < |s| ensures ToLower(s)[i] == word[i] <==> ReadsLower(s[i], word[i]) {
        assert word[i] in word;
      }
    }
  }
}
