/** Trimming and case mapping, as far as they decide equality with ASCII keywords and codes.

    Besides the ASCII letters, the only characters whose upper or lower case is ASCII are the
    four listed here; every other character is left as it is, which never makes it ASCII. */
module Text {

  predicate IsSpace(c: char) {
    || '\t' <= c <= '\r' || c == ' '
    || c == '\U{0085}' || c == '\U{00A0}' || c == '\U{1680}'
    || '\U{2000}' <= c <= '\U{200A}' || c == '\U{2028}' || c == '\U{2029}'
    || c == '\U{202F}' || c == '\U{205F}' || c == '\U{3000}'
  }

  function UpperChar(c: char): char {
    if 'a' <= c <= 'z' then c - 'a' + 'A'
    else if c == '\U{017F}' then 'S'
    else if c == '\U{0131}' then 'I'
    else c
  }

  function LowerChar(c: char): char {
    if 'A' <= c <= 'Z' then c - 'A' + 'a'
    else if c == '\U{0130}' then 'i'
    else if c == '\U{212A}' then 'k'
    else c
  }

  function TrimLeft(s: string): (r: string) {
    if s != "" && IsSpace(s[0]) then TrimLeft(s[1..]) else s
  }

  function TrimRight(s: string): (r: string) {
    if s != "" && IsSpace(s[|s| - 1]) then TrimRight(s[..|s| - 1]) else s
  }

  function TrimSpace(s: string): (r: string) {
    TrimRight(TrimLeft(s))
  }

  function ToUpper(s: string): (r: string)
    ensures |r| == |s|
  {
    seq(|s|, i requires 0 <= i < |s| => UpperChar(s[i]))
  }

  function ToLower(s: string): (r: string)
    ensures |r| == |s|
  {
    seq(|s|, i requires 0 <= i < |s| => LowerChar(s[i]))
  }

  predicate Blank(s: string) {
    forall c <- s :: IsSpace(c)
  }

  /** No white space at either end. */
  predicate Trimmed(s: string) {
    s != "" ==> !IsSpace(s[0]) && !IsSpace(s[|s| - 1])
  }

  lemma {:induction false} TrimLeftSplits(s: string) returns (pre: string)
    ensures s == pre + TrimLeft(s) && Blank(pre)
    ensures TrimLeft(s) != "" ==> !IsSpace(TrimLeft(s)[0])
  {
    pre := "";
    if s != "" && IsSpace(s[0]) {
      var p := TrimLeftSplits(s[1..]);
      pre := [s[0]] + p;
      assert s == [s[0]] + s[1..];
    }
  }

  lemma {:induction false} TrimRightSplits(s: string) returns (post: string)
    ensures s == TrimRight(s) + post && Blank(post)
    ensures TrimRight(s) != "" ==> !IsSpace(TrimRight(s)[|TrimRight(s)| - 1])
  {
    post := "";
    if s != "" && IsSpace(s[|s| - 1]) {
      var p := TrimRightSplits(s[..|s| - 1]);
      post := p + [s[|s| - 1]];
      assert s == s[..|s| - 1] + [s[|s| - 1]];
    }
  }

  /** Trimming splits the text around a trimmed core. */
  lemma TrimSplits(s: string) returns (pre: string, post: string)
    ensures s == pre + TrimSpace(s) + post && Blank(pre) && Blank(post) && Trimmed(TrimSpace(s))
  {
    pre := TrimLeftSplits(s);
    post := TrimRightSplits(TrimLeft(s));
    assert TrimSpace(s) != "" ==> TrimSpace(s)[0] == TrimLeft(s)[0];
  }

  lemma {:induction false} TrimLeftOf(pre: string, s: string)
    requires Blank(pre) && (s != "" ==> !IsSpace(s[0]))
    ensures TrimLeft(pre + s) == s
  {
    if pre == "" {
      assert pre + s == s;
    } else {
      assert (pre + s)[1..] == pre[1..] + s;
      TrimLeftOf(pre[1..], s);
    }
  }

  lemma {:induction false} TrimRightOf(s: string, post: string)
    requires Blank(post) && (s != "" ==> !IsSpace(s[|s| - 1]))
    ensures TrimRight(s + post) == s
  {
    if post == "" {
      assert s + post == s;
    } else {
      assert (s + post)[..|s + post| - 1] == s + post[..|post| - 1];
      TrimRightOf(s, post[..|post| - 1]);
    }
  }

  /** Any white space around a trimmed, non-empty core is removed. */
  lemma TrimOf(pre: string, s: string, post: string)
    requires Blank(pre) && Blank(post) && Trimmed(s) && s != ""
    ensures TrimSpace(pre + s + post) == s
  {
    assert pre + s + post == pre + (s + post);
    TrimLeftOf(pre, s + post);
    TrimRightOf(s, post);
  }
}
