/** The few string operations the call relies on, over ASCII case and whitespace. */
module Text {

  predicate IsSpace(c: char) {
    c == ' ' || c == '\t' || c == '\n' || c == '\r'
  }

  function StripLeft(s: string, drop: char -> bool): string {
    if s != "" && drop(s[0]) then StripLeft(s[1..], drop) else s
  }

  function StripRight(s: string, drop: char -> bool): string {
    if s != "" && drop(s[|s| - 1]) then StripRight(s[..|s| - 1], drop) else s
  }

  function Strip(s: string): string {
    StripRight(StripLeft(s, IsSpace), IsSpace)
  }

  function StripDots(s: string): string {
    StripRight(StripLeft(s, c => c == '.'), c => c == '.')
  }

  function LowerChar(c: char): char {
    if 'A' <= c <= 'Z' then 'a' + (c - 'A') else c
  }

  function ToLower(s: string): string {
    seq(|s|, i requires 0 <= i < |s| => LowerChar(s[i]))
  }

  predicate Contains(haystack: string, needle: string) {
    exists i | 0 <= i <= |haystack| :: needle <= haystack[i..]
  }

  // -- What they mean ---------------------------------------------------

  predicate All(s: string, drop: char -> bool) {
    forall i | 0 <= i < |s| :: drop(s[i])
  }

  predicate Bare(s: string, drop: char -> bool) {
    s != "" && !drop(s[0]) && !drop(s[|s| - 1])
  }

  lemma {:induction false} LeftDropped(pre: string, s: string, drop: char -> bool)
    requires All(pre, drop)
    ensures StripLeft(pre + s, drop) == StripLeft(s, drop)
  {
    if pre == "" {
      assert pre + s == s;
    } else {
      assert (pre + s)[1..] == pre[1..] + s;
      LeftDropped(pre[1..], s, drop);
    }
  }

  lemma {:induction false} RightDropped(s: string, post: string, drop: char -> bool)
    requires All(post, drop)
    ensures StripRight(s + post, drop) == StripRight(s, drop)
  {
    if post == "" {
      assert s + post == s;
    } else {
      assert (s + post)[..|s + post| - 1] == s + post[..|post| - 1];
      RightDropped(s, post[..|post| - 1], drop);
    }
  }

  /** Stripping takes off exactly what is dropped at either end. */
  lemma StripsAround(pre: string, v: string, post: string, drop: char -> bool)
    requires All(pre, drop) && All(post, drop) && Bare(v, drop)
    ensures StripRight(StripLeft(pre + v + post, drop), drop) == v
  {
    assert pre + v + post == pre + (v + post);
    LeftDropped(pre, v + post, drop);
    RightDropped(v, post, drop);
  }

  lemma {:induction false} LeftEmpty(s: string, drop: char -> bool)
    ensures StripLeft(s, drop) == "" <==> All(s, drop)
    ensures StripLeft(s, drop) != "" ==> !drop(StripLeft(s, drop)[0])
  {
    if s != "" && drop(s[0]) {
      LeftEmpty(s[1..], drop);
      assert All(s, drop) <==> All(s[1..], drop) by {
        assert forall i | 0 <= i < |s[1..]| :: s[1..][i] == s[i + 1];
      }
    }
  }

  lemma {:induction false} RightKeepsHead(s: string, drop: char -> bool)
    requires s != "" && !drop(s[0])
    ensures StripRight(s, drop) != ""
  {
    if drop(s[|s| - 1]) {
      RightKeepsHead(s[..|s| - 1], drop);
    }
  }

  /** Nothing is left only of a text that is blank throughout. */
  lemma StripsToNothing(s: string)
    ensures Strip(s) == "" <==> All(s, IsSpace)
  {
    LeftEmpty(s, IsSpace);
    if StripLeft(s, IsSpace) != "" {
      RightKeepsHead(StripLeft(s, IsSpace), IsSpace);
    }
  }

  /** `c` written in either case of the letter `d`, when `d` is a small one. */
  predicate LowersTo(c: char, d: char) {
    if 'A' <= c <= 'Z' then d == 'a' + (c - 'A') else d == c
  }

  /** `needle`, with each of its letters in either case, stands somewhere in `text`. */
  ghost predicate Says(text: string, needle: string) {
    exists i :: SaysAt(text, needle, i)
  }

  predicate SaysAt(text: string, needle: string, i: int) {
    0 <= i && i + |needle| <= |text| && forall j | 0 <= j < |needle| :: LowersTo(text[i + j], needle[j])
  }

  lemma ContainsMeansSays(text: string, needle: string)
    ensures Contains(ToLower(text), needle) <==> Says(text, needle)
  {
    var lower := ToLower(text);
    if i :| 0 <= i <= |lower| && needle <= lower[i..] {
      assert forall j | 0 <= j < |needle| :: needle[j] == lower[i..][j] == LowerChar(text[i + j]);
      assert SaysAt(text, needle, i);
    }
    if i :| SaysAt(text, needle, i) {
      assert forall j | 0 <= j < |needle| :: lower[i..][j] == LowerChar(text[i + j]) == needle[j];
      assert needle <= lower[i..];
    }
  }
}
