/** The string predicates the repositories rely on. */
module Text {
  import opened Wrappers

  /** java.lang.Character.isWhitespace: the space, line and paragraph separators except the
      non-breaking ones (U+00A0, U+2007, U+202F), plus the controls U+0009..U+000D and U+001C..U+001F. */
  predicate IsWhitespace(c: char)
    ensures c == ' ' || c == '\t' || c == '\n' || c == '\r' ==> IsWhitespace(c)
    ensures c == '\U{00A0}' || c == '\U{2007}' || c == '\U{202F}' ==> !IsWhitespace(c)
    ensures 'a' <= c <= 'z' || 'A' <= c <= 'Z' || '0' <= c <= '9' ==> !IsWhitespace(c)
  {
    var u := c as int;
    (0x09 <= u <= 0x0D) || (0x1C <= u <= 0x20) || u == 0x1680 ||
    (0x2000 <= u <= 0x2006) || (0x2008 <= u <= 0x200A) ||
    u == 0x2028 || u == 0x2029 || u == 0x205F || u == 0x3000
  }

  /** Spring's StringUtils.hasText: not null, and some character is not whitespace
      (which also rules out the empty string). */
  predicate HasText(s: Option<string>)
    ensures HasText(s) ==> s.Some? && s.value != []
    ensures s.Some? && s.value != [] && !IsWhitespace(s.value[|s.value| - 1]) ==> HasText(s)
  {
    s.Some? && exists i :: 0 <= i < |s.value| && !IsWhitespace(s.value[i])
  }

  /** `sub` occurs in `s` as a contiguous substring. */
  predicate Contains(s: string, sub: string)
    ensures Contains(s, sub) ==> |sub| <= |s|
    ensures sub <= s ==> Contains(s, sub)
  {
    assert sub <= s ==> sub <= s[0..];
    exists i :: 0 <= i <= |s| - |sub| && sub <= s[i..]
  }

  /** An occurrence inside the middle part is an occurrence in the whole text. */
  lemma ContainsInside(a: string, b: string, c: string, sub: string)
    requires Contains(b, sub)
    ensures Contains(a + b + c, sub)
  {
    var i :| 0 <= i <= |b| - |sub| && sub <= b[i..];
    var s := a + b + c;
    forall k | 0 <= k < |sub|
      ensures s[|a| + i..][k] == sub[k]
    {
      assert s[|a| + i + k] == b[i + k];
    }
    assert sub <= s[|a| + i..];
  }

  /** An occurrence in the last part is an occurrence in the whole text. */
  lemma ContainsAtEnd(a: string, b: string, sub: string)
    requires Contains(b, sub)
    ensures Contains(a + b, sub)
  {
    ContainsInside(a, b, [], sub);
    assert a + b + [] == a + b;
  }

  /** An occurrence in the second of four parts is an occurrence in the whole text. */
  lemma ContainsInSecond(a: string, b: string, c: string, d: string, sub: string)
    requires Contains(b, sub)
    ensures Contains(a + b + c + d, sub)
  {
    ContainsInside(a, b, c + d, sub);
    assert a + b + (c + d) == a + b + c + d;
  }

  /** A null, empty or whitespace-only name has no text; any other character makes it count. */
  lemma HasTextExactly(s: Option<string>)
    ensures !HasText(None)
    ensures s.Some? && (forall i :: 0 <= i < |s.value| ==> IsWhitespace(s.value[i])) ==> !HasText(s)
    ensures s.Some? && |s.value| > 0 && !IsWhitespace(s.value[0]) ==> HasText(s)
  {
  }

  /** The search names of the repository test. */
  lemma HasTextExamples()
    ensures HasText(Some("itemA")) && HasText(Some("temA"))
    ensures !HasText(Some("")) && !HasText(Some(" \t\n"))
  {
    assert !IsWhitespace("itemA"[0]);
    assert !IsWhitespace("temA"[0]);
    var blank := " \t\n";
    assert IsWhitespace(blank[0]) && IsWhitespace(blank[1]) && IsWhitespace(blank[2]);
  }

  /** One differing character rules out an occurrence at that position. */
  lemma MismatchAt(s: string, sub: string, i: nat, k: nat)
    requires k < |sub| && i + k < |s| && s[i + k] != sub[k]
    ensures !(sub <= s[i..])
  {
    assert s[i..][k] == s[i + k];
  }

  /** "itemA" occurs in the first two names of the repository test and not in the third. */
  lemma ContainsItemA()
    ensures Contains("itemA-1", "itemA") && Contains("itemA-2", "itemA") && !Contains("itemB-1", "itemA")
  {
    assert "itemA" <= "itemA-1"[0..] && "itemA" <= "itemA-2"[0..];
    forall i | 0 <= i <= 2 ensures !("itemA" <= "itemB-1"[i..]) {
      MismatchAt("itemB-1", "itemA", i, if i == 0 then 4 else 0);
    }
  }

  /** The fragment "temA", from the middle of the names, matches the same two. */
  lemma ContainsTemA()
    ensures Contains("itemA-1", "temA") && Contains("itemA-2", "temA") && !Contains("itemB-1", "temA")
  {
    assert "temA" <= "itemA-1"[1..] && "temA" <= "itemA-2"[1..];
    forall i | 0 <= i <= 3 ensures !("temA" <= "itemB-1"[i..]) {
      MismatchAt("itemB-1", "temA", i, if i == 1 then 3 else 0);
    }
  }

  /** "itemB" occurs only in the third name. */
  lemma ContainsItemB()
    ensures Contains("itemB-1", "itemB") && !Contains("itemA-1", "itemB") && !Contains("itemA-2", "itemB")
  {
    assert "itemB" <= "itemB-1"[0..];
    forall i | 0 <= i <= 2 ensures !("itemB" <= "itemA-1"[i..]) && !("itemB" <= "itemA-2"[i..]) {
      MismatchAt("itemA-1", "itemB", i, if i == 0 then 4 else 0);
      MismatchAt("itemA-2", "itemB", i, if i == 0 then 4 else 0);
    }
  }
}
