/** Substring test, as Go's `strings.Contains`. */
module Strings {

  /** True when `sub` occurs in `s` at some position; the empty string occurs everywhere. */
  function HasSubstring(s: string, sub: string): bool
    decreases |s|
  {
    if |sub| > |s| then false
    else if s[..|sub|] == sub then true
    else HasSubstring(s[1..], sub)
  }

  /** `sub` occurs in `s` starting at position `i`. */
  ghost predicate OccursAt(s: string, sub: string, i: int) {
    0 <= i && i + |sub| <= |s| && s[i..i + |sub|] == sub
  }

  /** `HasSubstring` holds exactly when some window of `s` equals `sub`. */
  lemma {:induction false} HasSubstringIff(s: string, sub: string)
    ensures HasSubstring(s, sub) <==> exists i :: OccursAt(s, sub, i)
    decreases |s|
  {
    if |sub| > |s| {
    } else if s[..|sub|] == sub {
      assert OccursAt(s, sub, 0);
    } else {
      HasSubstringIff(s[1..], sub);
      if HasSubstring(s, sub) {
        var i :| OccursAt(s[1..], sub, i);
        assert s[i + 1..i + 1 + |sub|] == s[1..][i..i + |sub|];
        assert OccursAt(s, sub, i + 1);
      }
      if exists i :: OccursAt(s, sub, i) {
        var i :| OccursAt(s, sub, i);
        assert i != 0;
        assert s[1..][i - 1..i - 1 + |sub|] == s[i..i + |sub|];
        assert OccursAt(s[1..], sub, i - 1);
      }
    }
  }

  /** For a one-character needle, `HasSubstring` is plain membership. */
  lemma {:induction false} HasCharIff(s: string, c: char)
    ensures HasSubstring(s, [c]) <==> c in s
    decreases |s|
  {
    if |s| == 0 {
    } else if s[..1] == [c] {
      assert s[0] == c;
    } else {
      HasCharIff(s[1..], c);
      assert s == [s[0]] + s[1..];
    }
  }
}
