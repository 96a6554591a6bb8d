/**
 * The keyword matcher: `contains(s, subs...)` lower-cases `s` and reports
 * whether any of `subs` (which are NOT lower-cased) occurs in it.
 */
module Keywords {

  predicate IsUpper(c: char) { 'A' <= c <= 'Z' }

  function LowerChar(c: char): (r: char)
    ensures !IsUpper(r)
    ensures IsUpper(c) || r == c
  {
    if IsUpper(c) then (c as int - 'A' as int + 'a' as int) as char else c
  }

  /** Lower-casing of ASCII letters, character by character. */
  function Lower(s: string): (r: string)
    ensures |r| == |s|
    ensures forall i | 0 <= i < |s| :: r[i] == LowerChar(s[i])
  {
    if s == [] then [] else [LowerChar(s[0])] + Lower(s[1..])
  }

  /** `sub` occurs in `s` starting at position `k`. */
  predicate OccursAt(sub: string, s: string, k: int) {
    0 <= k && k + |sub| <= |s| && s[k..k + |sub|] == sub
  }

  /** Substring test, as strings.Contains(s, sub). */
  predicate IsSubstring(sub: string, s: string) {
    exists k | 0 <= k <= |s| - |sub| :: OccursAt(sub, s, k)
  }

  /** What `contains(s, subs...)` computes. */
  predicate ContainsAny(s: string, subs: seq<string>) {
    exists i | 0 <= i < |subs| :: IsSubstring(subs[i], Lower(s))
  }

  /** The loop of `contains`: the first keyword found ends the search. */
  method Contains(s: string, subs: seq<string>) returns (found: bool)
    ensures found <==> exists i | 0 <= i < |subs| :: IsSubstring(subs[i], Lower(s))
  {
    var str := Lower(s);
    for i := 0 to |subs|
      invariant forall j | 0 <= j < i :: !IsSubstring(subs[j], str)
    {
      if IsSubstring(subs[i], str) {
        return true;
      }
    }
    return false;
  }

  /** The keywords are not lower-cased: one holding an upper-case letter
      never matches, whatever the text. */
  lemma {:induction false} UpperKeywordNeverMatches(s: string, sub: string, j: nat)
    requires j < |sub| && IsUpper(sub[j])
    ensures !IsSubstring(sub, Lower(s))
  {
    var str := Lower(s);
    forall k | 0 <= k <= |str| - |sub|
      ensures !OccursAt(sub, str, k)
    {
    }
  }

  /** Because "go" is a prefix of "gopher" and of "golang", the go-family
      test is the same as looking for "go" alone. */
  lemma GoFamilyIsGo(s: string)
    ensures ContainsAny(s, ["gopher", "go", "golang"]) <==> IsSubstring("go", Lower(s))
  {
    var str := Lower(s);
    var subs := ["gopher", "go", "golang"];
    if ContainsAny(s, subs) {
      var i :| 0 <= i < |subs| && IsSubstring(subs[i], str);
      var k :| 0 <= k <= |str| - |subs[i]| && OccursAt(subs[i], str, k);
      assert str[k..k + 2] == str[k..k + |subs[i]|][..2];
      assert OccursAt("go", str, k);
    } else {
      assert subs[1] == "go";
    }
  }

  /** A one-keyword test is a plain substring test on the lower-cased text. */
  lemma SingleKeyword(s: string, sub: string)
    ensures ContainsAny(s, [sub]) <==> IsSubstring(sub, Lower(s))
  {
    assert [sub][0] == sub;
  }

  lemma {:induction false} LowerConcat(a: string, b: string)
    ensures Lower(a + b) == Lower(a) + Lower(b)
  {
    var l, r := Lower(a + b), Lower(a) + Lower(b);
    assert |l| == |r|;
    forall i | 0 <= i < |l| ensures l[i] == r[i] {
      if i < |a| { assert (a + b)[i] == a[i]; } else { assert (a + b)[i] == b[i - |a|]; }
    }
  }

  /** Matching is by substring, not by whole word: text around a matching
      text never stops it from matching. */
  lemma SurroundingTextIrrelevant(pre: string, s: string, post: string, subs: seq<string>)
    requires ContainsAny(s, subs)
    ensures ContainsAny(pre + s + post, subs)
  {
    var i :| 0 <= i < |subs| && IsSubstring(subs[i], Lower(s));
    var sub := subs[i];
    var k :| 0 <= k <= |Lower(s)| - |sub| && OccursAt(sub, Lower(s), k);
    LowerConcat(pre, s);
    LowerConcat(pre + s, post);
    var whole := Lower(pre) + Lower(s) + Lower(post);
    assert whole[|pre| + k..|pre| + k + |sub|] == Lower(s)[k..k + |sub|];
    assert OccursAt(sub, Lower(pre + s + post), |pre| + k);
  }
}
