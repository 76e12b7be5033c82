/** The keyword test that decides whether an idle session enters contact capture. */
module IntentRouter {

  /** Lower-cases the ASCII letters A-Z and leaves every other character alone. */
  function LowerChar(c: char): (d: char)
    ensures 'A' <= c <= 'Z' ==> d as int == c as int + 32
    ensures !('A' <= c <= 'Z') ==> d == c
    ensures !('A' <= d <= 'Z')
  {
    if 'A' <= c <= 'Z' then (c as int + 32) as char else c
  }

  /** `s.lower()` restricted to ASCII letters: same length, each character lowered. */
  function Lower(s: string): (r: string)
    ensures |r| == |s|
    ensures forall i :: 0 <= i < |s| ==> r[i] == LowerChar(s[i])
  {
    seq(|s|, i requires 0 <= i < |s| => LowerChar(s[i]))
  }

  /** Lowering twice is lowering once, so the test sees the same text either way. */
  lemma LowerIdempotent(s: string)
    ensures Lower(Lower(s)) == Lower(s)
  {
    assert forall i :: 0 <= i < |s| ==> Lower(Lower(s))[i] == Lower(s)[i];
  }

  /** `k` occurs in `s` starting at index `i`. */
  ghost predicate OccursAt(k: string, s: string, i: nat) {
    i + |k| <= |s| && s[i..i + |k|] == k
  }

  /** Python's `k in s` on strings: `k` is a contiguous substring of `s`. */
  ghost predicate Occurs(k: string, s: string) {
    exists i: nat :: OccursAt(k, s, i)
  }

  /** Scans `s` left to right for `k`. */
  function Contains(s: string, k: string): (b: bool)
    ensures b <==> Occurs(k, s)
    decreases |s|
  {
    if |s| < |k| then
      assert forall i: nat :: !OccursAt(k, s, i);
      false
    else if s[..|k|] == k then
      assert OccursAt(k, s, 0);
      true
    else
      var b := Contains(s[1..], k);
      OccursShift(k, s);
      b
  }

  /** When `k` is not a prefix of `s`, it occurs in `s` exactly when it occurs in `s[1..]`. */
  lemma OccursShift(k: string, s: string)
    requires |k| <= |s| && s[..|k|] != k
    ensures Occurs(k, s) <==> Occurs(k, s[1..])
  {
    if Occurs(k, s) {
      var i: nat :| OccursAt(k, s, i);
      assert i != 0;
      assert s[1..][i - 1..i - 1 + |k|] == s[i..i + |k|];
      assert OccursAt(k, s[1..], i - 1);
    }
    if Occurs(k, s[1..]) {
      var i: nat :| OccursAt(k, s[1..], i);
      assert s[1..][i..i + |k|] == s[i + 1..i + 1 + |k|];
      assert OccursAt(k, s, i + 1);
    }
  }

  /** The five keywords, in the order the source lists them. */
  const Keywords: seq<string> := ["subscribe", "sign up", "provide info", "information", "register"]

  /** `any(keyword in prompt.lower() for keyword in [...])`. */
  predicate MentionsKeyword(prompt: string)
    ensures MentionsKeyword(prompt) ==> |prompt| >= 7
  {
    exists j :: 0 <= j < |Keywords| && Contains(Lower(prompt), Keywords[j])
  }

  /** The test is a substring test on the lowered prompt against some keyword. */
  lemma MentionsKeywordMeans(prompt: string)
    ensures MentionsKeyword(prompt) <==> exists j, i: nat :: 0 <= j < |Keywords| && OccursAt(Keywords[j], Lower(prompt), i)
  {
  }

  /** The test ignores case. */
  lemma MentionsKeywordIgnoresCase(prompt: string)
    ensures MentionsKeyword(Lower(prompt)) == MentionsKeyword(prompt)
  {
    LowerIdempotent(prompt);
  }

  /** Any prompt that contains a keyword, whatever surrounds it, triggers capture. */
  lemma {:induction false} KeywordAnywhere(pre: string, j: int, post: string)
    requires 0 <= j < |Keywords|
    ensures MentionsKeyword(pre + Keywords[j] + post)
  {
    var s := pre + Keywords[j] + post;
    var k := Keywords[j];
    forall t | 0 <= t < |k|
      ensures Lower(s)[|pre| + t] == k[t]
    {
      assert s[|pre| + t] == k[t];
      assert !('A' <= k[t] <= 'Z');
    }
    assert Lower(s)[|pre|..|pre| + |k|] == k;
    assert OccursAt(k, Lower(s), |pre|);
    assert Contains(Lower(s), k);
  }

  /** Substring matching keeps its false positives: "more information please" is routed to capture. */
  lemma MoreInformationPleaseIsCaptured()
    ensures MentionsKeyword("more information please")
  {
    KeywordAnywhere("more ", 3, " please");
    assert "more " + Keywords[3] + " please" == "more information please";
  }

  /** Upper case does not hide a keyword. */
  lemma UpperCaseKeywordIsCaptured()
    ensures MentionsKeyword("Please SIGN UP me")
  {
    var s := "Please SIGN UP me";
    assert Lower(s)[7..14] == "sign up";
    assert OccursAt("sign up", Lower(s), 7);
    assert Contains(Lower(s), Keywords[1]);
  }

  /** A prompt with none of the keywords goes to the backend. */
  lemma GreetingIsNotCaptured()
    ensures !MentionsKeyword("Hello there")
  {
    var s := Lower("Hello there");
    assert s == "hello there";
    assert "subscribe"[0] == 's' && "sign up"[0] == 's' && "provide info"[0] == 'p';
    assert "information"[0] == 'i' && "register"[2] == 'g';
    assert 's' !in s && 'p' !in s && 'i' !in s && 'g' !in s;
    AbsentCharRulesOut("subscribe", s, 's');
    AbsentCharRulesOut("sign up", s, 's');
    AbsentCharRulesOut("provide info", s, 'p');
    AbsentCharRulesOut("information", s, 'i');
    AbsentCharRulesOut("register", s, 'g');
  }

  /** A keyword with a character the text lacks does not occur in it. */
  lemma AbsentCharRulesOut(k: string, s: string, c: char)
    requires c in k && c !in s
    ensures !Occurs(k, s)
  {
  }
}
