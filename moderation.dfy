/** The moderation verdict (agents.py, "MODERATION"). */
module Moderation {
  import opened Wrappers
  import opened Text

  /** The two verdicts `moderate` returns, "ok" and "review". */
  datatype Verdict = Ok | Review

  /** Banned terms, matched as substrings of the lowercased text. */
  const Ban: set<string> := {"küfür", "ırkçı", "nefret", "şiddet", "hakaret"}

  /** Some banned term occurs somewhere in `t`. */
  predicate Flagged(t: string) {
    exists b :: b in Ban && Contains(t, b)
  }

  /** Images scoring below this are held back for review. */
  const MinImageScore: int := 15

  /** `moderate`: a banned term in the lowercased text, or a low image score,
      sends the post to review; otherwise it is accepted. */
  function Moderate(txt: Option<string>, imgScore: int): (v: Verdict)
    ensures Flagged(Lower(OrEmpty(txt))) ==> v == Review
    ensures !Flagged(Lower(OrEmpty(txt))) ==> (v == Ok <==> 15 <= imgScore)
  {
    var t := Lower(OrEmpty(txt));
    if Flagged(t) then Review
    else if imgScore < MinImageScore then Review
    else Ok
  }

  /** A text is accepted only if it is clean and its image scores at least 15. */
  lemma OkIff(txt: Option<string>, imgScore: int)
    ensures Moderate(txt, imgScore) == Ok <==> !Flagged(Lower(OrEmpty(txt))) && 15 <= imgScore
  {
  }

  /** A banned term found in the lowercased text sends the post to review,
      whatever the image score. */
  lemma BannedTermIsReview(txt: Option<string>, b: string, imgScore: int)
    requires b in Ban && Contains(Lower(OrEmpty(txt)), b)
    ensures Moderate(txt, imgScore) == Review
  {
  }

  /** Every string contains itself. */
  lemma ContainsSelf(t: string)
    ensures Contains(t, t)
  {
    assert IsPrefix(t, t) by {
      assert t[..|t|] == t;
    }
  }

  /** A string contains each of its prefixes. */
  lemma ContainsPrefix(b: string, rest: string)
    ensures Contains(b + rest, b)
  {
    assert (b + rest)[..|b|] == b;
  }

  /** "nefret" is a substring of "nefretlik". */
  lemma NefretInNefretlik()
    ensures Contains("nefretlik", "nefret")
  {
    ContainsPrefix("nefret", "lik");
    assert "nefret" + "lik" == "nefretlik";
  }

  /** Containment is by substring: a banned term inside a longer word is
      flagged whatever the image score. */
  lemma SubstringIsFlagged(imgScore: int)
    ensures Moderate(Some("nefretlik"), imgScore) == Review
  {
    LowerOfAsciiLower("nefretlik");
    NefretInNefretlik();
    BannedTermIsReview(Some("nefretlik"), "nefret", imgScore);
  }

  /** "NEFRET" lowers to "nefret". */
  lemma LowerNefret()
    ensures Lower("NEFRET") == "nefret"
  {
    LowerOfAsciiUpper("NEFRET");
  }

  /** The check is case-insensitive: capitals are lowered first. */
  lemma CapitalsAreFlagged(imgScore: int)
    ensures Moderate(Some("NEFRET"), imgScore) == Review
  {
    LowerNefret();
    ContainsSelf("nefret");
    BannedTermIsReview(Some("NEFRET"), "nefret", imgScore);
  }

  /** Every banned term has at least five characters, so a shorter text is
      never flagged. */
  lemma ShortTextIsClean(t: string)
    requires |t| < 5
    ensures !Flagged(t)
  {
    forall b | b in Ban
      ensures !Contains(t, b)
    {
      NoLongerSubstring(t, b);
    }
  }

  /** The image threshold is exact: on a clean text 14 is held back and 15
      is accepted. */
  lemma ImageThreshold()
    ensures Moderate(Some("iyi"), 14) == Review
    ensures Moderate(Some("iyi"), 15) == Ok
  {
    LowerOfAsciiLower("iyi");
    assert OrEmpty(Some("iyi")) == "iyi";
    ShortTextIsClean("iyi");
  }
}
