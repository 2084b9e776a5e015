/** The heuristic text score and the final blend of the image score
    (agents.py, "TEXT SCORE" and "IMAGE SCORE"). */
module Scoring {
  import opened Wrappers
  import opened Numeric
  import opened Text

  /** Positive lexicon, matched token by token. */
  const Pos: set<string> := {"harika", "mükemmel", "süper", "iyi", "güzel", "başarılı", "sevdim", "bayıldım"}

  /** Negative lexicon, matched token by token. */
  const Neg: set<string> := {"kötü", "berbat", "rezalet", "nefret", "çirkin", "sıkıntı"}

  /** `(txt or "").strip().lower()`. */
  function Normalize(txt: Option<string>): (t: string)
    ensures t == [] <==> AllSpace(OrEmpty(txt))
  {
    StripEmptyIffAllSpace(OrEmpty(txt));
    Lower(Strip(OrEmpty(txt)))
  }

  /** Number of tokens that belong to `lexicon`, counted with repetition:
      `sum(w in lexicon for w in words)`. */
  function CountIn(words: seq<string>, lexicon: set<string>): (c: nat)
    ensures c <= |words|
    ensures c == 0 <==> forall i :: 0 <= i < |words| ==> words[i] !in lexicon
    ensures c == |words| <==> forall i :: 0 <= i < |words| ==> words[i] in lexicon
  {
    if words == [] then 0
    else (if words[0] in lexicon then 1 else 0) + CountIn(words[1..], lexicon)
  }

  /** Number of distinct tokens: `len(set(words))`. */
  function Distinct(words: seq<string>): nat {
    |set w | w in words|
  }

  /** Length sub-score: a ramp up to 10 tokens, flat up to 60, then a decay. */
  function LengthScore(n: nat): (r: real)
    ensures 0.0 <= r <= 1.0
  {
    if n < 10 then n as real / 10.0
    else if n <= 60 then 1.0
    else if 1.0 - (n - 60) as real / 120.0 < 0.0 then 0.0
    else 1.0 - (n - 60) as real / 120.0
  }

  /** Diversity sub-score `min(1.0, uniq / (n or 1))`, where `uniq` is already
      `len(set(words)) or 1`. */
  function DiversityScore(uniq: nat, n: nat): (r: real)
    ensures 0.0 < r <= 1.0
  {
    var d := (if uniq == 0 then 1 else uniq) as real / (if n == 0 then 1 else n) as real;
    if 1.0 < d then 1.0 else d
  }

  /** Sentiment sub-score: positive hits minus negative hits, centred at 0.5. */
  function SentimentScore(words: seq<string>): (s: real)
    ensures 0.0 <= s <= 1.0
  {
    Clamp(0.0, 1.0, (CountIn(words, Pos) as real - CountIn(words, Neg) as real + 5.0) / 10.0)
  }

  /** Metadata bonus: an `@` mention or a `#` tag anywhere in the text. */
  function MetaBonus(t: string): real {
    if '@' in t || '#' in t then 1.0 else 0.0
  }

  /** The weighted blend before clamping. */
  function Blend(sLen: real, sDiv: real, sSent: real, meta: real): real {
    0.35 * sLen + 0.35 * sDiv + 0.25 * sSent + 0.05 * meta
  }

  /** The blend of a normalised, non-empty text. */
  function RawText(t: string): real {
    var words := Words(t);
    Blend(LengthScore(|words|), DiversityScore(Distinct(words), |words|),
          SentimentScore(words), MetaBonus(t))
  }

  /** `score_text`: 0 for a missing or blank text, otherwise the clamped blend
      scaled to a whole number in [0, 100]. */
  function ScoreText(txt: Option<string>): (r: int)
    ensures 0 <= r <= 100
    ensures AllSpace(OrEmpty(txt)) ==> r == 0
  {
    var t := Normalize(txt);
    StripEmptyIffAllSpace(OrEmpty(txt));
    if t == [] then 0
    else Trunc(Clamp(0.0, 1.0, RawText(t)) * 100.0)
  }

  /** A non-blank text has at least one token after normalisation. */
  lemma NonBlankHasWords(txt: Option<string>)
    requires !AllSpace(OrEmpty(txt))
    ensures Normalize(txt) != [] && |Words(Normalize(txt))| >= 1
  {
    var s := Strip(OrEmpty(txt));
    StripEmptyIffAllSpace(OrEmpty(txt));
    assert !AllSpace(s) by {
      assert !IsSpace(s[0]);
    }
    WordsEmptyIffAllSpace(Normalize(txt));
  }

  /** The length sub-score piece by piece: it is 1.0 exactly on 10..60 tokens,
      below 1.0 everywhere else, and 0 from 180 tokens on. */
  lemma LengthScoreShape(n: nat)
    ensures n < 10 ==> LengthScore(n) == n as real / 10.0
    ensures 10 <= n <= 60 ==> LengthScore(n) == 1.0
    ensures 60 < n < 180 ==> LengthScore(n) == 1.0 - (n - 60) as real / 120.0 > 0.0
    ensures 180 <= n ==> LengthScore(n) == 0.0
    ensures 0.0 <= LengthScore(n) <= 1.0
    ensures LengthScore(n) == 1.0 <==> 10 <= n <= 60
  {
  }

  /** There are never more distinct tokens than tokens. */
  lemma {:induction false} DistinctAtMostCount(words: seq<string>)
    ensures Distinct(words) <= |words|
  {
    if words != [] {
      DistinctAtMostCount(words[1..]);
      assert (set w | w in words) == {words[0]} + (set w | w in words[1..]);
    }
  }

  /** On a text that has tokens the diversity sub-score is exactly the ratio
      of distinct tokens to tokens, the `min` never cuts it, and it is
      positive. */
  lemma DiversityIsRatio(words: seq<string>)
    requires words != []
    ensures DiversityScore(Distinct(words), |words|) == Distinct(words) as real / |words| as real
    ensures 0.0 < DiversityScore(Distinct(words), |words|) <= 1.0
  {
    DistinctAtMostCount(words);
    var distinct := set w | w in words;
    assert words[0] in distinct;
    assert |distinct - {words[0]}| == |distinct| - 1;
    var u, n := Distinct(words) as real, |words| as real;
    assert 1.0 <= u <= n;
    var q := u / n;
    assert q * n == u;
  }

  /** Tokens outside both lexicons leave the sentiment at its neutral 0.5. */
  lemma {:induction false} NoHitsIsNeutral(words: seq<string>)
    requires forall i :: 0 <= i < |words| ==> words[i] !in Pos && words[i] !in Neg
    ensures CountIn(words, Pos) == 0 && CountIn(words, Neg) == 0
    ensures SentimentScore(words) == 0.5
  {
    if words != [] {
      NoHitsIsNeutral(words[1..]);
    }
  }

  /** Matching is by whole token: punctuation glued to a lexicon word keeps
      it from counting. */
  lemma ExactTokenMatch()
    ensures CountIn(["güzel"], Pos) == 1
    ensures CountIn(["güzel,"], Pos) == 0
    ensures CountIn(["güzel", "güzel", "kötü"], Pos) == 2
  {
    assert ["güzel", "güzel", "kötü"][1..] == ["güzel", "kötü"];
    assert ["güzel", "kötü"][1..] == ["kötü"];
  }

  /** The metadata bonus is 1 exactly when the text has `@` or `#`, else 0. */
  lemma MetaBonusIff(t: string)
    ensures MetaBonus(t) == 1.0 <==> exists i :: 0 <= i < |t| && (t[i] == '@' || t[i] == '#')
    ensures MetaBonus(t) == 0.0 || MetaBonus(t) == 1.0
  {
    if '@' in t {
      var i :| 0 <= i < |t| && t[i] == '@';
    }
    if '#' in t {
      var i :| 0 <= i < |t| && t[i] == '#';
    }
  }

  /** The weights of the blend sum to 1, so a blend of sub-scores in [0, 1]
      stays in [0, 1]: the clamp in `score_text` never cuts. */
  lemma BlendInUnit(sLen: real, sDiv: real, sSent: real, meta: real)
    requires 0.0 <= sLen <= 1.0 && 0.0 <= sDiv <= 1.0
    requires 0.0 <= sSent <= 1.0 && 0.0 <= meta <= 1.0
    ensures 0.0 <= Blend(sLen, sDiv, sSent, meta) <= 1.0
  {
  }

  /** For a non-blank text the score is the floor of 100 times the unclamped
      blend. */
  lemma ScoreTextUnclamped(txt: Option<string>)
    requires !AllSpace(OrEmpty(txt))
    ensures 0.0 <= RawText(Normalize(txt)) <= 1.0
    ensures ScoreText(txt) == (RawText(Normalize(txt)) * 100.0).Floor
  {
    var t := Normalize(txt);
    NonBlankHasWords(txt);
    var words := Words(t);
    LengthScoreShape(|words|);
    DiversityIsRatio(words);
    MetaBonusIff(t);
    BlendInUnit(LengthScore(|words|), DiversityScore(Distinct(words), |words|),
                SentimentScore(words), MetaBonus(t));
  }

  /** The luminance statistics the image library computes: standard deviation
      and mean of the grey image, and mean of its edge-filtered version. */
  datatype LumaStats = LumaStats(stddev: real, edgeMean: real, mean: real)

  /** An uploaded image: an opaque handle and the statistics the image
      library computes for it. */
  datatype Picture = Picture(handle: nat, stats: LumaStats)

  /** The final blend of `score_image` over given statistics. */
  function ScoreImage(st: LumaStats): (r: int)
    ensures 0 <= r <= 100
  {
    var contrast := st.stddev / 64.0;
    var sharp := st.edgeMean / 128.0;
    var bright := st.mean / 255.0;
    var raw := 0.5 * (if 1.0 < contrast then 1.0 else contrast)
             + 0.3 * (if 1.0 < sharp then 1.0 else sharp)
             + 0.2 * bright;
    Trunc(Clamp(0.0, 1.0, raw) * 100.0)
  }
}
