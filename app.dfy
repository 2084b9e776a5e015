/** The "Analiz Et" handler of app.py: score the submitted text and image,
    moderate, convert to money, append the record to the session log; and
    the ten-item feed shown under it. */
module App {
  import opened Wrappers
  import opened Numeric
  import opened Scoring
  import opened Moderation
  import opened Money
  import opened Weights
  import opened Feed
  import opened Pipeline
  import opened Text

  /** What `Evaluate` gives for a post without an image. */
  lemma EvaluateNoImage(txt: Option<string>, w: Dict)
    requires HasWeights(w)
    ensures Evaluate(txt, None, w).finalScore == Combined(w[AlphaText], w[BetaImage], ScoreText(txt), 0)
    ensures Evaluate(txt, None, w).verdict == Review
  {
  }

  /** With image score 0 the image weight drops out of the combined score. */
  lemma CombinedNoImage(alpha: real, beta: real, sText: int)
    ensures Combined(alpha, beta, sText, 0) == Trunc(alpha * sText as real)
  {
    assert alpha * sText as real + beta * 0 as real == alpha * sText as real;
  }

  /** Without an image the combined score is the text term alone, and the
      post always goes to review, since 0 is below the image threshold. */
  lemma NoImageIsReview(txt: Option<string>, w: Dict)
    requires HasWeights(w)
    ensures Evaluate(txt, None, w).finalScore == Trunc(w[AlphaText] * ScoreText(txt) as real)
    ensures Evaluate(txt, None, w).verdict == Review
  {
    EvaluateNoImage(txt, w);
    CombinedNoImage(w[AlphaText], w[BetaImage], ScoreText(txt));
  }

  /** A submission is accepted exactly when it has an image scoring at
      least 15 and its lowercased text holds no banned term; so a text-only
      post never reaches the feed. */
  lemma EvaluateAccepted(txt: Option<string>, img: Option<Picture>, w: Dict)
    requires HasWeights(w)
    ensures Evaluate(txt, img, w).verdict == Ok <==>
              img.Some? && 15 <= ScoreImage(img.value.stats) && !Flagged(Lower(OrEmpty(txt)))
  {
    var e := Evaluate(txt, img, w);
    OkIff(txt, e.imageScore);
  }

  /** A weight times a score in [0, 100] lies between 0 and the weight times 100. */
  lemma WeightedScoreBounds(x: real, y: int, p: real)
    requires 0.0 <= x && 0 <= y <= 100 && p == x * y as real
    ensures 0.0 <= p <= x * 100.0
  {
    var r := y as real;
    MulNonNegative(x, r);
    MulNonNegative(x, 100.0 - r);
    assert x * (100.0 - r) == x * 100.0 - x * r;
  }

  /** The product of two non-negative reals is non-negative. */
  lemma MulNonNegative(a: real, b: real)
    requires 0.0 <= a && 0.0 <= b
    ensures 0.0 <= a * b
  {
  }

  /** Two weighted scores bounded by their weights times 100 add up to less
      than 101 when the weights sum to less than 1.01. */
  lemma SumOfWeighted(alpha: real, beta: real, p: real, q: real)
    requires alpha + beta < 1.01
    requires 0.0 <= p <= alpha * 100.0 && 0.0 <= q <= beta * 100.0
    ensures 0.0 <= p + q < 101.0
  {
  }

  /** A blend of two scores in [0, 100] whose weights are non-negative and
      sum to less than 1.01 truncates into [0, 100]. */
  lemma BlendTruncInRange(alpha: real, beta: real, a: int, b: int)
    requires 0.0 <= alpha && 0.0 <= beta && alpha + beta < 1.01
    requires 0 <= a <= 100 && 0 <= b <= 100
    ensures 0 <= Combined(alpha, beta, a, b) <= 100
  {
    var p, q := alpha * a as real, beta * b as real;
    WeightedScoreBounds(alpha, a, p);
    WeightedScoreBounds(beta, b, q);
    SumOfWeighted(alpha, beta, p, q);
    TruncInRange(p + q);
  }

  /** Non-negative weights that sum to less than 1.01. */
  predicate NearUnit(w: Dict) {
    HasWeights(w) && 0.0 <= w[AlphaText] && 0.0 <= w[BetaImage] && w[AlphaText] + w[BetaImage] < 1.01
  }

  /** Balanced weights are non-negative and sum to at most 1.005. */
  lemma BalancedSum(w: Dict)
    requires Balanced(w)
    ensures w[AlphaText] + w[BetaImage] <= 1.005
    ensures NearUnit(w)
  {
  }

  /** Under non-negative weights summing to less than 1.01 the combined
      score is in [0, 100]. */
  lemma NearUnitScoreInRange(txt: Option<string>, img: Option<Picture>, w: Dict)
    requires NearUnit(w)
    ensures 0 <= Evaluate(txt, img, w).finalScore <= 100
  {
    var e := Evaluate(txt, img, w);
    BlendTruncInRange(w[AlphaText], w[BetaImage], e.textScore, e.imageScore);
  }

  /** The default weights 0.6 and 0.4 are non-negative and sum to 1. */
  lemma DefaultsNearUnit()
    ensures NearUnit(DefaultWeights)
  {
  }

  /** Under the default weights the combined score is in [0, 100]. */
  lemma DefaultScoreInRange(txt: Option<string>, img: Option<Picture>)
    ensures 0 <= Evaluate(txt, img, DefaultWeights).finalScore <= 100
  {
    DefaultsNearUnit();
    NearUnitScoreInRange(txt, img, DefaultWeights);
  }

  /** The weights an `auto_update` leaves behind sum to less than 1.01, so
      the combined score stays in [0, 100] after any number of updates. */
  lemma UpdatedWeightsNearUnit(files: Files, path: string, clock: real)
    ensures NearUnit(AutoUpdated(files, path, clock).info.weights)
  {
    AutoUpdatePersists(files, path, clock);
    BalancedSum(AutoUpdated(files, path, clock).info.weights);
  }

  /** The record appended to the session log. */
  function Record(txt: Option<string>, img: Option<Picture>, e: Evaluation, ts: real): Post {
    Post(OrEmpty(txt), Some(e.finalScore), Some(e.verdict), Some(ts), img)
  }

  /** `rank_feed(items)[:10]`. */
  function TopFeed(items: seq<Post>): (r: seq<Post>)
    ensures |r| <= 10
    ensures forall i :: 0 <= i < |r| ==> Accepted(r[i]) && r[i] in items
    ensures Descending(r)
    ensures |r| == if |RankFeed(items)| < 10 then |RankFeed(items)| else 10
    ensures r == RankFeed(items)[..|r|]
  {
    var ranked := RankFeed(items);
    RankFeedFromItems(items);
    var r := ranked[..if |ranked| < 10 then |ranked| else 10];
    assert forall i :: 0 <= i < |r| ==> r[i] == ranked[i] && ranked[i] in ranked;
    r
  }

  /** The session state: the log of evaluated posts, oldest first. */
  class Session {
    var items: seq<Post>

    constructor ()
      ensures items == []
    {
      items := [];
    }

    /** The "Analiz Et" handler: evaluate, then append exactly one record;
        earlier records are unchanged. */
    method Analyze(txt: Option<string>, img: Option<Picture>, w: Dict, ts: real) returns (e: Evaluation)
      requires HasWeights(w)
      modifies this
      ensures e == Evaluate(txt, img, w)
      ensures items == old(items) + [Record(txt, img, e, ts)]
    {
      e := Evaluate(txt, img, w);
      items := items + [Record(txt, img, e, ts)];
    }

    /** The posts the feed section shows. */
    function Shown(): (r: seq<Post>)
      reads this
      ensures |r| <= 10 && forall i :: 0 <= i < |r| ==> Accepted(r[i])
    {
      TopFeed(items)
    }
  }
}
