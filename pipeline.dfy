/** The evaluation step of the "Analiz Et" handler in app.py: text and
    image scores, the weighted combination, the verdict and the money. */
module Pipeline {
  import opened Wrappers
  import opened Numeric
  import opened Scoring
  import opened Moderation
  import opened Money
  import opened Weights

  /** What one press of "Analiz Et" computes and shows. */
  datatype Evaluation = Evaluation(textScore: int, imageScore: int, finalScore: int, verdict: Verdict, money: real)

  /** `int(alpha * sText + beta * sImg)`. */
  function Combined(alpha: real, beta: real, sText: int, sImg: int): int {
    Trunc(alpha * sText as real + beta * sImg as real)
  }

  /** The score, verdict and money of a submission under weights `w`. A post
      without an image has image score 0. */
  function Evaluate(txt: Option<string>, img: Option<Picture>, w: Dict): (e: Evaluation)
    requires HasWeights(w)
    ensures 0 <= e.textScore <= 100 && 0 <= e.imageScore <= 100
    ensures img.None? ==> e.imageScore == 0
    ensures e.money == ToMoney(e.finalScore, w[MoneyCoef])
    ensures e.finalScore <= 0 ==> e.money == 0.0
    ensures e.verdict == Moderate(txt, e.imageScore)
    ensures e.textScore == ScoreText(txt)
    ensures img.Some? ==> e.imageScore == ScoreImage(img.value.stats)
    ensures e.finalScore == Combined(w[AlphaText], w[BetaImage], e.textScore, e.imageScore)
  {
    var sText := ScoreText(txt);
    var sImg := match img case None => 0 case Some(p) => ScoreImage(p.stats);
    var finalScore := Combined(w[AlphaText], w[BetaImage], sText, sImg);
    var verdict := Moderate(txt, sImg);
    Evaluation(sText, sImg, finalScore, verdict, ToMoney(finalScore, w[MoneyCoef]))
  }
}
