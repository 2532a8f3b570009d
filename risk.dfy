/** `calculate_risk_level`: a score from 0 to 3 over the signal tags. */
module Risk {
  import opened Signals

  /** The highest score. */
  const MaxScore: int := 3

  /** The points a tag is worth: a bullish MACD cross 2, an oversold RSI 1, the others 0. */
  function Points(t: Tag): nat
  {
    match t
    case MacdBullishCross => 2
    case RsiOversold => 1
    case _ => 0
  }

  /** The points of each tag of `ts` present in `signals`, each counted once however often
      it appears. */
  function PresentPoints(ts: seq<Tag>, signals: seq<Tag>): nat
  {
    if ts == [] then 0 else (if ts[0] in signals then Points(ts[0]) else 0) + PresentPoints(ts[1..], signals)
  }

  /** The score of a signal list: the points of the distinct tags in it, capped at 3. */
  function RiskScore(signals: seq<Tag>): int
  {
    var p := PresentPoints(AllTags, signals);
    if p < MaxScore then p else MaxScore
  }

  /** `calculate_risk_level(signals)`: starts at 0, adds 2 for a bullish MACD cross and 1 for
      an oversold RSI, and caps the total at 3. */
  method CalculateRiskLevel(signals: seq<Tag>) returns (score: int)
    ensures score == RiskScore(signals)
    ensures 0 <= score <= MaxScore
  {
    var riskScore := 0;
    if MacdBullishCross in signals {
      riskScore := riskScore + 2;
    }
    if RsiOversold in signals {
      riskScore := riskScore + 1;
    }
    score := if riskScore < MaxScore then riskScore else MaxScore;
    RiskScoreUnfold(signals);
  }

  /** The score spelled out: 2 for a bullish cross, 1 for oversold, and the cap never binds. */
  lemma RiskScoreUnfold(signals: seq<Tag>)
    ensures RiskScore(signals)
         == (if MacdBullishCross in signals then 2 else 0) + (if RsiOversold in signals then 1 else 0)
  {
    var t1, t2, t3 := AllTags[1..], AllTags[2..], AllTags[3..];
    assert t1[1..] == t2 && t2[1..] == t3 && t3[1..] == [];
    assert PresentPoints(t3, signals) == 0 + PresentPoints([], signals);
    assert PresentPoints(t2, signals) == (if RsiOversold in signals then 1 else 0) + PresentPoints(t3, signals);
    assert PresentPoints(t1, signals) == 0 + PresentPoints(t2, signals);
  }

  /** The score lies in [0, 3], and the empty list scores 0. */
  lemma RiskRange(signals: seq<Tag>)
    ensures 0 <= RiskScore(signals) <= MaxScore
    ensures signals == [] ==> RiskScore(signals) == 0
  {
    RiskScoreUnfold(signals);
  }

  /** The score depends only on which tags are present: order and repeats do not matter. */
  lemma RiskByMembership(a: seq<Tag>, b: seq<Tag>)
    requires forall t :: t in a <==> t in b
    ensures RiskScore(a) == RiskScore(b)
  {
    RiskScoreUnfold(a);
    RiskScoreUnfold(b);
  }

  /** Bearish crosses and overbought readings add nothing, wherever they are added. */
  lemma RiskIgnores(a: seq<Tag>, b: seq<Tag>, t: Tag)
    requires t == MacdBearishCross || t == RsiOverbought
    ensures RiskScore(a + [t] + b) == RiskScore(a + b)
  {
    RiskScoreUnfold(a + [t] + b);
    RiskScoreUnfold(a + b);
    assert forall u :: u != t ==> (u in a + [t] + b <==> u in a + b);
  }

  /** Adding tags never lowers the score. */
  lemma RiskMonotone(a: seq<Tag>, b: seq<Tag>)
    ensures RiskScore(a) <= RiskScore(a + b)
  {
    RiskScoreUnfold(a);
    RiskScoreUnfold(a + b);
  }

  /** Over the lists `generate_signals` can return, the top score 3 means a bullish MACD
      cross together with an oversold RSI, and a score of 0 means neither fired. */
  lemma RiskOfSnapshot(s: Snapshot)
    ensures RiskScore(Expected(s)) == 3 <==> Fires(MacdBullishCross, s) && Fires(RsiOversold, s)
    ensures RiskScore(Expected(s)) == 0 <==> !Fires(MacdBullishCross, s) && !Fires(RsiOversold, s)
  {
    RiskScoreUnfold(Expected(s));
    ExpectedMember(s, MacdBullishCross);
    ExpectedMember(s, RsiOversold);
  }
}
