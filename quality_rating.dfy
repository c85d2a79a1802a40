/** The risk/return classifier of the evaluator-optimizer workflow
    (backend/aiagent/evaluator_optimizer.py): StockQualityRating and its
    from_scores rule. The LLM agents around it are foreign. */
module QualityRating {
  import opened Common

  /** StockQualityRating, an IntEnum. */
  datatype Rating = LowRisk | HighReturn | Balanced

  function Rank(r: Rating): (n: int)
    ensures 1 <= n <= 3
  {
    match r
    case LowRisk => 1
    case HighReturn => 2
    case Balanced => 3
  }

  /** The rating the optimizer must reach. */
  const MinRating: Rating := Balanced

  /** from_scores: the branches in order, the balanced one first. */
  function FromScores(risk: int, ret: int): (r: Option<Rating>)
    ensures r == Some(Balanced) <==> risk <= 3 && ret >= 8
    ensures r == Some(LowRisk) <==> risk <= 2 && ret < 8
    ensures r == Some(HighReturn) <==> risk >= 4 && ret >= 9
    ensures r.None? <==> (risk == 3 && ret < 8) || (risk >= 4 && ret < 9)
  {
    if risk <= 3 && ret >= 8 then Some(Balanced)
    else if risk <= 2 then Some(LowRisk)
    else if ret >= 9 then Some(HighReturn)
    else None
  }

  /** Only the balanced rating meets the optimizer's minimum, and the ranks are ordered
      LowRisk < HighReturn < Balanced. */
  lemma MeetsMinimum(risk: int, ret: int)
    ensures FromScores(risk, ret).Some? && Rank(FromScores(risk, ret).value) >= Rank(MinRating)
      <==> risk <= 3 && ret >= 8
    ensures Rank(LowRisk) < Rank(HighReturn) < Rank(Balanced)
  {
  }

  /** A better return score never lowers a balanced rating, and a lower risk score never
      loses one. */
  lemma BalancedMonotone(risk: int, ret: int, risk': int, ret': int)
    requires FromScores(risk, ret) == Some(Balanced)
    requires risk' <= risk && ret' >= ret
    ensures FromScores(risk', ret') == Some(Balanced)
  {
  }
}
