/**
 * The recommendation rule both location analyzers apply to their scores:
 * solar when the solar score beats the wind score by more than 15 points,
 * wind in the opposite case, and a hybrid system otherwise.
 */
module Recommendation {
  import opened JsMath

  datatype Choice = Solar | Wind | Both

  function Recommend(solarScore: real, windScore: real): (r: Choice)
    ensures r == Solar <==> solarScore > windScore + 15.0
    ensures r == Wind <==> windScore > solarScore + 15.0
    ensures r == Both <==> Abs(solarScore - windScore) <= 15.0
  {
    if solarScore > windScore + 15.0 then Solar
    else if windScore > solarScore + 15.0 then Wind
    else Both
  }

  /** Exchanging the two scores exchanges solar and wind. */
  lemma RecommendMirror(s: real, w: real)
    ensures Recommend(s, w) == Solar <==> Recommend(w, s) == Wind
    ensures Recommend(s, w) == Both <==> Recommend(w, s) == Both
  {
  }

  /** The band is strict: a 15-point lead is still a hybrid, anything more is not. */
  lemma RecommendBoundary()
    ensures Recommend(70.0, 55.0) == Both
    ensures Recommend(70.0, 54.0) == Solar
    ensures Recommend(70.0, 50.0) == Solar
    ensures Recommend(50.0, 70.0) == Wind
    ensures Recommend(60.0, 60.0) == Both
  {
  }
}
