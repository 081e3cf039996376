/** The play recommendation for a score (`get_suggestion` in app.py). */
module Suggestion {

  /** The three recommendations; the source shows them as fixed display labels. */
  datatype Suggestion = Recommended | Cautious | NotRecommended

  /** Any integer is accepted, not only the scores 0 to 5 the calculator yields.
      The rules are tried in order; the contract states the resulting bands. */
  function GetSuggestion(score: int): (s: Suggestion)
    ensures s == Recommended <==> 4 <= score
    ensures s == Cautious <==> 2 <= score < 4
    ensures s == NotRecommended <==> score < 2
  {
    if score >= 4 then Recommended
    else if score >= 2 then Cautious
    else NotRecommended
  }

  /** How favourable a recommendation is: NotRecommended < Cautious < Recommended. */
  function Favour(s: Suggestion): nat
  {
    match s
    case NotRecommended => 0
    case Cautious => 1
    case Recommended => 2
  }

  /** A higher score never yields a less favourable recommendation. */
  lemma SuggestionMonotone(a: int, b: int)
    requires a <= b
    ensures Favour(GetSuggestion(a)) <= Favour(GetSuggestion(b))
  {
  }
}
