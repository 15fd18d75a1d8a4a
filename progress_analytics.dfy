/** The mood bands of the `ProgressAnalytics` component: one threshold ladder
    (8, 6, 4) shared by the badge colour and the badge label. */
module ProgressAnalytics {

  /** The band of a mood: 3 from 8 up, 2 from 6, 1 from 4, 0 below. */
  function Band(mood: int): (b: nat)
    ensures b <= 3
    ensures b == 3 <==> mood >= 8
    ensures b == 2 <==> 6 <= mood < 8
    ensures b == 1 <==> 4 <= mood < 6
    ensures b == 0 <==> mood < 4
  {
    if mood >= 8 then 3 else if mood >= 6 then 2 else if mood >= 4 then 1 else 0
  }

  const BandColors: seq<string> := ["danger", "warning", "info", "success"]
  const BandLabels: seq<string> := ["Needs attention", "Okay", "Good", "Excellent"]

  /** `getMoodColor`. */
  function MoodColor(mood: int): (c: string)
    ensures mood >= 8 ==> c == "success"
    ensures 6 <= mood < 8 ==> c == "info"
    ensures 4 <= mood < 6 ==> c == "warning"
    ensures mood < 4 ==> c == "danger"
  {
    if mood >= 8 then "success" else if mood >= 6 then "info" else if mood >= 4 then "warning" else "danger"
  }

  /** `getMoodLabel`. */
  function MoodLabel(mood: int): (l: string)
    ensures mood >= 8 ==> l == "Excellent"
    ensures 6 <= mood < 8 ==> l == "Good"
    ensures 4 <= mood < 6 ==> l == "Okay"
    ensures mood < 4 ==> l == "Needs attention"
  {
    if mood >= 8 then "Excellent" else if mood >= 6 then "Good" else if mood >= 4 then "Okay" else "Needs attention"
  }

  /** Colour and label always come from the same band, so a badge never
      pairs, say, a green colour with 'Okay'. */
  lemma ColorAndLabelAgree(mood: int)
    ensures MoodColor(mood) == BandColors[Band(mood)]
    ensures MoodLabel(mood) == BandLabels[Band(mood)]
  {
  }

  /** A higher mood never lands in a lower band. */
  lemma BandsAreMonotone(lower: int, higher: int)
    requires lower <= higher
    ensures Band(lower) <= Band(higher)
    ensures Band(lower) == Band(higher) ==> MoodColor(lower) == MoodColor(higher) && MoodLabel(lower) == MoodLabel(higher)
  {
    ColorAndLabelAgree(lower);
    ColorAndLabelAgree(higher);
  }

  /** The colours and the labels of different bands are different, so the
      colour alone tells the band. */
  lemma BandsAreDistinct(a: int, b: int)
    ensures MoodColor(a) == MoodColor(b) <==> Band(a) == Band(b)
    ensures MoodLabel(a) == MoodLabel(b) <==> Band(a) == Band(b)
  {
    ColorAndLabelAgree(a);
    ColorAndLabelAgree(b);
  }
}
