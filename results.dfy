/** The labels the results screen derives from the aggregates: the
    engagement band and the dominant trait with its narrative. */
module ResultsLabels {
  import opened Aggregation

  /** The three engagement bands; the colour of the bar and the caption
      under it use the same two thresholds. */
  datatype Band = High | Moderate | Low

  function BandOf(avg: real): Band {
    if avg >= 4.0 then High else if avg >= 3.0 then Moderate else Low
  }

  function BandCaption(b: Band): string {
    match b
    case High => "High Engagement"
    case Moderate => "Moderate Engagement"
    case Low => "Low Engagement"
  }

  /** Order of the bands, lowest first. */
  function Level(b: Band): nat {
    match b
    case Low => 0
    case Moderate => 1
    case High => 2
  }

  /** The band is High exactly from 4 up, Moderate on [3, 4), Low below 3,
      and a higher average never gives a lower band.  The caption under the
      bar names the same band. */
  lemma BandThresholds(avg: real, other: real)
    ensures BandOf(avg) == High <==> 4.0 <= avg
    ensures BandOf(avg) == Moderate <==> 3.0 <= avg < 4.0
    ensures BandOf(avg) == Low <==> avg < 3.0
    ensures avg <= other ==> Level(BandOf(avg)) <= Level(BandOf(other))
    ensures BandCaption(BandOf(avg)) == "High Engagement" <==> 4.0 <= avg
    ensures BandCaption(BandOf(avg)) == "Moderate Engagement" <==> 3.0 <= avg < 4.0
    ensures BandCaption(BandOf(avg)) == "Low Engagement" <==> avg < 3.0
  {
  }

  const Contributor := "Contributor"

  /** The trait shown on the results screen. */
  function DominantTraitLabel(ranking: seq<Tally>): string {
    TopTraitOr(ranking, Contributor)
  }

  const DefaultNarrative := "a key contributor to the team."

  /** The sentence ending that describes the dominant trait. */
  function Narrative(traitLabel: string): string {
    if traitLabel == "Executor" then "goal-oriented and responsible."
    else if traitLabel == "Harmonizer" then "a team player and empathetic."
    else if traitLabel == "Guardian" then "safe, methodical and reliable."
    else if traitLabel == "Informer" then "a communicator and transparent."
    else DefaultNarrative
  }

  /** Only four labels have a narrative of their own; every other label,
      "Innovation" and the "Contributor" fallback among them, gets the default. */
  lemma NarrativeDefault(traitLabel: string)
    ensures Narrative(traitLabel) != DefaultNarrative <==>
              traitLabel in {"Executor", "Harmonizer", "Guardian", "Informer"}
    ensures Narrative("Innovation") == Narrative(Contributor) == DefaultNarrative
  {
  }

  /** With no answers at all the screen shows a Low band and falls back to
      "Contributor". */
  lemma EmptyStoreResults()
    ensures BandOf(EngagementAverage([])) == Low
    ensures DominantTraitLabel(Ranking([])) == Contributor
  {
  }
}
