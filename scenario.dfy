/** The ranking of the behavioural answers of a worked session: b1, b2 and
    b4 choose option A, b3 and b5 option B. */
module SurveyScenario {
  import opened Records
  import opened SurveyTypes
  import opened Catalog
  import opened Aggregation
  import opened ResultsLabels
  import opened SurveySession

  const ScenarioPicks: seq<Pick> := [OptionA, OptionA, OptionB, OptionA, OptionB]

  const ScenarioAnswers: seq<string> := ["Executor", "Harmonizer", "Innovation", "Executor", "Harmonizer"]

  /** The labels those picks store, in the order b1..b5. */
  lemma ScenarioLabels()
    ensures forall i :: 0 <= i < 5 ==>
              PickedOption(BehavioralQuestions[i], ScenarioPicks[i]).traitLabel == ScenarioAnswers[i]
  {
  }

  lemma DistinctLabels()
    ensures "Executor" != "Harmonizer" && "Executor" != "Innovation" && "Harmonizer" != "Innovation"
  {
    assert |"Executor"| != |"Harmonizer"| && |"Executor"| != |"Innovation"|;
    assert "Harmonizer"[0] != "Innovation"[0];
  }

  lemma TwoAnswers(e: string, h: string)
    requires e != h
    ensures CountsOf([e, h]) == [(e, 1), (h, 1)]
  {
    CountsNew([], [], e);
    assert [] + [e] == [e];
    assert Keys([(e, 1)]) == [e];
    CountsNew([e], [(e, 1)], h);
    assert [e] + [h] == [e, h];
  }

  /** Three distinct labels, each answered once, in answer order. */
  lemma ThreeAnswers(e: string, h: string, n: string)
    requires e != h && e != n && h != n
    ensures CountsOf([e, h, n]) == [(e, 1), (h, 1), (n, 1)]
  {
    TwoAnswers(e, h);
    assert Keys([(e, 1), (h, 1)]) == [e, h];
    CountsNew([e, h], [(e, 1), (h, 1)], n);
    assert [e, h] + [n] == [e, h, n];
  }

  /** Three distinct labels make a record with distinct keys, and adding one
      to the first or second count changes only that entry. */
  lemma ThreeEntries(e: string, h: string, n: string, a: nat, b: nat, c: nat)
    requires e != h && e != n && h != n
    ensures DistinctKeys([(e, a), (h, b), (n, c)])
    ensures [(e, a), (h, b), (n, c)][0 := (e, a + 1)] == [(e, a + 1), (h, b), (n, c)]
    ensures [(e, a), (h, b), (n, c)][1 := (h, b + 1)] == [(e, a), (h, b + 1), (n, c)]
  {
  }

  /** One more answer for the first of three counted labels. */
  lemma BumpFirst(vs: seq<string>, e: string, h: string, n: string, a: nat, b: nat, c: nat)
    requires e != h && e != n && h != n
    requires CountsOf(vs) == [(e, a), (h, b), (n, c)]
    ensures CountsOf(vs + [e]) == [(e, a + 1), (h, b), (n, c)]
  {
    ThreeEntries(e, h, n, a, b, c);
    CountsSeen(vs, [(e, a), (h, b), (n, c)], 0);
  }

  /** One more answer for the second of three counted labels. */
  lemma BumpSecond(vs: seq<string>, e: string, h: string, n: string, a: nat, b: nat, c: nat)
    requires e != h && e != n && h != n
    requires CountsOf(vs) == [(e, a), (h, b), (n, c)]
    ensures CountsOf(vs + [h]) == [(e, a), (h, b + 1), (n, c)]
  {
    ThreeEntries(e, h, n, a, b, c);
    CountsSeen(vs, [(e, a), (h, b), (n, c)], 1);
  }

  lemma FourAnswers(e: string, h: string, n: string)
    requires e != h && e != n && h != n
    ensures CountsOf([e, h, n, e]) == [(e, 2), (h, 1), (n, 1)]
  {
    ThreeAnswers(e, h, n);
    BumpFirst([e, h, n], e, h, n, 1, 1, 1);
    assert [e, h, n] + [e] == [e, h, n, e];
  }

  lemma FiveAnswers(e: string, h: string, n: string)
    requires e != h && e != n && h != n
    ensures CountsOf([e, h, n, e, h]) == [(e, 2), (h, 2), (n, 1)]
  {
    FourAnswers(e, h, n);
    BumpSecond([e, h, n, e], e, h, n, 2, 1, 1);
    assert [e, h, n, e] + [h] == [e, h, n, e, h];
  }

  /** Two labels answered twice and one once: the tie goes to the label
      answered first. */
  lemma FiveAnswersRanking(e: string, h: string, n: string)
    requires e != h && e != n && h != n
    ensures Ranking([e, h, n, e, h]) == [(e, 2), (h, 2), (n, 1)]
  {
    var c: seq<Tally> := [(e, 2), (h, 2), (n, 1)];
    FiveAnswers(e, h, n);
    assert SortByCount(c[2..]) == [(n, 1)];
    assert SortByCount(c[1..]) == [(h, 2), (n, 1)];
  }

  /** Executor and Harmonizer tie at two; Executor was answered first (b1)
      and leads, so the results screen shows Executor with its narrative. */
  lemma ScenarioRanking()
    ensures Ranking(ScenarioAnswers) == [("Executor", 2), ("Harmonizer", 2), ("Innovation", 1)]
    ensures DominantTraitLabel(Ranking(ScenarioAnswers)) == "Executor"
    ensures Narrative(DominantTraitLabel(Ranking(ScenarioAnswers))) == "goal-oriented and responsible."
  {
    DistinctLabels();
    FiveAnswersRanking("Executor", "Harmonizer", "Innovation");
  }
}
