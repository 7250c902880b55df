/** The fixed question catalog: twelve engagement questions, five
    forced-choice behavioural questions and two situational-judgment
    scenarios, in the order they are asked. */
module Catalog {
  import opened SurveyTypes

  const EngagementQuestions: seq<EngagementQuestion> := [
    EngagementQuestion("e1", "क्या आपको लगता है कि आपके काम का कोई उद्देश्य है?",
      "Do you feel your work has a purpose?", "Organizational Engagement"),
    EngagementQuestion("e2", "क्या आप अपनी भूमिका और जिम्मेदारियों को स्पष्ट रूप से समझते हैं?",
      "Do you clearly understand your role and responsibilities?", "Job Engagement"),
    EngagementQuestion("e3", "क्या आपका काम आपको ऊर्जावान बनाता है?",
      "Does your work energize you?", "Vigor"),
    EngagementQuestion("e4", "क्या आप काम चुनौतीपूर्ण होने पर भी डटे रहते हैं?",
      "Do you persist even when work is challenging?", "Dedication"),
    EngagementQuestion("e5", "क्या आपके पास अपना काम करने के लिए आवश्यक सभी उपकरण और संसाधन हैं?",
      "Do you have all the tools and resources needed to do your job?", "Organizational Support"),
    EngagementQuestion("e6", "क्या आपको हाल ही में अच्छे काम के लिए सराहना मिली है?",
      "Have you received recognition for good work recently?", "Recognition"),
    EngagementQuestion("e7", "क्या आपके टीम के सदस्य एक-दूसरे की मदद करते हैं?",
      "Do your team members help one another?", "Teamwork"),
    EngagementQuestion("e8", "क्या आप प्रबंधन के निर्णयों को समझते हैं?",
      "Do you understand management’s decisions?", "Communication"),
    EngagementQuestion("e9", "क्या आप नियमित रूप से नए विचार और सुझाव साझा करते हैं?",
      "Do you share new ideas and suggestions regularly?", "Innovation"),
    EngagementQuestion("e10", "क्या आप कभी अपने काम में इतने व्यस्त हो जाते हैं कि आपको समय का पता ही नहीं चलता?",
      "Do you ever get so involved in your work that you lose track of time?", "Absorption"),
    EngagementQuestion("e11", "क्या आपको लगता है कि आपका काम आपके जीवन में संतुलन लाता है?",
      "Do you feel your work brings balance to your life?", "Well-being"),
    EngagementQuestion("e12", "क्या आपको समय पर सुरक्षा अपडेट और निर्देश मिलते हैं?",
      "Do you receive timely safety updates and instructions?", "Welfare/Environment")
  ]

  const BehavioralQuestions: seq<BehavioralQuestion> := [
    BehavioralQuestion("b1", "When under pressure at work, which is more likely true for you?",
      BehavioralOption("I tend to complete tasks faster, even if they are not perfect.", "Executor"),
      BehavioralOption("I slow down to ensure every detail is correct.", "Guardian")),
    BehavioralQuestion("b2", "If your coworker isn’t performing well, what would you most likely do?",
      BehavioralOption("Take on extra work myself without making a fuss.", "Harmonizer"),
      BehavioralOption("Tell the supervisor so they can intervene.", "Informer")),
    BehavioralQuestion("b3", "Which of these best matches your natural work style?",
      BehavioralOption("I prefer to strictly follow routines and rules.", "Guardian"),
      BehavioralOption("I like to adapt and try new ways to do my tasks.", "Innovation")),
    BehavioralQuestion("b4", "If you make a mistake during your shift, how do you usually react?",
      BehavioralOption("I quietly fix it and move on.", "Executor"),
      BehavioralOption("I discuss it with the team to ensure it doesn’t happen again.", "Informer")),
    BehavioralQuestion("b5", "What motivates you more at work?",
      BehavioralOption("Receiving praise from supervisors.", "Harmonizer"),
      BehavioralOption("Knowing that my work helps the team succeed.", "Harmonizer"))
  ]

  const SjtQuestions: seq<SjtQuestion> := [
    SjtQuestion("s1", "You notice your colleague using outdated tools, which might affect quality. What would you do?", [
      SjtOption("A", "Inform the supervisor immediately to avoid defects.", "High Initiative"),
      SjtOption("B", "Quietly give your own tools for the day and report later.", "Balanced Adaptability"),
      SjtOption("C", "Wait and see if the quality actually suffers before acting.", "Risk-Averse"),
      SjtOption("D", "Raise the issue in the next team meeting as a process improvement point.", "Strategic")]),
    SjtQuestion("s2", "Your manager forgets to inform your team about a sudden schedule change. Half your team misses the shift.", [
      SjtOption("A", "Tell the team individually about future alerts.", "Teamwork"),
      SjtOption("B", "Raise it in the next feedback session with the manager.", "Communicative"),
      SjtOption("C", "Escalate to HR and demand accountability.", "Risk-Averse"),
      SjtOption("D", "Remind the manager to create a WhatsApp group for timely updates.", "Strategic")])
  ]

  /** The two buttons of a behavioural question. */
  datatype Pick = OptionA | OptionB

  function PickedOption(q: BehavioralQuestion, pick: Pick): BehavioralOption {
    match pick
    case OptionA => q.optionA
    case OptionB => q.optionB
  }

  /* What the session logic reads from the catalog: the ids, the trait label
     of each behavioural option and the keys of each scenario's options.
     The lemmas below show that each table is the corresponding projection
     of the records above. */

  function EngagementIds(): seq<string> {
    ["e1", "e2", "e3", "e4", "e5", "e6", "e7", "e8", "e9", "e10", "e11", "e12"]
  }

  function BehavioralIds(): seq<string> {
    ["b1", "b2", "b3", "b4", "b5"]
  }

  /** The trait labels of options A and B of each behavioural question. */
  function BehavioralTraits(): seq<(string, string)> {
    [("Executor", "Guardian"), ("Harmonizer", "Informer"), ("Guardian", "Innovation"),
     ("Executor", "Informer"), ("Harmonizer", "Harmonizer")]
  }

  function SjtIds(): seq<string> {
    ["s1", "s2"]
  }

  function SjtKeys(): seq<seq<string>> {
    [["A", "B", "C", "D"], ["A", "B", "C", "D"]]
  }

  /** The label that pick `pick` on behavioural question `i` stores. */
  function PickedTrait(i: nat, pick: Pick): string
    requires i < |BehavioralTraits()|
  {
    match pick
    case OptionA => BehavioralTraits()[i].0
    case OptionB => BehavioralTraits()[i].1
  }

  /** The engagement questions are e1..e12, in that order. */
  lemma EngagementCatalog()
    ensures |EngagementQuestions| == |EngagementIds()| == 12
    ensures forall i :: 0 <= i < |EngagementQuestions| ==> EngagementQuestions[i].id == EngagementIds()[i]
  {
  }

  /** The behavioural questions are b1..b5, in that order, and their options
      carry the labels of `BehavioralTraits`. */
  lemma BehavioralCatalog()
    ensures |BehavioralQuestions| == |BehavioralIds()| == |BehavioralTraits()| == 5
    ensures forall i :: 0 <= i < |BehavioralQuestions| ==>
              && BehavioralQuestions[i].id == BehavioralIds()[i]
              && BehavioralQuestions[i].optionA.traitLabel == BehavioralTraits()[i].0
              && BehavioralQuestions[i].optionB.traitLabel == BehavioralTraits()[i].1
  {
  }

  /** The scenarios are s1 and s2, in that order, and their options carry the
      keys of `SjtKeys`. */
  lemma SjtCatalog()
    ensures |SjtQuestions| == |SjtIds()| == |SjtKeys()| == 2
    ensures forall i :: 0 <= i < |SjtQuestions| ==>
              && SjtQuestions[i].id == SjtIds()[i]
              && |SjtQuestions[i].options| == |SjtKeys()[i]|
              && forall j :: 0 <= j < |SjtKeys()[i]| ==> SjtQuestions[i].options[j].key == SjtKeys()[i][j]
  {
  }

  /** Choosing an option stores the label the catalog gives that option. */
  lemma PickedTraitOfCatalog(i: nat, pick: Pick)
    requires i < |BehavioralQuestions|
    ensures i < |BehavioralTraits()|
    ensures PickedTrait(i, pick) == PickedOption(BehavioralQuestions[i], pick).traitLabel
  {
    BehavioralCatalog();
  }

  /** The trait labels the behavioural options carry. */
  const KnownTraits: set<string> := {"Executor", "Guardian", "Harmonizer", "Informer", "Innovation"}

  /** `traitLabel` is what one of the two options of question `id` stores. */
  predicate IsBehavioralAnswer(id: string, traitLabel: string) {
    exists i, pick :: 0 <= i < |BehavioralIds()| && BehavioralIds()[i] == id && PickedTrait(i, pick) == traitLabel
  }

  /** `key` is the key of one of the options of scenario `id`. */
  predicate IsSjtAnswer(id: string, key: string) {
    exists i :: 0 <= i < |SjtIds()| && SjtIds()[i] == id && key in SjtKeys()[i]
  }

  /** No id is used twice, within a catalog or across the three. */
  lemma QuestionIdsUnique()
    ensures forall i, j :: 0 <= i < j < |EngagementIds() + BehavioralIds() + SjtIds()| ==>
              (EngagementIds() + BehavioralIds() + SjtIds())[i] != (EngagementIds() + BehavioralIds() + SjtIds())[j]
  {
  }

  lemma TraitsAreKnown()
    ensures forall q :: q in BehavioralQuestions ==> q.optionA.traitLabel in KnownTraits && q.optionB.traitLabel in KnownTraits
  {
  }

  /** Every stored behavioural answer is one of the five known labels; none of
      them is empty or holds a comma. */
  lemma BehavioralAnswerIsKnown(id: string, traitLabel: string)
    requires IsBehavioralAnswer(id, traitLabel)
    ensures traitLabel in KnownTraits && traitLabel != "" && ',' !in traitLabel
  {
  }

  /** Both options of b5 carry "Harmonizer": either choice stores the same value. */
  lemma B5StoresHarmonizer()
    ensures BehavioralQuestions[4].id == "b5"
    ensures BehavioralQuestions[4].optionA.traitLabel == BehavioralQuestions[4].optionB.traitLabel == "Harmonizer"
    ensures forall t :: IsBehavioralAnswer("b5", t) ==> t == "Harmonizer"
  {
  }

  /** Each scenario offers four options keyed A, B, C, D. */
  lemma SjtOptionKeys()
    ensures forall q :: q in SjtQuestions ==>
              |q.options| == 4 &&
              q.options[0].key == "A" && q.options[1].key == "B" &&
              q.options[2].key == "C" && q.options[3].key == "D"
  {
  }

  /** Engagement ids carry no comma, so the CSV header splits into exactly its fields. */
  lemma EngagementIdsHaveNoComma()
    ensures forall i :: 0 <= i < |EngagementIds()| ==> ',' !in EngagementIds()[i] && EngagementIds()[i] != ""
  {
  }
}
