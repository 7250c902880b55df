/** The session engine: the state cells of the application component and
    the handlers that change them.  Selecting an answer and the advance that
    follows it are one step here. */
module SurveySession {
  import opened Records
  import opened SurveyTypes
  import opened Catalog
  import opened Aggregation
  import opened ResultsLabels
  import opened CsvExport

  /** Questions `ids[..n]` all have a stored answer. */
  ghost predicate Answered<V>(m: Entries<V>, ids: seq<string>, n: nat) {
    forall i :: 0 <= i < n && i < |ids| ==> ids[i] in Keys(m)
  }

  /** Every stored answer is one the screens can produce: engagement ids with
      a Likert value, each behavioural id with the label of one of its two
      options, each scenario id with the key of one of its options. */
  ghost predicate StoreValid(s: SurveyState) {
    && DistinctKeys(s.engagementResponses)
    && DistinctKeys(s.behavioralResponses)
    && DistinctKeys(s.sjtResponses)
    && (forall i :: 0 <= i < |s.engagementResponses| ==> s.engagementResponses[i].0 in EngagementIds())
    && (forall i :: 0 <= i < |s.behavioralResponses| ==>
          IsBehavioralAnswer(s.behavioralResponses[i].0, s.behavioralResponses[i].1))
    && (forall i :: 0 <= i < |s.sjtResponses| ==> IsSjtAnswer(s.sjtResponses[i].0, s.sjtResponses[i].1))
  }

  lemma AnsweredAfterPut<V>(m: Entries<V>, ids: seq<string>, n: nat, v: V)
    requires Answered(m, ids, n) && n < |ids|
    ensures Answered(Put(m, ids[n], v), ids, n + 1)
  {
    PutKeys(m, ids[n], v);
  }

  /** Storing a legal answer keeps the store valid. */
  lemma PutEngagementValid(s: SurveyState, k: string, v: Likert)
    requires StoreValid(s) && k in EngagementIds()
    ensures StoreValid(s.(engagementResponses := Put(s.engagementResponses, k, v)))
  {
    var m := s.engagementResponses;
    var r := Put(m, k, v);
    PutKeys(m, k, v);
    forall i | 0 <= i < |r|
      ensures r[i].0 in EngagementIds()
    {
      assert Keys(r)[i] == r[i].0;
    }
  }

  lemma PutBehavioralValid(s: SurveyState, k: string, t: string)
    requires StoreValid(s) && IsBehavioralAnswer(k, t)
    ensures StoreValid(s.(behavioralResponses := Put(s.behavioralResponses, k, t)))
  {
    var m := s.behavioralResponses;
    var r := Put(m, k, t);
    PutKeys(m, k, t);
    forall i | 0 <= i < |r|
      ensures IsBehavioralAnswer(r[i].0, r[i].1)
    {
      if i < |m| && m[i].0 != k {
        assert r[i] == m[i];
      } else {
        assert r[i] == (k, t);
      }
    }
  }

  lemma PutSjtValid(s: SurveyState, k: string, key: string)
    requires StoreValid(s) && IsSjtAnswer(k, key)
    ensures StoreValid(s.(sjtResponses := Put(s.sjtResponses, k, key)))
  {
    var m := s.sjtResponses;
    var r := Put(m, k, key);
    PutKeys(m, k, key);
    forall i | 0 <= i < |r|
      ensures IsSjtAnswer(r[i].0, r[i].1)
    {
      if i < |m| && m[i].0 != k {
        assert r[i] == m[i];
      } else {
        assert r[i] == (k, key);
      }
    }
  }

  ghost predicate AllAnswered<V>(m: Entries<V>, ids: seq<string>) {
    Answered(m, ids, |ids|)
  }

  /** The invariant of the session on plain values.  In each question phase
      `step` indexes that phase's catalog and every earlier question of the
      phase, and every question of the earlier phases, has an answer; on the
      results screen all are answered. */
  ghost predicate Consistent(phase: Phase, step: nat, s: SurveyState) {
    && StoreValid(s)
    && match phase
       case Engagement =>
         step < |EngagementIds()| && Answered(s.engagementResponses, EngagementIds(), step)
       case Behavioral =>
         && step < |BehavioralIds()|
         && AllAnswered(s.engagementResponses, EngagementIds())
         && Answered(s.behavioralResponses, BehavioralIds(), step)
       case Situational =>
         && step < |SjtIds()|
         && AllAnswered(s.engagementResponses, EngagementIds())
         && AllAnswered(s.behavioralResponses, BehavioralIds())
         && Answered(s.sjtResponses, SjtIds(), step)
       case Results =>
         && AllAnswered(s.engagementResponses, EngagementIds())
         && AllAnswered(s.behavioralResponses, BehavioralIds())
         && AllAnswered(s.sjtResponses, SjtIds())
       case _ => true
  }

  /** One engagement answer keeps the session consistent at the next question,
      or at the first behavioural question after the last one. */
  lemma EngagementStep(s: SurveyState, step: nat, value: Likert)
    requires Consistent(Engagement, step, s)
    ensures var s' := s.(engagementResponses := Put(s.engagementResponses, EngagementIds()[step], value));
      && (step < |EngagementIds()| - 1 ==> Consistent(Engagement, step + 1, s'))
      && (step == |EngagementIds()| - 1 ==> Consistent(Behavioral, 0, s'))
  {
    PutEngagementValid(s, EngagementIds()[step], value);
    AnsweredAfterPut(s.engagementResponses, EngagementIds(), step, value);
  }

  lemma BehavioralStep(s: SurveyState, step: nat, pick: Pick)
    requires Consistent(Behavioral, step, s)
    ensures var t := PickedTrait(step, pick);
      var s' := s.(behavioralResponses := Put(s.behavioralResponses, BehavioralIds()[step], t));
      && (step < |BehavioralIds()| - 1 ==> Consistent(Behavioral, step + 1, s'))
      && (step == |BehavioralIds()| - 1 ==> Consistent(Situational, 0, s'))
  {
    var t := PickedTrait(step, pick);
    assert IsBehavioralAnswer(BehavioralIds()[step], t);
    PutBehavioralValid(s, BehavioralIds()[step], t);
    AnsweredAfterPut(s.behavioralResponses, BehavioralIds(), step, t);
  }

  lemma SjtStep(s: SurveyState, step: nat, option: nat)
    requires Consistent(Situational, step, s)
    requires option < |SjtKeys()[step]|
    ensures var k := SjtKeys()[step][option];
      var s' := s.(sjtResponses := Put(s.sjtResponses, SjtIds()[step], k));
      && (step < |SjtIds()| - 1 ==> Consistent(Situational, step + 1, s'))
      && (step == |SjtIds()| - 1 ==> Consistent(Results, 0, s'))
  {
    var k := SjtKeys()[step][option];
    assert IsSjtAnswer(SjtIds()[step], k);
    PutSjtValid(s, SjtIds()[step], k);
    AnsweredAfterPut(s.sjtResponses, SjtIds(), step, k);
  }

  class Session {
    var phase: Phase
    var user: Option<UserProfile>
    var step: nat
    var survey: SurveyState

    ghost predicate Valid()
      reads this
    {
      Consistent(phase, step, survey)
    }

    /** The initial state cells. */
    constructor ()
      ensures Valid()
      ensures phase == Welcome && user == None && step == 0
      ensures survey == SurveyState([], [], [])
    {
      phase := Welcome;
      user := None;
      step := 0;
      survey := SurveyState([], [], []);
    }

    /** The Start button: both fields must be non-empty; then the profile is
        set with the fixed department and the engagement phase begins at its
        first question.  The stored answers are not cleared. */
    method StartSurvey(name: string, employeeId: string) returns (accepted: bool)
      requires Valid() && phase == Welcome
      modifies this
      ensures Valid()
      ensures accepted <==> name != "" && employeeId != ""
      ensures accepted ==> user == Some(UserProfile(name, employeeId, "Production")) && phase == Engagement && step == 0
      ensures !accepted ==> user == old(user) && phase == old(phase) && step == old(step)
      ensures survey == old(survey)
    {
      accepted := name != "" && employeeId != "";
      if accepted {
        user := Some(UserProfile(name, employeeId, "Production"));
        phase := Engagement;
        step := 0;
      }
    }

    /** The id of the question on screen: each question screen indexes its
        catalog with `step`, and the index is always in range. */
    function CurrentQuestionId(): (id: string)
      reads this
      requires Valid() && phase in {Engagement, Behavioral, Situational}
      ensures phase == Engagement ==> step < |EngagementQuestions| && id == EngagementIds()[step]
      ensures phase == Behavioral ==> step < |BehavioralQuestions| && id == BehavioralIds()[step]
      ensures phase == Situational ==> step < |SjtQuestions| && id == SjtIds()[step]
    {
      EngagementCatalog();
      BehavioralCatalog();
      SjtCatalog();
      match phase
      case Engagement => EngagementQuestions[step].id
      case Behavioral => BehavioralQuestions[step].id
      case Situational => SjtQuestions[step].id
    }

    /** Moves to the next question of a phase with `count` questions, or to
        question 0 of `next` after the last one. */
    method Advance(count: nat, next: Phase)
      requires step < count
      modifies this`step, this`phase
      ensures old(step) < count - 1 ==> phase == old(phase) && step == old(step) + 1
      ensures old(step) == count - 1 ==> phase == next && step == 0
    {
      if step < count - 1 {
        step := step + 1;
      } else {
        phase := next;
        step := 0;
      }
    }

    /** A Likert button: stores the value under the current question's id
        and advances. */
    method SelectLikert(value: Likert)
      requires Valid() && phase == Engagement
      modifies this
      ensures Valid()
      ensures survey == old(survey).(engagementResponses :=
                Put(old(survey.engagementResponses), EngagementIds()[old(step)], value))
      ensures Lookup(survey.engagementResponses, EngagementIds()[old(step)]) == Some(value)
      ensures forall id :: id != EngagementIds()[old(step)] ==>
                Lookup(survey.engagementResponses, id) == Lookup(old(survey.engagementResponses), id)
      ensures user == old(user)
      ensures old(step) < |EngagementIds()| - 1 ==> phase == Engagement && step == old(step) + 1
      ensures old(step) == |EngagementIds()| - 1 ==> phase == Behavioral && step == 0
    {
      var id := EngagementIds()[step];
      var m := survey.engagementResponses;
      EngagementStep(survey, step, value);
      PutLookupOthers(m, id, value);
      survey := survey.(engagementResponses := Put(m, id, value));
      Advance(|EngagementIds()|, Behavioral);
    }

    /** A behavioural option: stores the trait label it carries and advances. */
    method SelectBehavioral(pick: Pick)
      requires Valid() && phase == Behavioral
      modifies this
      ensures Valid()
      ensures survey == old(survey).(behavioralResponses :=
                Put(old(survey.behavioralResponses), BehavioralIds()[old(step)],
                    PickedTrait(old(step), pick)))
      ensures Lookup(survey.behavioralResponses, BehavioralIds()[old(step)]) == Some(PickedTrait(old(step), pick))
      ensures forall id :: id != BehavioralIds()[old(step)] ==>
                Lookup(survey.behavioralResponses, id) == Lookup(old(survey.behavioralResponses), id)
      ensures user == old(user)
      ensures old(step) < |BehavioralIds()| - 1 ==> phase == Behavioral && step == old(step) + 1
      ensures old(step) == |BehavioralIds()| - 1 ==> phase == Situational && step == 0
    {
      var id := BehavioralIds()[step];
      var t := PickedTrait(step, pick);
      var m := survey.behavioralResponses;
      BehavioralStep(survey, step, pick);
      PutLookupOthers(m, id, t);
      survey := survey.(behavioralResponses := Put(m, id, t));
      Advance(|BehavioralIds()|, Situational);
    }

    /** A scenario option: stores its key and advances. */
    method SelectSjt(option: nat)
      requires Valid() && phase == Situational
      requires option < |SjtKeys()[step]|
      modifies this
      ensures Valid()
      ensures survey == old(survey).(sjtResponses :=
                Put(old(survey.sjtResponses), SjtIds()[old(step)], SjtKeys()[old(step)][option]))
      ensures Lookup(survey.sjtResponses, SjtIds()[old(step)]) == Some(SjtKeys()[old(step)][option])
      ensures forall id :: id != SjtIds()[old(step)] ==>
                Lookup(survey.sjtResponses, id) == Lookup(old(survey.sjtResponses), id)
      ensures user == old(user)
      ensures old(step) < |SjtIds()| - 1 ==> phase == Situational && step == old(step) + 1
      ensures old(step) == |SjtIds()| - 1 ==> phase == Results && step == 0
    {
      var id := SjtIds()[step];
      var k := SjtKeys()[step][option];
      var m := survey.sjtResponses;
      SjtStep(survey, step, option);
      PutLookupOthers(m, id, k);
      survey := survey.(sjtResponses := Put(m, id, k));
      Advance(|SjtIds()|, Results);
    }

    /** The Back button of the engagement screen; it is disabled on the
        first question. */
    method Back()
      requires Valid() && phase == Engagement
      modifies this
      ensures Valid()
      ensures step == if old(step) > 0 then old(step) - 1 else 0
      ensures phase == old(phase) && user == old(user) && survey == old(survey)
    {
      if step != 0 {
        step := step - 1;
      }
    }

    /** The admin button of the header, shown on every screen but the dashboard. */
    method OpenDashboard()
      requires Valid() && phase != Dashboard
      modifies this
      ensures Valid()
      ensures phase == Dashboard
      ensures step == old(step) && user == old(user) && survey == old(survey)
    {
      phase := Dashboard;
    }

    /** "Back to Home" on the results screen and "Exit Admin" on the
        dashboard: only the phase changes. */
    method ReturnToWelcome()
      requires Valid() && phase in {Results, Dashboard}
      modifies this
      ensures Valid()
      ensures phase == Welcome
      ensures step == old(step) && user == old(user) && survey == old(survey)
    {
      phase := Welcome;
    }

    /** What the results screen shows.  Every question has been answered by
        then, so the average lies in [1, 5] and the dominant trait is a real
        label, never the fallback: the first label of the ranking, so among
        labels answered equally often the one answered first. */
    method ResultsSummary() returns (avg: real, band: Band, caption: string, dominant: string, narrative: string)
      requires Valid() && phase == Results
      ensures avg == EngagementAverage(survey.engagementResponses)
      ensures 1.0 <= avg <= 5.0
      ensures band == BandOf(avg) && caption == BandCaption(band)
      ensures dominant == DominantTraitLabel(Ranking(Values(survey.behavioralResponses)))
      ensures dominant in KnownTraits && dominant in Values(survey.behavioralResponses)
      ensures forall t :: t in Values(survey.behavioralResponses) ==>
                multiset(Values(survey.behavioralResponses))[t] <= multiset(Values(survey.behavioralResponses))[dominant]
      ensures forall t :: (t in Values(survey.behavioralResponses) &&
                           multiset(Values(survey.behavioralResponses))[t] == multiset(Values(survey.behavioralResponses))[dominant]) ==>
                Position(Values(survey.behavioralResponses), dominant) <= Position(Values(survey.behavioralResponses), t)
      ensures narrative == Narrative(dominant)
    {
      var beh := survey.behavioralResponses;
      avg := EngagementAverage(survey.engagementResponses);
      assert EngagementIds()[0] in Keys(survey.engagementResponses);
      band := BandOf(avg);
      caption := BandCaption(band);
      var ranking := DominantTraits(beh);
      dominant := DominantTraitLabel(ranking);
      assert BehavioralIds()[0] in Keys(beh);
      forall i | 0 <= i < |beh|
        ensures Values(beh)[i] in KnownTraits && Values(beh)[i] != ""
      {
        BehavioralAnswerIsKnown(beh[i].0, beh[i].1);
      }
      DominantTrait(Values(beh), Contributor);
      narrative := Narrative(dominant);
    }

    /** The Export button of the dashboard: the header line and the data
        line of the CSV file.  `format` stands for `toFixed(2)` on the average. */
    method ExportCsv(format: real -> string) returns (content: string)
      requires Valid() && phase == Dashboard
      ensures content == CsvContent(user, format(EngagementAverage(survey.engagementResponses)),
                                    Ranking(Values(survey.behavioralResponses)), survey.engagementResponses)
      ensures (user.Some? ==> ',' !in user.value.name && ',' !in user.value.employeeId) &&
              ',' !in format(EngagementAverage(survey.engagementResponses)) ==>
                SplitFields(Join(RowFields(user, format(EngagementAverage(survey.engagementResponses)),
                                           Ranking(Values(survey.behavioralResponses)), survey.engagementResponses)))
                == RowFields(user, format(EngagementAverage(survey.engagementResponses)),
                             Ranking(Values(survey.behavioralResponses)), survey.engagementResponses)
    {
      var avgText := format(EngagementAverage(survey.engagementResponses));
      var ranking := DominantTraits(survey.behavioralResponses);
      content := CsvContent(user, avgText, ranking, survey.engagementResponses);
      var beh := survey.behavioralResponses;
      if ranking != [] {
        assert ranking[0].0 in Keys(ranking);
        var i := Position(Values(beh), ranking[0].0);
        BehavioralAnswerIsKnown(beh[i].0, beh[i].1);
      }
      if (user.Some? ==> ',' !in user.value.name && ',' !in user.value.employeeId) && ',' !in avgText {
        RowRoundTrip(user, avgText, ranking, survey.engagementResponses);
      }
    }
  }
}
