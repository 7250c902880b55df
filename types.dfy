/** The data contracts of the survey: phases, Likert values, the three kinds
    of question, the response store and the respondent's profile. */
module SurveyTypes {
  import opened Records

  /** The six screens of the application. */
  datatype Phase = Welcome | Engagement | Behavioral | Situational | Results | Dashboard

  /** A Likert answer: 5 is "strongly agree", 1 "strongly disagree". */
  type Likert = v: int | 1 <= v <= 5 witness 1

  datatype EngagementQuestion = EngagementQuestion(id: string, hindi: string, english: string, dimension: string)

  /** An option and the trait label it carries (the source calls the field
      `trait`, a reserved word here); the label is an open string, not a
      closed enumeration. */
  datatype BehavioralOption = BehavioralOption(text: string, traitLabel: string)

  datatype BehavioralQuestion = BehavioralQuestion(id: string, question: string, optionA: BehavioralOption, optionB: BehavioralOption)

  datatype SjtOption = SjtOption(key: string, text: string, alignment: string)

  datatype SjtQuestion = SjtQuestion(id: string, scenario: string, options: seq<SjtOption>)

  /** Three independent records keyed by question id. */
  datatype SurveyState = SurveyState(
    engagementResponses: Entries<Likert>,
    behavioralResponses: Entries<string>,
    sjtResponses: Entries<string>)

  datatype UserProfile = UserProfile(name: string, employeeId: string, department: string)
}
