# ITC engagement survey: the session engine

The application is a single-page survey for shop-floor employees. A
respondent enters a name and an employee id on the welcome screen. They then
answer twelve engagement questions on a 1–5 Likert scale, five forced-choice
behavioural questions (each option tags a trait label such as Executor or
Harmonizer) and two situational-judgement scenarios (options keyed A–D). The
results screen shows the engagement average as a band (High, Moderate or Low)
and the dominant trait with a short narrative. An admin dashboard sits behind
the header's admin button, and from it the current session can be exported as
a two-line CSV file.

This project models the session engine of `App.tsx`: its state cells, the
handlers that change them, the two aggregations, the CSV builder and the
labels on the results screen. On that model it proves:

- each answer lands in its own record under the current question's id and
  changes nothing else;
- the question index always stays inside its catalog, so the screens never
  index past the end;
- every question before the current one has been answered;
- the engagement average of a full session lies in [1, 5];
- the trait ranking counts correctly, is sorted by decreasing count and
  breaks ties by first answer;
- the CSV header and data line read back as sixteen fields when no field
  holds a comma. The builder does no quoting, so a comma in a name or id
  shifts the data line against its header, and `CsvExport.CommaShiftsColumns`
  states by how much.

Modules, one per file:

- `Records` (`records.dfy`): the JavaScript objects used as dictionaries. An
  object is a sequence of `(key, value)` entries in insertion order, because
  `Object.values` and `Object.entries` list entries in that order and the
  trait tie-break depends on it. `Put` is `{ ...m, [k]: v }`: it overwrites an
  existing key where it stands and appends a new key at the end.
- `SurveyTypes` (`types.dfy`): the data contracts of `types.ts`. These are the
  six phases, `Likert` as the integers 1..5, the three question records and
  their options, the response store `SurveyState` (three records keyed by
  question id) and `UserProfile`. A behavioural trait is an open `string`.
- `Catalog` (`catalog.dfy`): the three question lists of `constants.tsx`,
  copied as literal data, with lemmas about their sizes, ids, trait labels and
  option keys. Short tables of the ids, trait labels and option keys are what
  the session reads, and the lemmas `EngagementCatalog`, `BehavioralCatalog`
  and `SjtCatalog` prove each table equal to the corresponding fields of the
  full records.
- `Aggregation` (`aggregation.dfy`):
  - `getEngagementAverage` as a real-valued mean;
  - `getDominantTraits` as a counting pass (`CountsOf`) followed by a stable
    sort by decreasing count (`SortByCount`), together with the imperative
    counting loop `DominantTraits`.
- `ResultsLabels` (`results.dfy`): the band thresholds, the "Contributor"
  fallback and the narrative of the results screen.
- `CsvExport` (`export.dfy`): the header and data line of `exportToCSV`. A
  comma-splitting reader, `SplitFields`, is the partner that the round-trip
  lemmas read the lines back with.
- `SurveySession` (`session.dfy`): the class `Session`. Its fields are
  `phase`, `user`, `step` and `survey`, and its methods are the handlers. Its
  invariant `Valid()` is the predicate `Consistent` on those values, and each
  step lemma proves it is preserved.
- `SurveyScenario` (`scenario.dfy`): the worked session in which b1, b2 and b4
  choose option A and b3 and b5 option B. Its ranking is
  `[("Executor", 2), ("Harmonizer", 2), ("Innovation", 1)]`.

'Back to Home' (App.tsx:454) and 'Exit Admin' (App.tsx:510) set only the
phase; the answers, the profile and the question index survive, and
`handleStartSurvey` does not clear the answers. So
`ReturnToWelcome` and `StartSurvey` leave `survey` untouched. Both the Results
screen and the Dashboard lead home this way. The header's admin button is
rendered on every screen except the Dashboard, Results included, so
`OpenDashboard` requires only `phase != Dashboard`.

In the source, each answer handler stores the value at once and advances
300 ms later. The model takes the store and the advance as one step:
`SelectLikert`, `SelectBehavioral` and `SelectSjt`.

## Model

| member | source | states |
|---|---|---|
| Records.Put | App.tsx:99-102 | `{ ...m, [k]: v }`: the key list keeps its order, and a new key is appended at the end. An existing key is overwritten in place; on distinct keys, no other entry changes. |
| Records.PutLookup | App.tsx:99-102 | Reading back after a write gives the written value at the written key and the old value everywhere else. |
| Records.PutLookupOthers | App.tsx:115-118 | After a write the written key gives the new value, and every other key gives what it gave before. |
| Records.PutKeys | App.tsx:131-134 | The keys after a write are the old keys plus the written one, and a write never duplicates a key. |
| Records.Lookup | App.tsx:159 | `m[k]`: the value of the entry keyed `k`, or none when no entry has that key. `PutLookup` and `PutLookupOthers` state what it reads after a write. |
| Records.Values | App.tsx:177 | `Object.values`: one value per entry, in insertion order. The average, the ranking and `ResultsSummary` read the records through it. |
| Catalog.EngagementCatalog | constants.tsx:4-17 | There are 12 engagement questions, and their ids are e1..e12 in catalog order. |
| Catalog.BehavioralCatalog | constants.tsx:19-50 | There are 5 behavioural questions with ids b1..b5 in order, and each option's trait is the one in the trait table. |
| Catalog.SjtCatalog | constants.tsx:52-73 | There are 2 scenarios with ids s1 and s2, and each one's option keys are those of the key table, in order. |
| Catalog.PickedTraitOfCatalog | App.tsx:334-337 | The trait a button stores is the trait of the option it shows. |
| Catalog.PickedOption | App.tsx:334 | The option record shown on button A or B of a behavioural question. |
| Catalog.PickedTrait | App.tsx:337 | The trait the pressed button hands to the handler, read from the trait table; `PickedTraitOfCatalog` proves it is the shown option's trait. |
| Catalog.QuestionIdsUnique | constants.tsx:5-70 | No id occurs twice, within one catalog or across the three. |
| Catalog.TraitsAreKnown | constants.tsx:23-48 | Every option's trait label is one of Executor, Guardian, Harmonizer, Informer or Innovation. |
| Catalog.BehavioralAnswerIsKnown | constants.tsx:19-50 | A label a behavioural question can store is a known trait: non-empty and comma-free. |
| Catalog.B5StoresHarmonizer | constants.tsx:47-48 | Both options of b5 carry Harmonizer, so either choice stores the same value. |
| Catalog.SjtOptionKeys | constants.tsx:52-73 | Each scenario has exactly four options, keyed A, B, C and D in that order. |
| Catalog.EngagementIdsHaveNoComma | constants.tsx:4-17 | Engagement ids are non-empty and contain no comma. |
| Aggregation.EngagementAverage | App.tsx:176-180 | An empty record gives 0. Otherwise the average times the count is the sum of the values, and the average lies in [1, 5]. |
| Aggregation.LikertSumBounds | App.tsx:275 | Every stored answer is one of 5..1, so the sum of n answers lies between n and 5n. |
| Aggregation.Increment | App.tsx:185 | `counts[t]` plus one, starting from 0 for an unseen label. `IncrementNew` and `IncrementAt` state its effect on an unseen and a seen label. |
| Aggregation.CountsOf | App.tsx:183-186 | The counts record after the `forEach` over the values; `CountsFacts` states what it holds. |
| Aggregation.InsertByCount | App.tsx:187 | One insertion step of the stable sort by decreasing count: the element goes in front of the first entry whose count is not larger. |
| Aggregation.InsertPermutes | App.tsx:187 | An insertion adds exactly the inserted entry, as a multiset, and its count to the total. |
| Aggregation.InsertOrders | App.tsx:187 | Inserting into a list with non-increasing counts and first-occurrence ties keeps both properties, when the new entry occurs before the tied ones. |
| Aggregation.SortByCount | App.tsx:187 | `sort((a, b) => b[1] - a[1])` as a stable insertion sort; `SortFacts` states its properties. |
| Aggregation.SortPermutes | App.tsx:187 | The sort is a permutation of its input and keeps the total count. |
| Aggregation.SortOrders | App.tsx:187 | On entries in first-occurrence order, the sort yields non-increasing counts with ties in first-occurrence order. |
| Aggregation.Ranking | App.tsx:182-188 | `getDominantTraits` on a list of answers; `RankingCorrect` states its properties. |
| Aggregation.TopTraitOr | App.tsx:152 | The first ranked label, or the fallback when the ranking is empty or that label is empty; `DominantTrait` states which label it gives. |
| Aggregation.CountsFacts | App.tsx:183-186 | After the counting pass the record has distinct keys. Its keys are exactly the labels seen, each count is the label's number of occurrences, keys appear in order of first occurrence, and the counts sum to the number of labels. |
| Aggregation.IncrementNew | App.tsx:185 | Counting an unseen label appends it with count 1. |
| Aggregation.IncrementAt | App.tsx:185 | Counting a seen label adds one to its count where it stands. |
| Aggregation.CountsSnoc | App.tsx:184-186 | The counting pass over one more label applies one more increment. |
| Aggregation.CountsSeen | App.tsx:184-186 | Counting a label already in the record raises its count in place and leaves the rest. |
| Aggregation.CountsNew | App.tsx:184-186 | Counting a label not yet in the record appends it with count 1 and leaves the rest. |
| Aggregation.SortFacts | App.tsx:187 | The sort is a permutation of the entries with non-increasing counts, and equal counts keep their input order. |
| Aggregation.RankingCorrect | App.tsx:182-188 | The ranking has one entry per distinct label, its count is that label's occurrences, and every count is positive. Counts sum to the number of answers and do not increase along the list. Equal counts appear in first-answer order, and the ranking is empty exactly when there are no answers. |
| Aggregation.DominantTrait | App.tsx:394-395 | With no answers the fallback is shown. Otherwise the shown label was answered, no label was answered more often, and among the labels that tie at the top it was answered first. |
| Aggregation.DominantTraits | App.tsx:182-188 | The `forEach` loop and sort compute the ranking of the stored behavioural values, with its counts, order and tie-break. The counts sum to the number of answers. |
| ResultsLabels.BandOf | App.tsx:416 | The band of the bar colour; `BandThresholds` states its thresholds. |
| ResultsLabels.BandCaption | App.tsx:421 | The caption under the bar; `BandThresholds` shows it names the band that the thresholds give. |
| ResultsLabels.DominantTraitLabel | App.tsx:395 | The first ranked label, with Contributor as the fallback; `ResultsSummary` and `ScenarioRanking` state what it shows. |
| ResultsLabels.Narrative | App.tsx:429-435 | The sentence ending chosen by the trait; `NarrativeDefault` states which labels have their own. |
| ResultsLabels.BandThresholds | App.tsx:416-421 | The band is High exactly when avg ≥ 4, Moderate exactly on [3, 4) and Low exactly below 3, and the caption names the same band. A higher average never gives a lower band. |
| ResultsLabels.NarrativeDefault | App.tsx:429-435 | A label has its own narrative exactly when it is Executor, Harmonizer, Guardian or Informer. Innovation and the Contributor fallback get the default sentence. |
| ResultsLabels.EmptyStoreResults | App.tsx:393-395 | With no answers the band is Low and the trait shown is Contributor. |
| CsvExport.Join | App.tsx:162 | `fields.join(',')`; `SplitJoin` and `JoinCommas` state what a reader gets back. |
| CsvExport.OrElse | App.tsx:155-156 | A profile field, or its fallback when the field is empty. |
| CsvExport.HeaderFields | App.tsx:150 | The header array; `HeaderColumns` states its sixteen columns. |
| CsvExport.LikertText | App.tsx:159 | The decimal digit that `join` writes for a Likert answer. |
| CsvExport.ResponseCell | App.tsx:159 | The stored answer to one question, or the empty cell when it is unanswered; `ResponseCellRoundTrip` states what it holds. |
| CsvExport.RowFields | App.tsx:154-160 | The data row array; `RowShape` states its cells. |
| CsvExport.CsvContent | App.tsx:162 | The header line, a newline and the data line; `RowRoundTrip` and `CommaShiftsColumns` state how they read back. |
| CsvExport.SplitFields | App.tsx:162 | Reading a line always yields at least one field. |
| CsvExport.SplitCount | App.tsx:162 | A line reads as one field more than it has commas. |
| CsvExport.SplitJoin | App.tsx:162 | Joining comma-free fields with commas and reading the line back gives the same fields. |
| CsvExport.JoinCommas | App.tsx:162 | A joined line has the separators plus the commas inside the fields. |
| CsvExport.HeaderColumns | App.tsx:150 | The header is EmployeeName, EmployeeID, EngagementAvg and DominantTrait, then e1..e12: sixteen columns. |
| CsvExport.HeaderRoundTrip | App.tsx:150-162 | The header line reads back as its sixteen columns. |
| CsvExport.ResponseCellRoundTrip | App.tsx:159 | The cell of an answered question parses back to the stored answer, and an unanswered one is empty. No cell holds a comma. |
| CsvExport.RowShape | App.tsx:154-160 | The data row has one cell per header column. The name is Anonymous exactly when there is no profile or the name is empty or Anonymous; likewise N/A for the id and Unknown for the trait. Each answer cell holds the answer to the question named in its header column. |
| CsvExport.RowRoundTrip | App.tsx:154-162 | When name, id, average and trait contain no comma, the data line reads back as its own sixteen fields, as many as the header. |
| CsvExport.CommaShiftsColumns | App.tsx:154-162 | Without quoting, the data line reads as 16 fields plus the commas inside them, so a comma in the name misaligns it with the header. |
| SurveySession.PutEngagementValid | App.tsx:278 | Storing a Likert value under an engagement id keeps every stored answer legal. |
| SurveySession.PutBehavioralValid | App.tsx:337 | Storing an option's trait under its question's id keeps every stored answer legal. |
| SurveySession.PutSjtValid | App.tsx:375 | Storing an option key under its scenario's id keeps every stored answer legal. |
| SurveySession.EngagementStep | App.tsx:98-112 | A Likert answer at question k keeps the session consistent at k+1, or at behavioural question 0 after the last question. |
| SurveySession.BehavioralStep | App.tsx:114-128 | A behavioural answer at question k keeps the session consistent at k+1, or at scenario 0 after the last question. |
| SurveySession.SjtStep | App.tsx:130-144 | A scenario answer at k keeps the session consistent at k+1, or on the results screen after the last scenario. |
| SurveySession.Session.constructor | App.tsx:80-87 | The session opens on Welcome, with no profile, index 0 and three empty records. |
| SurveySession.Session.StartSurvey | App.tsx:223-230 | Start is accepted exactly when name and id are both non-empty. It then sets the profile with department Production, the Engagement phase and index 0. A rejection changes nothing, and the answers are kept either way. |
| SurveySession.Session.CurrentQuestionId | App.tsx:258 | In each question phase the index is inside its catalog, and the question on screen is the catalog entry at that index. |
| SurveySession.Session.Advance | App.tsx:105-110 | Before the last question the index moves one on; after it, the next phase starts at 0. |
| SurveySession.Session.SelectLikert | App.tsx:98-112 | The value is stored under the current question's id, and the other records, other ids and profile are unchanged. The session moves to k+1, or to (Behavioral, 0) after e12, and stays consistent. |
| SurveySession.Session.SelectBehavioral | App.tsx:114-128 | The picked option's trait (the `PickedTrait` table entry, equal to the catalog's by `PickedTraitOfCatalog`) is stored under the current id and reads back from there, and nothing else in the store changes. The session moves to k+1, or to (Situational, 0) after b5. |
| SurveySession.Session.SelectSjt | App.tsx:130-144 | The option's key (entry of the `SjtKeys` table, equal to the catalog's keys by `SjtCatalog`) is stored under the current scenario's id and reads back from there, and nothing else in the store changes. The session moves to k+1, or to (Results, 0) after s2. |
| SurveySession.Session.Back | App.tsx:303-305 | Engagement only: the index drops by one when it exceeds 0, and the button does nothing at 0. Only the index changes. |
| SurveySession.Session.OpenDashboard | App.tsx:685 | From any screen except the dashboard, only the phase changes, to Dashboard. |
| SurveySession.Session.ReturnToWelcome | App.tsx:454 | From Results or Dashboard, only the phase changes, to Welcome. The answers, profile and index survive. |
| SurveySession.Session.ResultsSummary | App.tsx:392-435 | On the results screen the average lies in [1, 5], and the band and its caption match it. The trait shown is the ranking's first label: a known label that was answered, answered at least as often as any other, and answered first among those tied with it. The narrative is that label's. |
| SurveySession.Session.ExportCsv | App.tsx:147-162 | On the dashboard, the file is the header line, a newline and the data row, built from the profile, the formatted average, the ranking and the engagement record. With comma-free name, id and average, the row reads back as itself. |
| SurveyScenario.ScenarioLabels | constants.tsx:19-50 | Picking A, A, B, A, B on b1..b5 stores Executor, Harmonizer, Innovation, Executor and Harmonizer. |
| SurveyScenario.TwoAnswers | App.tsx:183-186 | Two distinct labels counted once each keep their answer order. |
| SurveyScenario.ThreeAnswers | App.tsx:183-186 | Three distinct labels counted once each keep their answer order. |
| SurveyScenario.BumpFirst | App.tsx:185 | Answering the first of three counted labels again raises its count in place. |
| SurveyScenario.BumpSecond | App.tsx:185 | Answering the second of three counted labels again raises its count in place. |
| SurveyScenario.FourAnswers | App.tsx:183-186 | A repeated first label raises the first count to 2 in place. |
| SurveyScenario.FiveAnswers | App.tsx:183-186 | The counts of e, h, n, e, h are e:2, h:2, n:1, in first-answer order. |
| SurveyScenario.FiveAnswersRanking | App.tsx:182-188 | In the ranking of e, h, n, e, h, the tied labels e and h stay in first-answer order, ahead of n. |
| SurveyScenario.ScenarioRanking | App.tsx:392-435 | The worked session ranks Executor 2, Harmonizer 2, Innovation 1. Executor is shown, with the goal-oriented narrative. |

## Left out

- The 300 ms `setTimeout` between storing an answer and advancing is not
  modelled. Neither are its stale-closure races, such as a pending advance
  firing after a jump to the dashboard. Each select-and-advance is one atomic
  step.
- `document.getElementById` and `alert` are browser I/O and are not modelled,
  nor is the Blob/URL/anchor download. The two input values become parameters
  of `StartSurvey`. The dated file name is left out because it needs the clock.
- `toFixed(2)` on the exported average is a `format` parameter of
  `ExportCsv`, because floating-point formatting is not modelled. The same
  goes for `toFixed(1)` on the results screen and `Math.round` in the progress
  bar.
- `dominantTrait.toLowerCase()` in the narrative sentence is display text and
  is left out. `Narrative` models only the sentence ending chosen by the label.
- The QR image, fetched from an external service, and the `showQR` toggle are
  left out: network and display only.
- All of the admin dashboard except its export and exit buttons is left out,
  because its KPI figures, charts, table rows and cell colours are hard-coded
  and independent of the session.
- Aggregation.EngagementAverage: the mean is an exact real, while the source
  divides IEEE doubles. No label depends on the difference: the thresholds 3
  and 4 are exact doubles, at most twelve answers are averaged, so a mean that
  is not exactly on a threshold is at least 1/12 away from it, far more than
  the rounding error of one division.
- Records.Lookup: JavaScript `m[k]` also finds members inherited from
  `Object.prototype` (`toString`, `constructor`), and `m['__proto__'] = v`
  stores nothing. No catalog id or trait label is such a name, so `Lookup`
  and `Increment` match `m[k]` and `counts[t] || 0` on every key the session
  uses; `CountsFacts`, `RankingCorrect` and `DominantTrait`, stated for any
  list of labels, describe the source only for labels that are not such names.
- Records.Put: JavaScript lists integer-like keys before other keys. No key
  here is integer-like, so insertion order is the whole rule and is the only
  rule modelled.
- Aggregation.SortByCount: the engine's own sorting algorithm is not modelled.
  The model is an insertion sort, and the order it produces is the one a
  stable sort with comparator `b[1] - a[1]` must give.
- Rendering, styling, icons and charts are left out.
