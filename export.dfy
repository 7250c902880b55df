/** The CSV export: one header line and one data line, fields joined by
    commas with no quoting or escaping. */
module CsvExport {
  import opened Records
  import opened SurveyTypes
  import opened Catalog
  import opened Aggregation

  /** `fields.join(',')`. */
  function Join(fields: seq<string>): string {
    if fields == [] then ""
    else if |fields| == 1 then fields[0]
    else fields[0] + "," + Join(fields[1..])
  }

  /** What a CSV reader without quoting makes of a line: the text between commas. */
  function SplitFields(line: string): (fields: seq<string>)
    ensures |fields| >= 1
  {
    if line == "" then [""]
    else if line[0] == ',' then [""] + SplitFields(line[1..])
    else
      var rest := SplitFields(line[1..]);
      [[line[0]] + rest[0]] + rest[1..]
  }

  /** A line splits into one field more than it has commas. */
  lemma {:induction false} SplitCount(line: string)
    ensures |SplitFields(line)| == 1 + multiset(line)[',']
  {
    if line != "" {
      assert line == [line[0]] + line[1..];
      SplitCount(line[1..]);
    }
  }

  predicate NoCommaIn(fields: seq<string>) {
    forall i :: 0 <= i < |fields| ==> ',' !in fields[i]
  }

  lemma {:induction false} SplitField(f: string, rest: string)
    requires ',' !in f
    ensures SplitFields(f + rest) == [f + SplitFields(rest)[0]] + SplitFields(rest)[1..]
  {
    if f != "" {
      assert (f + rest)[0] == f[0];
      assert (f + rest)[1..] == f[1..] + rest;
      SplitField(f[1..], rest);
      assert [f[0]] + (f[1..] + SplitFields(rest)[0]) == f + SplitFields(rest)[0];
    } else {
      var r := SplitFields(rest);
      assert f + rest == rest;
      assert f + r[0] == r[0];
      assert r == [r[0]] + r[1..];
    }
  }

  lemma SplitSeparator(line: string)
    ensures SplitFields("," + line) == [""] + SplitFields(line)
  {
    assert ("," + line)[0] == ',' && ("," + line)[1..] == line;
  }

  /** Reading back a joined line gives the fields again, as long as no field
      holds a comma. */
  lemma {:induction false} SplitJoin(fields: seq<string>)
    requires fields != [] && NoCommaIn(fields)
    ensures SplitFields(Join(fields)) == fields
  {
    var f := fields[0];
    if |fields| == 1 {
      SplitField(f, "");
      assert f + "" == f;
      assert SplitFields("") == [""];
      assert f + SplitFields("")[0] == f;
    } else {
      var j := Join(fields[1..]);
      SplitJoin(fields[1..]);
      assert Join(fields) == f + ("," + j);
      SplitSeparator(j);
      SplitField(f, "," + j);
      assert f + "" == f;
      assert fields == [f] + fields[1..];
    }
  }

  /** The commas of a joined line are the separators and those inside the fields. */
  function CommasIn(fields: seq<string>): nat {
    if fields == [] then 0 else multiset(fields[0])[','] + CommasIn(fields[1..])
  }

  lemma {:induction false} JoinCommas(fields: seq<string>)
    requires fields != []
    ensures multiset(Join(fields))[','] == |fields| - 1 + CommasIn(fields)
  {
    if |fields| > 1 {
      JoinCommas(fields[1..]);
      assert multiset(fields[0] + "," + Join(fields[1..])) ==
             multiset(fields[0]) + multiset{','} + multiset(Join(fields[1..]));
    }
  }

  /** `value || fallback` on strings: the empty string falls back. */
  function OrElse(value: string, fallback: string): string {
    if value == "" then fallback else value
  }

  const FixedColumns: seq<string> := ["EmployeeName", "EmployeeID", "EngagementAvg", "DominantTrait"]

  function HeaderFields(): seq<string> {
    FixedColumns + EngagementIds()
  }

  /** The decimal text of a Likert value, as `join` writes a number. */
  function LikertText(v: Likert): string {
    [('0' as int + v) as char]
  }

  /** `surveyState.engagementResponses[id] || ''`. */
  function ResponseCell(responses: Entries<Likert>, id: string): string {
    match Lookup(responses, id)
    case Some(v) => LikertText(v)
    case None => ""
  }

  /** How a reader of the file recovers an answer from its cell. */
  function ParseCell(cell: string): Option<Likert> {
    if |cell| == 1 && '1' <= cell[0] <= '5' then Some(cell[0] as int - '0' as int) else None
  }

  /** A cell records exactly the stored answer: empty for an unanswered question. */
  lemma ResponseCellRoundTrip(responses: Entries<Likert>, id: string)
    ensures ParseCell(ResponseCell(responses, id)) == Lookup(responses, id)
    ensures ResponseCell(responses, id) == "" <==> Lookup(responses, id) == None
    ensures ',' !in ResponseCell(responses, id)
  {
  }

  function RowFields(user: Option<UserProfile>, avgText: string, ranking: seq<Tally>,
                     responses: Entries<Likert>): seq<string> {
    var name := match user case Some(u) => OrElse(u.name, "Anonymous") case None => "Anonymous";
    var id := match user case Some(u) => OrElse(u.employeeId, "N/A") case None => "N/A";
    [name, id, avgText, TopTraitOr(ranking, "Unknown")]
      + seq(|EngagementIds()|, i requires 0 <= i < |EngagementIds()| => ResponseCell(responses, EngagementIds()[i]))
  }

  /** The header: the four fixed columns, then e1..e12 in catalog order. */
  lemma HeaderColumns()
    ensures HeaderFields() == FixedColumns +
              ["e1", "e2", "e3", "e4", "e5", "e6", "e7", "e8", "e9", "e10", "e11", "e12"]
    ensures |HeaderFields()| == 16
  {
  }

  /** The header line reads back as its sixteen columns. */
  lemma HeaderRoundTrip()
    ensures SplitFields(Join(HeaderFields())) == HeaderFields()
  {
    EngagementIdsHaveNoComma();
    assert NoCommaIn(HeaderFields()) by {
      forall i | 0 <= i < |HeaderFields()|
        ensures ',' !in HeaderFields()[i]
      {
        if i >= 4 {
          assert HeaderFields()[i] == EngagementIds()[i - 4];
        }
      }
    }
    SplitJoin(HeaderFields());
  }

  /** The row has a cell under every header column: the fallbacks for a
      missing or empty profile field, then the answer to the question named
      by the column above it. */
  lemma RowShape(user: Option<UserProfile>, avgText: string, ranking: seq<Tally>, responses: Entries<Likert>)
    ensures |RowFields(user, avgText, ranking, responses)| == |HeaderFields()| == 16
    ensures RowFields(user, avgText, ranking, responses)[0] == "Anonymous" <==>
              user == None || user.value.name in {"", "Anonymous"}
    ensures RowFields(user, avgText, ranking, responses)[1] == "N/A" <==>
              user == None || user.value.employeeId in {"", "N/A"}
    ensures RowFields(user, avgText, ranking, responses)[3] == "Unknown" <==>
              ranking == [] || ranking[0].0 in {"", "Unknown"}
    ensures forall i :: 4 <= i < 16 ==>
              ParseCell(RowFields(user, avgText, ranking, responses)[i]) == Lookup(responses, HeaderFields()[i])
  {
    forall i | 4 <= i < 16
      ensures ParseCell(RowFields(user, avgText, ranking, responses)[i]) == Lookup(responses, HeaderFields()[i])
    {
      ResponseCellRoundTrip(responses, EngagementIds()[i - 4]);
    }
  }

  /** With comma-free name, id, average and trait the data line reads back
      as its sixteen fields, the same count as the header. */
  lemma RowRoundTrip(user: Option<UserProfile>, avgText: string, ranking: seq<Tally>, responses: Entries<Likert>)
    requires user.Some? ==> ',' !in user.value.name && ',' !in user.value.employeeId
    requires ',' !in avgText
    requires ranking != [] ==> ',' !in ranking[0].0
    ensures SplitFields(Join(RowFields(user, avgText, ranking, responses))) == RowFields(user, avgText, ranking, responses)
    ensures |SplitFields(Join(RowFields(user, avgText, ranking, responses)))| == |SplitFields(Join(HeaderFields()))| == 16
  {
    var row := RowFields(user, avgText, ranking, responses);
    RowShape(user, avgText, ranking, responses);
    forall i | 4 <= i < |row|
      ensures ',' !in row[i]
    {
      ResponseCellRoundTrip(responses, EngagementIds()[i - 4]);
    }
    assert NoCommaIn(row);
    SplitJoin(row);
    HeaderRoundTrip();
    HeaderColumns();
  }

  /** A joined line reads back as one field per field plus one per comma
      inside the fields. */
  lemma FieldCount(fields: seq<string>)
    requires fields != []
    ensures |SplitFields(Join(fields))| == |fields| + CommasIn(fields)
    ensures ',' in fields[0] ==> |SplitFields(Join(fields))| > |fields|
  {
    JoinCommas(fields);
    SplitCount(Join(fields));
    assert CommasIn(fields) == multiset(fields[0])[','] + CommasIn(fields[1..]);
  }

  /** The export does no quoting: every comma inside a field adds a column
      to the data line, so it no longer lines up with the header. */
  lemma CommaShiftsColumns(user: Option<UserProfile>, avgText: string, ranking: seq<Tally>, responses: Entries<Likert>)
    ensures |SplitFields(Join(RowFields(user, avgText, ranking, responses)))| ==
              16 + CommasIn(RowFields(user, avgText, ranking, responses))
    ensures user.Some? && ',' in user.value.name ==>
              |SplitFields(Join(RowFields(user, avgText, ranking, responses)))| > 16
  {
    var row := RowFields(user, avgText, ranking, responses);
    RowShape(user, avgText, ranking, responses);
    FieldCount(row);
  }

  /** The file body: the header line, a newline, the data line. */
  function CsvContent(user: Option<UserProfile>, avgText: string, ranking: seq<Tally>,
                      responses: Entries<Likert>): string {
    Join(HeaderFields()) + "\n" + Join(RowFields(user, avgText, ranking, responses))
  }
}
