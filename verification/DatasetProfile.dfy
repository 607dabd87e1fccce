/** Profiling a table's columns: keys, enumerations, references and rates. */
module DatasetProfile {
  import opened Wrappers
  import opened Json
  import opened Sequences
  import opened Text

  type Row = map<string, Json>

  datatype Dataset = Dataset(table: string, fields: seq<string>, rows: seq<Row>)

  /** How values other than texts are written, and which table a field's name points to. */
  datatype Conventions = Conventions(show: Json -> string, referenced: string -> string)

  /** Values are compared by their text, so a number and its text count as one value. */
  function Normal(conventions: Conventions, v: Json): string {
    if v.Str? then v.s else conventions.show(v)
  }

  predicate EndsWith(s: string, suffix: string) {
    |suffix| <= |s| && s[|s| - |suffix|..] == suffix
  }

  /** The table a reference field names, with the plurals the profiler knows. */
  function ReferencedTable(field: string): string {
    var base := if EndsWith(field, "_id") then field[..|field| - 3] else field;
    if base in {"customer", "order", "product", "sku", "refund", "ticket", "insured", "claim", "broker"} then base + "s"
    else if base == "policy" then "policies"
    else base
  }

  function Standard(show: Json -> string): Conventions {
    Conventions(show, ReferencedTable)
  }

  // ----- columns -----

  /** A column's values; a row without the field has null there. */
  function Values(rows: seq<Row>, field: string): (r: seq<Json>)
    ensures |r| == |rows|
  {
    Map((row: Row) => if field in row then row[field] else Null, rows)
  }

  function NonNull(values: seq<Json>): seq<Json> {
    Filter((v: Json) => !v.Null?, values)
  }

  function Texts(conventions: Conventions, values: seq<Json>): (r: seq<string>)
    ensures |r| == |values|
  {
    Map(v => Normal(conventions, v), values)
  }

  function Elements(s: seq<string>): set<string> {
    set i | 0 <= i < |s| :: s[i]
  }

  function DistinctCount(conventions: Conventions, values: seq<Json>): nat {
    |Elements(Texts(conventions, NonNull(values)))|
  }

  /** A list has as many elements as distinct ones exactly when none repeats. */
  lemma {:induction false} CountIsLengthIffDistinct(s: seq<string>)
    ensures |Elements(s)| <= |s|
    ensures |Elements(s)| == |s| <==> Distinct(s)
  {
    if s == [] {
      assert Elements(s) == {};
    } else {
      var front, last := s[..|s| - 1], s[|s| - 1];
      CountIsLengthIffDistinct(front);
      assert Elements(s) == Elements(front) + {last};
      if last in Elements(front) {
        assert Elements(s) == Elements(front);
        var i :| 0 <= i < |front| && front[i] == last;
        assert s[i] == s[|s| - 1];
      } else {
        forall i | 0 <= i < |front|
          ensures s[i] != last
        {
          assert front[i] in Elements(front);
        }
        assert Distinct(s) ==> Distinct(front);
      }
    }
  }

  // ----- rates -----

  /** What is measured of one column; `rows`, `present` and `distinct` are counts. */
  datatype Column = Column(rows: nat, present: nat, distinct: nat)

  function Measure(conventions: Conventions, d: Dataset, field: string): Column {
    var values := Values(d.rows, field);
    Column(|d.rows|, |NonNull(values)|, DistinctCount(conventions, values))
  }

  function Ratio(part: nat, whole: nat): real {
    if whole == 0 then 0.0 else part as real / whole as real
  }

  function NullRate(c: Column): real
    requires c.present <= c.rows
  {
    Ratio(c.rows - c.present, c.rows)
  }

  function Uniqueness(c: Column): real {
    Ratio(c.distinct, c.present)
  }

  lemma RatioBounds(part: nat, whole: nat)
    requires part <= whole
    ensures 0.0 <= Ratio(part, whole) <= 1.0
    ensures Ratio(part, whole) == 1.0 <==> part == whole > 0
    ensures Ratio(part, whole) == 0.0 <==> part == 0
  {
    if whole > 0 {
      var p, w := part as real, whole as real;
      assert Ratio(part, whole) * w == p;
    }
  }

  predicate IsPrimaryKey(c: Column) {
    c.rows > 0 && c.present == c.rows && c.distinct == c.rows
  }

  predicate IsEnum(c: Column) {
    0 < c.distinct <= 8 && Uniqueness(c) < 1.0
  }

  /** All present values of a column, as texts. */
  function Present(conventions: Conventions, d: Dataset, field: string): seq<string> {
    Texts(conventions, NonNull(Values(d.rows, field)))
  }

  lemma MeasureBounds(conventions: Conventions, d: Dataset, field: string)
    ensures var c := Measure(conventions, d, field);
            && c.present == |Present(conventions, d, field)|
            && c.distinct <= c.present <= c.rows
            && (c.distinct == c.present <==> Distinct(Present(conventions, d, field)))
  {
    CountIsLengthIffDistinct(Present(conventions, d, field));
  }

  lemma AllPresentIff(conventions: Conventions, d: Dataset, field: string)
    ensures Measure(conventions, d, field).present == |d.rows| <==>
              forall i :: 0 <= i < |d.rows| ==> field in d.rows[i] && !d.rows[i][field].Null?
  {
    var values := Values(d.rows, field);
    AllKept((v: Json) => !v.Null?, values);
    assert forall i :: 0 <= i < |values| ==> (values[i].Null? <==> !(field in d.rows[i] && !d.rows[i][field].Null?));
  }

  lemma {:induction false} AllKept(keep: Json -> bool, s: seq<Json>)
    ensures |Filter(keep, s)| == |s| <==> forall i :: 0 <= i < |s| ==> keep(s[i])
  {
    if s != [] {
      AllKept(keep, s[1..]);
      assert forall i :: 0 < i < |s| ==> s[i] == s[1..][i - 1];
    }
  }

  /** A primary key candidate is a column of a table with rows, all present and pairwise different. */
  lemma PrimaryKeyIff(conventions: Conventions, d: Dataset, field: string)
    ensures IsPrimaryKey(Measure(conventions, d, field)) <==>
              && d.rows != []
              && (forall i :: 0 <= i < |d.rows| ==> field in d.rows[i] && !d.rows[i][field].Null?)
              && Distinct(Present(conventions, d, field))
  {
    MeasureBounds(conventions, d, field);
    AllPresentIff(conventions, d, field);
  }

  /** An enumeration candidate has at most eight different values, and one of them twice; so it is no key. */
  lemma EnumIff(conventions: Conventions, d: Dataset, field: string)
    ensures var c := Measure(conventions, d, field);
            && (IsEnum(c) <==> 0 < c.distinct <= 8 && !Distinct(Present(conventions, d, field)))
            && !(IsEnum(c) && IsPrimaryKey(c))
  {
    var c := Measure(conventions, d, field);
    MeasureBounds(conventions, d, field);
    RatioBounds(c.distinct, c.present);
  }

  /** Rates are fractions; none is null, or all are different, exactly at the ends. */
  lemma RatesAreFractions(conventions: Conventions, d: Dataset, field: string)
    ensures var c := Measure(conventions, d, field);
            && c.present <= c.rows
            && 0.0 <= NullRate(c) <= 1.0 && 0.0 <= Uniqueness(c) <= 1.0
            && (NullRate(c) == 0.0 <==> c.present == c.rows)
            && (Uniqueness(c) == 1.0 <==> Present(conventions, d, field) != [] && Distinct(Present(conventions, d, field)))
  {
    var c := Measure(conventions, d, field);
    MeasureBounds(conventions, d, field);
    RatioBounds(c.distinct, c.present);
    RatioBounds(c.rows - c.present, c.rows);
  }

  // ----- references -----

  predicate Occurs(conventions: Conventions, target: Dataset, text: string) {
    text in Elements(Present(conventions, target, "id"))
  }

  function Matches(conventions: Conventions, d: Dataset, field: string, target: Dataset): seq<string> {
    Filter(text => Occurs(conventions, target, text), Present(conventions, d, field))
  }

  function JoinRate(conventions: Conventions, d: Dataset, field: string, target: Dataset): real {
    Ratio(|Matches(conventions, d, field, target)|, |Present(conventions, d, field)|)
  }

  /** The join rate is a fraction: one when every present value is found, none when no value is. */
  lemma JoinRateEnds(conventions: Conventions, d: Dataset, field: string, target: Dataset)
    ensures var rate, values := JoinRate(conventions, d, field, target), Present(conventions, d, field);
            && 0.0 <= rate <= 1.0
            && (rate == 1.0 <==> values != [] && forall i :: 0 <= i < |values| ==> Occurs(conventions, target, values[i]))
            && (rate > 0.0 <==> exists i :: 0 <= i < |values| && Occurs(conventions, target, values[i]))
  {
    var values, found := Present(conventions, d, field), Matches(conventions, d, field, target);
    var occurs := (text: string) => Occurs(conventions, target, text);
    RatioBounds(|found|, |values|);
    AllKeptTexts(occurs, values);
    FilterElements(occurs, values);
    if found != [] {
      assert found[0] in found;
      assert found[0] in values;
    }
    if i :| 0 <= i < |values| && Occurs(conventions, target, values[i]) {
      assert values[i] in found;
    }
  }

  lemma {:induction false} AllKeptTexts(keep: string -> bool, s: seq<string>)
    ensures |Filter(keep, s)| == |s| <==> forall i :: 0 <= i < |s| ==> keep(s[i])
  {
    if s != [] {
      AllKeptTexts(keep, s[1..]);
      assert forall i :: 0 < i < |s| ==> s[i] == s[1..][i - 1];
    }
  }

  datatype Reference = Reference(field: string, table: string, rate: real)

  predicate IsReference(conventions: Conventions, d: Dataset, field: string, target: Dataset) {
    && target.table != d.table && target.table == conventions.referenced(field) && "id" in target.fields
    && JoinRate(conventions, d, field, target) > 0.0
  }

  function References(conventions: Conventions, d: Dataset, field: string, all: seq<Dataset>): seq<Reference> {
    Map((target: Dataset) => Reference(field, target.table, JoinRate(conventions, d, field, target)),
        Filter(target => IsReference(conventions, d, field, target), all))
  }

  // ----- the profile -----

  datatype Profile = Profile(
    primaryKeys: seq<string>,
    enums: seq<string>,
    references: seq<Reference>,
    nullRates: map<string, real>,
    uniqueness: map<string, real>)

  /** What is measured of each field, and what it refers to. */
  datatype Survey = Survey(measure: string -> Column, references: string -> seq<Reference>)

  function SurveyOf(conventions: Conventions, d: Dataset, all: seq<Dataset>): Survey {
    Survey(field => Measure(conventions, d, field),
           field => if EndsWith(field, "_id") then References(conventions, d, field, all) else [])
  }

  function ReferencesOf(survey: Survey, fields: seq<string>): seq<Reference> {
    if fields == [] then [] else ReferencesOf(survey, fields[..|fields| - 1]) + survey.references(fields[|fields| - 1])
  }

  /** The profile lists each field where its measurements put it. */
  ghost predicate Profiles(survey: Survey, fields: seq<string>, p: Profile) {
    && p.primaryKeys == Filter(f => IsPrimaryKey(survey.measure(f)), fields)
    && p.enums == Filter(f => IsEnum(survey.measure(f)), fields)
    && p.references == ReferencesOf(survey, fields)
    && RatesListed(survey, fields, p)
  }

  ghost predicate RatesListed(survey: Survey, fields: seq<string>, p: Profile) {
    && (forall f :: f in p.nullRates <==> f in fields) && p.uniqueness.Keys == p.nullRates.Keys
    && forall f :: f in p.nullRates ==> RatesOf(survey.measure(f), p.nullRates[f], p.uniqueness[f])
  }

  predicate RatesOf(c: Column, nullRate: real, uniqueness: real) {
    c.present <= c.rows && nullRate == NullRate(c) && uniqueness == Uniqueness(c)
  }

  /** The profile with one field more. */
  function WithField(p: Profile, field: string, c: Column, references: seq<Reference>): Profile
    requires c.present <= c.rows
  {
    Profile(p.primaryKeys + (if IsPrimaryKey(c) then [field] else []), p.enums + (if IsEnum(c) then [field] else []),
            p.references + references, p.nullRates[field := NullRate(c)], p.uniqueness[field := Uniqueness(c)])
  }

  lemma ProfileGrows(survey: Survey, fields: seq<string>, i: nat, p: Profile)
    requires i < |fields| && Profiles(survey, fields[..i], p)
    requires survey.measure(fields[i]).present <= survey.measure(fields[i]).rows
    ensures Profiles(survey, fields[..i + 1], WithField(p, fields[i], survey.measure(fields[i]), survey.references(fields[i])))
  {
    FilterGrows(f => IsPrimaryKey(survey.measure(f)), fields, i);
    FilterGrows(f => IsEnum(survey.measure(f)), fields, i);
    TakeOneMore(fields, i);
    TakeOfTake(fields, i, i + 1);
  }

  /** The loop over the fields. */
  method ProfileFields(survey: Survey, fields: seq<string>) returns (p: Profile)
    requires forall f :: survey.measure(f).present <= survey.measure(f).rows
    ensures Profiles(survey, fields, p)
  {
    p := Profile([], [], [], map[], map[]);
    for i := 0 to |fields|
      invariant Profiles(survey, fields[..i], p)
    {
      ProfileGrows(survey, fields, i, p);
      var field := fields[i];
      var c := survey.measure(field);
      var primaryKeys, enums := p.primaryKeys, p.enums;
      if IsPrimaryKey(c) {
        primaryKeys := primaryKeys + [field];
      }
      if IsEnum(c) {
        enums := enums + [field];
      }
      p := Profile(primaryKeys, enums, p.references + survey.references(field),
                   p.nullRates[field := NullRate(c)], p.uniqueness[field := Uniqueness(c)]);
    }
    assert fields[..|fields|] == fields;
  }

  method ProfileDataset(conventions: Conventions, d: Dataset, all: seq<Dataset>) returns (p: Profile)
    ensures Profiles(SurveyOf(conventions, d, all), d.fields, p)
  {
    forall field
      ensures SurveyOf(conventions, d, all).measure(field).present <= SurveyOf(conventions, d, all).measure(field).rows
    {
      MeasureBounds(conventions, d, field);
    }
    p := ProfileFields(SurveyOf(conventions, d, all), d.fields);
  }

  /** No field is listed both as a key and as an enumeration. */
  lemma KeysAndEnumsAreDisjoint(conventions: Conventions, d: Dataset, all: seq<Dataset>, p: Profile, field: string)
    requires Profiles(SurveyOf(conventions, d, all), d.fields, p)
    ensures !(field in p.primaryKeys && field in p.enums)
  {
    var survey := SurveyOf(conventions, d, all);
    FilterElements(f => IsPrimaryKey(survey.measure(f)), d.fields);
    FilterElements(f => IsEnum(survey.measure(f)), d.fields);
    EnumIff(conventions, d, field);
  }
}
