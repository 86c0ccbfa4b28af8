/** The clause that getJobs builds from a query string (job.service.ts). */
module JobSearch {
  import opened Wrappers
  import opened LikePatterns
  import opened FilterEngine
  import FilterFactories
  import Jobs

  /** A parameter that may come as comma-separated text or as a list. */
  datatype ListParam = Absent | Text(text: string) | Items(items: seq<string>)

  /** GetJobsQuery without paging and sorting; an absent text is an empty one, the salaries are already parsed. */
  datatype Query = Query(
    search: string,
    location: string,
    jobType: ListParam,
    experienceLevel: ListParam,
    skills: ListParam,
    industry: ListParam,
    isRemote: Value,
    isFeatured: Value,
    salaryMin: Option<int>,
    salaryMax: Option<int>,
    postedWithin: string,
    status: string,
    companyId: string)

  const DAY := 86_400_000
  const SEARCHED := ["title", "discipline", "requirements"]

  /* ---- parameters ---- */

  /** A character in front of the first part; a comma begins a part. */
  function Prepend(c: char, parts: seq<string>): seq<string>
    requires parts != []
  {
    if c == ',' then [""] + parts else [[c] + parts[0]] + parts[1..]
  }

  /** split(","). */
  function Split(text: string): (parts: seq<string>)
    ensures parts != []
  {
    if text == "" then [""]
    else
      Prepend(text[0], Split(text[1..]))
  }

  function Join(parts: seq<string>): string
    requires parts != []
  {
    if |parts| == 1 then parts[0] else parts[0] + "," + Join(parts[1..])
  }

  function TrimAll(parts: seq<string>): (r: seq<string>) {
    seq(|parts|, i requires 0 <= i < |parts| => Trim(parts[i]))
  }

  /** parseArray; an undefined list and an empty one both ask for nothing. */
  function ParseArray(param: ListParam): seq<string> {
    match param
    case Absent => []
    case Text(text) => if text == "" then [] else TrimAll(Split(text))
    case Items(items) => items
  }

  /** parseBool. */
  function ParseBool(param: Value): Option<bool> {
    if param == Str("true") || param == Bool(true) then Some(true)
    else if param == Str("false") || param == Bool(false) then Some(false)
    else None
  }

  /** The days of a period of getDateFromPeriod; 0 for a period it does not know. */
  function Days(period: string): nat {
    if period == "24h" then 1
    else if period == "3d" then 3
    else if period == "1w" then 7
    else if period == "1m" then 30
    else 0
  }

  /** Splitting at commas loses nothing and leaves no comma. */
  lemma {:induction false} SplitJoins(text: string)
    ensures Join(Split(text)) == text
    ensures forall part :: part in Split(text) ==> ',' !in part
  {
    if text != "" {
      SplitJoins(text[1..]);
      SplitStep(text[0], Split(text[1..]));
      assert text == [text[0]] + text[1..];
      hide Join;
    }
  }

  lemma SplitStep(c: char, parts: seq<string>)
    requires parts != [] && forall part :: part in parts ==> ',' !in part
    ensures Join(Prepend(c, parts)) == [c] + Join(parts)
    ensures forall part :: part in Prepend(c, parts) ==> ',' !in part
  {
    if c == ',' {
      assert Prepend(c, parts)[1..] == parts;
    } else {
      assert Prepend(c, parts)[1..] == parts[1..];
      assert ',' !in [c] + parts[0];
    }
  }

  /* ---- the filter options ---- */

  function When<T>(condition: bool, x: T): seq<T> {
    if condition then [x] else []
  }

  function BoolValue(field: string, value: Option<bool>): seq<NamedValue> {
    if value.Some? then [NamedValue(field, Bool(value.value))] else []
  }

  function StrsOf(texts: seq<string>): seq<Value> {
    seq(|texts|, i requires 0 <= i < |texts| => Str(texts[i]))
  }

  function JobValues(q: Query, publicOnly: bool): seq<NamedValue> {
    When(publicOnly, NamedValue("status", Str("ACTIVE")))
    + When(q.companyId != "", NamedValue("companyId", Str(q.companyId)))
    + When(!publicOnly && q.status != "", NamedValue("status", Str(q.status)))
    + BoolValue("isRemote", ParseBool(q.isRemote))
    + BoolValue("isFeatured", ParseBool(q.isFeatured))
  }

  function JobLists(q: Query): seq<NamedValues> {
    When(ParseArray(q.jobType) != [], NamedValues("jobType", StrsOf(ParseArray(q.jobType))))
    + When(ParseArray(q.experienceLevel) != [], NamedValues("experienceLevel", StrsOf(ParseArray(q.experienceLevel))))
  }

  function JobRanges(q: Query): seq<NamedRange> {
    When(q.salaryMin.Some?, NamedRange("salaryMin", q.salaryMin, None))
    + When(q.salaryMax.Some?, NamedRange("salaryMax", None, q.salaryMax))
  }

  function JobDates(q: Query, now: int): seq<NamedDates> {
    When(Days(q.postedWithin) > 0, NamedDates("createdAt", At(now - Days(q.postedWithin) * DAY), At(now)))
  }

  function PublicGroups(now: int): seq<seq<Atom>> {
    [[Atom("applicationDeadline", IsNull), Atom("applicationDeadline", GreaterThan(now))],
     [Atom("expiresAt", IsNull), Atom("expiresAt", GreaterThan(now))]]
  }

  function PublicClause(publicOnly: bool, now: int): Where {
    if publicOnly then map["AND" := AllOf(PublicGroups(now))] else map[]
  }

  function JobOptions(q: Query, publicOnly: bool, now: int): Options {
    Options(
      if q.search != "" then Trim(q.search) else "",
      if q.search != "" then SEARCHED else [],
      JobValues(q, publicOnly), JobLists(q), JobRanges(q), JobDates(q, now), false, PublicClause(publicOnly, now))
  }

  /* ---- the clause ---- */

  function LocationClause(q: Query): Where {
    if Trim(q.location) != "" then map["location" := Field(Like(Trim(q.location)))] else map[]
  }

  function SkillClause(q: Query): Where {
    if ParseArray(q.skills) != [] then map["JobSkill" := Field(SomeInInsensitive(ParseArray(q.skills)))] else map[]
  }

  function IndustryGroup(names: seq<string>): seq<Atom> {
    [Atom("industry.name", InInsensitive(names)), Atom("company.industry.name", InInsensitive(names))]
  }

  function Groups(where: Where): seq<seq<Atom>> {
    if "AND" in where && where["AND"].AllOf? then where["AND"].groups else []
  }

  function AndGroup(where: Where, group: seq<Atom>): Where {
    where["AND" := AllOf(Groups(where) + [group])]
  }

  function WithRelations(base: Where, q: Query): Where {
    var where := base + LocationClause(q) + SkillClause(q);
    if ParseArray(q.industry) != [] then AndGroup(where, IndustryGroup(ParseArray(q.industry))) else where
  }

  function JobWhere(q: Query, publicOnly: bool, now: int): Where {
    WithRelations(Compiled(JobOptions(q, publicOnly, now)), q)
  }

  /* ---- what a query asks for ---- */

  predicate HitsIn(term: string, v: Value) { v.Str? && Occurs(term, v.s) }

  predicate SearchHit(term: string, row: Row) {
    || HitsIn(term, Column(row, "title"))
    || HitsIn(term, Column(row, "discipline"))
    || HitsIn(term, Column(row, "requirements"))
  }

  /** A list parameter names something: as an item of a list, or as a trimmed part of a text between commas. */
  ghost predicate Asks(param: ListParam, name: string) {
    match param
    case Absent => false
    case Text(text) => text != "" && exists part :: part in Split(text) && name == Trim(part)
    case Items(items) => name in items
  }

  ghost predicate AsksAny(param: ListParam) { exists name :: Asks(param, name) }

  /** The value is one of the named ones; a list of blanks asks for nothing. */
  ghost predicate OneOf(param: ListParam, v: Value) {
    (exists name :: Asks(param, name) && name != "") ==> v.Str? && v.s != "" && Asks(param, v.s)
  }

  function Magnitude(v: Value): Option<int> {
    if v.Num? then Some(v.n) else if v.Date? then Some(v.t) else None
  }

  predicate NullOrLater(v: Value, now: int) {
    v == Null || (v.Date? && now < v.t)
  }

  /** Names are compared without regard to case. */
  ghost predicate NamedOneOf(param: ListParam, v: Value) {
    v.Str? && exists name :: Asks(param, name) && SameText(name, v.s)
  }

  ghost predicate HasSkill(param: ListParam, v: Value) {
    v.Strs? && exists skill, name :: skill in v.strs && Asks(param, name) && SameText(name, skill)
  }

  /** A flag as text or as a boolean asks for that value; anything else asks for nothing. */
  predicate FlagFilter(param: Value, v: Value) {
    && (param == Str("true") || param == Bool(true) ==> v == Bool(true))
    && (param == Str("false") || param == Bool(false) ==> v == Bool(false))
  }

  /** The requested filters, one by one. */
  predicate ExactFilters(q: Query, row: Row) {
    && (q.companyId != "" ==> Column(row, "companyId") == Str(q.companyId))
    && FlagFilter(q.isRemote, Column(row, "isRemote"))
    && FlagFilter(q.isFeatured, Column(row, "isFeatured"))
  }

  ghost predicate ListFilters(q: Query, row: Row) {
    && OneOf(q.jobType, Column(row, "jobType"))
    && OneOf(q.experienceLevel, Column(row, "experienceLevel"))
  }

  predicate SalaryFilters(q: Query, row: Row) {
    var low, high := Magnitude(Column(row, "salaryMin")), Magnitude(Column(row, "salaryMax"));
    && (q.salaryMin.Some? ==> low.Some? && q.salaryMin.value <= low.value)
    && (q.salaryMax.Some? ==> high.Some? && high.value <= q.salaryMax.value)
  }

  predicate CreatedWithin(days: int, now: int, v: Value) {
    var created := Magnitude(v);
    created.Some? && now - days * 86_400_000 <= created.value <= now
  }

  predicate DateFilter(q: Query, now: int, row: Row) {
    && (q.postedWithin == "24h" ==> CreatedWithin(1, now, Column(row, "createdAt")))
    && (q.postedWithin == "3d" ==> CreatedWithin(3, now, Column(row, "createdAt")))
    && (q.postedWithin == "1w" ==> CreatedWithin(7, now, Column(row, "createdAt")))
    && (q.postedWithin == "1m" ==> CreatedWithin(30, now, Column(row, "createdAt")))
  }

  predicate LocationFilter(q: Query, row: Row) {
    var v := Column(row, "location");
    Trim(q.location) != "" ==> v.Str? && Contains(Trim(q.location), v.s)
  }

  ghost predicate TextFilters(q: Query, row: Row) {
    && (Trim(q.search) != "" ==> SearchHit(Trim(q.search), row))
    && LocationFilter(q, row)
    && (AsksAny(q.skills) ==> HasSkill(q.skills, Column(row, "JobSkill")))
    && (AsksAny(q.industry) ==>
          || NamedOneOf(q.industry, Column(row, "industry.name"))
          || NamedOneOf(q.industry, Column(row, "company.industry.name")))
  }

  /** The public sees ACTIVE jobs; an owner may ask for a status. */
  predicate StatusFilter(q: Query, publicOnly: bool, row: Row) {
    && (publicOnly ==> Column(row, "status") == Str("ACTIVE"))
    && (!publicOnly && q.status != "" ==> Column(row, "status") == Str(q.status))
  }

  /** What the listing shows before any filter: open jobs to the public, any job that is not deleted to its owner. */
  predicate Listed(q: Query, publicOnly: bool, now: int, row: Row) {
    && Column(row, "deletedAt") == Null
    && StatusFilter(q, publicOnly, row)
    && (publicOnly ==>
          && NullOrLater(Column(row, "applicationDeadline"), now)
          && NullOrLater(Column(row, "expiresAt"), now))
  }

  ghost predicate MeetsFilters(q: Query, now: int, row: Row) {
    && ExactFilters(q, row)
    && ListFilters(q, row)
    && SalaryFilters(q, row)
    && DateFilter(q, now, row)
    && TextFilters(q, row)
  }

  ghost predicate Wanted(q: Query, publicOnly: bool, now: int, row: Row) {
    && Listed(q, publicOnly, now, row)
    && MeetsFilters(q, now, row)
  }

  /* ---- getJobs ---- */

  method BuildValues(q: Query, publicOnly: bool) returns (where: seq<NamedValue>)
    ensures where == JobValues(q, publicOnly)
    ensures forall row ::
      AllContribute(Values(where), row) <==> StatusFilter(q, publicOnly, row) && ExactFilters(q, row)
  {
    hide AllContribute, Values, ExactFilters, StatusFilter;
    forall row
      ensures AllContribute(Values(JobValues(q, publicOnly)), row)
         <==> StatusFilter(q, publicOnly, row) && ExactFilters(q, row)
    {
      ValuesMeaning(q, publicOnly, row);
    }
    hide ParseBool;
    where := if publicOnly then [NamedValue("status", Str("ACTIVE"))] else [];
    ghost var stage := When(publicOnly, NamedValue("status", Str("ACTIVE")));
    if q.companyId != "" {
      where := where + [NamedValue("companyId", Str(q.companyId))];
    }
    stage := stage + When(q.companyId != "", NamedValue("companyId", Str(q.companyId)));
    assert where == stage;
    if !publicOnly && q.status != "" {
      where := where + [NamedValue("status", Str(q.status))];
    }
    stage := stage + When(!publicOnly && q.status != "", NamedValue("status", Str(q.status)));
    assert where == stage;
    var remote := ParseBool(q.isRemote);
    if remote.Some? {
      where := where + [NamedValue("isRemote", Bool(remote.value))];
    }
    stage := stage + BoolValue("isRemote", remote);
    assert where == stage;
    var featured := ParseBool(q.isFeatured);
    if featured.Some? {
      where := where + [NamedValue("isFeatured", Bool(featured.value))];
    }
    stage := stage + BoolValue("isFeatured", featured);
    assert where == stage;
  }

  method BuildLists(q: Query) returns (whereIn: seq<NamedValues>)
    ensures whereIn == JobLists(q)
    ensures forall row :: AllContribute(ValueLists(whereIn), row) <==> ListFilters(q, row)
  {
    hide AllContribute, ValueLists, ListFilters;
    forall row ensures AllContribute(ValueLists(JobLists(q)), row) <==> ListFilters(q, row) {
      ListsMeaning(q, row);
    }
    hide ParseArray, StrsOf;
    whereIn := [];
    var jobTypes := ParseArray(q.jobType);
    if |jobTypes| > 0 {
      whereIn := whereIn + [NamedValues("jobType", StrsOf(jobTypes))];
    }
    var levels := ParseArray(q.experienceLevel);
    if |levels| > 0 {
      whereIn := whereIn + [NamedValues("experienceLevel", StrsOf(levels))];
    }
  }

  method BuildRanges(q: Query) returns (ranges: seq<NamedRange>)
    ensures ranges == JobRanges(q)
    ensures forall row :: AllContribute(Ranges(ranges), row) <==> SalaryFilters(q, row)
  {
    hide AllContribute, Ranges, SalaryFilters;
    forall row ensures AllContribute(Ranges(JobRanges(q)), row) <==> SalaryFilters(q, row) {
      RangesMeaning(q, row);
    }
    ranges := [];
    if q.salaryMin.Some? {
      ranges := ranges + [NamedRange("salaryMin", q.salaryMin, None)];
    }
    if q.salaryMax.Some? {
      ranges := ranges + [NamedRange("salaryMax", None, q.salaryMax)];
    }
  }

  /** The engine's clause, extended in place. */
  method AddRelations(base: Where, q: Query) returns (where: Where)
    ensures where == WithRelations(base, q)
  {
    hide Trim, ParseArray, IndustryGroup;
    where := base;
    if Trim(q.location) != "" {
      where := where["location" := Field(Like(Trim(q.location)))];
    }
    assert where == base + LocationClause(q);
    var skillsList := ParseArray(q.skills);
    if |skillsList| > 0 {
      where := where["JobSkill" := Field(SomeInInsensitive(skillsList))];
    }
    assert where == base + LocationClause(q) + SkillClause(q);
    hide LocationClause, SkillClause;
    var industries := ParseArray(q.industry);
    if |industries| > 0 {
      ghost var before := where;
      if "AND" !in where || !where["AND"].AllOf? {
        where := where["AND" := AllOf([])];
      }
      where := where["AND" := AllOf(where["AND"].groups + [IndustryGroup(industries)])];
      assert where == AndGroup(before, IndustryGroup(industries));
    }
  }

  /* ---- every stage writes its own keys ---- */

  /** The stage that writes a key of the where object, numbered in the order of writing. */
  function Stage(key: string): nat {
    if key == "deletedAt" then 0
    else if key == "OR" then 1
    else if key == "status" then 2
    else if key == "companyId" then 3
    else if key == "isRemote" then 4
    else if key == "isFeatured" then 5
    else if key == "jobType" then 6
    else if key == "experienceLevel" then 7
    else if key == "salaryMin" then 8
    else if key == "salaryMax" then 9
    else if key == "createdAt" then 10
    else if key == "AND" then 11
    else if key == "location" then 12
    else if key == "JobSkill" then 13
    else 14
  }

  lemma StagesDiffer()
    ensures Stage("deletedAt") == 0 && Stage("OR") == 1
    ensures Stage("status") == 2 && Stage("companyId") == 3 && Stage("isRemote") == 4 && Stage("isFeatured") == 5
    ensures Stage("jobType") == 6 && Stage("experienceLevel") == 7
    ensures Stage("salaryMin") == 8 && Stage("salaryMax") == 9 && Stage("createdAt") == 10
    ensures Stage("AND") == 11 && Stage("location") == 12 && Stage("JobSkill") == 13
  {
  }

  lemma {:induction false} ValuesConcat(a: seq<NamedValue>, b: seq<NamedValue>)
    ensures Values(a + b) == Values(a) + Values(b)
  {
    hide OfValue;
    if b == [] {
      assert a + b == a;
    } else {
      var n := |b| - 1;
      assert (a + b)[..|a| + n] == a + b[..n];
      ValuesConcat(a, b[..n]);
    }
  }

  lemma {:induction false} ValueListsConcat(a: seq<NamedValues>, b: seq<NamedValues>)
    ensures ValueLists(a + b) == ValueLists(a) + ValueLists(b)
  {
    hide OfValues;
    if b == [] {
      assert a + b == a;
    } else {
      var n := |b| - 1;
      assert (a + b)[..|a| + n] == a + b[..n];
      ValueListsConcat(a, b[..n]);
    }
  }

  lemma {:induction false} RangesConcat(a: seq<NamedRange>, b: seq<NamedRange>)
    ensures Ranges(a + b) == Ranges(a) + Ranges(b)
  {
    hide OfRange;
    if b == [] {
      assert a + b == a;
    } else {
      var n := |b| - 1;
      assert (a + b)[..|a| + n] == a + b[..n];
      RangesConcat(a, b[..n]);
    }
  }

  /** At most one contribution, to the field of the given stage, and its meaning. */
  predicate OneStage(cs: seq<Contribution>, stage: nat) {
    |cs| <= 1 && forall c :: c in cs ==> Stage(c.field) == stage
  }

  predicate StagesIn(cs: seq<Contribution>, stages: set<nat>) {
    forall c :: c in cs ==> Stage(c.field) in stages
  }

  lemma DistinctConcat(a: seq<Contribution>, b: seq<Contribution>, stages: set<nat>, stage: nat)
    requires DistinctFields(a) && StagesIn(a, stages) && OneStage(b, stage) && stage !in stages
    ensures DistinctFields(a + b) && StagesIn(a + b, stages + {stage})
  {
    hide Stage;
    forall i, j | 0 <= i < j < |a + b| ensures (a + b)[i].field != (a + b)[j].field {
      if j >= |a| {
        assert (a + b)[j] in b && i < |a| && (a + b)[i] in a;
      }
    }
  }

  lemma ContributeConcat(a: seq<Contribution>, b: seq<Contribution>, row: Row)
    ensures AllContribute(a + b, row) <==> AllContribute(a, row) && AllContribute(b, row)
  {
    hide Holds, Column;
    assert forall c :: c in a + b <==> c in a || c in b;
  }

  lemma ParseBoolMeans(param: Value, v: Value)
    ensures (ParseBool(param).Some? ==> v == Bool(ParseBool(param).value)) <==> FlagFilter(param, v)
  {
  }

  /** The parsed list holds just what the parameter names. */
  lemma ParseArrayAsks(param: ListParam, name: string)
    ensures name in ParseArray(param) <==> Asks(param, name)
    ensures ParseArray(param) != [] <==> AsksAny(param)
  {
    hide Trim, Split;
    if param.Text? && param.text != "" {
      var parts := Split(param.text);
      assert ParseArray(param) == TrimAll(parts);
      if part :| part in parts && name == Trim(part) {
        var i :| 0 <= i < |parts| && parts[i] == part;
        assert TrimAll(parts)[i] == name;
      }
      assert parts[0] in parts && Asks(param, Trim(parts[0]));
    } else if ParseArray(param) != [] {
      assert Asks(param, ParseArray(param)[0]);
    }
  }

  lemma OneValue(asked: bool, field: string, v: Value, row: Row)
    requires asked ==> IsValidValue(v)
    ensures OneStage(Values(When(asked, NamedValue(field, v))), Stage(field))
    ensures AllContribute(Values(When(asked, NamedValue(field, v))), row) <==> (asked ==> Column(row, field) == v)
  {
    hide Stage, Column;
    if asked {
      var e := NamedValue(field, v);
      assert [e][..0] == [] && Values([]) == [];
      assert Values([e]) == [Contribution(field, Some(Equals(v)))];
      assert Contribution(field, Some(Equals(v))) in Values([e]);
    }
  }

  lemma OneBool(field: string, value: Option<bool>, row: Row)
    ensures OneStage(Values(BoolValue(field, value)), Stage(field))
    ensures AllContribute(Values(BoolValue(field, value)), row)
       <==> (value.Some? ==> Column(row, field) == Bool(value.value))
  {
    OneValue(value.Some?, field, if value.Some? then Bool(value.value) else Bool(true), row);
    hide Stage, Column, Values, OneStage, AllContribute;
  }

  /** The exact matches ask for the status and the exact filters. */
  lemma ValuesMeaning(q: Query, publicOnly: bool, row: Row)
    ensures DistinctFields(Values(JobValues(q, publicOnly))) && StagesIn(Values(JobValues(q, publicOnly)), {2, 3, 4, 5})
    ensures AllContribute(Values(JobValues(q, publicOnly)), row)
       <==> StatusFilter(q, publicOnly, row) && ExactFilters(q, row)
  {
    StagesDiffer();
    hide Stage, Column, Values, AllContribute, DistinctFields, StagesIn, OneStage, ParseBool, FlagFilter;
    var a := When(publicOnly, NamedValue("status", Str("ACTIVE")));
    var b := When(q.companyId != "", NamedValue("companyId", Str(q.companyId)));
    var c := When(!publicOnly && q.status != "", NamedValue("status", Str(q.status)));
    var d := BoolValue("isRemote", ParseBool(q.isRemote));
    var e := BoolValue("isFeatured", ParseBool(q.isFeatured));
    OneValue(publicOnly, "status", Str("ACTIVE"), row);
    OneValue(q.companyId != "", "companyId", Str(q.companyId), row);
    OneValue(!publicOnly && q.status != "", "status", Str(q.status), row);
    OneBool("isRemote", ParseBool(q.isRemote), row);
    OneBool("isFeatured", ParseBool(q.isFeatured), row);
    ParseBoolMeans(q.isRemote, Column(row, "isRemote"));
    ParseBoolMeans(q.isFeatured, Column(row, "isFeatured"));
    if publicOnly {
      assert c == [] && a + b + c == a + b;
    } else {
      assert a == [] && a + b + c == b + c;
    }
    FiveConcat(a, b, c, d, e, row);
    FiveDistinct(publicOnly, a, b, c, d, e);
    hide BoolValue, When;
    assert JobValues(q, publicOnly) == a + b + c + d + e;
  }

  lemma FiveConcat(a: seq<NamedValue>, b: seq<NamedValue>, c: seq<NamedValue>, d: seq<NamedValue>, e: seq<NamedValue>,
                   row: Row)
    ensures AllContribute(Values(a + b + c + d + e), row)
       <==> (AllContribute(Values(a), row) && AllContribute(Values(b), row) && AllContribute(Values(c), row)
             && AllContribute(Values(d), row) && AllContribute(Values(e), row))
  {
    hide AllContribute, Values;
    ValuesConcat(a, b);
    ValuesConcat(a + b, c);
    ValuesConcat(a + b + c, d);
    ValuesConcat(a + b + c + d, e);
    ContributeConcat(Values(a), Values(b), row);
    ContributeConcat(Values(a + b), Values(c), row);
    ContributeConcat(Values(a + b + c), Values(d), row);
    ContributeConcat(Values(a + b + c + d), Values(e), row);
  }

  /** The status is written at most once, by the public path or by the owner's. */
  lemma FiveDistinct(publicOnly: bool, a: seq<NamedValue>, b: seq<NamedValue>, c: seq<NamedValue>, d: seq<NamedValue>,
                     e: seq<NamedValue>)
    requires OneStage(Values(a), 2) && OneStage(Values(b), 3) && OneStage(Values(c), 2)
    requires OneStage(Values(d), 4) && OneStage(Values(e), 5)
    requires if publicOnly then c == [] else a == []
    ensures DistinctFields(Values(a + b + c + d + e)) && StagesIn(Values(a + b + c + d + e), {2, 3, 4, 5})
  {
    ValuesConcat(a, b);
    ValuesConcat(a + b, c);
    ValuesConcat(a + b + c, d);
    ValuesConcat(a + b + c + d, e);
    assert StagesIn([], {}) && DistinctFields([]);
    if publicOnly {
      assert a + b + c == a + b;
      DistinctConcat([], Values(a), {}, 2);
      assert [] + Values(a) == Values(a);
      DistinctConcat(Values(a), Values(b), {2}, 3);
    } else {
      assert a + b == b;
      DistinctConcat([], Values(b), {}, 3);
      assert [] + Values(b) == Values(b);
      DistinctConcat(Values(b), Values(c), {3}, 2);
    }
    hide DistinctFields, StagesIn, OneStage, Values;
    assert {2} + {3} == {2, 3} && {3} + {2} == {2, 3} && {} + {2} == {2} && {} + {3} == {3};
    DistinctConcat(Values(a + b + c), Values(d), {2, 3}, 4);
    DistinctConcat(Values(a + b + c + d), Values(e), {2, 3, 4}, 5);
    assert {2, 3} + {4} == {2, 3, 4} && {2, 3, 4} + {5} == {2, 3, 4, 5};
  }

  lemma {:induction false} ValidMembers(values: seq<Value>, v: Value)
    ensures v in ValidValues(values) <==> v in values && IsValidValue(v)
  {
    if values != [] {
      ValidMembers(values[1..], v);
      assert values == [values[0]] + values[1..];
    }
  }

  predicate InNonBlank(names: seq<string>, v: Value) {
    (exists name :: name in names && name != "") ==> v.Str? && v.s != "" && v.s in names
  }

  lemma OneOfMeans(param: ListParam, v: Value)
    ensures InNonBlank(ParseArray(param), v) <==> OneOf(param, v)
  {
    hide ParseArray, Asks;
    forall name ensures name in ParseArray(param) <==> Asks(param, name) {
      ParseArrayAsks(param, name);
    }
  }

  lemma OneList(names: seq<string>, field: string, row: Row)
    ensures OneStage(ValueLists(When(names != [], NamedValues(field, StrsOf(names)))), Stage(field))
    ensures AllContribute(ValueLists(When(names != [], NamedValues(field, StrsOf(names)))), row)
       <==> InNonBlank(names, Column(row, field))
  {
    hide Stage, Column, ValidValues;
    if names != [] {
      var values := StrsOf(names);
      var e := NamedValues(field, values);
      assert [e][..0] == [] && ValueLists([]) == [];
      assert ValueLists([e]) == [Contribution(field, OfValues(e))];
      forall v ensures v in ValidValues(values) <==> v.Str? && v.s in names && v.s != "" {
        ValidMembers(values, v);
        assert forall i :: 0 <= i < |names| ==> values[i] == Str(names[i]);
      }
      assert forall name :: name in names && name != "" ==> Str(name) in ValidValues(values);
      assert (exists name :: name in names && name != "") <==> ValidValues(values) != [] by {
        if ValidValues(values) != [] {
          assert ValidValues(values)[0] in ValidValues(values);
        }
      }
      assert OfValues(e).Some? ==> Contribution(field, OfValues(e)) in ValueLists([e]);
    }
  }

  lemma ListsMeaning(q: Query, row: Row)
    ensures DistinctFields(ValueLists(JobLists(q))) && StagesIn(ValueLists(JobLists(q)), {6, 7})
    ensures AllContribute(ValueLists(JobLists(q)), row) <==> ListFilters(q, row)
  {
    StagesDiffer();
    hide Stage, Column, ValueLists, AllContribute, ParseArray, StrsOf, OneOf, InNonBlank;
    var types, levels := ParseArray(q.jobType), ParseArray(q.experienceLevel);
    var a := When(types != [], NamedValues("jobType", StrsOf(types)));
    var b := When(levels != [], NamedValues("experienceLevel", StrsOf(levels)));
    OneList(types, "jobType", row);
    OneList(levels, "experienceLevel", row);
    OneOfMeans(q.jobType, Column(row, "jobType"));
    OneOfMeans(q.experienceLevel, Column(row, "experienceLevel"));
    ValueListsConcat(a, b);
    ContributeConcat(ValueLists(a), ValueLists(b), row);
    assert StagesIn(ValueLists(a), {6});
    DistinctConcat(ValueLists(a), ValueLists(b), {6}, 7);
    assert {6} + {7} == {6, 7};
  }

  lemma OneRange(asked: bool, e: NamedRange, row: Row)
    requires asked ==> e.min.Some? || e.max.Some?
    ensures OneStage(Ranges(When(asked, e)), Stage(e.field))
    ensures AllContribute(Ranges(When(asked, e)), row)
       <==> (asked ==> Holds(Between(e.min, e.max), Column(row, e.field)))
  {
    hide Stage, Column, Holds;
    if asked {
      assert [e][..0] == [] && Ranges([]) == [];
      assert Ranges([e]) == [Contribution(e.field, Some(Between(e.min, e.max)))];
      assert Contribution(e.field, Some(Between(e.min, e.max))) in Ranges([e]);
    }
  }

  lemma RangesMeaning(q: Query, row: Row)
    ensures DistinctFields(Ranges(JobRanges(q))) && StagesIn(Ranges(JobRanges(q)), {8, 9})
    ensures AllContribute(Ranges(JobRanges(q)), row) <==> SalaryFilters(q, row)
  {
    StagesDiffer();
    hide Stage, Column, Ranges, AllContribute;
    var a := When(q.salaryMin.Some?, NamedRange("salaryMin", q.salaryMin, None));
    var b := When(q.salaryMax.Some?, NamedRange("salaryMax", None, q.salaryMax));
    OneRange(q.salaryMin.Some?, NamedRange("salaryMin", q.salaryMin, None), row);
    OneRange(q.salaryMax.Some?, NamedRange("salaryMax", None, q.salaryMax), row);
    RangesConcat(a, b);
    ContributeConcat(Ranges(a), Ranges(b), row);
    assert StagesIn(Ranges(a), {8});
    DistinctConcat(Ranges(a), Ranges(b), {8}, 9);
    assert {8} + {9} == {8, 9};
  }

  lemma DaysMean(q: Query, now: int, row: Row)
    ensures (Days(q.postedWithin) > 0 ==> CreatedWithin(Days(q.postedWithin), now, Column(row, "createdAt")))
       <==> DateFilter(q, now, row)
  {
    hide Column, CreatedWithin;
  }

  lemma DatesMeaning(q: Query, now: int, row: Row)
    ensures DistinctFields(DateRanges(JobDates(q, now))) && StagesIn(DateRanges(JobDates(q, now)), {10})
    ensures AllContribute(DateRanges(JobDates(q, now)), row) <==> DateFilter(q, now, row)
  {
    hide Stage, Column, Days, DateFilter;
    StagesDiffer();
    DaysMean(q, now, row);
    var days := Days(q.postedWithin);
    if days > 0 {
      var e := NamedDates("createdAt", At(now - days * DAY), At(now));
      assert [e][..0] == [] && DateRanges([]) == [];
      assert DateRanges([e]) == [Contribution("createdAt", OfDates(e))];
      assert Contribution("createdAt", OfDates(e)) in DateRanges([e]);
    }
  }

  lemma SearchMeaning(q: Query, publicOnly: bool, now: int, row: Row)
    ensures Denotes(Search(JobOptions(q, publicOnly, now)), row)
       <==> (Trim(q.search) != "" ==> SearchHit(Trim(q.search), row))
  {
    hide Search, Denotes, Trim, SanitizeSearchTerm, Contains, Occurs, Column, JobValues, JobLists, JobRanges,
         JobDates, PublicClause;
    var o := JobOptions(q, publicOnly, now);
    SearchDenotes(o, row);
    TrimIdempotent(q.search);
    TrimEmpty();
    SearchTermIsLiteral(Trim(q.search), row);
    assert Searches(o) <==> Trim(q.search) != "";
  }

  lemma TrimEmpty()
    ensures Trim("") == ""
  {
  }

  lemma SearchTermIsLiteral(term: string, row: Row)
    requires Trim(term) == term
    ensures (exists f :: f in SEARCHED && Holds(Like(SanitizeSearchTerm(term)), Column(row, f)))
       <==> SearchHit(term, row)
  {
    hide Trim, SanitizeSearchTerm, Contains, Occurs, Column;
    forall text ensures Contains(SanitizeSearchTerm(term), text) <==> Occurs(term, text) {
      SanitizedSearchIsLiteral(term, text);
    }
  }

  lemma PublicMeaning(publicOnly: bool, now: int, row: Row)
    ensures Denotes(PublicClause(publicOnly, now), row)
       <==> (publicOnly ==>
               NullOrLater(Column(row, "applicationDeadline"), now) && NullOrLater(Column(row, "expiresAt"), now))
  {
    hide Column;
    if publicOnly {
      var groups := PublicGroups(now);
      GroupMeaning("applicationDeadline", now, row);
      GroupMeaning("expiresAt", now, row);
      assert PublicClause(true, now)["AND"] == AllOf(groups);
      assert groups[0] in groups && groups[1] in groups;
      hide AnyHolds, NullOrLater;
    }
  }

  lemma GroupMeaning(field: string, now: int, row: Row)
    ensures AnyHolds([Atom(field, IsNull), Atom(field, GreaterThan(now))], row)
       <==> NullOrLater(Column(row, field), now)
  {
    hide Column;
    var atoms := [Atom(field, IsNull), Atom(field, GreaterThan(now))];
    assert atoms[0] in atoms && atoms[1] in atoms;
  }

  /* ---- the whole clause ---- */

  /** The keys of a where object lie in the given stages. */
  predicate KeysIn(where: Where, low: nat, high: nat) {
    forall key :: key in where ==> low <= Stage(key) <= high
  }

  lemma SectionKeysIn(cs: seq<Contribution>, stages: set<nat>, low: nat, high: nat)
    requires StagesIn(cs, stages) && forall n :: n in stages ==> low <= n <= high
    ensures KeysIn(Section(cs), low, high)
  {
    hide Stage;
    forall key | key in Section(cs) ensures low <= Stage(key) <= high {
      SectionKeys(cs, key);
    }
  }

  lemma Later(a: Where, b: Where, low: nat, last: nat, high: nat)
    requires KeysIn(a, 0, low) && KeysIn(b, last, high) && low < last <= high
    ensures a.Keys !! b.Keys && KeysIn(a + b, 0, high)
  {
    hide Stage;
  }

  lemma OptionKeys(q: Query, publicOnly: bool, now: int)
    ensures KeysIn(SoftDelete(JobOptions(q, publicOnly, now)), 0, 0)
    ensures KeysIn(Search(JobOptions(q, publicOnly, now)), 1, 1)
    ensures KeysIn(PublicClause(publicOnly, now), 11, 11)
    ensures KeysIn(LocationClause(q), 12, 12) && KeysIn(SkillClause(q), 13, 13)
  {
    StagesDiffer();
    hide Stage, JobValues, JobLists, JobRanges, JobDates, Trim, ParseArray, SearchAtoms, SanitizeSearchTerm;
  }

  lemma OptionsDisjoint(q: Query, publicOnly: bool, now: int, row: Row)
    ensures ObjectSections(JobOptions(q, publicOnly, now)) && DisjointSections(JobOptions(q, publicOnly, now))
    ensures KeysIn(Compiled(JobOptions(q, publicOnly, now)), 0, 11)
  {
    var o := JobOptions(q, publicOnly, now);
    ValuesMeaning(q, publicOnly, row);
    ListsMeaning(q, row);
    RangesMeaning(q, row);
    DatesMeaning(q, now, row);
    OptionKeys(q, publicOnly, now);
    hide Stage, Search, SoftDelete, Section, Values, ValueLists, Ranges, DateRanges, JobValues, JobLists, JobRanges,
         JobDates, DistinctFields, AllContribute, KeysIn, PublicClause, Column, Trim, ExactFilters, ListFilters,
         SalaryFilters, DateFilter;
    SectionKeysIn(Values(o.where), {2, 3, 4, 5}, 2, 5);
    SectionKeysIn(ValueLists(o.whereIn), {6, 7}, 6, 7);
    SectionKeysIn(Ranges(o.ranges), {8, 9}, 8, 9);
    SectionKeysIn(DateRanges(o.dateRanges), {10}, 10, 10);
    var a := SoftDelete(o);
    var b := a + Search(o);
    var c := b + Section(Values(o.where));
    var d := c + Section(ValueLists(o.whereIn));
    var e := d + Section(Ranges(o.ranges));
    var f := e + Section(DateRanges(o.dateRanges));
    Later(a, Search(o), 0, 1, 1);
    Later(b, Section(Values(o.where)), 1, 2, 5);
    Later(c, Section(ValueLists(o.whereIn)), 5, 6, 7);
    Later(d, Section(Ranges(o.ranges)), 7, 8, 9);
    Later(e, Section(DateRanges(o.dateRanges)), 9, 10, 10);
    Later(f, o.customWhere, 10, 11, 11);
  }

  /** The engine's part of the clause. */
  lemma OptionsMeaning(q: Query, publicOnly: bool, now: int, row: Row)
    ensures Denotes(Compiled(JobOptions(q, publicOnly, now)), row)
       <==> (Listed(q, publicOnly, now, row) && ExactFilters(q, row) && ListFilters(q, row) && SalaryFilters(q, row)
             && DateFilter(q, now, row) && (Trim(q.search) != "" ==> SearchHit(Trim(q.search), row)))
  {
    var o := JobOptions(q, publicOnly, now);
    OptionsDisjoint(q, publicOnly, now, row);
    CompiledIsConjunction(o, row);
    ValuesMeaning(q, publicOnly, row);
    ListsMeaning(q, row);
    RangesMeaning(q, row);
    DatesMeaning(q, now, row);
    SearchMeaning(q, publicOnly, now, row);
    SearchDenotes(o, row);
    PublicMeaning(publicOnly, now, row);
    hide Compiled, Denotes, ObjectSections, DisjointSections, KeysIn, Search, Values, ValueLists, Ranges, DateRanges,
         JobValues, JobLists, JobRanges, JobDates, AllContribute, DistinctFields, StagesIn, PublicClause, Column, Trim,
         ExactFilters, ListFilters, SalaryFilters, DateFilter, SearchHit, Holds, SanitizeSearchTerm, NullOrLater;
  }

  /** Pushing a group onto the AND list adds one conjunct, whether or not there was a list. */
  lemma AndGroupDenotes(where: Where, group: seq<Atom>, row: Row)
    requires "AND" in where ==> where["AND"].AllOf?
    ensures Denotes(AndGroup(where, group), row) <==> Denotes(where, row) && AnyHolds(group, row)
  {
    hide AnyHolds, Holds;
    var pushed := AndGroup(where, group);
    var groups := Groups(where) + [group];
    assert pushed["AND"] == AllOf(groups);
    assert forall g :: g in groups <==> g in Groups(where) || g == group;
    assert forall key :: key in where && key != "AND" ==> pushed[key] == where[key];
    assert Satisfies("AND", pushed["AND"], row)
       <==> (forall g :: g in Groups(where) ==> AnyHolds(g, row)) && AnyHolds(group, row);
    if "AND" in where {
      assert Satisfies("AND", where["AND"], row) <==> forall g :: g in Groups(where) ==> AnyHolds(g, row);
    }
  }

  lemma IndustryMeaning(param: ListParam, row: Row)
    ensures AnyHolds(IndustryGroup(ParseArray(param)), row)
       <==> NamedOneOf(param, Column(row, "industry.name")) || NamedOneOf(param, Column(row, "company.industry.name"))
    ensures ParseArray(param) != [] <==> AsksAny(param)
  {
    hide Column, SameText, ParseArray, Asks, AsksAny;
    forall name ensures name in ParseArray(param) <==> Asks(param, name) {
      ParseArrayAsks(param, name);
    }
    ParseArrayAsks(param, "");
    var atoms := IndustryGroup(ParseArray(param));
    assert atoms[0] in atoms && atoms[1] in atoms;
  }

  lemma LocationMeaning(q: Query, row: Row)
    ensures Denotes(LocationClause(q), row)
       <==> LocationFilter(q, row)
  {
    hide Column, Trim, Contains;
    if Trim(q.location) != "" {
      assert LocationClause(q)["location"] == Field(Like(Trim(q.location)));
    }
  }

  lemma SkillMeaning(q: Query, row: Row)
    ensures Denotes(SkillClause(q), row) <==> (AsksAny(q.skills) ==> HasSkill(q.skills, Column(row, "JobSkill")))
  {
    hide Column, ParseArray, SameText, Asks, AsksAny;
    forall name ensures name in ParseArray(q.skills) <==> Asks(q.skills, name) {
      ParseArrayAsks(q.skills, name);
    }
    ParseArrayAsks(q.skills, "");
    if ParseArray(q.skills) != [] {
      assert SkillClause(q)["JobSkill"] == Field(SomeInInsensitive(ParseArray(q.skills)));
    }
  }

  /** The only condition ever under AND is a list, so the industry group is added and never replaces one. */
  lemma AndIsList(q: Query, publicOnly: bool, now: int, row: Row)
    ensures var where := Compiled(JobOptions(q, publicOnly, now)) + LocationClause(q) + SkillClause(q);
            "AND" in where ==> where["AND"].AllOf?
  {
    var o := JobOptions(q, publicOnly, now);
    OptionKeys(q, publicOnly, now);
    ValuesMeaning(q, publicOnly, row);
    ListsMeaning(q, row);
    RangesMeaning(q, row);
    DatesMeaning(q, now, row);
    StagesDiffer();
    hide Stage, Search, SoftDelete, Section, Values, ValueLists, Ranges, DateRanges, JobValues, JobLists, JobRanges,
         JobDates, DistinctFields, AllContribute, Column, Trim, ExactFilters, ListFilters, SalaryFilters, DateFilter,
         LocationClause, SkillClause, PublicGroups;
    SectionKeysIn(Values(o.where), {2, 3, 4, 5}, 2, 5);
    SectionKeysIn(ValueLists(o.whereIn), {6, 7}, 6, 7);
    SectionKeysIn(Ranges(o.ranges), {8, 9}, 8, 9);
    SectionKeysIn(DateRanges(o.dateRanges), {10}, 10, 10);
  }

  /**
   For every query and both paths, the clause accepts exactly the jobs that are listed and meet every requested
   filter.
   */
  lemma JobWhereDenotes(q: Query, publicOnly: bool, now: int, row: Row)
    ensures Denotes(JobWhere(q, publicOnly, now), row) <==> Wanted(q, publicOnly, now, row)
  {
    hide Compiled, JobOptions, Denotes, LocationClause, SkillClause, IndustryGroup, AndGroup, AnyHolds, Trim,
         ParseArray, Column, Listed, ExactFilters, ListFilters, SalaryFilters, DateFilter, SearchHit, Contains,
         HasSkill, NamedOneOf, ObjectSections, DisjointSections, KeysIn, SoftDelete, Search, PublicClause;
    var base := Compiled(JobOptions(q, publicOnly, now));
    var located := base + LocationClause(q);
    var where := located + SkillClause(q);
    OptionsMeaning(q, publicOnly, now, row);
    OptionsDisjoint(q, publicOnly, now, row);
    OptionKeys(q, publicOnly, now);
    AndIsList(q, publicOnly, now, row);
    LocationMeaning(q, row);
    SkillMeaning(q, row);
    IndustryMeaning(q.industry, row);
    AndGroupDenotes(where, IndustryGroup(ParseArray(q.industry)), row);
    Later(base, LocationClause(q), 11, 12, 12);
    Later(located, SkillClause(q), 12, 13, 13);
    DisjointConjunction(base, LocationClause(q), row);
    DisjointConjunction(located, SkillClause(q), row);
  }

  /* ---- which queries are rejected ---- */

  /** The number of things a list parameter names: the items, or one more than the commas of the text. */
  function LengthOf(param: ListParam): nat {
    match param
    case Absent => 0
    case Text(text) => if text == "" then 0 else 1 + Commas(text)
    case Items(items) => |items|
  }

  function Commas(text: string): nat {
    if text == "" then 0 else (if text[0] == ',' then 1 else 0) + Commas(text[1..])
  }

  lemma {:induction false} SplitLength(text: string)
    ensures |Split(text)| == 1 + Commas(text)
  {
    if text != "" {
      SplitLength(text[1..]);
    }
  }

  lemma ParseArrayLength(param: ListParam)
    ensures |ParseArray(param)| == LengthOf(param)
  {
    if param.Text? {
      SplitLength(param.text);
    }
  }

  /** At most 255 characters to search for, and at most 1000 entries in each of the two lists. */
  predicate WithinLimits(q: Query) {
    |Trim(q.search)| <= 255 && LengthOf(q.jobType) <= 1000 && LengthOf(q.experienceLevel) <= 1000
  }

  /** A field getJobs passes to the engine. */
  predicate JobField(field: string) {
    field in ["status", "companyId", "isRemote", "isFeatured", "jobType", "experienceLevel", "salaryMin", "salaryMax",
              "createdAt", "title", "discipline", "requirements"]
  }

  lemma JobFieldListed(field: string)
    requires JobField(field)
    ensures field in FilterFactories.AllowedFields(FilterFactories.Job)
  {
  }

  lemma JobFieldIsIdentifier(field: string)
    requires JobField(field)
    ensures field != "" && IsIdentifier(field)
  {
  }

  lemma JobFieldAllowed(field: string)
    requires JobField(field)
    ensures ValidField(FilterFactories.AllowedFields(FilterFactories.Job), field)
  {
    hide JobField, IsIdentifier, FilterFactories.AllowedFields;
    JobFieldListed(field);
    JobFieldIsIdentifier(field);
  }

  lemma JobFieldsAllowed()
    ensures forall field :: JobField(field) ==> ValidField(FilterFactories.AllowedFields(FilterFactories.Job), field)
  {
    forall field | JobField(field) ensures ValidField(FilterFactories.AllowedFields(FilterFactories.Job), field) {
      JobFieldAllowed(field);
    }
    hide ValidField, FilterFactories.AllowedFields;
  }

  lemma SearchAccepted(allowed: set<string>, q: Query, publicOnly: bool, now: int)
    requires forall field :: JobField(field) ==> ValidField(allowed, field)
    ensures GoodSearch(allowed, JobOptions(q, publicOnly, now)) <==> |Trim(q.search)| <= MAX_SEARCH_LENGTH
  {
    assert q.search == "" ==> Trim(q.search) == "";
    hide ValidField, Trim, JobValues, JobLists, JobRanges, JobDates, PublicClause;
    assert forall field :: field in SEARCHED ==> JobField(field);
    hide JobField;
  }

  predicate AllGood(allowed: set<string>, values: seq<NamedValue>) {
    forall i :: 0 <= i < |values| ==> GoodValue(allowed, values[i])
  }

  lemma OneAccepted(allowed: set<string>, asked: bool, e: NamedValue)
    requires JobField(e.field) && forall field :: JobField(field) ==> ValidField(allowed, field)
    ensures AllGood(allowed, When(asked, e))
  {
    hide ValidField, IsValidValue, JobField;
  }

  lemma BoolAccepted(allowed: set<string>, field: string, value: Option<bool>)
    requires JobField(field) && forall field :: JobField(field) ==> ValidField(allowed, field)
    ensures AllGood(allowed, BoolValue(field, value))
  {
    hide ValidField, IsValidValue, JobField;
  }

  lemma GoodConcat(allowed: set<string>, a: seq<NamedValue>, b: seq<NamedValue>)
    requires AllGood(allowed, a) && AllGood(allowed, b)
    ensures AllGood(allowed, a + b)
  {
    hide GoodValue;
  }

  lemma ValuesAccepted(allowed: set<string>, q: Query, publicOnly: bool)
    requires forall field :: JobField(field) ==> ValidField(allowed, field)
    ensures AllGood(allowed, JobValues(q, publicOnly))
  {
    assert JobField("status") && JobField("companyId") && JobField("isRemote") && JobField("isFeatured");
    hide ValidField, ParseBool, AllGood, JobField, When, BoolValue;
    var a := When(publicOnly, NamedValue("status", Str("ACTIVE")));
    var b := When(q.companyId != "", NamedValue("companyId", Str(q.companyId)));
    var c := When(!publicOnly && q.status != "", NamedValue("status", Str(q.status)));
    var d := BoolValue("isRemote", ParseBool(q.isRemote));
    var e := BoolValue("isFeatured", ParseBool(q.isFeatured));
    OneAccepted(allowed, publicOnly, NamedValue("status", Str("ACTIVE")));
    OneAccepted(allowed, q.companyId != "", NamedValue("companyId", Str(q.companyId)));
    OneAccepted(allowed, !publicOnly && q.status != "", NamedValue("status", Str(q.status)));
    BoolAccepted(allowed, "isRemote", ParseBool(q.isRemote));
    BoolAccepted(allowed, "isFeatured", ParseBool(q.isFeatured));
    GoodConcat(allowed, a, b);
    GoodConcat(allowed, a + b, c);
    GoodConcat(allowed, a + b + c, d);
    GoodConcat(allowed, a + b + c + d, e);
  }

  lemma ListsAccepted(allowed: set<string>, q: Query)
    requires forall field :: JobField(field) ==> ValidField(allowed, field)
    ensures (forall i :: 0 <= i < |JobLists(q)| ==> GoodValues(allowed, JobLists(q)[i]))
       <==> |ParseArray(q.jobType)| <= MAX_ARRAY_SIZE && |ParseArray(q.experienceLevel)| <= MAX_ARRAY_SIZE
  {
    hide ValidField, ParseArray;
    assert JobField("jobType") && JobField("experienceLevel");
    hide JobField;
    var lists := JobLists(q);
    var types, levels := ParseArray(q.jobType), ParseArray(q.experienceLevel);
    if types != [] {
      assert lists[0] == NamedValues("jobType", StrsOf(types));
    }
    if levels != [] {
      assert lists[|lists| - 1] == NamedValues("experienceLevel", StrsOf(levels));
    }
  }

  lemma RangesAccepted(allowed: set<string>, q: Query, now: int)
    requires forall field :: JobField(field) ==> ValidField(allowed, field)
    ensures forall i :: 0 <= i < |JobRanges(q)| ==> GoodRange(allowed, JobRanges(q)[i])
    ensures forall i :: 0 <= i < |JobDates(q, now)| ==> GoodDates(allowed, JobDates(q, now)[i])
  {
    hide ValidField, Days;
    assert JobField("salaryMin") && JobField("salaryMax") && JobField("createdAt");
    hide JobField;
  }

  /** The engine refuses a query for its length only: every field getJobs names is an allowed one. */
  lemma AcceptedExactly(q: Query, publicOnly: bool, now: int)
    ensures Acceptable(FilterFactories.AllowedFields(FilterFactories.Job), JobOptions(q, publicOnly, now))
       <==> WithinLimits(q)
  {
    var allowed := FilterFactories.AllowedFields(FilterFactories.Job);
    hide JobField, ValidField, GoodSearch, GoodValue, GoodValues, GoodRange, GoodDates, FilterFactories.AllowedFields,
         Trim, ParseArray, JobValues, JobLists, JobRanges, JobDates, PublicClause;
    JobFieldsAllowed();
    SearchAccepted(allowed, q, publicOnly, now);
    ValuesAccepted(allowed, q, publicOnly);
    ListsAccepted(allowed, q);
    ParseArrayLength(q.jobType);
    ParseArrayLength(q.experienceLevel);
    RangesAccepted(allowed, q, now);
  }

  /** getJobs up to its first query of the database: the where object, or the engine's error. */
  method GetJobsWhere(q: Query, publicOnly: bool, now: int) returns (r: Result<Where, Error>)
    ensures r.Ok? <==> WithinLimits(q)
    ensures r.Ok? ==> forall row :: Denotes(r.value, row) <==> Wanted(q, publicOnly, now, row)
  {
    hide FilterFactories.AllowedFields, Acceptable, Compiled, Trim, WithRelations, Denotes, Wanted, WithinLimits,
         JobValues, JobLists, JobRanges, PublicGroups;
    var where := BuildValues(q, publicOnly);
    var whereIn := BuildLists(q);
    var ranges := BuildRanges(q);
    var dateRanges: seq<NamedDates> := [];
    var days := Days(q.postedWithin);
    if days > 0 {
      dateRanges := [NamedDates("createdAt", At(now - days * DAY), At(now))];
    }
    var search, searchIn := "", [];
    if q.search != "" {
      search := Trim(q.search);
      searchIn := SEARCHED;
    }
    var customWhere: Where := map[];
    if publicOnly {
      customWhere := map["AND" := AllOf(PublicGroups(now))];
    }
    var filters := Options(search, searchIn, where, whereIn, ranges, dateRanges, false, customWhere);
    assert filters == JobOptions(q, publicOnly, now);
    hide JobOptions;
    var jobFilter := new Engine(FilterFactories.AllowedFields(FilterFactories.Job));
    r := jobFilter.BuildWhereClause(filters);
    AcceptedExactly(q, publicOnly, now);
    if r.Err? {
      return;
    }
    var extended := AddRelations(r.value, q);
    forall row ensures Denotes(extended, row) <==> Wanted(q, publicOnly, now, row) {
      JobWhereDenotes(q, publicOnly, now, row);
    }
    return Ok(extended);
  }

  /* ---- what the public sees ---- */

  function DateOf(v: Value): Option<int> {
    if v.Date? then Some(v.t) else None
  }

  /** The columns of a job that decide whether it is open. */
  function AvailabilityOf(row: Row): Jobs.Availability {
    var status := Column(row, "status");
    Jobs.Availability(
      if status.Str? then status.s else "",
      DateOf(Column(row, "deletedAt")),
      DateOf(Column(row, "applicationDeadline")),
      DateOf(Column(row, "expiresAt")))
  }

  predicate NullOrDate(v: Value) { v == Null || v.Date? }

  predicate TypedRow(row: Row) {
    && NullOrDate(Column(row, "deletedAt"))
    && NullOrDate(Column(row, "applicationDeadline"))
    && NullOrDate(Column(row, "expiresAt"))
  }

  lemma ListedIsOpen(q: Query, now: int, row: Row)
    ensures Listed(q, true, now, row) ==> Jobs.IsOpen(AvailabilityOf(row), now)
    ensures TypedRow(row) && Jobs.IsOpen(AvailabilityOf(row), now) ==> Listed(q, true, now, row)
  {
    hide Column;
  }

  /** Whatever is asked, the public listing shows jobs only that can be viewed and applied for at that instant. */
  lemma PublicRowsAreOpen(q: Query, now: int, row: Row)
    requires Denotes(JobWhere(q, true, now), row)
    ensures Jobs.PublicJobUnavailableReason(AvailabilityOf(row), now) == None
    ensures Jobs.ApplicationClosedReason(Some(AvailabilityOf(row)), now) == None
  {
    hide JobWhere, Denotes, Listed, AvailabilityOf, Jobs.IsOpen, Jobs.PublicJobUnavailableReason,
         Jobs.ApplicationClosedReason, ExactFilters, ListFilters, SalaryFilters, DateFilter, TextFilters, TypedRow;
    JobWhereDenotes(q, true, now, row);
    ListedIsOpen(q, now, row);
    Jobs.BothChecksAgree(AvailabilityOf(row), now);
  }

  /** The public listing shows exactly the open jobs that meet the filters: none is missing either. */
  lemma PublicListing(q: Query, now: int, row: Row)
    requires TypedRow(row)
    ensures Denotes(JobWhere(q, true, now), row)
       <==> (Jobs.IsOpen(AvailabilityOf(row), now)
             && MeetsFilters(q, now, row))
  {
    hide JobWhere, Denotes, Listed, AvailabilityOf, Jobs.IsOpen, ExactFilters, ListFilters, SalaryFilters, DateFilter,
         TextFilters, TypedRow;
    JobWhereDenotes(q, true, now, row);
    ListedIsOpen(q, now, row);
  }

  /** getMyJobs writes the user's company into the query: whatever else is asked, only that company's jobs are shown. */
  lemma MyJobsAreOwn(q: Query, companyId: string, now: int, row: Row)
    requires companyId != ""
    requires Denotes(JobWhere(q.(companyId := companyId), false, now), row)
    ensures Column(row, "companyId") == Str(companyId) && Column(row, "deletedAt") == Null
  {
    JobWhereDenotes(q.(companyId := companyId), false, now, row);
    hide JobWhere, Denotes, Column, ListFilters, SalaryFilters, DateFilter, TextFilters;
  }

  /* ---- the location filter ---- */

  /** The row's location contains what was asked for, taken literally. */
  predicate LocationHit(q: Query, row: Row) {
    Column(row, "location").Str? && Occurs(Trim(q.location), Column(row, "location").s)
  }

  /**
   The location is put into the clause without escaping, unlike the search term: it is taken literally on all rows if
   and only if it has no percent sign, no underscore and no backslash.
   */
  lemma LocationIsLiteralIff(q: Query)
    requires Trim(q.location) != ""
    ensures (forall row :: Denotes(LocationClause(q), row) <==> LocationHit(q, row)) <==> IsPlain(Trim(q.location))
  {
    var term := Trim(q.location);
    UnescapedIsLiteralIff(term);
    hide Denotes, LocationClause, Trim, Contains, Occurs, IsPlain;
    forall row ensures Denotes(LocationClause(q), row)
                  <==> Column(row, "location").Str? && Contains(term, Column(row, "location").s)
    {
      LocationMeaning(q, row);
    }
    if !IsPlain(term) {
      var text :| Contains(term, text) != Occurs(term, text);
      var row: Row := map["location" := Str(text)];
      assert Column(row, "location") == Str(text);
      assert Denotes(LocationClause(q), row) != LocationHit(q, row);
    }
  }
}
