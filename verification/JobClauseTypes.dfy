/**
 Which clauses of getJobs the database layer takes at all: a test must fit the type of its column (schema.prisma, model
 Job). A list of texts knows no "contains", and an enumeration no unknown name; anything else is thrown back.
 */
module JobClauseTypes {
  import opened Wrappers
  import opened LikePatterns
  import opened FilterEngine
  import opened JobSearch

  datatype Kind =
    | TextColumn
    | TextListColumn
    | EnumColumn(names: set<string>)
    | IntColumn
    | BoolColumn
    | DateColumn
    | SkillRows

  const JOB_TYPES := {"FULL_TIME", "PART_TIME", "CONTRACT", "INTERNSHIP", "FREELANCE", "REMOTE"}
  const JOB_STATUSES := {"DRAFT", "ACTIVE", "CLOSED", "EXPIRED"}

  /** The columns of a job that getJobs tests. */
  function KindOf(field: string): Kind {
    if field == "requirements" then TextListColumn
    else if field == "jobType" then EnumColumn(JOB_TYPES)
    else if field == "status" then EnumColumn(JOB_STATUSES)
    else if field == "isRemote" || field == "isFeatured" then BoolColumn
    else if field == "salaryMin" || field == "salaryMax" then IntColumn
    else if field == "createdAt" || field == "deletedAt" then DateColumn
    else if field == "applicationDeadline" || field == "expiresAt" then DateColumn
    else if field == "JobSkill" then SkillRows
    else TextColumn
  }

  predicate FitsValue(kind: Kind, v: Value) {
    match kind
    case TextColumn => v.Str?
    case EnumColumn(names) => v.Str? && v.s in names
    case IntColumn => v.Num?
    case BoolColumn => v.Bool?
    case DateColumn => v.Date?
    case _ => false
  }

  predicate Fits(kind: Kind, test: Test) {
    match test
    case IsNull => kind.DateColumn?
    case Equals(v) => FitsValue(kind, v)
    case In(vs) => forall v :: v in vs ==> FitsValue(kind, v)
    case Between(_, _) => kind.IntColumn? || kind.DateColumn?
    case GreaterThan(_) => kind.DateColumn?
    case Like(_) => kind.TextColumn?
    case InInsensitive(_) => kind.TextColumn?
    case SomeInInsensitive(_) => kind.SkillRows?
  }

  predicate AllFit(atoms: seq<Atom>) { forall a :: a in atoms ==> Fits(KindOf(a.field), a.test) }

  predicate FitsCondition(key: string, condition: Condition) {
    match condition
    case Field(test) => Fits(KindOf(key), test)
    case AnyOf(atoms) => AllFit(atoms)
    case AllOf(groups) => forall g :: g in groups ==> AllFit(g)
  }

  predicate WellTyped(where: Where) {
    forall key :: key in where ==> FitsCondition(key, where[key])
  }

  predicate Contributes(cs: seq<Contribution>) {
    forall c :: c in cs && c.test.Some? ==> Fits(KindOf(c.field), c.test.value)
  }

  lemma TypedMerge(a: Where, b: Where)
    requires a.Keys !! b.Keys
    ensures WellTyped(a + b) <==> WellTyped(a) && WellTyped(b)
  {
    hide FitsCondition;
    assert forall k :: k in a + b <==> k in a || k in b;
    assert forall k :: k in a ==> (a + b)[k] == a[k];
    assert forall k :: k in b ==> (a + b)[k] == b[k];
  }

  lemma {:induction false} TypedSection(cs: seq<Contribution>)
    requires DistinctFields(cs)
    ensures WellTyped(Section(cs)) <==> Contributes(cs)
  {
    hide Fits, KindOf;
    if cs != [] {
      var front, c := cs[..|cs| - 1], cs[|cs| - 1];
      assert cs == front + [c];
      TypedSection(front);
      SectionKeys(front, c.field);
      if c.test.Some? {
        var last: Where := map[c.field := Field(c.test.value)];
        assert Section(cs) == Section(front) + last;
        TypedMerge(Section(front), last);
        assert WellTyped(last) <==> Fits(KindOf(c.field), c.test.value) by {
          assert last[c.field] == Field(c.test.value);
        }
      }
      hide Section, WellTyped;
    }
  }

  lemma ContributesConcat(a: seq<Contribution>, b: seq<Contribution>)
    ensures Contributes(a + b) <==> Contributes(a) && Contributes(b)
  {
    hide Fits, KindOf;
    assert forall c :: c in a + b <==> c in a || c in b;
  }

  lemma EnumKinds()
    ensures KindOf("status") == EnumColumn(JOB_STATUSES) && KindOf("jobType") == EnumColumn(JOB_TYPES)
    ensures KindOf("requirements") == TextListColumn && KindOf("JobSkill") == SkillRows
  {
  }

  lemma ScalarKinds()
    ensures KindOf("isRemote") == KindOf("isFeatured") == BoolColumn
    ensures KindOf("salaryMin") == KindOf("salaryMax") == IntColumn
    ensures KindOf("createdAt") == KindOf("deletedAt") == DateColumn
    ensures KindOf("applicationDeadline") == KindOf("expiresAt") == DateColumn
  {
  }

  lemma TextKinds()
    ensures KindOf("companyId") == KindOf("experienceLevel") == KindOf("location") == TextColumn
    ensures KindOf("industry.name") == KindOf("company.industry.name") == TextColumn
  {
  }

  lemma OneValueFits(asked: bool, field: string, v: Value)
    requires asked ==> IsValidValue(v)
    ensures Contributes(Values(When(asked, NamedValue(field, v)))) <==> (asked ==> FitsValue(KindOf(field), v))
  {
    hide KindOf, FitsValue;
    if asked {
      var e := NamedValue(field, v);
      assert [e][..0] == [] && Values([]) == [];
      assert Values([e]) == [Contribution(field, Some(Equals(v)))];
      assert Contribution(field, Some(Equals(v))) in Values([e]);
    }
  }

  predicate KnownStatus(q: Query, publicOnly: bool) { !publicOnly && q.status != "" ==> q.status in JOB_STATUSES }

  ghost predicate KnownTypes(q: Query) {
    forall name :: Asks(q.jobType, name) && name != "" ==> name in JOB_TYPES
  }

  lemma OneBoolFits(field: string, value: Option<bool>)
    requires KindOf(field) == BoolColumn
    ensures Contributes(Values(BoolValue(field, value)))
  {
    OneValueFits(value.Some?, field, if value.Some? then Bool(value.value) else Bool(true));
    hide Values, KindOf;
  }

  lemma ValuesFit(q: Query, publicOnly: bool)
    ensures Contributes(Values(JobValues(q, publicOnly))) <==> KnownStatus(q, publicOnly)
  {
    EnumKinds();
    ScalarKinds();
    TextKinds();
    hide KindOf, Values, Contributes, ParseBool;
    var a := When(publicOnly, NamedValue("status", Str("ACTIVE")));
    var b := When(q.companyId != "", NamedValue("companyId", Str(q.companyId)));
    var c := When(!publicOnly && q.status != "", NamedValue("status", Str(q.status)));
    var d := BoolValue("isRemote", ParseBool(q.isRemote));
    var e := BoolValue("isFeatured", ParseBool(q.isFeatured));
    OneValueFits(publicOnly, "status", Str("ACTIVE"));
    OneValueFits(q.companyId != "", "companyId", Str(q.companyId));
    OneValueFits(!publicOnly && q.status != "", "status", Str(q.status));
    OneBoolFits("isRemote", ParseBool(q.isRemote));
    OneBoolFits("isFeatured", ParseBool(q.isFeatured));
    hide When, BoolValue;
    ValuesConcat(a, b);
    ValuesConcat(a + b, c);
    ValuesConcat(a + b + c, d);
    ValuesConcat(a + b + c + d, e);
    ContributesConcat(Values(a), Values(b));
    ContributesConcat(Values(a + b), Values(c));
    ContributesConcat(Values(a + b + c), Values(d));
    ContributesConcat(Values(a + b + c + d), Values(e));
  }

  lemma OneListFits(names: seq<string>, field: string)
    ensures Contributes(ValueLists(When(names != [], NamedValues(field, StrsOf(names)))))
       <==> forall name :: name in names && name != "" ==> FitsValue(KindOf(field), Str(name))
  {
    hide KindOf, FitsValue, ValidValues;
    if names != [] {
      var values := StrsOf(names);
      var e := NamedValues(field, values);
      assert [e][..0] == [] && ValueLists([]) == [];
      assert ValueLists([e]) == [Contribution(field, OfValues(e))];
      forall v ensures v in ValidValues(values) <==> v.Str? && v.s in names && v.s != "" {
        ValidMembers(values, v);
        assert forall i :: 0 <= i < |names| ==> values[i] == Str(names[i]);
      }
      assert forall name :: name in names && name != "" ==> Str(name) in ValidValues(values);
      assert OfValues(e).Some? ==> Contribution(field, OfValues(e)) in ValueLists([e]);
    }
  }

  lemma ListsFit(q: Query)
    ensures Contributes(ValueLists(JobLists(q))) <==> KnownTypes(q)
  {
    EnumKinds();
    TextKinds();
    hide KindOf, ValueLists, Contributes, ParseArray, StrsOf, Asks;
    var types, levels := ParseArray(q.jobType), ParseArray(q.experienceLevel);
    var a := When(types != [], NamedValues("jobType", StrsOf(types)));
    var b := When(levels != [], NamedValues("experienceLevel", StrsOf(levels)));
    OneListFits(types, "jobType");
    forall name ensures name in ParseArray(q.jobType) <==> Asks(q.jobType, name) {
      ParseArrayAsks(q.jobType, name);
    }
    OneListFits(levels, "experienceLevel");
    ValueListsConcat(a, b);
    ContributesConcat(ValueLists(a), ValueLists(b));
  }

  lemma RangesFit(q: Query, now: int)
    ensures Contributes(Ranges(JobRanges(q))) && Contributes(DateRanges(JobDates(q, now)))
  {
    ScalarKinds();
    hide KindOf, Days;
    forall c | c in Ranges(JobRanges(q)) && c.test.Some? ensures Fits(KindOf(c.field), c.test.value) {
      var i := RangeSource(JobRanges(q), c);
    }
    forall c | c in DateRanges(JobDates(q, now)) && c.test.Some? ensures Fits(KindOf(c.field), c.test.value) {
      var i := DateRangeSource(JobDates(q, now), c);
    }
  }

  lemma SearchFits(q: Query, publicOnly: bool, now: int)
    ensures WellTyped(Search(JobOptions(q, publicOnly, now))) <==> Trim(q.search) == ""
  {
    EnumKinds();
    TrimEmpty();
    hide KindOf, Trim, SanitizeSearchTerm, JobValues, JobLists, JobRanges, JobDates, PublicClause, SearchAtoms;
    var o := JobOptions(q, publicOnly, now);
    if Searches(o) {
      var term := SanitizeSearchTerm(o.search);
      var atoms := SearchAtoms(o.searchIn, term);
      SearchMembers(o.searchIn, term, Atom("requirements", Like(term)));
      assert SEARCHED[2] == "requirements" && "requirements" in SEARCHED;
      assert Search(o)["OR"] == AnyOf(atoms);
    }
  }

  lemma RestFits(q: Query, publicOnly: bool, now: int)
    ensures WellTyped(SoftDelete(JobOptions(q, publicOnly, now))) && WellTyped(PublicClause(publicOnly, now))
    ensures WellTyped(LocationClause(q)) && WellTyped(SkillClause(q)) && AllFit(IndustryGroup(ParseArray(q.industry)))
  {
    EnumKinds();
    ScalarKinds();
    TextKinds();
    hide KindOf, Trim, ParseArray, JobValues, JobLists, JobRanges, JobDates;
  }

  lemma OptionsFit(q: Query, publicOnly: bool, now: int)
    ensures WellTyped(Compiled(JobOptions(q, publicOnly, now)))
       <==> Trim(q.search) == "" && KnownTypes(q) && KnownStatus(q, publicOnly)
  {
    hide WellTyped, Contributes, Search, SoftDelete, Section, Values, ValueLists, Ranges, DateRanges, JobValues,
         JobLists, JobRanges, JobDates, PublicClause, DistinctFields, KeysIn, Trim, KnownTypes, KnownStatus,
         AllContribute;
    var o := JobOptions(q, publicOnly, now);
    OptionsDisjoint(q, publicOnly, now, map[]);
    ValuesFit(q, publicOnly);
    ListsFit(q);
    RangesFit(q, now);
    SearchFits(q, publicOnly, now);
    RestFits(q, publicOnly, now);
    TypedSection(Values(o.where));
    TypedSection(ValueLists(o.whereIn));
    TypedSection(Ranges(o.ranges));
    TypedSection(DateRanges(o.dateRanges));
    var a := SoftDelete(o);
    var b := a + Search(o);
    var c := b + Section(Values(o.where));
    var d := c + Section(ValueLists(o.whereIn));
    var e := d + Section(Ranges(o.ranges));
    var f := e + Section(DateRanges(o.dateRanges));
    TypedMerge(a, Search(o));
    TypedMerge(b, Section(Values(o.where)));
    TypedMerge(c, Section(ValueLists(o.whereIn)));
    TypedMerge(d, Section(Ranges(o.ranges)));
    TypedMerge(e, Section(DateRanges(o.dateRanges)));
    TypedMerge(f, o.customWhere);
  }

  lemma AndGroupFits(where: Where, group: seq<Atom>)
    requires "AND" in where ==> where["AND"].AllOf?
    requires AllFit(group)
    ensures WellTyped(AndGroup(where, group)) <==> WellTyped(where)
  {
    hide AllFit;
    var pushed := AndGroup(where, group);
    var groups := Groups(where) + [group];
    assert pushed["AND"] == AllOf(groups);
    assert forall g :: g in groups <==> g in Groups(where) || g == group;
    assert forall key :: key in where && key != "AND" ==> pushed[key] == where[key];
    assert FitsCondition("AND", pushed["AND"]) <==> forall g :: g in Groups(where) ==> AllFit(g);
  }

  /**
   For every query and both paths: the database takes the clause if and only if no search text is given, every job
   type is a known one, and so is the status an owner asks for. A search never gets an answer, because requirements is
   a list.
   */
  lemma ClauseIsTakenIff(q: Query, publicOnly: bool, now: int)
    ensures WellTyped(JobWhere(q, publicOnly, now))
       <==> Trim(q.search) == "" && KnownTypes(q) && KnownStatus(q, publicOnly)
  {
    hide WellTyped, Compiled, JobOptions, LocationClause, SkillClause, IndustryGroup, AndGroup, AllFit, Trim,
         ParseArray, KnownTypes, KnownStatus, ObjectSections, DisjointSections, KeysIn, SoftDelete, Search,
         PublicClause;
    var base := Compiled(JobOptions(q, publicOnly, now));
    var located := base + LocationClause(q);
    var where := located + SkillClause(q);
    OptionsFit(q, publicOnly, now);
    OptionsDisjoint(q, publicOnly, now, map[]);
    OptionKeys(q, publicOnly, now);
    RestFits(q, publicOnly, now);
    AndIsList(q, publicOnly, now, map[]);
    AndGroupFits(where, IndustryGroup(ParseArray(q.industry)));
    Later(base, LocationClause(q), 11, 12, 12);
    Later(located, SkillClause(q), 12, 13, 13);
    TypedMerge(base, LocationClause(q));
    TypedMerge(located, SkillClause(q));
  }
}
