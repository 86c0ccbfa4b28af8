/** The query compiler behind every filtered list (FilterEngine.ts), and the meaning of the clauses it builds. */
module FilterEngine {
  import opened Wrappers
  import opened LikePatterns

  /** A JavaScript value in a filter, or a column of a row; Strs is a list column or relation. */
  datatype Value =
    Undefined | Null | Str(s: string) | Num(n: int) | Bool(b: bool) | Date(t: int) | Strs(strs: seq<string>)

  type Row = map<string, Value>

  function Column(row: Row, field: string): Value {
    if field in row then row[field] else Null
  }

  /** What a clause can ask of one column. */
  datatype Test =
    | IsNull
    | Equals(v: Value)
    | In(vs: seq<Value>)
    | Between(gte: Option<int>, lte: Option<int>)
    | GreaterThan(t: int)
    | Like(term: string)
    | InInsensitive(names: seq<string>)
    | SomeInInsensitive(names: seq<string>)

  predicate SameText(s: string, t: string) {
    |s| == |t| && forall i :: 0 <= i < |s| ==> Fold(s[i]) == Fold(t[i])
  }

  /** SQL: a NULL column satisfies nothing but IS NULL. */
  predicate Holds(test: Test, v: Value) {
    match test
    case IsNull => v == Null
    case Equals(w) => v != Null && v == w
    case In(vs) => v != Null && v in vs
    case Between(gte, lte) =>
      && (v.Num? || v.Date?)
      && var n := if v.Num? then v.n else v.t;
         (gte.Some? ==> gte.value <= n) && (lte.Some? ==> n <= lte.value)
    case GreaterThan(t) => v.Date? && v.t > t
    case Like(term) => v.Str? && Contains(term, v.s)
    case InInsensitive(names) => v.Str? && exists n :: n in names && SameText(n, v.s)
    case SomeInInsensitive(names) => v.Strs? && exists s, n :: s in v.strs && n in names && SameText(n, s)
  }

  datatype Atom = Atom(field: string, test: Test)

  /** An entry of a where object: a condition on the column of that name, or under the keys OR and AND a list. */
  datatype Condition =
    | Field(test: Test)
    | AnyOf(atoms: seq<Atom>)
    | AllOf(groups: seq<seq<Atom>>)

  type Where = map<string, Condition>

  predicate AnyHolds(atoms: seq<Atom>, row: Row) {
    exists a :: a in atoms && Holds(a.test, Column(row, a.field))
  }

  predicate Satisfies(key: string, condition: Condition, row: Row) {
    match condition
    case Field(test) => Holds(test, Column(row, key))
    case AnyOf(atoms) => AnyHolds(atoms, row)
    case AllOf(groups) => forall g :: g in groups ==> AnyHolds(g, row)
  }

  /** A where object is the conjunction of its entries. */
  predicate Denotes(where: Where, row: Row) {
    forall key :: key in where ==> Satisfies(key, where[key], row)
  }

  /* ---- requests ---- */

  datatype NamedValue = NamedValue(field: string, value: Value)
  datatype NamedValues = NamedValues(field: string, values: seq<Value>)
  datatype NamedRange = NamedRange(field: string, min: Option<int>, max: Option<int>)
  datatype DateBound = NoDate | InvalidDate | At(t: int)
  datatype NamedDates = NamedDates(field: string, start: DateBound, end: DateBound)

  /** FilterOptions; an absent section is an empty one, the entries are in Object.entries order. */
  datatype Options = Options(
    search: string,
    searchIn: seq<string>,
    where: seq<NamedValue>,
    whereIn: seq<NamedValues>,
    ranges: seq<NamedRange>,
    dateRanges: seq<NamedDates>,
    includeSoftDeleted: bool,
    customWhere: Where)

  datatype Error =
    | BadField(field: string)
    | SearchTooLong
    | TooManyValues(field: string)
    | BadRange(field: string)
    | BadDate(field: string)

  const MAX_SEARCH_LENGTH := 255
  const MAX_ARRAY_SIZE := 1000

  predicate IsLetter(c: char) { 'a' <= c <= 'z' || 'A' <= c <= 'Z' || c == '_' }

  predicate IsIdentifier(field: string) {
    && field != "" && IsLetter(field[0])
    && forall i :: 1 <= i < |field| ==> IsLetter(field[i]) || '0' <= field[i] <= '9'
  }

  /** A field name is made of ASCII letters, digits and underscores, and does not begin with a digit. */
  lemma IdentifierCharacters(field: string)
    ensures IsIdentifier(field) <==>
      && |field| > 0 && !(48 <= field[0] as int <= 57)
      && forall i :: 0 <= i < |field| ==>
           var n := field[i] as int; 48 <= n <= 57 || 65 <= n <= 90 || n == 95 || 97 <= n <= 122
  {
    if field != "" {
      assert forall i :: 0 <= i < |field| ==> (IsLetter(field[i]) <==>
        var n := field[i] as int; 65 <= n <= 90 || n == 95 || 97 <= n <= 122);
    }
  }

  /** validateField does not throw; an empty list of allowed fields allows every name. */
  predicate ValidField(allowed: set<string>, field: string) {
    field != "" && (allowed == {} || field in allowed) && IsIdentifier(field)
  }

  predicate IsValidValue(v: Value) { v != Undefined && v != Null && v != Str("") }

  function ValidValues(values: seq<Value>): seq<Value> {
    if values == [] then []
    else if IsValidValue(values[0]) then [values[0]] + ValidValues(values[1..])
    else ValidValues(values[1..])
  }

  function BoundOf(d: DateBound): Option<int> { if d.At? then Some(d.t) else None }

  predicate Searches(o: Options) { o.search != "" && o.searchIn != [] }

  /* ---- what a request asks for, section by section ---- */

  /** The condition an entry contributes, if any. */
  function OfValue(e: NamedValue): Option<Test> {
    if IsValidValue(e.value) then Some(Equals(e.value)) else None
  }

  function OfValues(e: NamedValues): Option<Test> {
    if ValidValues(e.values) != [] then Some(In(ValidValues(e.values))) else None
  }

  function OfRange(e: NamedRange): Option<Test> {
    if e.min.Some? || e.max.Some? then Some(Between(e.min, e.max)) else None
  }

  function OfDates(e: NamedDates): Option<Test> {
    var start, end := BoundOf(e.start), BoundOf(e.end);
    if start.Some? || end.Some? then Some(Between(start, end)) else None
  }

  /** A section as a list of contributions. */
  datatype Contribution = Contribution(field: string, test: Option<Test>)

  function Values(s: seq<NamedValue>): seq<Contribution> {
    if s == [] then [] else Values(s[..|s| - 1]) + [Contribution(s[|s| - 1].field, OfValue(s[|s| - 1]))]
  }

  function ValueLists(s: seq<NamedValues>): seq<Contribution> {
    if s == [] then [] else ValueLists(s[..|s| - 1]) + [Contribution(s[|s| - 1].field, OfValues(s[|s| - 1]))]
  }

  function Ranges(s: seq<NamedRange>): seq<Contribution> {
    if s == [] then [] else Ranges(s[..|s| - 1]) + [Contribution(s[|s| - 1].field, OfRange(s[|s| - 1]))]
  }

  function DateRanges(s: seq<NamedDates>): seq<Contribution> {
    if s == [] then [] else DateRanges(s[..|s| - 1]) + [Contribution(s[|s| - 1].field, OfDates(s[|s| - 1]))]
  }

  /** The entries a section leaves in the where object; a later entry for the same field replaces an earlier one. */
  function Section(cs: seq<Contribution>): Where {
    if cs == [] then map[]
    else
      Put(Section(cs[..|cs| - 1]), cs[|cs| - 1])
  }

  function Put(where: Where, c: Contribution): Where {
    if c.test.Some? then where[c.field := Field(c.test.value)] else where
  }

  lemma PutStep(base: Where, cs: seq<Contribution>, c: Contribution)
    ensures base + Section(cs + [c]) == Put(base + Section(cs), c)
  {
    assert (cs + [c])[..|cs|] == cs;
  }

  function SoftDelete(o: Options): Where {
    if o.includeSoftDeleted then map[] else map["deletedAt" := Field(IsNull)]
  }

  function SearchAtoms(fields: seq<string>, term: string): seq<Atom> {
    if fields == [] then [] else SearchAtoms(fields[..|fields| - 1], term) + [Atom(fields[|fields| - 1], Like(term))]
  }

  function Search(o: Options): Where {
    if Searches(o) then map["OR" := AnyOf(SearchAtoms(o.searchIn, SanitizeSearchTerm(o.search)))] else map[]
  }

  /** The where object of a request: later sections replace earlier ones, the custom clause replaces all. */
  function Compiled(o: Options): Where {
    SoftDelete(o) + Search(o) + Section(Values(o.where)) + Section(ValueLists(o.whereIn))
    + Section(Ranges(o.ranges)) + Section(DateRanges(o.dateRanges)) + o.customWhere
  }

  /* ---- which requests are rejected ---- */

  /** Zero and false count as values, an empty text does not. */
  predicate Usable(v: Value) { !v.Undefined? && !v.Null? && v != Str("") }

  predicate GoodValue(allowed: set<string>, e: NamedValue) { Usable(e.value) ==> ValidField(allowed, e.field) }

  predicate GoodValues(allowed: set<string>, e: NamedValues) {
    e.values != [] ==> ValidField(allowed, e.field) && |e.values| <= 1000
  }

  predicate GoodRange(allowed: set<string>, e: NamedRange) {
    ValidField(allowed, e.field) && !(e.min.Some? && e.max.Some? && e.min.value > e.max.value)
  }

  predicate GoodDates(allowed: set<string>, e: NamedDates) {
    ValidField(allowed, e.field) && !e.start.InvalidDate? && !e.end.InvalidDate?
    && !(e.start.At? && e.end.At? && e.start.t > e.end.t)
  }

  predicate GoodSearch(allowed: set<string>, o: Options) {
    o.search != "" && o.searchIn != [] ==> |o.search| <= 255 && forall f :: f in o.searchIn ==> ValidField(allowed, f)
  }

  predicate Acceptable(allowed: set<string>, o: Options) {
    && GoodSearch(allowed, o)
    && (forall i :: 0 <= i < |o.where| ==> GoodValue(allowed, o.where[i]))
    && (forall i :: 0 <= i < |o.whereIn| ==> GoodValues(allowed, o.whereIn[i]))
    && (forall i :: 0 <= i < |o.ranges| ==> GoodRange(allowed, o.ranges[i]))
    && (forall i :: 0 <= i < |o.dateRanges| ==> GoodDates(allowed, o.dateRanges[i]))
  }

  lemma ValuesStep(s: seq<NamedValue>, i: nat)
    requires i < |s|
    ensures Values(s[..i + 1]) == Values(s[..i]) + [Contribution(s[i].field, OfValue(s[i]))]
  {
    assert s[..i + 1][..i] == s[..i];
    hide OfValue;
  }

  lemma ValueListsStep(s: seq<NamedValues>, i: nat)
    requires i < |s|
    ensures ValueLists(s[..i + 1]) == ValueLists(s[..i]) + [Contribution(s[i].field, OfValues(s[i]))]
  {
    assert s[..i + 1][..i] == s[..i];
    hide OfValues;
  }

  lemma RangesStep(s: seq<NamedRange>, i: nat)
    requires i < |s|
    ensures Ranges(s[..i + 1]) == Ranges(s[..i]) + [Contribution(s[i].field, OfRange(s[i]))]
  {
    assert s[..i + 1][..i] == s[..i];
    hide OfRange;
  }

  lemma DateRangesStep(s: seq<NamedDates>, i: nat)
    requires i < |s|
    ensures DateRanges(s[..i + 1]) == DateRanges(s[..i]) + [Contribution(s[i].field, OfDates(s[i]))]
  {
    assert s[..i + 1][..i] == s[..i];
    hide OfDates;
  }

  class Engine {
    const allowedFields: set<string>

    constructor (allowedFields: set<string>)
      ensures this.allowedFields == allowedFields
    {
      this.allowedFields := allowedFields;
    }

    method ValidateField(field: string) returns (error: Option<Error>)
      ensures error.None? <==> ValidField(allowedFields, field)
    {
      if field == "" {
        return Some(BadField(field));
      }
      if |allowedFields| > 0 && field !in allowedFields {
        return Some(BadField(field));
      }
      if !IsIdentifier(field) {
        return Some(BadField(field));
      }
      return None;
    }

    method AddSearch(base: Where, filters: Options) returns (r: Result<Where, Error>)
      ensures r.Ok? <==> GoodSearch(allowedFields, filters)
      ensures r.Ok? ==> r.value == base + Search(filters)
    {
      hide ValidField, SanitizeSearchTerm;
      if filters.search == "" || |filters.searchIn| == 0 {
        return Ok(base);
      }
      if |filters.search| > MAX_SEARCH_LENGTH {
        return Err(SearchTooLong);
      }
      var sanitizedSearch := SanitizeSearchTerm(filters.search);
      var atoms: seq<Atom> := [];
      for i := 0 to |filters.searchIn|
        invariant atoms == SearchAtoms(filters.searchIn[..i], sanitizedSearch)
        invariant forall f :: f in filters.searchIn[..i] ==> ValidField(allowedFields, f)
      {
        var error := ValidateField(filters.searchIn[i]);
        if error.Some? {
          assert filters.searchIn[i] in filters.searchIn;
          return Err(error.value);
        }
        assert filters.searchIn[..i + 1][..i] == filters.searchIn[..i];
        atoms := atoms + [Atom(filters.searchIn[i], Like(sanitizedSearch))];
      }
      assert filters.searchIn[..|filters.searchIn|] == filters.searchIn;
      return Ok(base["OR" := AnyOf(atoms)]);
    }

    method AddValue(where: Where, e: NamedValue) returns (r: Result<Where, Error>)
      ensures r.Ok? <==> GoodValue(allowedFields, e)
      ensures r.Ok? ==> r.value == Put(where, Contribution(e.field, OfValue(e)))
    {
      hide ValidField;
      if !IsValidValue(e.value) {
        return Ok(where);
      }
      var error := ValidateField(e.field);
      if error.Some? {
        return Err(error.value);
      }
      return Ok(where[e.field := Field(Equals(e.value))]);
    }

    method AddValues(base: Where, section: seq<NamedValue>) returns (r: Result<Where, Error>)
      ensures r.Ok? <==> forall i :: 0 <= i < |section| ==> GoodValue(allowedFields, section[i])
      ensures r.Ok? ==> r.value == base + Section(Values(section))
    {
      var where := base;
      assert section[..0] == [] && base + Section([]) == base;
      hide GoodValue, Put, Section, Values, OfValue;
      for i := 0 to |section|
        invariant where == base + Section(Values(section[..i]))
        invariant forall j :: 0 <= j < i ==> GoodValue(allowedFields, section[j])
      {
        r := AddValue(where, section[i]);
        if r.Err? {
          return;
        }
        where := r.value;
        ValuesStep(section, i);
        PutStep(base, Values(section[..i]), Contribution(section[i].field, OfValue(section[i])));
      }
      assert section[..|section|] == section;
      return Ok(where);
    }

    method AddValueList(where: Where, e: NamedValues) returns (r: Result<Where, Error>)
      ensures r.Ok? <==> GoodValues(allowedFields, e)
      ensures r.Ok? ==> r.value == Put(where, Contribution(e.field, OfValues(e)))
    {
      hide ValidField, IsValidValue;
      if |e.values| == 0 {
        return Ok(where);
      }
      var error := ValidateField(e.field);
      if error.Some? {
        return Err(error.value);
      }
      if |e.values| > MAX_ARRAY_SIZE {
        return Err(TooManyValues(e.field));
      }
      var validValues := ValidValues(e.values);
      if |validValues| > 0 {
        return Ok(where[e.field := Field(In(validValues))]);
      }
      return Ok(where);
    }

    method AddValueLists(base: Where, section: seq<NamedValues>) returns (r: Result<Where, Error>)
      ensures r.Ok? <==> forall i :: 0 <= i < |section| ==> GoodValues(allowedFields, section[i])
      ensures r.Ok? ==> r.value == base + Section(ValueLists(section))
    {
      var where := base;
      assert section[..0] == [] && base + Section([]) == base;
      hide GoodValues, Put, Section, ValueLists, OfValues;
      for i := 0 to |section|
        invariant where == base + Section(ValueLists(section[..i]))
        invariant forall j :: 0 <= j < i ==> GoodValues(allowedFields, section[j])
      {
        r := AddValueList(where, section[i]);
        if r.Err? {
          return;
        }
        where := r.value;
        ValueListsStep(section, i);
        PutStep(base, ValueLists(section[..i]), Contribution(section[i].field, OfValues(section[i])));
      }
      assert section[..|section|] == section;
      return Ok(where);
    }

    method AddRange(where: Where, e: NamedRange) returns (r: Result<Where, Error>)
      ensures r.Ok? <==> GoodRange(allowedFields, e)
      ensures r.Ok? ==> r.value == Put(where, Contribution(e.field, OfRange(e)))
    {
      hide ValidField;
      var error := ValidateField(e.field);
      if error.Some? {
        return Err(error.value);
      }
      if e.min.Some? && e.max.Some? && e.min.value > e.max.value {
        return Err(BadRange(e.field));
      }
      if e.min.Some? || e.max.Some? {
        return Ok(where[e.field := Field(Between(e.min, e.max))]);
      }
      return Ok(where);
    }

    method AddRanges(base: Where, section: seq<NamedRange>) returns (r: Result<Where, Error>)
      ensures r.Ok? <==> forall i :: 0 <= i < |section| ==> GoodRange(allowedFields, section[i])
      ensures r.Ok? ==> r.value == base + Section(Ranges(section))
    {
      var where := base;
      assert section[..0] == [] && base + Section([]) == base;
      hide GoodRange, Put, Section, Ranges, OfRange;
      for i := 0 to |section|
        invariant where == base + Section(Ranges(section[..i]))
        invariant forall j :: 0 <= j < i ==> GoodRange(allowedFields, section[j])
      {
        r := AddRange(where, section[i]);
        if r.Err? {
          return;
        }
        where := r.value;
        RangesStep(section, i);
        PutStep(base, Ranges(section[..i]), Contribution(section[i].field, OfRange(section[i])));
      }
      assert section[..|section|] == section;
      return Ok(where);
    }

    method AddDateRange(where: Where, e: NamedDates) returns (r: Result<Where, Error>)
      ensures r.Ok? <==> GoodDates(allowedFields, e)
      ensures r.Ok? ==> r.value == Put(where, Contribution(e.field, OfDates(e)))
    {
      hide ValidField;
      var error := ValidateField(e.field);
      if error.Some? {
        return Err(error.value);
      }
      if e.start.InvalidDate? || e.end.InvalidDate? {
        return Err(BadDate(e.field));
      }
      if e.start.At? && e.end.At? && e.start.t > e.end.t {
        return Err(BadRange(e.field));
      }
      if e.start.At? || e.end.At? {
        return Ok(where[e.field := Field(Between(BoundOf(e.start), BoundOf(e.end)))]);
      }
      return Ok(where);
    }

    method AddDateRanges(base: Where, section: seq<NamedDates>) returns (r: Result<Where, Error>)
      ensures r.Ok? <==> forall i :: 0 <= i < |section| ==> GoodDates(allowedFields, section[i])
      ensures r.Ok? ==> r.value == base + Section(DateRanges(section))
    {
      var where := base;
      assert section[..0] == [] && base + Section([]) == base;
      hide GoodDates, Put, Section, DateRanges, OfDates;
      for i := 0 to |section|
        invariant where == base + Section(DateRanges(section[..i]))
        invariant forall j :: 0 <= j < i ==> GoodDates(allowedFields, section[j])
      {
        r := AddDateRange(where, section[i]);
        if r.Err? {
          return;
        }
        where := r.value;
        DateRangesStep(section, i);
        PutStep(base, DateRanges(section[..i]), Contribution(section[i].field, OfDates(section[i])));
      }
      assert section[..|section|] == section;
      return Ok(where);
    }

    /** buildWhereClause: one object, filled and overwritten in stages; the result is an error if a stage throws. */
    method BuildWhereClause(filters: Options) returns (r: Result<Where, Error>)
      ensures r.Ok? <==> Acceptable(allowedFields, filters)
      ensures r.Ok? ==> r.value == Compiled(filters)
    {
      hide Search, Section, Values, ValueLists, Ranges, DateRanges, GoodSearch, GoodValue, GoodValues, GoodRange,
           GoodDates, ValidField;
      var where: Where := map[];
      if !filters.includeSoftDeleted {
        where := where["deletedAt" := Field(IsNull)];
      }
      r := AddSearch(where, filters);
      if r.Err? {
        return;
      }
      r := AddValues(r.value, filters.where);
      if r.Err? {
        return;
      }
      r := AddValueLists(r.value, filters.whereIn);
      if r.Err? {
        return;
      }
      r := AddRanges(r.value, filters.ranges);
      if r.Err? {
        return;
      }
      r := AddDateRanges(r.value, filters.dateRanges);
      if r.Err? {
        return;
      }
      where := r.value + filters.customWhere;
      return Ok(where);
    }
  }

  /* ---- what the clause means ---- */

  /** The conjunction of what all sections ask for. */
  predicate SectionsHold(o: Options, row: Row) {
    && (!o.includeSoftDeleted ==> Column(row, "deletedAt") == Null)
    && (Searches(o) ==> exists f :: f in o.searchIn && Holds(Like(SanitizeSearchTerm(o.search)), Column(row, f)))
    && AllContribute(Values(o.where), row)
    && AllContribute(ValueLists(o.whereIn), row)
    && AllContribute(Ranges(o.ranges), row)
    && AllContribute(DateRanges(o.dateRanges), row)
    && Denotes(o.customWhere, row)
  }

  predicate AllContribute(cs: seq<Contribution>, row: Row) {
    forall c :: c in cs && c.test.Some? ==> Holds(c.test.value, Column(row, c.field))
  }

  /** The keys of an object are distinct. */
  predicate DistinctFields(cs: seq<Contribution>) {
    forall i, j :: 0 <= i < j < |cs| ==> cs[i].field != cs[j].field
  }

  /** The later clause replaces the earlier one field by field: exactly the earlier entries it does not name survive. */
  lemma LastSectionWins(a: Where, b: Where, row: Row)
    ensures Denotes(a + b, row) <==> Denotes(a - b.Keys, row) && Denotes(b, row)
  {
    hide Satisfies;
    var kept := a - b.Keys;
    assert forall k :: k in a + b <==> k in kept || k in b;
    assert forall k :: k in kept ==> (a + b)[k] == kept[k];
    assert forall k :: k in b ==> (a + b)[k] == b[k];
  }

  lemma DisjointConjunction(a: Where, b: Where, row: Row)
    requires a.Keys !! b.Keys
    ensures Denotes(a + b, row) <==> Denotes(a, row) && Denotes(b, row)
  {
    LastSectionWins(a, b, row);
    assert a - b.Keys == a;
    hide Satisfies;
  }

  lemma {:induction false} SectionKeys(cs: seq<Contribution>, key: string)
    ensures key in Section(cs) <==> exists c :: c in cs && c.test.Some? && c.field == key
  {
    if cs != [] {
      SectionKeys(cs[..|cs| - 1], key);
      assert cs == cs[..|cs| - 1] + [cs[|cs| - 1]];
    }
  }

  lemma {:induction false} SectionDenotes(cs: seq<Contribution>, row: Row)
    requires DistinctFields(cs)
    ensures Denotes(Section(cs), row) <==> AllContribute(cs, row)
  {
    if cs != [] {
      var n := |cs| - 1;
      var front, c := cs[..n], cs[n];
      assert cs == front + [c];
      SectionDenotes(front, row);
      SectionKeys(front, c.field);
      assert c.field !in Section(front);
      if c.test.Some? {
        assert Section(cs) == Section(front) + map[c.field := Field(c.test.value)];
        DisjointConjunction(Section(front), map[c.field := Field(c.test.value)], row);
      }
      hide Section, Holds;
    }
  }

  lemma {:induction false} SearchMembers(fields: seq<string>, term: string, a: Atom)
    ensures a in SearchAtoms(fields, term) <==> a.field in fields && a.test == Like(term)
  {
    if fields != [] {
      var n := |fields| - 1;
      SearchMembers(fields[..n], term, a);
      assert fields == fields[..n] + [fields[n]];
    }
  }

  lemma SearchDenotes(o: Options, row: Row)
    ensures Denotes(Search(o), row)
       <==> (Searches(o) ==> exists f :: f in o.searchIn && Holds(Like(SanitizeSearchTerm(o.search)), Column(row, f)))
  {
    if Searches(o) {
      var term := SanitizeSearchTerm(o.search);
      var atoms := SearchAtoms(o.searchIn, term);
      forall a ensures a in atoms <==> a.field in o.searchIn && a.test == Like(term) {
        SearchMembers(o.searchIn, term, a);
      }
      assert forall f :: f in o.searchIn ==> Atom(f, Like(term)) in atoms;
      assert Denotes(Search(o), row) <==> AnyHolds(atoms, row) by {
        assert Search(o)["OR"] == AnyOf(atoms);
      }
      hide Holds, SearchAtoms, SanitizeSearchTerm;
    }
  }

  lemma SoftDeleteDenotes(o: Options, row: Row)
    ensures Denotes(SoftDelete(o), row) <==> (!o.includeSoftDeleted ==> Column(row, "deletedAt") == Null)
  {
    if !o.includeSoftDeleted {
      assert "deletedAt" in SoftDelete(o) && SoftDelete(o)["deletedAt"] == Field(IsNull);
    }
    hide Column;
  }

  /** The sections of a request name different fields (and none of them OR or deletedAt unless it is unused). */
  predicate DisjointSections(o: Options) {
    var a := SoftDelete(o);
    var b := a + Search(o);
    var c := b + Section(Values(o.where));
    var d := c + Section(ValueLists(o.whereIn));
    var e := d + Section(Ranges(o.ranges));
    var f := e + Section(DateRanges(o.dateRanges));
    && a.Keys !! Search(o).Keys
    && b.Keys !! Section(Values(o.where)).Keys
    && c.Keys !! Section(ValueLists(o.whereIn)).Keys
    && d.Keys !! Section(Ranges(o.ranges)).Keys
    && e.Keys !! Section(DateRanges(o.dateRanges)).Keys
    && f.Keys !! o.customWhere.Keys
  }

  predicate ObjectSections(o: Options) {
    && DistinctFields(Values(o.where)) && DistinctFields(ValueLists(o.whereIn))
    && DistinctFields(Ranges(o.ranges)) && DistinctFields(DateRanges(o.dateRanges))
  }

  /** When no two sections name a field, the compiled clause accepts exactly the rows that satisfy every section. */
  lemma CompiledIsConjunction(o: Options, row: Row)
    requires ObjectSections(o) && DisjointSections(o)
    ensures Denotes(Compiled(o), row) <==> SectionsHold(o, row)
  {
    var a := SoftDelete(o);
    var b := a + Search(o);
    var c := b + Section(Values(o.where));
    var d := c + Section(ValueLists(o.whereIn));
    var e := d + Section(Ranges(o.ranges));
    var f := e + Section(DateRanges(o.dateRanges));
    SoftDeleteDenotes(o, row);
    SearchDenotes(o, row);
    SectionDenotes(Values(o.where), row);
    SectionDenotes(ValueLists(o.whereIn), row);
    SectionDenotes(Ranges(o.ranges), row);
    SectionDenotes(DateRanges(o.dateRanges), row);
    DisjointConjunction(a, Search(o), row);
    DisjointConjunction(b, Section(Values(o.where)), row);
    DisjointConjunction(c, Section(ValueLists(o.whereIn)), row);
    DisjointConjunction(d, Section(Ranges(o.ranges)), row);
    DisjointConjunction(e, Section(DateRanges(o.dateRanges)), row);
    DisjointConjunction(f, o.customWhere, row);
    hide Search, Section, Values, ValueLists, Ranges, DateRanges, Denotes, AllContribute, Holds, SoftDelete, Column;
  }

  /* ---- the request in its own words ---- */

  predicate WithinBounds(low: Option<int>, high: Option<int>, v: Value) {
    && (v.Num? || v.Date?)
    && (low.Some? ==> low.value <= if v.Num? then v.n else v.t)
    && (high.Some? ==> (if v.Num? then v.n else v.t) <= high.value)
  }

  predicate SearchFound(o: Options, row: Row) {
    o.search != "" && o.searchIn != [] ==>
      exists f :: f in o.searchIn && Column(row, f).Str? && Occurs(Trim(o.search), Column(row, f).s)
  }

  predicate ValueFound(e: NamedValue, v: Value) { Usable(e.value) ==> v == e.value }

  predicate ListFound(e: NamedValues, v: Value) {
    (exists w :: w in e.values && Usable(w)) ==> Usable(v) && v in e.values
  }

  predicate RangeFound(e: NamedRange, v: Value) { e.min.Some? || e.max.Some? ==> WithinBounds(e.min, e.max, v) }

  predicate DateFound(e: NamedDates, v: Value) {
    var from, to := if e.start.At? then Some(e.start.t) else None, if e.end.At? then Some(e.end.t) else None;
    from.Some? || to.Some? ==> WithinBounds(from, to, v)
  }

  predicate ValuesFound(section: seq<NamedValue>, row: Row) {
    forall e :: e in section ==> ValueFound(e, Column(row, e.field))
  }

  predicate ListsFound(section: seq<NamedValues>, row: Row) {
    forall e :: e in section ==> ListFound(e, Column(row, e.field))
  }

  predicate RangesFound(section: seq<NamedRange>, row: Row) {
    forall e :: e in section ==> RangeFound(e, Column(row, e.field))
  }

  predicate DatesFound(section: seq<NamedDates>, row: Row) {
    forall e :: e in section ==> DateFound(e, Column(row, e.field))
  }

  /** What a request asks of a row, section by section. */
  predicate Requested(o: Options, row: Row) {
    && (!o.includeSoftDeleted ==> Column(row, "deletedAt") == Null)
    && SearchFound(o, row)
    && ValuesFound(o.where, row)
    && ListsFound(o.whereIn, row)
    && RangesFound(o.ranges, row)
    && DatesFound(o.dateRanges, row)
    && Denotes(o.customWhere, row)
  }

  lemma {:induction false} ValuesHold(section: seq<NamedValue>, row: Row)
    ensures AllContribute(Values(section), row) <==> ValuesFound(section, row)
  {
    hide AllContribute, Values, OfValue, ValueFound, Holds, Column;
    if section == [] {
      EmptyValues(row);
    } else {
      var front, e := section[..|section| - 1], section[|section| - 1];
      ValuesHold(front, row);
      SnocContribute(Values(front), Contribution(e.field, OfValue(e)), row);
      ValuesStep(section, |front|);
      assert section[..|section|] == section == front + [e];
      ValueFoundMeans(e, Column(row, e.field));
    }
  }

  lemma EmptyValues(row: Row)
    ensures AllContribute(Values([]), row)
  {
  }

  lemma SnocContribute(cs: seq<Contribution>, c: Contribution, row: Row)
    ensures AllContribute(cs + [c], row) <==>
      AllContribute(cs, row) && (c.test.Some? ==> Holds(c.test.value, Column(row, c.field)))
  {
    hide Holds, Column;
    assert forall d :: d in cs + [c] <==> d in cs || d == c;
  }

  lemma {:induction false} ValidAre(values: seq<Value>, v: Value)
    ensures v in ValidValues(values) <==> v in values && Usable(v)
  {
    if values != [] {
      ValidAre(values[1..], v);
      assert values == [values[0]] + values[1..];
    }
  }

  lemma {:induction false} ListsHold(section: seq<NamedValues>, row: Row)
    ensures AllContribute(ValueLists(section), row) <==> ListsFound(section, row)
  {
    hide AllContribute, ValueLists, OfValues, ListFound, Holds, Column;
    if section == [] {
      EmptyValueLists(row);
    } else {
      var front, e := section[..|section| - 1], section[|section| - 1];
      ListsHold(front, row);
      SnocContribute(ValueLists(front), Contribution(e.field, OfValues(e)), row);
      ValueListsStep(section, |front|);
      assert section[..|section|] == section == front + [e];
      ListFoundMeans(e, Column(row, e.field));
    }
  }

  lemma EmptyValueLists(row: Row)
    ensures AllContribute(ValueLists([]), row)
  {
  }

  lemma ValueFoundMeans(e: NamedValue, v: Value)
    ensures (OfValue(e).Some? ==> Holds(OfValue(e).value, v)) <==> ValueFound(e, v)
  {
  }

  lemma ListFoundMeans(e: NamedValues, v: Value)
    ensures (OfValues(e).Some? ==> Holds(OfValues(e).value, v)) <==> ListFound(e, v)
  {
    hide ValidValues, Usable;
    forall w ensures w in ValidValues(e.values) <==> w in e.values && Usable(w) {
      ValidAre(e.values, w);
    }
    assert !Usable(Null) by {
      NullIsNotUsable();
    }
    if ValidValues(e.values) != [] {
      assert ValidValues(e.values)[0] in ValidValues(e.values);
    }
  }

  lemma NullIsNotUsable()
    ensures !Usable(Null)
  {
  }

  lemma RangeFoundMeans(e: NamedRange, v: Value)
    ensures (OfRange(e).Some? ==> Holds(OfRange(e).value, v)) <==> RangeFound(e, v)
  {
  }

  lemma DateFoundMeans(e: NamedDates, v: Value)
    ensures (OfDates(e).Some? ==> Holds(OfDates(e).value, v)) <==> DateFound(e, v)
  {
  }

  lemma {:induction false} RangesHold(section: seq<NamedRange>, row: Row)
    ensures AllContribute(Ranges(section), row) <==> RangesFound(section, row)
  {
    hide AllContribute, Ranges, OfRange, RangeFound, Holds, Column;
    if section == [] {
      EmptyRanges(row);
    } else {
      var front, e := section[..|section| - 1], section[|section| - 1];
      RangesHold(front, row);
      SnocContribute(Ranges(front), Contribution(e.field, OfRange(e)), row);
      RangesStep(section, |front|);
      assert section[..|section|] == section == front + [e];
      RangeFoundMeans(e, Column(row, e.field));
    }
  }

  lemma EmptyRanges(row: Row)
    ensures AllContribute(Ranges([]), row)
  {
  }

  lemma {:induction false} DatesHold(section: seq<NamedDates>, row: Row)
    ensures AllContribute(DateRanges(section), row) <==> DatesFound(section, row)
  {
    hide AllContribute, DateRanges, OfDates, DateFound, Holds, Column;
    if section == [] {
      EmptyDateRanges(row);
    } else {
      var front, e := section[..|section| - 1], section[|section| - 1];
      DatesHold(front, row);
      SnocContribute(DateRanges(front), Contribution(e.field, OfDates(e)), row);
      DateRangesStep(section, |front|);
      assert section[..|section|] == section == front + [e];
      DateFoundMeans(e, Column(row, e.field));
    }
  }

  lemma EmptyDateRanges(row: Row)
    ensures AllContribute(DateRanges([]), row)
  {
  }

  lemma SearchHolds(o: Options, row: Row)
    ensures (Searches(o) ==> exists f :: f in o.searchIn && Holds(Like(SanitizeSearchTerm(o.search)), Column(row, f)))
       <==> SearchFound(o, row)
  {
    hide SanitizeSearchTerm, Contains, Occurs, Trim, Column;
    forall text ensures Contains(SanitizeSearchTerm(o.search), text) <==> Occurs(Trim(o.search), text) {
      SanitizedSearchIsLiteral(o.search, text);
    }
  }

  /** When no two sections name a field, the compiled clause accepts exactly the rows the request asks for. */
  lemma CompiledIsRequest(o: Options, row: Row)
    requires ObjectSections(o) && DisjointSections(o)
    ensures Denotes(Compiled(o), row) <==> Requested(o, row)
  {
    hide ObjectSections, DisjointSections, Compiled, Denotes, AllContribute, Values, ValueLists, Ranges, DateRanges,
         Column, SearchFound, ValuesFound, ListsFound, RangesFound, DatesFound, Holds, SanitizeSearchTerm, Searches;
    CompiledIsConjunction(o, row);
    SearchHolds(o, row);
    ValuesHold(o.where, row);
    ListsHold(o.whereIn, row);
    RangesHold(o.ranges, row);
    DatesHold(o.dateRanges, row);
  }

  /* ---- overlapping sections ---- */

  function Merge(sections: seq<Where>): Where {
    if sections == [] then map[] else Merge(sections[..|sections| - 1]) + sections[|sections| - 1]
  }

  /** The section names the field and no later one does. */
  predicate Decides(sections: seq<Where>, i: nat, key: string)
    requires i < |sections|
  {
    key in sections[i] && forall j :: i < j < |sections| ==> key !in sections[j]
  }

  predicate EachDecidedHolds(sections: seq<Where>, row: Row) {
    forall i: nat, key | i < |sections| && key in sections[i] && Decides(sections, i, key)
      :: Satisfies(key, sections[i][key], row)
  }

  /** A merged clause asks, field by field, exactly what the last section naming the field asks. */
  lemma MergeDenotes(sections: seq<Where>, row: Row)
    ensures Denotes(Merge(sections), row) <==> EachDecidedHolds(sections, row)
  {
    hide Satisfies, Merge, Decides;
    if EachDecidedHolds(sections, row) {
      forall key | key in Merge(sections) ensures Satisfies(key, Merge(sections)[key], row) {
        var i := DecidingSection(sections, key);
      }
    }
    if Denotes(Merge(sections), row) {
      forall i: nat, key | i < |sections| && key in sections[i] && Decides(sections, i, key)
        ensures Satisfies(key, sections[i][key], row)
      {
        DecidedValue(sections, i, key);
      }
    }
  }

  lemma {:induction false} DecidingSection(sections: seq<Where>, key: string) returns (i: nat)
    requires key in Merge(sections)
    ensures i < |sections| && key in sections[i] && Decides(sections, i, key)
    ensures sections[i][key] == Merge(sections)[key]
  {
    i := |sections| - 1;
    if key !in sections[i] {
      i := DecidingSection(sections[..i], key);
    }
  }

  lemma {:induction false} DecidedValue(sections: seq<Where>, i: nat, key: string)
    requires i < |sections| && Decides(sections, i, key)
    ensures key in sections[i] && key in Merge(sections) && Merge(sections)[key] == sections[i][key]
  {
    var n := |sections| - 1;
    if i < n {
      assert Decides(sections[..n], i, key);
      DecidedValue(sections[..n], i, key);
    }
  }

  /** The parts of a request in the order in which they are written into the where object. */
  function Sections(o: Options): seq<Where> {
    [SoftDelete(o), Search(o), Section(Values(o.where)), Section(ValueLists(o.whereIn)),
     Section(Ranges(o.ranges)), Section(DateRanges(o.dateRanges)), o.customWhere]
  }

  /** For every request, overlapping or not: the compiled clause is the last-section-wins merge of its parts. */
  lemma CompiledDenotes(o: Options, row: Row)
    ensures Denotes(Compiled(o), row) <==> EachDecidedHolds(Sections(o), row)
  {
    CompiledIsMerge(SoftDelete(o), Search(o), Section(Values(o.where)), Section(ValueLists(o.whereIn)),
                    Section(Ranges(o.ranges)), Section(DateRanges(o.dateRanges)), o.customWhere);
    MergeDenotes(Sections(o), row);
    hide Denotes, Merge, EachDecidedHolds, SoftDelete, Search, Section, Values, ValueLists, Ranges, DateRanges;
  }

  lemma CompiledIsMerge(a: Where, b: Where, c: Where, d: Where, e: Where, f: Where, g: Where)
    ensures Merge([a, b, c, d, e, f, g]) == a + b + c + d + e + f + g
  {
    assert Merge([a]) == map[] + a == a;
    assert [a, b][..1] == [a];
    assert [a, b, c][..2] == [a, b];
    assert Merge([a, b, c]) == a + b + c;
    assert [a, b, c, d][..3] == [a, b, c];
    assert [a, b, c, d, e][..4] == [a, b, c, d];
    assert Merge([a, b, c, d, e]) == a + b + c + d + e;
    assert [a, b, c, d, e, f][..5] == [a, b, c, d, e];
    assert [a, b, c, d, e, f, g][..6] == [a, b, c, d, e, f];
  }

  /* ---- the allowed fields ---- */

  lemma {:induction false} ContributionFields(allowed: set<string>, o: Options, c: Contribution)
    requires allowed != {} && Acceptable(allowed, o) && c.test.Some?
    requires
      || c in Values(o.where)
      || c in ValueLists(o.whereIn)
      || c in Ranges(o.ranges)
      || c in DateRanges(o.dateRanges)
    ensures c.field in allowed
  {
    if c in Values(o.where) {
      var i := ValueSource(o.where, c);
      assert GoodValue(allowed, o.where[i]);
    } else if c in ValueLists(o.whereIn) {
      var i := ValueListSource(o.whereIn, c);
      assert GoodValues(allowed, o.whereIn[i]);
    } else if c in Ranges(o.ranges) {
      var i := RangeSource(o.ranges, c);
      assert GoodRange(allowed, o.ranges[i]);
    } else {
      var i := DateRangeSource(o.dateRanges, c);
      assert GoodDates(allowed, o.dateRanges[i]);
    }
  }

  lemma {:induction false} ValueSource(s: seq<NamedValue>, c: Contribution) returns (i: nat)
    requires c in Values(s)
    ensures i < |s| && c == Contribution(s[i].field, OfValue(s[i]))
  {
    hide OfValue;
    i := |s| - 1;
    if c in Values(s[..i]) {
      i := ValueSource(s[..i], c);
    }
  }

  lemma {:induction false} ValueListSource(s: seq<NamedValues>, c: Contribution) returns (i: nat)
    requires c in ValueLists(s)
    ensures i < |s| && c == Contribution(s[i].field, OfValues(s[i]))
  {
    hide OfValues;
    i := |s| - 1;
    if c in ValueLists(s[..i]) {
      i := ValueListSource(s[..i], c);
    }
  }

  lemma {:induction false} RangeSource(s: seq<NamedRange>, c: Contribution) returns (i: nat)
    requires c in Ranges(s)
    ensures i < |s| && c == Contribution(s[i].field, OfRange(s[i]))
  {
    hide OfRange;
    i := |s| - 1;
    if c in Ranges(s[..i]) {
      i := RangeSource(s[..i], c);
    }
  }

  lemma {:induction false} DateRangeSource(s: seq<NamedDates>, c: Contribution) returns (i: nat)
    requires c in DateRanges(s)
    ensures i < |s| && c == Contribution(s[i].field, OfDates(s[i]))
  {
    hide OfDates;
    i := |s| - 1;
    if c in DateRanges(s[..i]) {
      i := DateRangeSource(s[..i], c);
    }
  }

  lemma SectionFieldsAllowed(allowed: set<string>, o: Options, cs: seq<Contribution>, key: string)
    requires allowed != {} && Acceptable(allowed, o)
    requires
      || cs == Values(o.where)
      || cs == ValueLists(o.whereIn)
      || cs == Ranges(o.ranges)
      || cs == DateRanges(o.dateRanges)
    ensures key in Section(cs) ==> key in allowed
  {
    SectionKeys(cs, key);
    if key in Section(cs) {
      var c :| c in cs && c.test.Some? && c.field == key;
      ContributionFields(allowed, o, c);
    }
  }

  /** Only allowed fields reach the clause, except through the caller's own clause: a key is an allowed field,
    * the soft-delete condition, or the search list, and the search list names allowed fields only. */
  lemma OnlyAllowedFields(allowed: set<string>, o: Options, key: string)
    requires allowed != {} && Acceptable(allowed, o)
    requires key in Compiled(o) && key !in o.customWhere
    ensures key in allowed || (key == "deletedAt" && !o.includeSoftDeleted) || (key == "OR" && Searches(o))
    ensures key !in allowed && key == "deletedAt" ==> Compiled(o)[key] == Field(IsNull)
    ensures key !in allowed && key == "OR" ==>
      Compiled(o)[key].AnyOf? && forall a :: a in Compiled(o)[key].atoms ==> a.field in allowed
  {
    SectionFieldsAllowed(allowed, o, Values(o.where), key);
    SectionFieldsAllowed(allowed, o, ValueLists(o.whereIn), key);
    SectionFieldsAllowed(allowed, o, Ranges(o.ranges), key);
    SectionFieldsAllowed(allowed, o, DateRanges(o.dateRanges), key);
    hide Section, Values, ValueLists, Ranges, DateRanges, SanitizeSearchTerm;
    if key !in allowed && key == "OR" {
      var atoms := SearchAtoms(o.searchIn, SanitizeSearchTerm(o.search));
      assert Compiled(o)[key] == AnyOf(atoms);
      forall a | a in atoms ensures a.field in allowed {
        SearchMembers(o.searchIn, SanitizeSearchTerm(o.search), a);
        assert ValidField(allowed, a.field);
      }
    }
  }

  /* ---- soft-deleted rows ---- */

  predicate LeavesOutDeleted(o: Options) { !o.includeSoftDeleted && "deletedAt" !in o.customWhere }

  /** No request that leaves soft-deleted rows out, and no caller's clause that does not name deletedAt, lets one in. */
  ghost predicate HidesDeletedRows(allowed: set<string>) {
    forall o, row | Acceptable(allowed, o) && LeavesOutDeleted(o) && Denotes(Compiled(o), row)
      :: Column(row, "deletedAt") == Null
  }

  lemma HidesDeletedRowsIff(allowed: set<string>)
    ensures HidesDeletedRows(allowed) <==> allowed != {} && "deletedAt" !in allowed
  {
    if allowed != {} && "deletedAt" !in allowed {
      forall o, row | Acceptable(allowed, o) && LeavesOutDeleted(o) && Denotes(Compiled(o), row)
        ensures Column(row, "deletedAt") == Null
      {
        assert "deletedAt" in Compiled(o);
        OnlyAllowedFields(allowed, o, "deletedAt");
        assert Satisfies("deletedAt", Compiled(o)["deletedAt"], row);
      }
    } else {
      DeletedRowShown(allowed);
    }
  }

  /** A request for the rows deleted at one instant. */
  const DELETED_AT_ONE := Options("", [], [NamedValue("deletedAt", Date(1))], [], [], [], false, map[])

  lemma DeletedAtOneAcceptable(allowed: set<string>)
    requires allowed == {} || "deletedAt" in allowed
    ensures Acceptable(allowed, DELETED_AT_ONE)
  {
    assert ValidField(allowed, "deletedAt");
    hide ValidField;
  }

  lemma DeletedAtOneCompiled()
    ensures Compiled(DELETED_AT_ONE) == map["deletedAt" := Field(Equals(Date(1)))]
  {
    var e := NamedValue("deletedAt", Date(1));
    var c := Contribution("deletedAt", Some(Equals(Date(1))));
    assert Values([e]) == [c] by {
      ValuesStep([e], 0);
      assert [e][..1] == [e] && [e][..0] == [];
      hide Values;
      assert Values([]) == [];
    }
    assert Section([c]) == map["deletedAt" := Field(Equals(Date(1)))] by {
      PutStep(map[], [], c);
      assert [] + [c] == [c];
      assert Section([]) == map[];
      hide Section;
    }
    assert Search(DELETED_AT_ONE) == map[];
    assert Section(ValueLists([])) == Section(Ranges([])) == Section(DateRanges([])) == map[];
    hide Section, Search, Values, ValueLists, Ranges, DateRanges;
  }

  /** An exact match on deletedAt takes the place of the soft-delete condition. */
  lemma DeletedRowShown(allowed: set<string>)
    requires allowed == {} || "deletedAt" in allowed
    ensures !HidesDeletedRows(allowed)
  {
    var row: Row := map["deletedAt" := Date(1)];
    DeletedAtOneAcceptable(allowed);
    DeletedAtOneCompiled();
    assert Column(row, "deletedAt") == Date(1);
    assert Denotes(Compiled(DELETED_AT_ONE), row);
    hide Acceptable, Compiled, Denotes, Column;
  }
}
