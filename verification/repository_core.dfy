/** The pipeline the three repositories share: check the filter names
    against the allowlist, take the reserved diagnosis-search key out of the
    caller's filters and emit its clauses, hand every remaining filter to the
    query builder in order, run the query and convert the rows. The
    repositories repeat this code per entity; it is stated once here, and
    the per-entity classes run it with their own entity, alias and
    diagnosis setting. */
module RepositoryCore {
  import opened Wrappers
  import opened Text
  import opened OrderedDict
  import opened Values
  import opened Errors
  import opened QueryModel
  import opened Records

  /** The reserved filter key that carries a diagnosis search term. */
  const DiagnosisKey := "_diagnosis_search"

  /** What distinguishes the repositories: the entity, the alias its node is
      bound to in queries and rows, and whether it handles diagnosis search. */
  datatype Profile = Profile(entity: EntityType, alias: string, searchesDiagnosis: bool)

  const SubjectProfile := Profile(Subject, "s", true)
  const SampleProfile := Profile(Sample, "s", true)
  const FileProfile := Profile(File, "f", false)

  /** A filter key `_validate_filters` rejects: not reserved (no leading `_`)
      and not allowed for the entity. */
  predicate Refused(key: string, allow: Allowlist, entity: EntityType) {
    !StartsWith(key, "_") && !allow(entity, key)
  }

  /** The position of the first refused key, if any. */
  function FirstRefused(keys: seq<string>, allow: Allowlist, entity: EntityType): (r: Option<nat>)
    ensures r.Some? ==> r.value < |keys| && Refused(keys[r.value], allow, entity)
    ensures r.Some? ==> forall j :: 0 <= j < r.value ==> !Refused(keys[j], allow, entity)
    ensures r.None? <==> forall j :: 0 <= j < |keys| ==> !Refused(keys[j], allow, entity)
    decreases |keys|
  {
    if |keys| == 0 then None
    else if Refused(keys[0], allow, entity) then Some(0)
    else match FirstRefused(keys[1..], allow, entity)
      case None => None
      case Some(i) => Some(i + 1)
  }

  /** The filter key `_validate_filters` raises for, if any. */
  function RefusedField(filters: seq<Item>, allow: Allowlist, entity: EntityType): Option<string> {
    match FirstRefused(Keys(filters), allow, entity)
    case None => None
    case Some(i) => Some(filters[i].0)
  }

  /** `_validate_filters`: the keys are checked in order and the first
      refused one is reported; keys starting with `_` are skipped. */
  method ValidateFilters(filters: seq<Item>, allow: Allowlist, entity: EntityType) returns (refused: Option<string>)
    ensures refused == RefusedField(filters, allow, entity)
    ensures refused.Some? ==> refused.value in Keys(filters) && Refused(refused.value, allow, entity)
    ensures refused.None? ==> forall k :: k in Keys(filters) ==> StartsWith(k, "_") || allow(entity, k)
  {
    ghost var keys := Keys(filters);
    var i := 0;
    while i < |filters|
      invariant 0 <= i <= |filters|
      invariant forall j :: 0 <= j < i ==> !Refused(keys[j], allow, entity)
    {
      var field := filters[i].0;
      if !StartsWith(field, "_") && !allow(entity, field) {
        assert keys[i] == field;
        assert FirstRefused(keys, allow, entity) == Some(i);
        return Some(field);
      }
      i := i + 1;
    }
    assert FirstRefused(keys, allow, entity) == None;
    forall k | k in keys
      ensures StartsWith(k, "_") || allow(entity, k)
    {
      var j :| 0 <= j < |keys| && keys[j] == k;
    }
    return None;
  }

  /** The `add_where` calls for a list of clauses. */
  function WhereCalls(clauses: seq<Clause>): (calls: seq<BuilderCall>)
    ensures |calls| == |clauses|
    ensures forall i :: 0 <= i < |clauses| ==> calls[i] == BuilderCall.AddWhere(clauses[i])
  {
    seq(|clauses|, i requires 0 <= i < |clauses| => BuilderCall.AddWhere(clauses[i]))
  }

  /** The `add_filter` calls for the filters, one per entry, in order. */
  function FilterCalls(filters: seq<Item>, alias: string, entity: EntityType): (calls: seq<BuilderCall>)
    ensures |calls| == |filters|
    ensures forall i :: 0 <= i < |filters| ==>
              calls[i] == BuilderCall.AddFilter(alias, filters[i].0, filters[i].1, entity)
  {
    seq(|filters|, i requires 0 <= i < |filters| => BuilderCall.AddFilter(alias, filters[i].0, filters[i].1, entity))
  }

  /** The clauses of a diagnosis search, when the filters carry one. */
  function DiagnosisCalls(filters: seq<Item>, entity: EntityType, clausesOf: DiagnosisClauses): seq<BuilderCall> {
    match OrderedDict.Get(filters, DiagnosisKey)
    case None => []
    case Some(term) => WhereCalls(clausesOf(term, entity))
  }

  /** The caller's filters after the repository is done with them. */
  function FiltersAfter(filters: seq<Item>, profile: Profile): seq<Item> {
    if profile.searchesDiagnosis then Remove(filters, DiagnosisKey) else filters
  }

  /** The calls made for a diagnosis search, by a repository that handles it. */
  function DiagnosisPart(filters: seq<Item>, profile: Profile, clausesOf: DiagnosisClauses): seq<BuilderCall> {
    if profile.searchesDiagnosis then DiagnosisCalls(filters, profile.entity, clausesOf) else []
  }

  /** Everything the builder receives, in order. */
  function PlannedCalls(filters: seq<Item>, profile: Profile, clausesOf: DiagnosisClauses): seq<BuilderCall> {
    DiagnosisPart(filters, profile, clausesOf) + FilterCalls(FiltersAfter(filters, profile), profile.alias, profile.entity)
  }

  /** The diagnosis step: `if "_diagnosis_search" in filters`, pop it from
      the caller's dict and add each of its clauses. */
  method AddDiagnosisSearch(filters: StringDict, builder: QueryBuilder, entity: EntityType, clausesOf: DiagnosisClauses)
    requires filters.Valid()
    modifies filters, builder
    ensures filters.Valid()
    ensures filters.items == Remove(old(filters.items), DiagnosisKey)
    ensures builder.calls == old(builder.calls) + DiagnosisCalls(old(filters.items), entity, clausesOf)
  {
    if filters.Contains(DiagnosisKey) {
      var term := filters.Pop(DiagnosisKey);
      var clauses := clausesOf(term.value, entity);
      for i := 0 to |clauses|
        modifies builder
        invariant builder.calls == old(builder.calls) + WhereCalls(clauses[..i])
      {
        builder.AddWhere(clauses[i]);
        assert WhereCalls(clauses[..i + 1]) == WhereCalls(clauses[..i]) + [BuilderCall.AddWhere(clauses[i])];
      }
      assert clauses[..|clauses|] == clauses;
    } else {
      RemoveAbsent(filters.items, DiagnosisKey);
    }
  }

  /** The filter loop: `add_filter(alias, field, value, allowlist, entity)`
      for each entry, in order. */
  method AddFilters(filters: seq<Item>, builder: QueryBuilder, alias: string, entity: EntityType)
    modifies builder
    ensures builder.calls == old(builder.calls) + FilterCalls(filters, alias, entity)
  {
    for i := 0 to |filters|
      invariant builder.calls == old(builder.calls) + FilterCalls(filters[..i], alias, entity)
    {
      builder.AddFilter(alias, filters[i].0, filters[i].1, entity);
      assert FilterCalls(filters[..i + 1], alias, entity)
          == FilterCalls(filters[..i], alias, entity) + [BuilderCall.AddFilter(alias, filters[i].0, filters[i].1, entity)];
    }
    assert filters[..|filters|] == filters;
  }

  /** The diagnosis search and then the filters, as the subject and sample
      repositories hand them to a new builder. */
  method AddSearchAndFilters(filters: StringDict, builder: QueryBuilder, profile: Profile, clausesOf: DiagnosisClauses)
    requires filters.Valid() && profile.searchesDiagnosis && builder.calls == []
    modifies filters, builder
    ensures filters.Valid()
    ensures filters.items == FiltersAfter(old(filters.items), profile)
    ensures builder.calls == PlannedCalls(old(filters.items), profile, clausesOf)
  {
    AddDiagnosisSearch(filters, builder, profile.entity, clausesOf);
    AddFilters(filters.items, builder, profile.alias, profile.entity);
  }

  /** The row loop of a list query: one entity per row, in order. */
  method MapEntities(rows: seq<Record>, alias: string, entity: EntityType) returns (r: Result<seq<Record>, Fault>)
    ensures r == EntitiesOf(rows, alias, entity)
  {
    var entities: seq<Record> := [];
    for i := 0 to |rows|
      invariant |entities| == i
      invariant ConvertedPrefix(rows, alias, entity, entities)
    {
      var node := NodeOf(rows[i], alias);
      if node.None? {
        EntitiesOfMalformed(rows, alias, entity, i);
        return Failure(MalformedRow);
      }
      ConvertOne(rows, alias, entity, entities);
      entities := entities + [RecordToEntity(entity, node.value)];
    }
    EntitiesOfWellFormed(rows, alias, entity, entities);
    return Success(entities);
  }

  /** `entities` holds the conversions of the first `|entities|` rows. */
  predicate ConvertedPrefix(rows: seq<Record>, alias: string, entity: EntityType, entities: seq<Record>) {
    && |entities| <= |rows|
    && forall j :: 0 <= j < |entities| ==>
         NodeOf(rows[j], alias).Some? && entities[j] == RecordToEntity(entity, NodeOf(rows[j], alias).value)
  }

  lemma ConvertOne(rows: seq<Record>, alias: string, entity: EntityType, entities: seq<Record>)
    requires ConvertedPrefix(rows, alias, entity, entities)
    requires |entities| < |rows| && NodeOf(rows[|entities|], alias).Some?
    ensures ConvertedPrefix(rows, alias, entity,
                            entities + [RecordToEntity(entity, NodeOf(rows[|entities|], alias).value)])
  {
    var longer := entities + [RecordToEntity(entity, NodeOf(rows[|entities|], alias).value)];
    forall j | 0 <= j < |longer|
      ensures NodeOf(rows[j], alias).Some? && longer[j] == RecordToEntity(entity, NodeOf(rows[j], alias).value)
    {
      if j < |entities| {
        assert longer[j] == entities[j];
      }
    }
  }

  lemma EntitiesOfMalformed(rows: seq<Record>, alias: string, entity: EntityType, i: int)
    requires 0 <= i < |rows| && NodeOf(rows[i], alias).None?
    ensures EntitiesOf(rows, alias, entity) == Failure(MalformedRow)
  {
  }

  lemma EntitiesOfWellFormed(rows: seq<Record>, alias: string, entity: EntityType, entities: seq<Record>)
    requires |entities| == |rows| && ConvertedPrefix(rows, alias, entity, entities)
    ensures EntitiesOf(rows, alias, entity) == Success(entities)
  {
    var spec := EntitiesOf(rows, alias, entity);
    assert |spec.value| == |entities|;
    assert spec.value == entities;
  }

  /** The rows of a count, in order. */
  function CountRows(rows: seq<Record>): seq<Record> {
    seq(|rows|, i requires 0 <= i < |rows| => CountRow(rows[i]))
  }

  /** The row loop of a count: `{value, count}` per row, in order. */
  method MapCountRows(rows: seq<Record>) returns (counts: seq<Record>)
    ensures |counts| == |rows|
    ensures forall i :: 0 <= i < |rows| ==> counts[i] == CountRow(rows[i])
    ensures counts == CountRows(rows)
  {
    counts := [];
    for i := 0 to |rows|
      invariant |counts| == i
      invariant forall j :: 0 <= j < i ==> counts[j] == CountRow(rows[j])
    {
      counts := counts + [CountRow(rows[i])];
    }
  }

  /** What the repository is given from outside: the allowlist, the
      diagnosis-clause builder and the database. */
  datatype Env = Env(allow: Allowlist, clausesOf: DiagnosisClauses, db: Database)

  /** The result of a repository call, the caller's filters afterwards, and
      the queries it ran. */
  datatype Outcome<T> = Outcome(result: Result<T, Fault>, filtersAfter: seq<Item>, queries: seq<Query>)

  /** `get_subjects`, `get_samples`, `get_files` */
  function ListSpec(env: Env, profile: Profile, filters: seq<Item>, offset: int, limit: int): (o: Outcome<seq<Record>>)
    ensures o.queries == [] <==> RefusedField(filters, env.allow, profile.entity).Some?
    ensures o.queries == [] ==>
              o.filtersAfter == filters
              && o.result == Failure(UnsupportedFilterField(RefusedField(filters, env.allow, profile.entity).value))
    ensures o.queries != [] ==>
              o.queries == [ListQuery(profile.entity, PlannedCalls(filters, profile, env.clausesOf), offset, limit)]
              && o.filtersAfter == FiltersAfter(filters, profile)
              && o.result == EntitiesOf(env.db(o.queries[0]), profile.alias, profile.entity)
  {
    match RefusedField(filters, env.allow, profile.entity)
    case Some(field) => Outcome(Failure(UnsupportedFilterField(field)), filters, [])
    case None =>
      var query := ListQuery(profile.entity, PlannedCalls(filters, profile, env.clausesOf), offset, limit);
      Outcome(EntitiesOf(env.db(query), profile.alias, profile.entity), FiltersAfter(filters, profile), [query])
  }

  /** `count_subjects_by_field`, `count_samples_by_field`, `count_files_by_field` */
  function CountSpec(env: Env, profile: Profile, field: string, filters: seq<Item>): (o: Outcome<seq<Record>>)
    ensures !env.allow(profile.entity, field) ==>
              o == Outcome(Failure(UnsupportedGroupField(field)), filters, [])
    ensures o.queries == [] <==>
              !env.allow(profile.entity, field) || RefusedField(filters, env.allow, profile.entity).Some?
    ensures o.queries == [] ==> o.filtersAfter == filters && o.result.Failure?
    ensures o.queries != [] ==>
              o.queries == [CountQuery(profile.entity, PlannedCalls(filters, profile, env.clausesOf), field)]
              && o.filtersAfter == FiltersAfter(filters, profile)
              && o.result == Success(CountRows(env.db(o.queries[0])))
  {
    if !env.allow(profile.entity, field) then Outcome(Failure(UnsupportedGroupField(field)), filters, [])
    else match RefusedField(filters, env.allow, profile.entity)
      case Some(refused) => Outcome(Failure(UnsupportedFilterField(refused)), filters, [])
      case None =>
        var query := CountQuery(profile.entity, PlannedCalls(filters, profile, env.clausesOf), field);
        Outcome(Success(CountRows(env.db(query))), FiltersAfter(filters, profile), [query])
  }

  /** `get_subjects_summary`, `get_samples_summary`, `get_files_summary` */
  function SummarySpec(env: Env, profile: Profile, filters: seq<Item>): (o: Outcome<Record>)
    ensures o.queries == [] <==> RefusedField(filters, env.allow, profile.entity).Some?
    ensures o.queries == [] ==>
              o.filtersAfter == filters
              && o.result == Failure(UnsupportedFilterField(RefusedField(filters, env.allow, profile.entity).value))
    ensures o.queries != [] ==>
              o.queries == [SummaryQuery(profile.entity, PlannedCalls(filters, profile, env.clausesOf))]
              && o.filtersAfter == FiltersAfter(filters, profile)
              && o.result == Success(SummaryOf(env.db(o.queries[0])))
  {
    match RefusedField(filters, env.allow, profile.entity)
    case Some(field) => Outcome(Failure(UnsupportedFilterField(field)), filters, [])
    case None =>
      var query := SummaryQuery(profile.entity, PlannedCalls(filters, profile, env.clausesOf));
      Outcome(Success(SummaryOf(env.db(query))), FiltersAfter(filters, profile), [query])
  }

  lemma ListAccepted(env: Env, profile: Profile, filters: seq<Item>, offset: int, limit: int)
    requires RefusedField(filters, env.allow, profile.entity).None?
    ensures var query := ListQuery(profile.entity, PlannedCalls(filters, profile, env.clausesOf), offset, limit);
      ListSpec(env, profile, filters, offset, limit)
        == Outcome(EntitiesOf(env.db(query), profile.alias, profile.entity), FiltersAfter(filters, profile), [query])
  {
  }

  lemma CountAccepted(env: Env, profile: Profile, field: string, filters: seq<Item>)
    requires env.allow(profile.entity, field) && RefusedField(filters, env.allow, profile.entity).None?
    ensures var query := CountQuery(profile.entity, PlannedCalls(filters, profile, env.clausesOf), field);
      CountSpec(env, profile, field, filters) == Outcome(Success(CountRows(env.db(query))), FiltersAfter(filters, profile), [query])
  {
  }

  lemma SummaryAccepted(env: Env, profile: Profile, filters: seq<Item>)
    requires RefusedField(filters, env.allow, profile.entity).None?
    ensures var query := SummaryQuery(profile.entity, PlannedCalls(filters, profile, env.clausesOf));
      SummarySpec(env, profile, filters) == Outcome(Success(SummaryOf(env.db(query))), FiltersAfter(filters, profile), [query])
  {
  }

  /** The identifier a lookup searches for: `f"{org}.{ns}.{name}"`. When no
      part holds a `.`, the identifier splits back into the three parts. */
  function Identifier(org: string, ns: string, name: string): (id: string)
    ensures '.' !in org && '.' !in ns && '.' !in name ==> Split(id, '.') == [org, ns, name]
  {
    DottedSplitsBack(org, ns, name);
    org + "." + ns + "." + name
  }

  lemma DottedSplitsBack(org: string, ns: string, name: string)
    ensures '.' !in org && '.' !in ns && '.' !in name ==> Split(org + "." + ns + "." + name, '.') == [org, ns, name]
  {
    if '.' !in org && '.' !in ns && '.' !in name {
      assert org + "." + ns + "." + name == org + ['.'] + (ns + ['.'] + name);
      SplitAtFirstSeparator(org, ns + ['.'] + name, '.');
      SplitAtFirstSeparator(ns, name, '.');
      SplitWithoutSeparator(name, '.');
    }
  }

  /** The lookup query: for the entity, with the identifier as its one
      parameter. */
  function LookupQueryFor(entity: EntityType, org: string, ns: string, name: string): (q: Query)
    ensures q.LookupQuery? && q.entity == entity
    ensures q.params.Keys == {"identifier"} && q.params["identifier"] == JStr(org + "." + ns + "." + name)
  {
    LookupQuery(entity, map["identifier" := JStr(Identifier(org, ns, name))])
  }

  /** `get_subject_by_identifier`, `get_sample_by_identifier`,
      `get_file_by_identifier`: nothing for no rows, else the entity of the
      first row. */
  function LookupSpec(db: Database, profile: Profile, org: string, ns: string, name: string): (r: Result<Option<Record>, Fault>)
    ensures var rows := db(LookupQueryFor(profile.entity, org, ns, name));
      && (r == Success(None) <==> rows == [])
      && (r.Failure? <==> rows != [] && NodeOf(rows[0], profile.alias).None?)
      && (r.Failure? ==> r.error == MalformedRow)
      && (r.Success? && r.value.Some? ==>
            r.value.value == RecordToEntity(profile.entity, NodeOf(rows[0], profile.alias).value))
  {
    var rows := db(LookupQueryFor(profile.entity, org, ns, name));
    if rows == [] then Success(None)
    else match NodeOf(rows[0], profile.alias)
      case None => Failure(MalformedRow)
      case Some(node) => Success(Some(RecordToEntity(profile.entity, node)))
  }

  /** The caller's filters after the call: exactly the diagnosis key is
      gone (a repository without diagnosis handling leaves them alone, so it
      forwards reserved keys too), every other entry is unchanged, and the
      keys stay unique. */
  lemma FiltersAfterShape(filters: seq<Item>, profile: Profile)
    requires UniqueKeys(filters)
    ensures var rest := FiltersAfter(filters, profile);
      && UniqueKeys(rest)
      && (profile.searchesDiagnosis ==> DiagnosisKey !in Keys(rest))
      && (forall k :: k != DiagnosisKey ==> OrderedDict.Get(rest, k) == OrderedDict.Get(filters, k))
      && (!profile.searchesDiagnosis ==> rest == filters)
  {
    var rest := FiltersAfter(filters, profile);
    if profile.searchesDiagnosis {
      RemoveUnique(filters, DiagnosisKey);
      RemoveKeys(filters, DiagnosisKey);
      forall k | k != DiagnosisKey
        ensures OrderedDict.Get(rest, k) == OrderedDict.Get(filters, k)
      {
        RemoveGet(filters, DiagnosisKey, k);
      }
    }
  }

  /** The calls the builder receives: the diagnosis search's clauses first,
      exactly as built from the popped term and only when there is one, then
      one `add_filter` per remaining filter, in order and with its value. */
  lemma PlannedCallsOrder(filters: seq<Item>, profile: Profile, clausesOf: DiagnosisClauses)
    ensures var calls := PlannedCalls(filters, profile, clausesOf);
            var d := |DiagnosisPart(filters, profile, clausesOf)|;
      && d <= |calls|
      && (forall i :: 0 <= i < d ==> calls[i].AddWhere?)
      && calls[d..] == FilterCalls(FiltersAfter(filters, profile), profile.alias, profile.entity)
    ensures var term := OrderedDict.Get(filters, DiagnosisKey);
            var diag := DiagnosisPart(filters, profile, clausesOf);
      && (profile.searchesDiagnosis && term.Some? ==> diag == WhereCalls(clausesOf(term.value, profile.entity)))
      && (!profile.searchesDiagnosis || term.None? ==> diag == [])
  {
    var calls := PlannedCalls(filters, profile, clausesOf);
    var diag := DiagnosisPart(filters, profile, clausesOf);
    assert calls[..|diag|] == diag;
    assert calls[|diag|..] == FilterCalls(FiltersAfter(filters, profile), profile.alias, profile.entity);
  }

  /** When validation passes, every field handed to `add_filter` is either
      reserved (leading `_`) or allowed for the entity. */
  lemma BuilderSeesOnlyAllowedFields(filters: seq<Item>, profile: Profile, env: Env, i: int)
    requires RefusedField(filters, env.allow, profile.entity).None?
    requires 0 <= i < |PlannedCalls(filters, profile, env.clausesOf)|
    requires PlannedCalls(filters, profile, env.clausesOf)[i].AddFilter?
    ensures var field := PlannedCalls(filters, profile, env.clausesOf)[i].field;
            StartsWith(field, "_") || env.allow(profile.entity, field)
  {
    var calls := PlannedCalls(filters, profile, env.clausesOf);
    var rest := FiltersAfter(filters, profile);
    var diag := DiagnosisPart(filters, profile, env.clausesOf);
    assert calls == diag + FilterCalls(rest, profile.alias, profile.entity);
    assert forall j :: 0 <= j < |diag| ==> diag[j].AddWhere?;
    var n := i - |diag|;
    assert calls[i] == FilterCalls(rest, profile.alias, profile.entity)[n];
    var field := rest[n].0;
    assert field in Keys(rest);
    if profile.searchesDiagnosis {
      RemoveKeys(filters, DiagnosisKey);
    }
    assert field in Keys(filters);
    var j :| 0 <= j < |filters| && Keys(filters)[j] == field;
    assert FirstRefused(Keys(filters), env.allow, profile.entity).None?;
  }

  /** A lookup binds exactly one parameter, `identifier`, to `org.ns.name`;
      it finds nothing exactly when the database returns no rows, and
      otherwise builds the entity from the first row alone. */
  lemma LookupShape(db: Database, profile: Profile, org: string, ns: string, name: string)
    ensures var q := LookupQueryFor(profile.entity, org, ns, name);
      && q.params.Keys == {"identifier"}
      && q.params["identifier"] == JStr(org + "." + ns + "." + name)
    ensures var rows := db(LookupQueryFor(profile.entity, org, ns, name));
            var r := LookupSpec(db, profile, org, ns, name);
      && (r == Success(None) <==> rows == [])
      && (r.Success? && r.value.Some? ==>
            NodeOf(rows[0], profile.alias).Some? && r.value.value == RecordToEntity(profile.entity, NodeOf(rows[0], profile.alias).value))
  {
  }
}
