/** `SubjectRepository` (app/repositories/subject.py): subjects bound to `s`; it validates the
    filters, pops the diagnosis search from the caller's filters, builds the query,
    runs it on the session and converts the rows. */
module SubjectRepository {
  import opened Wrappers
  import opened OrderedDict
  import opened Values
  import opened Errors
  import opened QueryModel
  import opened Records
  import opened RepositoryCore

  class SubjectRepository {
    const session: Session
    const allowlist: Allowlist
    const diagnosisClauses: DiagnosisClauses

    constructor (session: Session, allowlist: Allowlist, diagnosisClauses: DiagnosisClauses)
      ensures this.session == session && this.allowlist == allowlist && this.diagnosisClauses == diagnosisClauses
    {
      this.session := session;
      this.allowlist := allowlist;
      this.diagnosisClauses := diagnosisClauses;
    }

    function Env(): Env {
      RepositoryCore.Env(allowlist, diagnosisClauses, session.db)
    }

    /** `get_subjects(filters, offset, limit)` */
    method GetSubjects(filters: StringDict, offset: int, limit: int) returns (r: Result<seq<Record>, Fault>)
      requires filters.Valid()
      modifies filters, session
      ensures filters.Valid()
      ensures var o := ListSpec(Env(), SubjectProfile, old(filters.items), offset, limit);
        r == o.result && filters.items == o.filtersAfter && session.executed == old(session.executed) + o.queries
    {
      ghost var before := filters.items;
      var refused := ValidateFilters(filters.items, allowlist, Subject);
      if refused.Some? {
        return Failure(UnsupportedFilterField(refused.value));
      }
      var builder := new QueryBuilder();
      AddSearchAndFilters(filters, builder, SubjectProfile, diagnosisClauses);
      var rows := session.Run(builder.BuildListQuery(Subject, offset, limit));
      r := MapEntities(rows, "s", Subject);
      ListAccepted(Env(), SubjectProfile, before, offset, limit);
    }

    /** `get_subject_by_identifier(org, ns, name)` */
    method GetSubjectByIdentifier(org: string, ns: string, name: string) returns (r: Result<Option<Record>, Fault>)
      modifies session
      ensures r == LookupSpec(session.db, SubjectProfile, org, ns, name)
      ensures session.executed == old(session.executed) + [LookupQueryFor(Subject, org, ns, name)]
    {
      var identifier := org + "." + ns + "." + name;
      var rows := session.Run(LookupQuery(Subject, map["identifier" := JStr(identifier)]));
      if rows == [] {
        return Success(None);
      }
      var node := NodeOf(rows[0], "s");
      if node.None? {
        return Failure(MalformedRow);
      }
      return Success(Some(RecordToEntity(Subject, node.value)));
    }

    /** `count_subjects_by_field(field, filters)` */
    method CountSubjectsByField(field: string, filters: StringDict) returns (r: Result<seq<Record>, Fault>)
      requires filters.Valid()
      modifies filters, session
      ensures filters.Valid()
      ensures var o := CountSpec(Env(), SubjectProfile, field, old(filters.items));
        r == o.result && filters.items == o.filtersAfter && session.executed == old(session.executed) + o.queries
    {
      if !allowlist(Subject, field) {
        return Failure(UnsupportedGroupField(field));
      }
      ghost var before := filters.items;
      var refused := ValidateFilters(filters.items, allowlist, Subject);
      if refused.Some? {
        return Failure(UnsupportedFilterField(refused.value));
      }
      var builder := new QueryBuilder();
      AddSearchAndFilters(filters, builder, SubjectProfile, diagnosisClauses);
      var rows := session.Run(builder.BuildCountByFieldQuery(Subject, field));
      var counts := MapCountRows(rows);
      r := Success(counts);
      CountAccepted(Env(), SubjectProfile, field, before);
    }

    /** `get_subjects_summary(filters)` */
    method GetSubjectsSummary(filters: StringDict) returns (r: Result<Record, Fault>)
      requires filters.Valid()
      modifies filters, session
      ensures filters.Valid()
      ensures var o := SummarySpec(Env(), SubjectProfile, old(filters.items));
        r == o.result && filters.items == o.filtersAfter && session.executed == old(session.executed) + o.queries
    {
      ghost var before := filters.items;
      var refused := ValidateFilters(filters.items, allowlist, Subject);
      if refused.Some? {
        return Failure(UnsupportedFilterField(refused.value));
      }
      var builder := new QueryBuilder();
      AddSearchAndFilters(filters, builder, SubjectProfile, diagnosisClauses);
      var rows := session.Run(builder.BuildSummaryQuery(Subject));
      if rows == [] {
        r := Success(map["total_count" := JInt(0)]);
      } else {
        r := Success(rows[0]);
      }
      SummaryAccepted(Env(), SubjectProfile, before);
    }
  }
}
