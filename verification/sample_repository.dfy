/** `SampleRepository` (app/repositories/sample.py): samples bound to `s`; it validates the
    filters, pops the diagnosis search from the caller's filters, builds the query,
    runs it on the session and converts the rows. */
module SampleRepository {
  import opened Wrappers
  import opened OrderedDict
  import opened Values
  import opened Errors
  import opened QueryModel
  import opened Records
  import opened RepositoryCore

  class SampleRepository {
    const session: Session
    const allowlist: Allowlist
    const diagnosisClauses: DiagnosisClauses

    constructor (session: Session, allowlist: Allowlist, diagnosisClauses: DiagnosisClauses)
      ensures this.session == session && this.allowlist == allowlist && this.diagnosisClauses == diagnosisClauses
    {
      this.session := session;
      this.allowlist := allowlist;
      this.diagnosisClauses := diagnosisClauses;
    }

    function Env(): Env {
      RepositoryCore.Env(allowlist, diagnosisClauses, session.db)
    }

    /** `get_samples(filters, offset, limit)` */
    method GetSamples(filters: StringDict, offset: int, limit: int) returns (r: Result<seq<Record>, Fault>)
      requires filters.Valid()
      modifies filters, session
      ensures filters.Valid()
      ensures var o := ListSpec(Env(), SampleProfile, old(filters.items), offset, limit);
        r == o.result && filters.items == o.filtersAfter && session.executed == old(session.executed) + o.queries
    {
      ghost var before := filters.items;
      var refused := ValidateFilters(filters.items, allowlist, Sample);
      if refused.Some? {
        return Failure(UnsupportedFilterField(refused.value));
      }
      var builder := new QueryBuilder();
      AddSearchAndFilters(filters, builder, SampleProfile, diagnosisClauses);
      var rows := session.Run(builder.BuildListQuery(Sample, offset, limit));
      r := MapEntities(rows, "s", Sample);
      ListAccepted(Env(), SampleProfile, before, offset, limit);
    }

    /** `get_sample_by_identifier(org, ns, name)` */
    method GetSampleByIdentifier(org: string, ns: string, name: string) returns (r: Result<Option<Record>, Fault>)
      modifies session
      ensures r == LookupSpec(session.db, SampleProfile, org, ns, name)
      ensures session.executed == old(session.executed) + [LookupQueryFor(Sample, org, ns, name)]
    {
      var identifier := org + "." + ns + "." + name;
      var rows := session.Run(LookupQuery(Sample, map["identifier" := JStr(identifier)]));
      if rows == [] {
        return Success(None);
      }
      var node := NodeOf(rows[0], "s");
      if node.None? {
        return Failure(MalformedRow);
      }
      return Success(Some(RecordToEntity(Sample, node.value)));
    }

    /** `count_samples_by_field(field, filters)` */
    method CountSamplesByField(field: string, filters: StringDict) returns (r: Result<seq<Record>, Fault>)
      requires filters.Valid()
      modifies filters, session
      ensures filters.Valid()
      ensures var o := CountSpec(Env(), SampleProfile, field, old(filters.items));
        r == o.result && filters.items == o.filtersAfter && session.executed == old(session.executed) + o.queries
    {
      if !allowlist(Sample, field) {
        return Failure(UnsupportedGroupField(field));
      }
      ghost var before := filters.items;
      var refused := ValidateFilters(filters.items, allowlist, Sample);
      if refused.Some? {
        return Failure(UnsupportedFilterField(refused.value));
      }
      var builder := new QueryBuilder();
      AddSearchAndFilters(filters, builder, SampleProfile, diagnosisClauses);
      var rows := session.Run(builder.BuildCountByFieldQuery(Sample, field));
      var counts := MapCountRows(rows);
      r := Success(counts);
      CountAccepted(Env(), SampleProfile, field, before);
    }

    /** `get_samples_summary(filters)` */
    method GetSamplesSummary(filters: StringDict) returns (r: Result<Record, Fault>)
      requires filters.Valid()
      modifies filters, session
      ensures filters.Valid()
      ensures var o := SummarySpec(Env(), SampleProfile, old(filters.items));
        r == o.result && filters.items == o.filtersAfter && session.executed == old(session.executed) + o.queries
    {
      ghost var before := filters.items;
      var refused := ValidateFilters(filters.items, allowlist, Sample);
      if refused.Some? {
        return Failure(UnsupportedFilterField(refused.value));
      }
      var builder := new QueryBuilder();
      AddSearchAndFilters(filters, builder, SampleProfile, diagnosisClauses);
      var query := builder.BuildSummaryQuery(Sample);
      var rows := session.Run(query);
      if rows == [] {
        r := Success(map["total_count" := JInt(0)]);
      } else {
        r := Success(rows[0]);
      }
      SummaryAccepted(Env(), SampleProfile, before);
    }
  }
}
