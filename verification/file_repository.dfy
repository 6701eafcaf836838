/** `FileRepository` (app/repositories/file.py): files bound to `f`; it validates the
    filters, forwards every filter, reserved keys included, builds the query,
    runs it on the session and converts the rows. */
module FileRepository {
  import opened Wrappers
  import opened OrderedDict
  import opened Values
  import opened Errors
  import opened QueryModel
  import opened Records
  import opened RepositoryCore

  class FileRepository {
    const session: Session
    const allowlist: Allowlist
    const diagnosisClauses: DiagnosisClauses

    constructor (session: Session, allowlist: Allowlist, diagnosisClauses: DiagnosisClauses)
      ensures this.session == session && this.allowlist == allowlist && this.diagnosisClauses == diagnosisClauses
    {
      this.session := session;
      this.allowlist := allowlist;
      this.diagnosisClauses := diagnosisClauses;
    }

    function Env(): Env {
      RepositoryCore.Env(allowlist, diagnosisClauses, session.db)
    }

    /** `get_files(filters, offset, limit)` */
    method GetFiles(filters: seq<Item>, offset: int, limit: int) returns (r: Result<seq<Record>, Fault>)
      modifies session
      ensures var o := ListSpec(Env(), FileProfile, filters, offset, limit);
        r == o.result && session.executed == old(session.executed) + o.queries
    {
      var refused := ValidateFilters(filters, allowlist, File);
      if refused.Some? {
        return Failure(UnsupportedFilterField(refused.value));
      }
      var builder := new QueryBuilder();
      AddFilters(filters, builder, "f", File);
      var rows := session.Run(builder.BuildListQuery(File, offset, limit));
      r := MapEntities(rows, "f", File);
    }

    /** `get_file_by_identifier(org, ns, name)` */
    method GetFileByIdentifier(org: string, ns: string, name: string) returns (r: Result<Option<Record>, Fault>)
      modifies session
      ensures r == LookupSpec(session.db, FileProfile, org, ns, name)
      ensures session.executed == old(session.executed) + [LookupQueryFor(File, org, ns, name)]
    {
      var identifier := org + "." + ns + "." + name;
      var rows := session.Run(LookupQuery(File, map["identifier" := JStr(identifier)]));
      if rows == [] {
        return Success(None);
      }
      var node := NodeOf(rows[0], "f");
      if node.None? {
        return Failure(MalformedRow);
      }
      return Success(Some(RecordToEntity(File, node.value)));
    }

    /** `count_files_by_field(field, filters)` */
    method CountFilesByField(field: string, filters: seq<Item>) returns (r: Result<seq<Record>, Fault>)
      modifies session
      ensures var o := CountSpec(Env(), FileProfile, field, filters);
        r == o.result && session.executed == old(session.executed) + o.queries
    {
      if !allowlist(File, field) {
        return Failure(UnsupportedGroupField(field));
      }
      var refused := ValidateFilters(filters, allowlist, File);
      if refused.Some? {
        return Failure(UnsupportedFilterField(refused.value));
      }
      var builder := new QueryBuilder();
      AddFilters(filters, builder, "f", File);
      var rows := session.Run(builder.BuildCountByFieldQuery(File, field));
      var counts := MapCountRows(rows);
      r := Success(counts);
    }

    /** `get_files_summary(filters)` */
    method GetFilesSummary(filters: seq<Item>) returns (r: Result<Record, Fault>)
      modifies session
      ensures var o := SummarySpec(Env(), FileProfile, filters);
        r == o.result && session.executed == old(session.executed) + o.queries
    {
      var refused := ValidateFilters(filters, allowlist, File);
      if refused.Some? {
        return Failure(UnsupportedFilterField(refused.value));
      }
      var builder := new QueryBuilder();
      AddFilters(filters, builder, "f", File);
      var rows := session.Run(builder.BuildSummaryQuery(File));
      if rows == [] {
        r := Success(map["total_count" := JInt(0)]);
      } else {
        r := Success(rows[0]);
      }
    }
  }
}
