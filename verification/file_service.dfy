/** `FileService` (app/services/file.py): the file repository behind a
    page-size clamp, identifier validation, a not-found error and a
    cache-aside count and summary. */
module FileService {
  import opened Wrappers
  import opened OrderedDict
  import opened Values
  import opened Errors
  import opened QueryModel
  import opened RepositoryCore
  import opened Responses
  import opened CacheModel
  import opened CacheKeys
  import opened Identifiers
  import opened ServiceCore
  import opened FileRepository

  const CountOperation: string := "file_count"
  const SummaryOperation: string := "file_summary"

  class FileService {
    const repository: FileRepository
    const settings: Settings
    const cache: Cache?

    /** The service builds its own repository on the session and allowlist. */
    constructor (session: Session, allowlist: Allowlist, diagnosisClauses: DiagnosisClauses,
                 settings: Settings, cache: Cache?)
      ensures fresh(repository)
      ensures repository.session == session && repository.allowlist == allowlist
      ensures repository.diagnosisClauses == diagnosisClauses
      ensures this.settings == settings && this.cache == cache
    {
      repository := new FileRepository(session, allowlist, diagnosisClauses);
      this.settings := settings;
      this.cache := cache;
    }

    /** `get_files(filters, offset, limit)`: the repository's list with the
        limit clamped to the configured maximum. */
    method GetFiles(filters: seq<Item>, offset: int, limit: int) returns (r: Result<seq<Record>, Fault>)
      modifies repository.session
      ensures var o := ListSpec(repository.Env(), FileProfile, filters, offset, ClampLimit(limit, settings.maxPerPage));
        r == o.result
        && repository.session.executed == old(repository.session.executed) + o.queries
    {
      var pageSize := limit;
      if pageSize > settings.maxPerPage {
        pageSize := settings.maxPerPage;
      }
      r := repository.GetFiles(filters, offset, pageSize);
    }

    /** `get_file_by_identifier(org, ns, name)` */
    method GetFileByIdentifier(org: string, ns: string, name: string) returns (r: Result<Record, Fault>)
      modifies repository.session
      ensures var l := LookupServed(repository.session.db, FileProfile, "File", org, ns, name);
        r == l.result && repository.session.executed == old(repository.session.executed) + l.queries
    {
      var invalid := ValidateIdentifierParams(org, ns, name, "File");
      if invalid.Some? {
        return Failure(Raised(invalid.value));
      }
      var file := repository.GetFileByIdentifier(org, ns, name);
      if file.Failure? {
        return Failure(file.error);
      }
      if file.value.None? {
        return Failure(Raised(LookupNotFound("File", org, ns, name)));
      }
      r := Success(file.value.value);
    }

    /** `count_files_by_field(field, filters)` */
    method CountFilesByField(field: string, filters: seq<Item>) returns (r: Result<CountResponse, Fault>)
      modifies repository.session, cache
      ensures var s := CountServed(repository.Env(), FileProfile, CountOperation, field, filters,
                                   cache != null, old(EntriesOf(cache)), settings.countTtl);
        && r == s.result
        && repository.session.executed == old(repository.session.executed) + s.queries
        && (cache != null ==> cache.entries == s.entries)
    {
      var key: Option<string> := None;
      if cache != null {
        key := Some(BuildCacheKey(CountOperation, Some(field), filters));
        var cached := cache.Get(key.value);
        if cached.Some? && Truthy(cached.value) {
          return CountFromCache(cached.value);
        }
      }
      var counts := repository.CountFilesByField(field, filters);
      if counts.Failure? {
        return Failure(counts.error);
      }
      var response := CountResponseOf(field, counts.value);
      if response.None? {
        return Failure(InvalidResponse);
      }
      if cache != null && key.Some? && key.value != "" {
        cache.Set(key.value, CountResponseToJson(response.value), Some(settings.countTtl));
      }
      r := Success(response.value);
    }

    /** `get_files_summary(filters)` */
    method GetFilesSummary(filters: seq<Item>) returns (r: Result<SummaryResponse, Fault>)
      modifies repository.session, cache
      ensures var s := SummaryServed(repository.Env(), FileProfile, SummaryOperation, filters,
                                     cache != null, old(EntriesOf(cache)), settings.summaryTtl);
        && r == s.result
        && repository.session.executed == old(repository.session.executed) + s.queries
        && (cache != null ==> cache.entries == s.entries)
    {
      var key: Option<string> := None;
      if cache != null {
        key := Some(BuildCacheKey(SummaryOperation, None, filters));
        var cached := cache.Get(key.value);
        if cached.Some? && Truthy(cached.value) {
          return SummaryFromCache(cached.value);
        }
      }
      var data := repository.GetFilesSummary(filters);
      if data.Failure? {
        return Failure(data.error);
      }
      var response := SummaryResponseFrom(data.value);
      if response.None? {
        return Failure(InvalidResponse);
      }
      if cache != null && key.Some? && key.value != "" {
        cache.Set(key.value, SummaryResponseToJson(response.value), Some(settings.summaryTtl));
      }
      r := Success(response.value);
    }
  }
}
