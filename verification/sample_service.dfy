/** `SampleService` (app/services/sample.py): the sample repository behind a
    page-size clamp, identifier validation, a not-found error and a
    cache-aside count and summary. */
module SampleService {
  import opened Wrappers
  import opened OrderedDict
  import opened Values
  import opened Errors
  import opened QueryModel
  import opened RepositoryCore
  import opened Responses
  import opened CacheModel
  import opened CacheKeys
  import opened Identifiers
  import opened ServiceCore
  import opened SampleRepository

  const CountOperation: string := "sample_count"
  const SummaryOperation: string := "sample_summary"

  class SampleService {
    const repository: SampleRepository
    const settings: Settings
    const cache: Cache?

    /** The service builds its own repository on the session and allowlist. */
    constructor (session: Session, allowlist: Allowlist, diagnosisClauses: DiagnosisClauses,
                 settings: Settings, cache: Cache?)
      ensures fresh(repository)
      ensures repository.session == session && repository.allowlist == allowlist
      ensures repository.diagnosisClauses == diagnosisClauses
      ensures this.settings == settings && this.cache == cache
    {
      repository := new SampleRepository(session, allowlist, diagnosisClauses);
      this.settings := settings;
      this.cache := cache;
    }

    /** `get_samples(filters, offset, limit)`: the repository's list with the
        limit clamped to the configured maximum. */
    method GetSamples(filters: StringDict, offset: int, limit: int) returns (r: Result<seq<Record>, Fault>)
      requires filters.Valid()
      modifies filters, repository.session
      ensures filters.Valid()
      ensures var o := ListSpec(repository.Env(), SampleProfile, old(filters.items), offset, ClampLimit(limit, settings.maxPerPage));
        r == o.result && filters.items == o.filtersAfter
        && repository.session.executed == old(repository.session.executed) + o.queries
    {
      var pageSize := limit;
      if pageSize > settings.maxPerPage {
        pageSize := settings.maxPerPage;
      }
      r := repository.GetSamples(filters, offset, pageSize);
    }

    /** `get_sample_by_identifier(org, ns, name)` */
    method GetSampleByIdentifier(org: string, ns: string, name: string) returns (r: Result<Record, Fault>)
      modifies repository.session
      ensures var l := LookupServed(repository.session.db, SampleProfile, "Sample", org, ns, name);
        r == l.result && repository.session.executed == old(repository.session.executed) + l.queries
    {
      var invalid := ValidateIdentifierParams(org, ns, name, "Sample");
      if invalid.Some? {
        return Failure(Raised(invalid.value));
      }
      var sample := repository.GetSampleByIdentifier(org, ns, name);
      if sample.Failure? {
        return Failure(sample.error);
      }
      if sample.value.None? {
        return Failure(Raised(LookupNotFound("Sample", org, ns, name)));
      }
      r := Success(sample.value.value);
    }

    /** `count_samples_by_field(field, filters)` */
    method CountSamplesByField(field: string, filters: StringDict) returns (r: Result<CountResponse, Fault>)
      requires filters.Valid()
      modifies filters, repository.session, cache
      ensures filters.Valid()
      ensures var s := CountServed(repository.Env(), SampleProfile, CountOperation, field, old(filters.items),
                                   cache != null, old(EntriesOf(cache)), settings.countTtl);
        && r == s.result && filters.items == s.filtersAfter
        && repository.session.executed == old(repository.session.executed) + s.queries
        && (cache != null ==> cache.entries == s.entries)
    {
      var key: Option<string> := None;
      if cache != null {
        key := Some(BuildCacheKey(CountOperation, Some(field), filters.items));
        var cached := cache.Get(key.value);
        if cached.Some? && Truthy(cached.value) {
          return CountFromCache(cached.value);
        }
      }
      var counts := repository.CountSamplesByField(field, filters);
      if counts.Failure? {
        return Failure(counts.error);
      }
      var response := CountResponseOf(field, counts.value);
      if response.None? {
        return Failure(InvalidResponse);
      }
      if cache != null && key.Some? && key.value != "" {
        cache.Set(key.value, CountResponseToJson(response.value), Some(settings.countTtl));
      }
      r := Success(response.value);
    }

    /** `get_samples_summary(filters)` */
    method GetSamplesSummary(filters: StringDict) returns (r: Result<SummaryResponse, Fault>)
      requires filters.Valid()
      modifies filters, repository.session, cache
      ensures filters.Valid()
      ensures var s := SummaryServed(repository.Env(), SampleProfile, SummaryOperation, old(filters.items),
                                     cache != null, old(EntriesOf(cache)), settings.summaryTtl);
        && r == s.result && filters.items == s.filtersAfter
        && repository.session.executed == old(repository.session.executed) + s.queries
        && (cache != null ==> cache.entries == s.entries)
    {
      var key: Option<string> := None;
      if cache != null {
        key := Some(BuildCacheKey(SummaryOperation, None, filters.items));
        var cached := cache.Get(key.value);
        if cached.Some? && Truthy(cached.value) {
          return SummaryFromCache(cached.value);
        }
      }
      var data := repository.GetSamplesSummary(filters);
      if data.Failure? {
        return Failure(data.error);
      }
      var response := SummaryResponseFrom(data.value);
      if response.None? {
        return Failure(InvalidResponse);
      }
      if cache != null && key.Some? && key.value != "" {
        cache.Set(key.value, SummaryResponseToJson(response.value), Some(settings.summaryTtl));
      }
      r := Success(response.value);
    }
  }
}
