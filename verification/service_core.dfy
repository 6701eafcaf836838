/** What `SampleService` and `FileService` (app/services/sample.py,
    app/services/file.py) add on top of their repositories: the page size is
    clamped to the configured maximum, identifier lookups are validated and a
    missing entity becomes a not-found error, and counts and summaries are
    served cache-aside (read the cache first, otherwise ask the repository and
    store the response). The two services differ only in their entity, so
    their common behaviour is specified here once. */
module ServiceCore {
  import opened Wrappers
  import opened OrderedDict
  import opened Values
  import opened Errors
  import opened QueryModel
  import opened RepositoryCore
  import opened Responses
  import opened CacheModel
  import opened CacheKeys
  import opened Identifiers
  import Text
  import Records

  /** The settings a service reads: `pagination.max_per_page`,
      `cache.count_ttl` and `cache.summary_ttl`. */
  datatype Settings = Settings(maxPerPage: int, countTtl: int, summaryTtl: int)

  /** `if limit > max_per_page: limit = max_per_page`: the smaller of the two. */
  function ClampLimit(limit: int, maxPerPage: int): (r: int)
    ensures r <= limit && r <= maxPerPage
    ensures r == limit || r == maxPerPage
  {
    if limit > maxPerPage then maxPerPage else limit
  }

  /** The entries of an optional cache; none without one. */
  function EntriesOf(cache: Cache?): map<string, Entry>
    reads cache
  {
    if cache == null then map[] else cache.entries
  }

  /** A cached value the service uses: only with a cache, and only when what
      `get` returns is truthy (`if cached_result:`). */
  function CachedHit(caching: bool, entries: map<string, Entry>, key: string): (r: Option<Json>)
    ensures r.Some? <==> caching && key in entries && Truthy(entries[key].value)
    ensures r.Some? ==> r.value == entries[key].value
  {
    if caching && key in entries && Truthy(entries[key].value) then Some(entries[key].value) else None
  }

  /** `if self.cache_service and cache_key: set(cache_key, value, ttl=ttl)` */
  function StoreIfCaching(caching: bool, entries: map<string, Entry>, key: string, value: Json, ttl: int): (r: map<string, Entry>)
    ensures caching && key != "" ==> r == entries[key := Entry(value, EffectiveTtl(Some(ttl)))]
    ensures !(caching && key != "") ==> r == entries
  {
    if caching && key != "" then entries[key := Entry(value, EffectiveTtl(Some(ttl)))] else entries
  }

  /** The result of a service call, the caller's filters afterwards, the
      queries it ran and the cache entries afterwards. */
  datatype Served<T> = Served(result: Result<T, Fault>, filtersAfter: seq<Item>, queries: seq<Query>, entries: map<string, Entry>)

  /** `CountResponse(**cached_result)` */
  function CountFromCache(cached: Json): (r: Result<CountResponse, Fault>)
    ensures r.Failure? ==> r.error == InvalidResponse
    ensures r.Success? <==> CountResponseFrom(cached).Some?
  {
    match CountResponseFrom(cached)
    case None => Failure(InvalidResponse)
    case Some(response) => Success(response)
  }

  /** `SummaryResponse(**cached_result)`: only a dictionary can be unpacked. */
  function SummaryFromCache(cached: Json): (r: Result<SummaryResponse, Fault>)
    ensures r.Failure? ==> r.error == InvalidResponse
    ensures r.Success? <==> cached.JObject? && "total_count" in cached.fields && cached.fields["total_count"].JInt?
    ensures r.Success? ==> r.value.totalCount == cached.fields["total_count"].i
  {
    if !cached.JObject? then Failure(InvalidResponse)
    else match SummaryResponseFrom(cached.fields)
      case None => Failure(InvalidResponse)
      case Some(response) => Success(response)
  }

  /** A response stored by a service reads back from the cache as itself. */
  lemma CachedResponsesReadBack(c: CountResponse, m: SummaryResponse)
    ensures CountFromCache(CountResponseToJson(c)) == Success(c)
    ensures SummaryFromCache(SummaryResponseToJson(m)) == Success(m)
  {
    CountResponseRoundTrip(c);
  }

  /** `count_samples_by_field`, `count_files_by_field`: a query runs only
      through the repository, and the cache changes only by the successful
      response stored under the call's key. */
  function CountServed(env: Env, profile: Profile, operation: string, field: string, filters: seq<Item>,
                       caching: bool, entries: map<string, Entry>, ttl: int): (s: Served<CountResponse>)
    ensures s.queries == [] || s.queries == CountSpec(env, profile, field, filters).queries
    ensures s.entries != entries ==>
              s.result.Success? && caching
              && s.entries == entries[BuildCacheKey(operation, Some(field), filters) :=
                                      Entry(CountResponseToJson(s.result.value), EffectiveTtl(Some(ttl)))]
  {
    var key := BuildCacheKey(operation, Some(field), filters);
    var cached := CachedHit(caching, entries, key);
    if cached.Some? then Served(CountFromCache(cached.value), filters, [], entries)
    else
      var o := CountSpec(env, profile, field, filters);
      match o.result
      case Failure(fault) => Served(Failure(fault), o.filtersAfter, o.queries, entries)
      case Success(rows) =>
        match CountResponseOf(field, rows)
        case None => Served(Failure(InvalidResponse), o.filtersAfter, o.queries, entries)
        case Some(response) =>
          Served(Success(response), o.filtersAfter, o.queries,
                 StoreIfCaching(caching, entries, key, CountResponseToJson(response), ttl))
  }

  /** `get_samples_summary`, `get_files_summary`: as for counts, queries
      only through the repository and at most the one successful response
      stored. */
  function SummaryServed(env: Env, profile: Profile, operation: string, filters: seq<Item>,
                         caching: bool, entries: map<string, Entry>, ttl: int): (s: Served<SummaryResponse>)
    ensures s.queries == [] || s.queries == SummarySpec(env, profile, filters).queries
    ensures s.entries != entries ==>
              s.result.Success? && caching
              && s.entries == entries[BuildCacheKey(operation, None, filters) :=
                                      Entry(SummaryResponseToJson(s.result.value), EffectiveTtl(Some(ttl)))]
  {
    var key := BuildCacheKey(operation, None, filters);
    var cached := CachedHit(caching, entries, key);
    if cached.Some? then Served(SummaryFromCache(cached.value), filters, [], entries)
    else
      var o := SummarySpec(env, profile, filters);
      match o.result
      case Failure(fault) => Served(Failure(fault), o.filtersAfter, o.queries, entries)
      case Success(data) =>
        match SummaryResponseFrom(data)
        case None => Served(Failure(InvalidResponse), o.filtersAfter, o.queries, entries)
        case Some(response) =>
          Served(Success(response), o.filtersAfter, o.queries,
                 StoreIfCaching(caching, entries, key, SummaryResponseToJson(response), ttl))
  }

  /** A truthy cached count is served as it is: the repository is not asked,
      the filters and the cache stay as they were. */
  lemma CountHitSkipsRepository(env: Env, profile: Profile, operation: string, field: string, filters: seq<Item>,
                                entries: map<string, Entry>, ttl: int)
    requires BuildCacheKey(operation, Some(field), filters) in entries
    requires Truthy(entries[BuildCacheKey(operation, Some(field), filters)].value)
    ensures var s := CountServed(env, profile, operation, field, filters, true, entries, ttl);
      && s.queries == [] && s.filtersAfter == filters && s.entries == entries
      && s.result == CountFromCache(entries[BuildCacheKey(operation, Some(field), filters)].value)
  {
  }

  /** Without a usable cached value the count is the repository's: its
      queries and its filters, its failure passed on unchanged and with no
      cache write, and its rows validated into the response that is then
      stored under the key with the count TTL. */
  lemma CountMissAsksRepository(env: Env, profile: Profile, operation: string, field: string, filters: seq<Item>,
                                caching: bool, entries: map<string, Entry>, ttl: int)
    requires CachedHit(caching, entries, BuildCacheKey(operation, Some(field), filters)).None?
    requires operation != ""
    ensures var s := CountServed(env, profile, operation, field, filters, caching, entries, ttl);
      var o := CountSpec(env, profile, field, filters);
      && s.queries == o.queries && s.filtersAfter == o.filtersAfter
      && (o.result.Failure? ==> s.result == Failure(o.result.error) && s.entries == entries)
      && (o.result.Success? ==>
            match CountResponseOf(field, o.result.value)
            case None => s.result == Failure(InvalidResponse) && s.entries == entries
            case Some(response) =>
              && s.result == Success(response) && response.field == field
              && s.entries == (if caching
                               then entries[BuildCacheKey(operation, Some(field), filters)
                                              := Entry(CountResponseToJson(response), EffectiveTtl(Some(ttl)))]
                               else entries))
  {
    assert BuildCacheKey(operation, Some(field), filters) != "";
  }

  /** A count answered by the repository is served from the cache the next
      time: the same response, no query. */
  lemma {:induction false} CountRepeatIsCached(env: Env, profile: Profile, operation: string, field: string, filters: seq<Item>,
                                               entries: map<string, Entry>, ttl: int)
    requires operation != ""
    requires CountServed(env, profile, operation, field, filters, true, entries, ttl).result.Success?
    ensures var first := CountServed(env, profile, operation, field, filters, true, entries, ttl);
      var second := CountServed(env, profile, operation, field, filters, true, first.entries, ttl);
      second.result == first.result && second.queries == [] && second.entries == first.entries
  {
    var key := BuildCacheKey(operation, Some(field), filters);
    var first := CountServed(env, profile, operation, field, filters, true, entries, ttl);
    if CachedHit(true, entries, key).None? {
      CountMissAsksRepository(env, profile, operation, field, filters, true, entries, ttl);
      var response := first.result.value;
      assert first.entries[key].value == CountResponseToJson(response);
      StoredResponsesAreTruthy(response, SummaryResponse(0));
      CountResponseRoundTrip(response);
      assert CachedHit(true, first.entries, key) == Some(CountResponseToJson(response));
    }
  }

  /** A truthy cached summary is served as it is: the repository is not
      asked, the filters and the cache stay as they were. */
  lemma SummaryHitSkipsRepository(env: Env, profile: Profile, operation: string, filters: seq<Item>,
                                  entries: map<string, Entry>, ttl: int)
    requires BuildCacheKey(operation, None, filters) in entries
    requires Truthy(entries[BuildCacheKey(operation, None, filters)].value)
    ensures var s := SummaryServed(env, profile, operation, filters, true, entries, ttl);
      && s.queries == [] && s.filtersAfter == filters && s.entries == entries
      && s.result == SummaryFromCache(entries[BuildCacheKey(operation, None, filters)].value)
  {
  }

  /** Without a usable cached value the summary is the repository's, its
      failure passed on with no cache write, and a valid summary stored under
      the key with the summary TTL. */
  lemma SummaryMissAsksRepository(env: Env, profile: Profile, operation: string, filters: seq<Item>,
                                  caching: bool, entries: map<string, Entry>, ttl: int)
    requires CachedHit(caching, entries, BuildCacheKey(operation, None, filters)).None?
    requires operation != ""
    ensures var s := SummaryServed(env, profile, operation, filters, caching, entries, ttl);
      var o := SummarySpec(env, profile, filters);
      && s.queries == o.queries && s.filtersAfter == o.filtersAfter
      && (o.result.Failure? ==> s.result == Failure(o.result.error) && s.entries == entries)
      && (o.result.Success? ==>
            match SummaryResponseFrom(o.result.value)
            case None => s.result == Failure(InvalidResponse) && s.entries == entries
            case Some(response) =>
              && s.result == Success(response)
              && s.entries == (if caching
                               then entries[BuildCacheKey(operation, None, filters)
                                              := Entry(SummaryResponseToJson(response), EffectiveTtl(Some(ttl)))]
                               else entries))
  {
    assert BuildCacheKey(operation, None, filters) != "";
  }

  /** A summary answered by the repository is served from the cache the
      next time: the same response, no query. */
  lemma {:induction false} SummaryRepeatIsCached(env: Env, profile: Profile, operation: string, filters: seq<Item>,
                                                 entries: map<string, Entry>, ttl: int)
    requires operation != ""
    requires SummaryServed(env, profile, operation, filters, true, entries, ttl).result.Success?
    ensures var first := SummaryServed(env, profile, operation, filters, true, entries, ttl);
      var second := SummaryServed(env, profile, operation, filters, true, first.entries, ttl);
      second.result == first.result && second.queries == [] && second.entries == first.entries
  {
    var key := BuildCacheKey(operation, None, filters);
    var first := SummaryServed(env, profile, operation, filters, true, entries, ttl);
    if CachedHit(true, entries, key).None? {
      SummaryMissAsksRepository(env, profile, operation, filters, true, entries, ttl);
      var response := first.result.value;
      assert first.entries[key].value == SummaryResponseToJson(response);
      StoredResponsesAreTruthy(CountResponse("", []), response);
      SummaryResponseRoundTrip(response);
      assert CachedHit(true, first.entries, key) == Some(SummaryResponseToJson(response));
    }
  }

  /** A summary writes at most its own key: every other key reads as before. */
  lemma SummaryWritesOnlyItsKey(env: Env, profile: Profile, operation: string, filters: seq<Item>,
                                caching: bool, entries: map<string, Entry>, ttl: int, other: string)
    requires other != BuildCacheKey(operation, None, filters)
    ensures Lookup(SummaryServed(env, profile, operation, filters, caching, entries, ttl).entries, other) == Lookup(entries, other)
  {
    var key := BuildCacheKey(operation, None, filters);
    var s := SummaryServed(env, profile, operation, filters, caching, entries, ttl);
    if CachedHit(caching, entries, key).None? {
      var o := SummarySpec(env, profile, filters);
      if o.result.Success? {
        var response := SummaryResponseFrom(o.result.value);
        if response.Some? {
          assert s.entries == StoreIfCaching(caching, entries, key, SummaryResponseToJson(response.value), ttl);
        }
      }
    }
  }

  /** A count writes at most its own key: every other key reads as before. */
  lemma CountWritesOnlyItsKey(env: Env, profile: Profile, operation: string, field: string, filters: seq<Item>,
                              caching: bool, entries: map<string, Entry>, ttl: int, other: string)
    requires other != BuildCacheKey(operation, Some(field), filters)
    ensures Lookup(CountServed(env, profile, operation, field, filters, caching, entries, ttl).entries, other) == Lookup(entries, other)
  {
    var key := BuildCacheKey(operation, Some(field), filters);
    var s := CountServed(env, profile, operation, field, filters, caching, entries, ttl);
    if CachedHit(caching, entries, key).None? {
      var o := CountSpec(env, profile, field, filters);
      if o.result.Success? {
        var response := CountResponseOf(field, o.result.value);
        if response.Some? {
          assert s.entries == StoreIfCaching(caching, entries, key, CountResponseToJson(response.value), ttl);
        }
      }
    }
  }

  /** Storing a summary never touches the entry a count of the other
      operation reads, whatever the fields and filters. */
  lemma SummaryKeepsCountEntries(env: Env, profile: Profile, countOperation: string, summaryOperation: string,
                                 field: string, countFilters: seq<Item>, filters: seq<Item>,
                                 caching: bool, entries: map<string, Entry>, ttl: int)
    requires ':' !in countOperation && ':' !in summaryOperation && countOperation != summaryOperation
    ensures var s := SummaryServed(env, profile, summaryOperation, filters, caching, entries, ttl);
      var countKey := BuildCacheKey(countOperation, Some(field), countFilters);
      Lookup(s.entries, countKey) == Lookup(entries, countKey)
  {
    OperationsNeverShareKeys(countOperation, Some(field), countFilters, summaryOperation, None, filters);
    SummaryWritesOnlyItsKey(env, profile, summaryOperation, filters, caching, entries, ttl,
                            BuildCacheKey(countOperation, Some(field), countFilters));
  }

  /** Storing a count never touches the entry a summary of the other
      operation reads. */
  lemma CountKeepsSummaryEntries(env: Env, profile: Profile, countOperation: string, summaryOperation: string,
                                 field: string, filters: seq<Item>, summaryFilters: seq<Item>,
                                 caching: bool, entries: map<string, Entry>, ttl: int)
    requires ':' !in countOperation && ':' !in summaryOperation && countOperation != summaryOperation
    ensures var s := CountServed(env, profile, countOperation, field, filters, caching, entries, ttl);
      var summaryKey := BuildCacheKey(summaryOperation, None, summaryFilters);
      Lookup(s.entries, summaryKey) == Lookup(entries, summaryKey)
  {
    OperationsNeverShareKeys(countOperation, Some(field), filters, summaryOperation, None, summaryFilters);
    CountWritesOnlyItsKey(env, profile, countOperation, field, filters, caching, entries, ttl,
                          BuildCacheKey(summaryOperation, None, summaryFilters));
  }

  /** The rows of a count make a valid response exactly when every row's
      `value` is a string and its `count` is an integer or missing (a missing
      count reads as 0). */
  lemma CountRowsValid(field: string, rows: seq<Record>)
    ensures CountResponseOf(field, CountRows(rows)).Some? <==>
              forall i :: 0 <= i < |rows| ==>
                "value" in rows[i] && rows[i]["value"].JStr?
                && ("count" in rows[i] ==> rows[i]["count"].JInt?)
  {
    var counted := CountRows(rows);
    assert |counted| == |rows|;
    forall i | 0 <= i < |rows|
      ensures CountResultFrom(JObject(counted[i])).Some? <==>
                "value" in rows[i] && rows[i]["value"].JStr? && ("count" in rows[i] ==> rows[i]["count"].JInt?)
    {
      assert counted[i] == Records.CountRow(rows[i]);
    }
  }

  /** The result of a lookup and the queries it ran. */
  datatype Looked = Looked(result: Result<Record, Fault>, queries: seq<Query>)

  /** The not-found error the lookup raises as written: the whole sentence is
      passed as the entity, so the default message appends " not found.". */
  function LookupNotFoundAsWritten(entityLabel: string, org: string, ns: string, name: string): (e: CCDIException)
    ensures e.kind == NotFound && e.statusCode == 404
    ensures e.entity == Some(entityLabel + " not found: " + org + "." + ns + "." + name)
    ensures e.message == entityLabel + " not found: " + org + "." + ns + "." + name + " not found."
  {
    assert entityLabel + " not found: " + Identifier(org, ns, name)
        == entityLabel + " not found: " + org + "." + ns + "." + name;
    NotFoundError(entityLabel + " not found: " + Identifier(org, ns, name), None)
  }

  /** The not-found error the lookup evidently means: the entity is the
      entity type and the message names the identifier. */
  function LookupNotFound(entityLabel: string, org: string, ns: string, name: string): (e: CCDIException)
    ensures e.kind == NotFound && e.statusCode == 404
    ensures e.entity == Some(entityLabel)
    ensures e.message == entityLabel + " not found: " + org + "." + ns + "." + name
  {
    NotFoundError(entityLabel, Some(entityLabel + " not found: " + Identifier(org, ns, name)))
  }

  /** As written, a missing sample `o.n.x` is reported with the sentence as
      its entity and the message "Sample not found: o.n.x not found.". */
  lemma NotFoundAsWrittenMisreports()
    ensures LookupNotFoundAsWritten("Sample", "o", "n", "x").entity == Some("Sample not found: o.n.x")
    ensures LookupNotFoundAsWritten("Sample", "o", "n", "x").message == "Sample not found: o.n.x not found."
    ensures LookupNotFoundAsWritten("Sample", "o", "n", "x").entity != LookupNotFound("Sample", "o", "n", "x").entity
  {
    assert Identifier("o", "n", "x") == "o.n.x";
    assert "Sample" + " not found: " + "o.n.x" == "Sample not found: o.n.x";
    assert "Sample not found: o.n.x" + " not found." == "Sample not found: o.n.x not found.";
    assert MessageMissing(None);
  }

  /** `get_sample_by_identifier`, `get_file_by_identifier`: validate the
      parameters, look the entity up, and report a missing one. */
  function LookupServed(db: Database, profile: Profile, entityLabel: string, org: string, ns: string, name: string): (l: Looked)
    ensures ValidateIdentifierParams(org, ns, name, entityLabel).Some? ==>
              l == Looked(Failure(Raised(ValidateIdentifierParams(org, ns, name, entityLabel).value)), [])
    ensures ValidateIdentifierParams(org, ns, name, entityLabel).None? ==>
              l.queries == [LookupQueryFor(profile.entity, org, ns, name)]
    ensures l.result.Success? <==>
              ValidateIdentifierParams(org, ns, name, entityLabel).None?
              && LookupSpec(db, profile, org, ns, name).Success?
              && LookupSpec(db, profile, org, ns, name).value.Some?
    ensures l.result.Success? ==> l.result.value == LookupSpec(db, profile, org, ns, name).value.value
    ensures ValidateIdentifierParams(org, ns, name, entityLabel).None? && LookupSpec(db, profile, org, ns, name) == Success(None) ==>
              l.result == Failure(Raised(LookupNotFound(entityLabel, org, ns, name)))
  {
    match ValidateIdentifierParams(org, ns, name, entityLabel)
    case Some(invalid) => Looked(Failure(Raised(invalid)), [])
    case None =>
      var queries := [LookupQueryFor(profile.entity, org, ns, name)];
      match LookupSpec(db, profile, org, ns, name)
      case Failure(fault) => Looked(Failure(fault), queries)
      case Success(None) => Looked(Failure(Raised(LookupNotFound(entityLabel, org, ns, name))), queries)
      case Success(Some(entity)) => Looked(Success(entity), queries)
  }

  /** A lookup that returns an entity searched for a well-formed identifier,
      and that identifier names exactly the organization, namespace and name
      asked for. */
  lemma FoundIdentifierIsWellFormed(db: Database, profile: Profile, entityLabel: string, org: string, ns: string, name: string)
    requires LookupServed(db, profile, entityLabel, org, ns, name).result.Success?
    ensures LookupServed(db, profile, entityLabel, org, ns, name).queries == [LookupQueryFor(profile.entity, org, ns, name)]
    ensures Text.Split(Identifier(org, ns, name), '.') == [org, ns, name]
  {
    AcceptedIdentifierSplitsBack(org, ns, name, entityLabel);
  }

  /** The list a service asks for never exceeds the configured page size. */
  lemma ListLimitBounded(env: Env, profile: Profile, filters: seq<Item>, offset: int, limit: int, maxPerPage: int)
    requires ListSpec(env, profile, filters, offset, ClampLimit(limit, maxPerPage)).queries != []
    ensures var q := ListSpec(env, profile, filters, offset, ClampLimit(limit, maxPerPage)).queries[0];
      q.ListQuery? && q.limit <= maxPerPage && q.limit <= limit && q.offset == offset
  {
  }
}
