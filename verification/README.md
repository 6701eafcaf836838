# CCDI federation metadata service — a Dafny model of its core

The service answers federated metadata queries about subjects, samples and
files. Its core, modelled here, is:

- **Request dependencies** (`app/api/v1/deps.py`): they check pagination
  parameters and build filter dictionaries from named query parameters and
  `metadata.unharmonized.*` parameters. The diagnosis variants also put the
  search term under the reserved key `_diagnosis_search`.
- **Pagination** (`app/core/pagination.py`): page and offset arithmetic,
  the pagination summary, and the RFC 5988 `Link` header with
  `first`/`last`/`prev`/`next` links.
- **Repositories** (`app/repositories/{subject,sample,file}.py`). Each one:
  - validates filter keys against the field allowlist;
  - pops the diagnosis search from the caller's dictionary;
  - drives the query builder and runs the query on the session;
  - converts the rows into entities, counts or a summary.
- **Services** (`app/services/{sample,file}.py`). Each one:
  - clamps the page size;
  - validates `org`/`ns`/`name` and turns a missing entity into a not-found
    error;
  - serves counts and summaries cache-aside, with order-independent cache
    keys.
- **The error taxonomy** (`app/models/errors.py`): kinds, statuses, messages
  and the error detail sent to clients.

Python values become Dafny values:

- A Python `dict` of strings becomes an ordered sequence of pairs with
  distinct keys (`OrderedDict`). A dictionary that a callee mutates is a
  `StringDict` object.
- Dynamic values are `Values.Json`.
- The database, the field allowlist and the diagnosis-clause builder are
  functions the model takes as parameters.
- The query builder and the session are objects that record what they were
  asked to do.
- A raised exception is a `Failure` carrying an `Errors.Fault`.

The three repositories share one specification (`RepositoryCore`), and the
two services share another (`ServiceCore`). Each per-entity class method is
proved against its shared specification.

## Model

| member | source | states |
|---|---|---|
| OrderedDict.SetKeys | app/core/pagination.py:93 | assigning a key keeps the key order and appends a new key at the end |
| OrderedDict.SetGet | app/core/pagination.py:93 | after `d[k] = v`, `k` reads `v` and every other key reads as before |
| OrderedDict.RemoveKeys | app/core/pagination.py:96 | `pop` leaves exactly the other keys |
| OrderedDict.RemoveGet | app/core/pagination.py:96 | after `pop(k)`, `k` is absent and every other key reads as before |
| OrderedDict.UpdateGet | app/core/pagination.py:92-93 | after `update(extra)`, a key of `extra` reads its value there and any other key reads as before |
| OrderedDict.StringDict.Put | app/core/pagination.py:93 | `d[k] = v` on the dictionary object, keeping keys unique |
| OrderedDict.StringDict.Pop | app/core/pagination.py:96 | `d.pop(k, None)` returns the old value of `k` and removes exactly that key |
| OrderedDict.StringDict.UpdateFrom | app/core/pagination.py:92-93 | the assignment loop performs `d.update(extra)`, keeping keys unique |
| Pagination.PaginationParams.Offset | app/core/pagination.py:36-39 | the offset of a valid request is never negative, and adding one page size gives the end of the page |
| Pagination.PaginationParams.Limit | app/core/pagination.py:41-44 | the page's records end exactly where the next page's offset begins |
| Pagination.PagesTile | app/core/pagination.py:36-44 | the offset of a valid page is non-negative and its limit is the page size; the next page starts exactly where this one ends |
| Pagination.RecordPage | app/core/pagination.py:36-44 | record `i` lies on page `i / per_page + 1` and on no other page |
| Pagination.FloorDiv | app/core/pagination.py:62 | Python's `//`: the floor of the quotient, for a divisor of either sign |
| Pagination.TotalPages | app/core/pagination.py:62 | the number of pages is the ceiling of items over page size: `(n-1)*pp < total <= n*pp` |
| Pagination.CalculatePaginationInfo | app/core/pagination.py:58-69 | page and page size are copied; total pages and total items stay unset; `has_prev` iff page > 1; `has_next` iff `page*per_page < total_items` |
| Pagination.ParsePaginationParams | app/core/pagination.py:125-160 | a missing page is 1 and a missing size is the default; accepted iff page >= 1 and 1 <= size <= maximum; each rejection carries its own message, checked in source order |
| Pagination.QueryDict | app/core/pagination.py:89 | `dict(request.query_params)` has pairwise different keys |
| Pagination.RenderLinksAppend | app/core/pagination.py:98-122 | rendering one more link appends exactly its rendered text |
| Pagination.BuildLinkHeader | app/core/pagination.py:72-122 | the header joins with `", "` the rendered links for the request's parameters (extra parameters merged in, `page` dropped) |
| Pagination.LinkRelations | app/core/pagination.py:98-120 | `first` and `last` are always present and come first; `prev` is present iff `has_prev`; `next` iff `has_next` |
| Pagination.LinkParameters | app/core/pagination.py:88-120 | each link's `page` is its relation's target and `per_page` the page size; any other key holds the extra value if given, else the request's value |
| Pagination.SharedParameters | app/core/pagination.py:89-96 | the dictionary steps give the request's parameters updated by the extra ones, without `page` |
| Pagination.RenderedLinks | app/core/pagination.py:98-120 | the rendered links are first and last, then prev and next exactly when the pagination has them |
| Pagination.AddOptionalLink | app/core/pagination.py:110-120 | an optional link is rendered and appended only when its flag is true |
| Pagination.LinkAtIndex | app/core/pagination.py:100-118 | every link's parameters are the shared ones with its own target page and the page size |
| Pagination.WithPageGet | app/core/pagination.py:100 | `{**query_params, 'page': …, 'per_page': …}` overwrites those two keys and keeps every other value |
| Pagination.SharedGet | app/core/pagination.py:89-96 | the shared parameters never hold `page`; other keys take the extra value when given, else the request's |
| Pagination.LinkQueryReadsBack | app/core/pagination.py:102 | a link's encoded query splits at `&` into exactly its encoded pairs |
| Pagination.LastLinkPointsAtNone | app/core/pagination.py:106 | as written, the `last` link of a computed summary carries `page=None` |
| Pagination.IntToStringIsNotNone | app/core/pagination.py:101-118 | no rendered page number reads `None` |
| Pagination.NumberedTarget | app/core/pagination.py:101-118 | with total pages known, every relation targets a numbered page |
| Pagination.IntendedLinksAreNumbered | app/core/pagination.py:106-108 | with `last` computed from the total, no link carries `page=None` and `last` names the last page |
| UrlEncoding.HexDigit | app/core/pagination.py:102 | a hex digit of a percent escape is an unreserved character |
| UrlEncoding.Utf8 | app/core/pagination.py:102 | UTF-8 encodes a character as 1 to 4 bytes, each below 256 |
| UrlEncoding.EncodedPairs | app/core/pagination.py:102 | one `key=value` text per parameter, in order |
| UrlEncoding.PercentEncodeAlphabet | app/core/pagination.py:102 | percent escapes use only `%` and hex digits |
| UrlEncoding.QuotePlus | app/core/pagination.py:102 | `quote_plus` writes at least one character per input character, using only letters, digits, `_.-~`, `+` and `%`, so never `&` or `=` |
| UrlEncoding.EncodedPairSplits | app/core/pagination.py:102 | an encoded pair holds no `&`; it splits at `=` into the quoted key and the quoted value |
| UrlEncoding.UrlEncode | app/core/pagination.py:102 | a non-empty `urlencode` output splits at `&` into one encoded pair per parameter, in order |
| UrlEncoding.UrlEncodeSplits | app/core/pagination.py:102 | `urlencode` output splits at `&` into the encoded pairs, and each pair back into its quoted key and value |
| Errors.NewCCDIException | app/models/errors.py:41-59 | every argument is kept; a missing parameter list is stored as `[]` |
| Errors.ToErrorDetail | app/models/errors.py:61-70 | the detail copies kind name, message, field, entity and reason; the parameters are present iff non-empty |
| Errors.DetailParameters | app/models/errors.py:56-66 | a parameter list survives into the detail, except that an empty list becomes none |
| Errors.InvalidParametersError | app/models/errors.py:80-99 | status 422; the given message wins; otherwise the message names the quoted parameters (plural past one) and the reason |
| Errors.UnsupportedFieldError | app/models/errors.py:102-120 | status 422, the field, the reason "not present for <entity>s." and a message built on that reason |
| Errors.ValidationError | app/models/errors.py:123-131 | an invalid-parameters error with status 422 and the given message, and nothing else set |
| Errors.NotFoundError | app/models/errors.py:134-150 | status 404 with the entity; an empty or missing message defaults to "<entity> not found." |
| Errors.UnshareableDataError | app/models/errors.py:153-169 | status 404, the entity and reason, and a message naming the entity in lower case |
| Errors.InternalServerError | app/models/errors.py:172-185 | status 500 with the given message and reason |
| Errors.PaginationErrorParameters | app/models/errors.py:190-201 | names `page` when it is below 1 and `per_page` when it is; names both when neither is below 1 |
| Errors.CreatePaginationError | app/models/errors.py:190-201 | the conditional appends give that parameter list and the offset reason |
| Errors.CreateEntityNotFoundError | app/models/errors.py:209-221 | names namespace and name when org, namespace and name are all non-empty, else the plural entity type; message "<entity> not found." |
| Errors.CreateUnshareableDataError | app/models/errors.py:224-226 | the plural entity type with the default reason |
| QueryModel.QueryBuilder.constructor | app/repositories/sample.py:59 | a new builder has received no calls |
| QueryModel.QueryBuilder.AddWhere | app/repositories/sample.py:65-66 | the clause is recorded after all earlier calls |
| QueryModel.QueryBuilder.AddFilter | app/repositories/sample.py:69-70 | the filter is recorded after all earlier calls |
| QueryModel.Session.Run | app/repositories/sample.py:82-83 | the query is logged after the earlier ones, and its rows are the database's rows for it |
| Records.WrapString | app/repositories/sample.py:313-321 | a string becomes a one-element list; anything else is kept; the result is never a string |
| Records.NormaliseFields | app/repositories/sample.py:303-343 | the entity has exactly the shape's keys: list fields wrapped, defaulted fields defaulted, plain fields read with `get` |
| Records.RecordToEntity | app/repositories/sample.py:303-343 | the entity has exactly its type's fields, whatever else the node holds |
| Records.NormaliseIdempotent | app/repositories/sample.py:303-343 | converting an entity again changes nothing |
| Records.SubjectNormalisation | app/repositories/subject.py:279-305 | a subject's keys and values, including the `identifiers` and `depositions` list defaults |
| Records.SampleFields | app/repositories/sample.py:324-343 | a sample has exactly the fields the constructor call lists |
| Records.SampleNormalisation | app/repositories/sample.py:303-343 | a sample's list fields are wrapped; `depositions` defaults to `[]` and `metadata` to `{}` |
| Records.FileNormalisation | app/repositories/file.py:282-307 | a file's keys and values with their defaults |
| Records.NodeOf | app/repositories/sample.py:88 | `record.get(alias, {})`: an empty node when absent, the map when present, nothing usable otherwise |
| Records.EntitiesOf | app/repositories/sample.py:85-89 | succeeds iff every row holds a usable node; then one entity per row, in order |
| Records.CountRow | app/repositories/sample.py:216-221 | a count row has exactly `value` (or null) and `count` (0 when missing) |
| Records.SummaryOf | app/repositories/sample.py:276-282 | the first row, or a zero total when there are no rows |
| RepositoryCore.FirstRefused | app/repositories/sample.py:295-301 | the first key neither reserved (leading `_`) nor allowed; none iff every key passes |
| RepositoryCore.ValidateFilters | app/repositories/sample.py:284-301 | the loop reports exactly the first refused key; when none is reported, every key is reserved or allowed |
| RepositoryCore.WhereCalls | app/repositories/sample.py:64-66 | one `add_where` per diagnosis clause, in order |
| RepositoryCore.FilterCalls | app/repositories/sample.py:69-70 | one `add_filter` per filter, in order, with its value |
| RepositoryCore.AddDiagnosisSearch | app/repositories/sample.py:61-66 | exactly the reserved key is popped from the caller's dict, and the builder receives that term's clauses |
| RepositoryCore.AddFilters | app/repositories/sample.py:68-70 | the builder receives one filter per entry, in order |
| RepositoryCore.MapEntities | app/repositories/sample.py:85-89 | the row loop computes exactly the all-or-nothing entity conversion |
| RepositoryCore.AddSearchAndFilters | app/repositories/sample.py:61-70 | the search term is popped and its clauses added, then one filter call per remaining entry, in order |
| RepositoryCore.MapCountRows | app/repositories/sample.py:215-221 | the row loop yields one count row per record, in order |
| RepositoryCore.ListSpec | app/repositories/sample.py:28-97 | a refused filter fails before any query; otherwise one list query with the planned calls, offset and limit, the reserved key popped and the rows converted |
| RepositoryCore.CountSpec | app/repositories/sample.py:157-229 | the group field is checked first, then the filters; otherwise one count query, and a count row per record |
| RepositoryCore.SummarySpec | app/repositories/sample.py:231-282 | a refused filter fails before any query; otherwise one summary query whose first row, or a zero total, is returned |
| RepositoryCore.FiltersAfterShape | app/repositories/sample.py:62-63 | after the call the caller's dict has lost exactly the reserved key and keeps unique keys; the file repository leaves it unchanged |
| RepositoryCore.PlannedCallsOrder | app/repositories/sample.py:61-70 | the diagnosis clauses come first, only when a term is present; then one filter call per remaining entry |
| RepositoryCore.BuilderSeesOnlyAllowedFields | app/repositories/sample.py:55-70 | once validation passes, every field given to `add_filter` is reserved or allowed |
| RepositoryCore.Identifier | app/repositories/sample.py:132 | `f"{org}.{ns}.{name}"`; when no part holds a `.`, it splits at `.` back into the three parts |
| RepositoryCore.LookupQueryFor | app/repositories/sample.py:131-133 | a lookup query for the entity whose only parameter, `identifier`, is `org.ns.name` |
| RepositoryCore.LookupSpec | app/repositories/sample.py:140-151 | nothing exactly when there are no rows; a non-dictionary node is a fault; otherwise the first row's entity |
| RepositoryCore.LookupShape | app/repositories/sample.py:131-151 | the lookup's one parameter is `org.ns.name`; no rows give nothing |
| SubjectRepository.SubjectRepository.constructor | app/repositories/subject.py:23-26 | keeps the session and the allowlist |
| SubjectRepository.SubjectRepository.GetSubjects | app/repositories/subject.py:28-91 | result, the caller's dict afterwards and the queries run are the shared list specification's for subjects |
| SubjectRepository.SubjectRepository.GetSubjectByIdentifier | app/repositories/subject.py:93-143 | runs exactly the identifier lookup; returns nothing, the subject of the first row, or a malformed-row fault |
| SubjectRepository.SubjectRepository.CountSubjectsByField | app/repositories/subject.py:145-211 | the shared count specification for subjects |
| SubjectRepository.SubjectRepository.GetSubjectsSummary | app/repositories/subject.py:213-258 | the shared summary specification for subjects |
| SampleRepository.SampleRepository.constructor | app/repositories/sample.py:23-26 | keeps the session and the allowlist |
| SampleRepository.SampleRepository.GetSamples | app/repositories/sample.py:28-97 | the shared list specification for samples |
| SampleRepository.SampleRepository.GetSampleByIdentifier | app/repositories/sample.py:99-155 | runs exactly the identifier lookup; returns nothing, the sample of the first row, or a malformed-row fault |
| SampleRepository.SampleRepository.CountSamplesByField | app/repositories/sample.py:157-229 | the shared count specification for samples |
| SampleRepository.SampleRepository.GetSamplesSummary | app/repositories/sample.py:231-282 | the shared summary specification for samples |
| FileRepository.FileRepository.constructor | app/repositories/file.py:23-26 | keeps the session and the allowlist |
| FileRepository.FileRepository.GetFiles | app/repositories/file.py:28-90 | the shared list specification for files, without diagnosis handling |
| FileRepository.FileRepository.GetFileByIdentifier | app/repositories/file.py:92-148 | runs exactly the identifier lookup; returns nothing, the file of the first row, or a malformed-row fault |
| FileRepository.FileRepository.CountFilesByField | app/repositories/file.py:150-215 | the shared count specification for files |
| FileRepository.FileRepository.GetFilesSummary | app/repositories/file.py:217-261 | the shared summary specification for files |
| Identifiers.ValidateIdentifierParams | app/services/sample.py:229-253 | accepted iff org, ns and name are all non-blank and free of `.`, `/`, `\` and space; otherwise the first failing check's exact message, in source order |
| Identifiers.AcceptedIdentifierSplitsBack | app/services/sample.py:250-253 | an accepted triple is non-empty, and `org.ns.name` splits at `.` back into exactly that triple |
| Responses.CountResultFrom | app/models/dto.py:385-388 | valid iff `value` is a string and `count` an integer; then it holds exactly those |
| Responses.CountResultsFrom | app/models/dto.py:391-394 | a list is valid iff every element is; the results are elementwise |
| Responses.CountResponseFrom | app/services/sample.py:157 | `CountResponse(**d)` succeeds iff `field` is a string and `counts` a list of valid results; the field is kept and the results are elementwise |
| Responses.AsObjects | app/models/dto.py:391-394 | each row becomes a dictionary value, in order |
| Responses.CountResponseOf | app/services/sample.py:163-166 | the response carries the field and one result per row; it is valid iff every row is |
| Responses.SummaryResponseFrom | app/models/dto.py:397-399 | valid iff `total_count` is an integer; it holds that total |
| Responses.CountResponseRoundTrip | app/services/sample.py:154-174 | a stored count response reads back from the cache as the same response |
| Responses.SummaryResponseRoundTrip | app/services/sample.py:203-220 | a stored summary response reads back from the cache as the same response |
| Responses.StoredResponsesAreTruthy | app/services/sample.py:155 | every stored response is truthy, so it is served from the cache |
| CacheModel.EffectiveTtl | app/core/cache.py:67-70 | a TTL is applied iff it is given and non-zero |
| CacheModel.Lookup | app/core/cache.py:36-46 | a key reads back its stored value and nothing when absent |
| CacheModel.Cache.constructor | app/core/cache.py:22-24 | a new cache is empty |
| CacheModel.Cache.Get | app/core/cache.py:26-46 | `get` returns what the entries hold for the key |
| CacheModel.Cache.Set | app/core/cache.py:48-76 | `set` stores the value under the key with the effective TTL and changes nothing else |
| CacheModel.SetThenGet | app/core/cache.py:26-76 | after `set` the key reads the value back, and every other key reads as before |
| CacheKeys.StrLeTotal | app/services/sample.py:273 | Python's string order is total |
| CacheKeys.StrLeAntisymmetric | app/services/sample.py:273 | Python's string order is antisymmetric |
| CacheKeys.StrLeTransitive | app/services/sample.py:273 | Python's string order is transitive |
| CacheKeys.InsertSorted | app/services/sample.py:273 | insertion keeps a sorted list sorted and adds the element |
| CacheKeys.SortItems | app/services/sample.py:273 | `sorted(filters.items())` is sorted and a permutation of its input |
| CacheKeys.SortedUnique | app/services/sample.py:273 | two sorted permutations of the same items are equal |
| CacheKeys.BuildCacheKey | app/services/sample.py:255-279 | the key starts with the operation and `:` and ends with the sorted filter string |
| CacheKeys.CacheKeyOrderIndependent | app/services/sample.py:272-274 | filters that differ only in order give the same key |
| CacheKeys.CacheKeyFormat | app/services/sample.py:276-279 | `op:field:filters` with a non-empty field, else `op:filters`; no filters give an empty filter part |
| CacheKeys.CacheKeyOperation | app/services/sample.py:276-279 | the text before the key's first `:` is the operation |
| CacheKeys.OperationsNeverShareKeys | app/services/sample.py:255-279 | keys of different operations never coincide |
| CacheKeys.KeyCollision | app/services/sample.py:274 | a single filter whose value contains `\|` and `:` gets the same key as two filters |
| ServiceCore.ClampLimit | app/services/sample.py:62-64 | the page size used is the smaller of the requested and the maximum |
| ServiceCore.CachedHit | app/services/sample.py:152-155 | a cached value is used iff a cache exists and the value under the key is truthy |
| ServiceCore.StoreIfCaching | app/services/sample.py:169-174 | with a cache and a key, the response is stored with the given TTL; otherwise nothing changes |
| ServiceCore.CountFromCache | app/services/sample.py:157 | an unpacked cached count validates as `CountResponse(**d)` does, and is an invalid-response fault otherwise |
| ServiceCore.SummaryFromCache | app/services/sample.py:206 | an unpacked cached summary succeeds iff it is a dictionary with an integer `total_count`, which it keeps |
| ServiceCore.CachedResponsesReadBack | app/services/sample.py:168-173 | a response the service stored reads back from the cache as the same response |
| ServiceCore.CountServed | app/services/sample.py:150-182 | any query is the repository's, and the cache changes only by storing the successful response under the call's key, with a cache configured |
| ServiceCore.SummaryServed | app/services/sample.py:199-227 | any query is the repository's, and the cache changes only by storing the successful summary under the call's key |
| ServiceCore.CountHitSkipsRepository | app/services/sample.py:150-157 | a truthy cached count is served without a query; filters and cache stay unchanged |
| ServiceCore.CountMissAsksRepository | app/services/sample.py:159-174 | on a miss, queries and filters are the repository's. A failure or an invalid response leaves the cache alone; otherwise the response is stored under the key with the count TTL |
| ServiceCore.CountRepeatIsCached | app/services/sample.py:129-182 | after a successful count, the same call returns the same response with no query |
| ServiceCore.SummaryHitSkipsRepository | app/services/sample.py:199-206 | a truthy cached summary is served without a query; filters and cache stay unchanged |
| ServiceCore.SummaryMissAsksRepository | app/services/sample.py:208-220 | on a miss, the repository's summary is returned; a valid one is stored with the summary TTL and a failure stores nothing |
| ServiceCore.SummaryRepeatIsCached | app/services/sample.py:184-227 | after a successful summary, the same call returns the same response with no query |
| ServiceCore.CountWritesOnlyItsKey | app/services/sample.py:169-174 | a count writes at most its own key |
| ServiceCore.SummaryWritesOnlyItsKey | app/services/sample.py:215-220 | a summary writes at most its own key |
| ServiceCore.SummaryKeepsCountEntries | app/services/sample.py:202 | storing a summary never changes what a count reads |
| ServiceCore.CountKeepsSummaryEntries | app/services/sample.py:153 | storing a count never changes what a summary reads |
| ServiceCore.CountRowsValid | app/repositories/sample.py:216-221 | count rows make a valid response iff every `value` is a string and every `count` is an integer or missing |
| ServiceCore.LookupNotFound | app/services/sample.py:116-117 | the not-found error names the entity type and, in its message, the identifier |
| ServiceCore.LookupNotFoundAsWritten | app/services/sample.py:116-117 | as written, the entity is the whole sentence `<Type> not found: org.ns.name` and the message appends " not found." to it; 404 |
| ServiceCore.NotFoundAsWrittenMisreports | app/services/sample.py:117 | as written, the sentence becomes the entity and the message ends "not found: o.n.x not found." |
| ServiceCore.LookupServed | app/services/sample.py:83-127 | invalid identifiers fail without a query; otherwise one lookup; the entity is returned iff found, and a missing one is a not-found error |
| ServiceCore.FoundIdentifierIsWellFormed | app/services/sample.py:110-117 | a successful lookup searched for an identifier that splits back into the org, ns and name asked for |
| ServiceCore.ListLimitBounded | app/services/sample.py:62-72 | the list query's limit never exceeds the maximum or the request, and the offset is passed through |
| SampleService.SampleService.constructor | app/services/sample.py:26-36 | builds its own repository on the session and allowlist; keeps settings and cache |
| SampleService.SampleService.GetSamples | app/services/sample.py:38-81 | the repository's list for the clamped page size |
| SampleService.SampleService.GetSampleByIdentifier | app/services/sample.py:83-127 | the result and queries of the shared lookup specification for samples |
| SampleService.SampleService.CountSamplesByField | app/services/sample.py:129-182 | result, filters afterwards, queries run and cache contents follow the shared cache-aside count |
| SampleService.SampleService.GetSamplesSummary | app/services/sample.py:184-227 | result, filters afterwards, queries run and cache contents follow the shared cache-aside summary |
| FileService.FileService.constructor | app/services/file.py:26-36 | builds its own repository on the session and allowlist; keeps settings and cache |
| FileService.FileService.GetFiles | app/services/file.py:38-81 | the repository's list for the clamped page size |
| FileService.FileService.GetFileByIdentifier | app/services/file.py:83-127 | the result and queries of the shared lookup specification for files |
| FileService.FileService.CountFilesByField | app/services/file.py:129-182 | result, queries run and cache contents follow the shared cache-aside count |
| FileService.FileService.GetFilesSummary | app/services/file.py:184-227 | result, queries run and cache contents follow the shared cache-aside summary |
| Deps.GetPaginationParams | app/api/v1/deps.py:47-69 | succeeds exactly as the parser does; a failure is a 422 naming the pagination error's parameters, with the offset reason |
| Deps.PaginationErrorNamesPage | app/api/v1/deps.py:65-69 | a page below 1 is always named in the error |
| Deps.PaginationErrorForLargePageSize | app/api/v1/deps.py:65-69 | a page size that is only too large reports both parameters, with the offset reason as the message |
| Deps.SubjectNamesWellFormed | app/api/v1/deps.py:76-103 | the subject filter names are distinct, not reserved, and unprefixed |
| Deps.SampleNamesWellFormed | app/api/v1/deps.py:114-165 | the sample filter names are distinct, not reserved, and unprefixed |
| Deps.Provided | app/api/v1/deps.py:89-103 | only named parameters become named filters |
| Deps.Unharmonized | app/api/v1/deps.py:106-109 | only query keys with the unharmonized prefix are forwarded |
| Deps.BuildFilters | app/api/v1/deps.py:87-111 | the assignments build the named filters given, in order, followed by the prefixed query parameters, with unique keys |
| Deps.PutNamed | app/api/v1/deps.py:87-102 | the named parameters that are not `None` are assigned in declaration order |
| Deps.PutUnharmonized | app/api/v1/deps.py:104-108 | the prefixed query parameters follow the named ones, in order |
| Deps.UnharmonizedKeyIsNew | app/api/v1/deps.py:104-108 | a prefixed query parameter never overwrites a named filter or an earlier query parameter |
| Deps.GetSubjectFilters | app/api/v1/deps.py:76-111 | the subject parameters given, in declaration order, then the prefixed query parameters |
| Deps.GetSampleFilters | app/api/v1/deps.py:114-173 | the sample parameters given, `tumor_grade` included, in declaration order, then the prefixed query parameters |
| Deps.GetFileFilters | app/api/v1/deps.py:176-205 | the file parameters given, in declaration order, then the prefixed query parameters |
| Deps.ProvidedGet | app/api/v1/deps.py:89-103 | a named parameter's filter is exactly its argument; absent when `None` |
| Deps.UnharmonizedGet | app/api/v1/deps.py:106-109 | a prefixed key is forwarded with its query value; other keys are not forwarded |
| Deps.FilterEntriesGet | app/api/v1/deps.py:87-111 | named filters hold their arguments; a prefixed key holds its query value when a request is present; no other key is a filter |
| Deps.GetSubjectDiagnosisFilters | app/api/v1/deps.py:219-245 | the subject filters, plus the search under the reserved key iff the search is non-empty |
| Deps.GetSampleDiagnosisFilters | app/api/v1/deps.py:248-288 | the sample filters, forwarding `tumor_grade`, plus the search iff non-empty |
| Deps.DiagnosisSearchReachesRepository | app/api/v1/deps.py:242-243 | the repository pops exactly the search term, builds clauses from that term alone, and gets back the filters unchanged |
| Deps.SampleDiagnosisFiltersAsWritten | app/api/v1/deps.py:267-283 | as written, the filters always map `tumor_grade` to the parameter's default marker |
| Deps.AsWrittenAlwaysFiltersTumorGrade | app/api/v1/deps.py:267-283 | as written, every sample diagnosis request filters `tumor_grade` on the parameter's default marker |
| Deps.SampleTumorGradeEntry | app/api/v1/deps.py:148-149 | the sample filters hold `tumor_grade` exactly when the parameter gives it, with its value |
| Deps.SampleDiagnosisForwardsTumorGrade | app/api/v1/deps.py:248-288 | forwarded, `tumor_grade` is filtered exactly as requested, and the repository receives the sample filters unchanged |
| Deps.TumorGradeWithoutFilters | app/api/v1/deps.py:267-283 | with no filters given: a `tumor_grade` filter as written, none when forwarded |

## Left out

- Route handlers (`app/api/v1/endpoints/*`), `main.py`, and the metadata and namespace endpoints: outside the core. The conversion of an exception to an HTTP response (`to_http_exception`) is outside too; a raised exception stays an `Errors.Fault`.
- The Cypher query builder and `build_diagnosis_search_clauses` are not part of this model. The builder records the calls it receives and builds a query value. The diagnosis clauses are a function parameter.
- The field allowlist is an uninterpreted predicate on entity and field.
- The Memgraph driver and async I/O: the database maps a query to its rows; the session logs queries.
- Logging everywhere, and `check_rate_limit`, which only logs.
- `get_database_session`, `get_app_settings` and `get_allowlist` are framework plumbing. Settings are parameters (`ServiceCore.Settings`, and the default and maximum page sizes).
- `get_diagnosis_search_params` returns its argument; the model passes the search term directly.
- `create_unsupported_field_error` is a direct call of `UnsupportedFieldError`, which is modelled.
- The repositories call `UnsupportedFieldError` with only a message, which its two-argument constructor rejects with a Python `TypeError`. The model reports refused fields as the faults `UnsupportedGroupField` and `UnsupportedFilterField`, and does not model the `TypeError`.
- `PaginationParams.__post_init__` is never invoked on a pydantic model, so it is not modelled.
- FastAPI's own `ge=1` checks on `page` and `per_page` run before `get_pagination_params`; the model accepts any integer there.
- Filter values are typed `Any` in the source; the model uses strings.
- The text of FastAPI's `Query(None, ...)` default object is not modelled; `Deps.SampleDiagnosisFiltersAsWritten` takes it as a parameter.
- Responses.CountResultFrom: accepts only a string `value` and an integer `count`; pydantic's lax coercions (a numeric string as `count`, for instance) are not modelled.
- Responses.SummaryResponseFrom: accepts only an integer `total_count`, for the same reason.
- Records.NormaliseFields: states the entity's field map; pydantic's type validation of entity fields is not modelled.
- Errors.UnsupportedFieldError: `entity_type.lower()` is modelled by `Text.Lower`, which lowers ASCII letters only; Python's Unicode case mapping of other letters ("ÉCHANTILLON" to "échantillon") is not modelled.
- Errors.UnshareableDataError: `entity.lower()` in the default message is ASCII-only as well; a non-ASCII capital keeps its case.
- Errors.CreateEntityNotFoundError: the plural branch's `title()` is modelled by `Text.Title`, which recognises and changes ASCII letters only; Python's Unicode title-casing is not modelled.
- Errors.CreateUnshareableDataError: `title()` and then `lower()` are ASCII-only, as above.
- QueryModel.Session.Run: the database is total, so a failing `session.run(...)` or `result.data()` is not modelled. In the source that exception leaves the service before the cache write, so nothing is stored; a subject or sample repository has by then already popped `_diagnosis_search` from the caller's dictionary.
- Records.NodeOf: a node that is present but not a dictionary gives the fault `MalformedRow`; Python raises `AttributeError` at the first `.get` on it.
- The Redis cache: I/O, JSON serialisation (`default=str`), expiry and the swallowed errors (`get` reading as a miss, `set` returning `False`) are not modelled. An entry records the TTL it was stored with. A configured cache service is always truthy.
- Concurrency between requests.

## Findings

| source | as written | input that shows it | evidently intended | confidence | as-written member | corrected member |
|---|---|---|---|---|---|---|
| app/core/pagination.py:106 | `calculate_pagination_info` never sets `total_pages`, so the `last` link is built with `page=None` | page 1, 10 per page, 25 items: the `last` link's query holds `page=None` | `last` points at page 3 (the ceiling of items over page size) | high, not executed | Pagination.BuildLinkHeader, Pagination.LastLinkPointsAtNone | Pagination.IntendedLinkEntries, Pagination.IntendedLinksAreNumbered |
| app/api/v1/deps.py:267 | `get_sample_diagnosis_filters` has no `tumor_grade` parameter and passes none, so `get_sample_filters` gets its default `Query(None, ...)` object. That object is not `None`, so it is added as a `tumor_grade` filter | a sample diagnosis request with no filters: the dictionary holds `tumor_grade` mapped to the default object | `tumor_grade` is forwarded like the other sample filters, and is absent when not given | high, not executed | Deps.SampleDiagnosisFiltersAsWritten, Deps.AsWrittenAlwaysFiltersTumorGrade, Deps.TumorGradeWithoutFilters | Deps.GetSampleDiagnosisFilters, Deps.SampleDiagnosisForwardsTumorGrade |
| app/services/sample.py:117 | `NotFoundError(f"Sample not found: ...")` passes the sentence as the entity, so the default message appends " not found." (also app/services/file.py:117) | org `o`, namespace `n`, name `x` not in the database: entity "Sample not found: o.n.x", message "Sample not found: o.n.x not found." | entity "Sample", message "Sample not found: o.n.x" | high, not executed | ServiceCore.LookupNotFoundAsWritten, ServiceCore.NotFoundAsWrittenMisreports | ServiceCore.LookupNotFound, ServiceCore.LookupServed |
