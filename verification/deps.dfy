/** The request dependencies (app/api/v1/deps.py): pagination parameters
    checked with a structured error, and the filter dictionaries built from a
    route's named query parameters plus every `metadata.unharmonized.*`
    query parameter, with the diagnosis variants that add the search term
    under the reserved key the repositories pop. */
module Deps {
  import opened Wrappers
  import opened Text
  import opened OrderedDict
  import opened Errors
  import opened Pagination
  import opened QueryModel
  import opened RepositoryCore

  /** `get_pagination_params(page, per_page)`: a failed parse becomes the
      pagination error naming the offending parameters. */
  function GetPaginationParams(page: Option<int>, perPage: Option<int>, defaultPageSize: int, maxPageSize: int)
    : (r: Result<PaginationParams, Fault>)
    ensures r.Success? <==> ParsePaginationParams(page, perPage, defaultPageSize, maxPageSize).Success?
    ensures r.Success? ==> r.value == ParsePaginationParams(page, perPage, defaultPageSize, maxPageSize).value
    ensures r.Failure? ==>
              r.error.Raised? && r.error.exception.kind == InvalidParameters && r.error.exception.statusCode == 422
              && r.error.exception.reason == Some(OffsetReason)
              && r.error.exception.parameters == PaginationErrorParameters(page, perPage)
  {
    match ParsePaginationParams(page, perPage, defaultPageSize, maxPageSize)
    case Success(params) => Success(params)
    case Failure(_) => Failure(Raised(InvalidParametersError(PaginationErrorParameters(page, perPage), OffsetReason, None)))
  }

  /** A page below 1 is always named in the error. */
  lemma PaginationErrorNamesPage(page: Option<int>, perPage: Option<int>, defaultPageSize: int, maxPageSize: int)
    requires page.Some? && page.value < 1
    ensures var r := GetPaginationParams(page, perPage, defaultPageSize, maxPageSize);
      r.Failure? && r.error.Raised? && "page" in r.error.exception.parameters
  {
    assert ParsePaginationParams(page, perPage, defaultPageSize, maxPageSize).Failure?;
  }

  /** A page size that is only too large is not told apart: both parameters
      are reported, with the offset reason rather than the limit. */
  lemma PaginationErrorForLargePageSize(page: Option<int>, perPage: Option<int>, defaultPageSize: int, maxPageSize: int)
    requires page.GetOr(1) >= 1 && perPage.Some? && perPage.value > maxPageSize && perPage.value >= 1
    ensures var r := GetPaginationParams(page, perPage, defaultPageSize, maxPageSize);
      && r.Failure? && r.error.Raised?
      && r.error.exception.parameters == ["page", "per_page"]
      && r.error.exception.message == "Invalid value for parameters 'page', 'per_page': " + OffsetReason
  {
    assert ParsePaginationParams(page, perPage, defaultPageSize, maxPageSize).Failure?;
    assert PaginationErrorParameters(page, perPage) == ["page", "per_page"];
    BothParametersMessage(OffsetReason);
  }

  lemma BothParametersMessage(reason: string)
    ensures InvalidParametersError(["page", "per_page"], reason, None).message
         == "Invalid value for parameters 'page', 'per_page': " + reason
  {
    var ps := ["page", "per_page"];
    assert Join(ps[1..], "', '") == "per_page";
    assert InvalidParametersError(ps, reason, None).message
        == "Invalid value for parameters '" + "page" + "', '" + "per_page" + "': " + reason;
  }

  /** The prefix of the query parameters every filter dependency forwards. */
  const UnharmonizedPrefix: string := "metadata.unharmonized."

  /** A named query parameter and its value, when the request gave one. */
  type NamedArg = (string, Option<string>)

  function Names(named: seq<NamedArg>): (ns: seq<string>)
    ensures |ns| == |named| && forall i :: 0 <= i < |named| ==> ns[i] == named[i].0
  {
    seq(|named|, i requires 0 <= i < |named| => named[i].0)
  }

  /** Names a filter dependency can use: pairwise different, none of them
      reserved for diagnosis search and none with the unharmonized prefix. */
  predicate WellFormedNames(named: seq<NamedArg>) {
    && (forall i, j :: 0 <= i < j < |named| ==> named[i].0 != named[j].0)
    && (forall i :: 0 <= i < |named| ==> named[i].0 != DiagnosisKey && !StartsWith(named[i].0, UnharmonizedPrefix))
  }

  /** A name that does not start with `m` cannot carry the unharmonized prefix. */
  lemma NotUnharmonized(name: string)
    requires name != "" && name[0] != 'm'
    ensures !StartsWith(name, UnharmonizedPrefix)
  {
    if |UnharmonizedPrefix| <= |name| {
      assert name[..|UnharmonizedPrefix|][0] == name[0];
    }
  }

  /** The named parameters `get_subject_filters` takes, in declaration order. */
  datatype SubjectFilterArgs = SubjectFilterArgs(
    sex: Option<string>, race: Option<string>, ethnicity: Option<string>, identifiers: Option<string>,
    vitalStatus: Option<string>, ageAtVitalStatus: Option<string>, depositions: Option<string>)
  {
    function Named(): seq<NamedArg> {
      [("sex", sex), ("race", race), ("ethnicity", ethnicity), ("identifiers", identifiers),
       ("vital_status", vitalStatus), ("age_at_vital_status", ageAtVitalStatus), ("depositions", depositions)]
    }
  }

  /** The named parameters `get_sample_filters` takes, in declaration order. */
  datatype SampleFilterArgs = SampleFilterArgs(
    diseasePhase: Option<string>, anatomicalSites: Option<string>, librarySelectionMethod: Option<string>,
    libraryStrategy: Option<string>, librarySourceMaterial: Option<string>, preservationMethod: Option<string>,
    tumorGrade: Option<string>, specimenMolecularAnalyteType: Option<string>, tissueType: Option<string>,
    tumorClassification: Option<string>, ageAtDiagnosis: Option<string>, ageAtCollection: Option<string>,
    tumorTissueMorphology: Option<string>, depositions: Option<string>, diagnosis: Option<string>)
  {
    function Named(): seq<NamedArg> {
      [("disease_phase", diseasePhase), ("anatomical_sites", anatomicalSites),
       ("library_selection_method", librarySelectionMethod), ("library_strategy", libraryStrategy),
       ("library_source_material", librarySourceMaterial), ("preservation_method", preservationMethod),
       ("tumor_grade", tumorGrade), ("specimen_molecular_analyte_type", specimenMolecularAnalyteType),
       ("tissue_type", tissueType), ("tumor_classification", tumorClassification),
       ("age_at_diagnosis", ageAtDiagnosis), ("age_at_collection", ageAtCollection),
       ("tumor_tissue_morphology", tumorTissueMorphology), ("depositions", depositions),
       ("diagnosis", diagnosis)]
    }
  }

  /** The named parameters `get_file_filters` takes, in declaration order. */
  datatype FileFilterArgs = FileFilterArgs(
    fileType: Option<string>, size: Option<string>, checksums: Option<string>,
    description: Option<string>, depositions: Option<string>)
  {
    function Named(): seq<NamedArg> {
      [("type", fileType), ("size", size), ("checksums", checksums),
       ("description", description), ("depositions", depositions)]
    }
  }

  lemma SampleNamesWellFormed(args: SampleFilterArgs)
    ensures WellFormedNames(args.Named())
  {
    var named := args.Named();
    forall i | 0 <= i < |named| ensures !StartsWith(named[i].0, UnharmonizedPrefix) {
      NotUnharmonized(named[i].0);
    }
  }

  lemma SubjectNamesWellFormed(args: SubjectFilterArgs)
    ensures WellFormedNames(args.Named())
  {
    var named := args.Named();
    forall i | 0 <= i < |named| ensures !StartsWith(named[i].0, UnharmonizedPrefix) {
      NotUnharmonized(named[i].0);
    }
  }

  /** The entries for the named parameters that are not `None`, in order
      (an empty string is kept). */
  function Provided(named: seq<NamedArg>): (items: seq<Item>)
    ensures forall k :: k in Keys(items) ==> k in Names(named)
    decreases |named|
  {
    if |named| == 0 then []
    else
      var init := named[..|named| - 1];
      var last := named[|named| - 1];
      var tail: seq<Item> := if last.1.Some? then [(last.0, last.1.value)] else [];
      KeysAppend(Provided(init), tail);
      assert forall k :: k in Names(init) ==> k in Names(named) by {
        forall k | k in Names(init) ensures k in Names(named) {
          var i :| 0 <= i < |init| && Names(init)[i] == k;
          assert Names(named)[i] == k;
        }
      }
      Provided(init) + tail
  }

  /** The query parameters carrying the unharmonized prefix, in order. */
  function Unharmonized(params: seq<Item>): (items: seq<Item>)
    ensures forall k :: k in Keys(items) ==> k in Keys(params) && StartsWith(k, UnharmonizedPrefix)
    decreases |params|
  {
    if |params| == 0 then []
    else
      var init := params[..|params| - 1];
      var last := params[|params| - 1];
      var tail: seq<Item> := if StartsWith(last.0, UnharmonizedPrefix) then [last] else [];
      KeysAppend(Provided([]), []);
      KeysAppend(Unharmonized(init), tail);
      KeysAppend(init, [last]);
      assert params == init + [last];
      Unharmonized(init) + tail
  }

  /** `request.query_params.items()` restricted to the unharmonized prefix;
      nothing without a request. */
  function QueryItems(request: Option<Request>): seq<Item> {
    if request.Some? then Unharmonized(QueryDict(request.value)) else []
  }

  /** The filter dictionary a filter dependency returns. */
  function FilterEntries(named: seq<NamedArg>, request: Option<Request>): seq<Item> {
    Provided(named) + QueryItems(request)
  }

  /** The body the three filter dependencies share: each named parameter
      that is not `None` is assigned in declaration order, then each query
      parameter with the unharmonized prefix. */
  method BuildFilters(named: seq<NamedArg>, request: Option<Request>) returns (filters: StringDict)
    requires WellFormedNames(named)
    ensures fresh(filters) && filters.Valid()
    ensures filters.items == FilterEntries(named, request)
  {
    filters := new StringDict();
    PutNamed(filters, named);
    if request.Some? {
      PutUnharmonized(filters, named, request.value);
    }
  }

  /** The named parameters that are not `None`, in declaration order. */
  method PutNamed(filters: StringDict, named: seq<NamedArg>)
    requires WellFormedNames(named) && filters.Valid() && filters.items == []
    modifies filters
    ensures filters.Valid() && filters.items == Provided(named)
  {
    for i := 0 to |named|
      invariant filters.Valid() && filters.items == Provided(named[..i])
    {
      assert named[..i + 1][..i] == named[..i];
      if named[i].1.Some? {
        assert named[i].0 !in Names(named[..i]);
        SetNewKey(filters.items, named[i].0, named[i].1.value);
        filters.Put(named[i].0, named[i].1.value);
      }
    }
    assert named[..|named|] == named;
  }

  /** One more query parameter adds itself when it carries the prefix. */
  lemma UnharmonizedStep(params: seq<Item>, j: int)
    requires 0 <= j < |params|
    ensures Unharmonized(params[..j + 1])
         == Unharmonized(params[..j]) + (if StartsWith(params[j].0, UnharmonizedPrefix) then [params[j]] else [])
  {
    assert params[..j + 1][..j] == params[..j];
  }

  /** A prefixed query parameter is neither a named parameter nor one of the
      query parameters before it. */
  lemma UnharmonizedKeyIsNew(named: seq<NamedArg>, params: seq<Item>, j: int)
    requires WellFormedNames(named) && UniqueKeys(params)
    requires 0 <= j < |params| && StartsWith(params[j].0, UnharmonizedPrefix)
    ensures params[j].0 !in Keys(Provided(named) + Unharmonized(params[..j]))
  {
    var key := params[j].0;
    KeysAppend(Provided(named), Unharmonized(params[..j]));
    assert key !in Keys(Provided(named));
    assert key !in Keys(params[..j]);
  }

  /** The query parameters with the unharmonized prefix, after the named ones. */
  method PutUnharmonized(filters: StringDict, named: seq<NamedArg>, request: Request)
    requires WellFormedNames(named) && filters.Valid() && filters.items == Provided(named)
    modifies filters
    ensures filters.Valid() && filters.items == Provided(named) + Unharmonized(QueryDict(request))
  {
    var params := QueryDict(request);
    for j := 0 to |params|
      invariant filters.Valid() && filters.items == Provided(named) + Unharmonized(params[..j])
    {
      UnharmonizedStep(params, j);
      var key := params[j].0;
      if StartsWith(key, UnharmonizedPrefix) {
        UnharmonizedKeyIsNew(named, params, j);
        SetNewKey(filters.items, key, params[j].1);
        filters.Put(key, params[j].1);
      }
    }
    assert params[..|params|] == params;
  }


  /** `get_subject_filters` */
  method GetSubjectFilters(args: SubjectFilterArgs, request: Option<Request>) returns (filters: StringDict)
    ensures fresh(filters) && filters.Valid() && filters.items == FilterEntries(args.Named(), request)
  {
    filters := BuildFilters(args.Named(), request);
  }

  /** `get_sample_filters` */
  method GetSampleFilters(args: SampleFilterArgs, request: Option<Request>) returns (filters: StringDict)
    ensures fresh(filters) && filters.Valid() && filters.items == FilterEntries(args.Named(), request)
  {
    SampleNamesWellFormed(args);
    filters := BuildFilters(args.Named(), request);
  }

  /** `get_file_filters` */
  method GetFileFilters(args: FileFilterArgs, request: Option<Request>) returns (filters: StringDict)
    ensures fresh(filters) && filters.Valid() && filters.items == FilterEntries(args.Named(), request)
  {
    filters := BuildFilters(args.Named(), request);
  }

  /** A named parameter's filter is exactly its argument (absent for
      `None`), an unharmonized query parameter's filter is its value in the
      query, and nothing else becomes a filter. */
  lemma {:induction false} ProvidedGet(named: seq<NamedArg>)
    requires forall i, j :: 0 <= i < j < |named| ==> named[i].0 != named[j].0
    ensures forall i :: 0 <= i < |named| ==> Get(Provided(named), named[i].0) == named[i].1
    ensures forall k :: k !in Names(named) ==> Get(Provided(named), k) == None
    decreases |named|
  {
    if |named| > 0 {
      var init := named[..|named| - 1];
      var last := named[|named| - 1];
      var tail: seq<Item> := if last.1.Some? then [(last.0, last.1.value)] else [];
      assert Provided(named) == Provided(init) + tail;
      ProvidedGet(init);
      forall i | 0 <= i < |named| ensures Get(Provided(named), named[i].0) == named[i].1 {
        var k := named[i].0;
        GetAppend(Provided(init), tail, k);
        if i < |named| - 1 {
          assert init[i] == named[i];
          assert k in Keys(Provided(init)) <==> Get(Provided(init), k).Some?;
        } else {
          assert k !in Names(init);
        }
      }
      forall k | k !in Names(named) ensures Get(Provided(named), k) == None {
        GetAppend(Provided(init), tail, k);
        assert k !in Names(init);
        assert k != last.0 by {
          assert Names(named)[|named| - 1] == last.0;
        }
      }
    }
  }

  lemma {:induction false} UnharmonizedGet(params: seq<Item>, k: string)
    ensures Get(Unharmonized(params), k) == if StartsWith(k, UnharmonizedPrefix) then Get(params, k) else None
    decreases |params|
  {
    if |params| > 0 {
      var init := params[..|params| - 1];
      var last := params[|params| - 1];
      var tail: seq<Item> := if StartsWith(last.0, UnharmonizedPrefix) then [last] else [];
      assert Unharmonized(params) == Unharmonized(init) + tail;
      assert params == init + [last];
      UnharmonizedGet(init, k);
      GetAppend(Unharmonized(init), tail, k);
      GetAppend(init, [last], k);
      assert k in Keys(Unharmonized(init)) <==> Get(Unharmonized(init), k).Some?;
      assert k in Keys(init) <==> Get(init, k).Some?;
    }
  }

  lemma FilterEntriesGet(named: seq<NamedArg>, request: Option<Request>, k: string)
    requires WellFormedNames(named)
    ensures forall i :: 0 <= i < |named| ==> Get(FilterEntries(named, request), named[i].0) == named[i].1
    ensures k !in Names(named) ==>
              Get(FilterEntries(named, request), k)
                == if request.Some? && StartsWith(k, UnharmonizedPrefix) then Get(QueryDict(request.value), k) else None
  {
    ProvidedGet(named);
    forall i | 0 <= i < |named| ensures Get(FilterEntries(named, request), named[i].0) == named[i].1 {
      var name := named[i].0;
      GetAppend(Provided(named), QueryItems(request), name);
      if request.Some? {
        UnharmonizedGet(QueryDict(request.value), name);
      }
      assert name in Keys(Provided(named)) <==> Get(Provided(named), name).Some?;
    }
    GetAppend(Provided(named), QueryItems(request), k);
    if request.Some? {
      UnharmonizedGet(QueryDict(request.value), k);
    }
    if k !in Names(named) {
      assert k !in Keys(Provided(named));
    }
  }

  /** `if search: filters["_diagnosis_search"] = search` */
  function WithSearch(entries: seq<Item>, search: Option<string>): seq<Item> {
    if Present(search) then Set(entries, DiagnosisKey, search.value) else entries
  }

  /** `get_subject_diagnosis_filters` */
  method GetSubjectDiagnosisFilters(search: Option<string>, args: SubjectFilterArgs, request: Option<Request>)
    returns (filters: StringDict)
    ensures fresh(filters) && filters.Valid()
    ensures filters.items == WithSearch(FilterEntries(args.Named(), request), search)
  {
    filters := GetSubjectFilters(args, request);
    if search.Some? && search.value != "" {
      filters.Put(DiagnosisKey, search.value);
    }
  }

  /** `get_sample_diagnosis_filters`, forwarding `tumor_grade` like every
      other sample filter. */
  method GetSampleDiagnosisFilters(search: Option<string>, args: SampleFilterArgs, request: Option<Request>)
    returns (filters: StringDict)
    ensures fresh(filters) && filters.Valid()
    ensures filters.items == WithSearch(FilterEntries(args.Named(), request), search)
  {
    filters := GetSampleFilters(args, request);
    if search.Some? && search.value != "" {
      filters.Put(DiagnosisKey, search.value);
    }
  }

  /** What a diagnosis dependency builds is what the repository takes apart:
      it pops exactly the search term, hands the term alone to the
      diagnosis-clause builder, and filters on everything else unchanged. */
  lemma DiagnosisSearchReachesRepository(named: seq<NamedArg>, request: Option<Request>, search: Option<string>,
                                         profile: Profile, clausesOf: DiagnosisClauses)
    requires WellFormedNames(named) && profile.searchesDiagnosis
    ensures var built := WithSearch(FilterEntries(named, request), search);
      && FiltersAfter(built, profile) == FilterEntries(named, request)
      && DiagnosisPart(built, profile, clausesOf)
           == if Present(search) then WhereCalls(clausesOf(search.value, profile.entity)) else []
  {
    var entries := FilterEntries(named, request);
    KeysAppend(Provided(named), QueryItems(request));
    assert DiagnosisKey !in Keys(Provided(named));
    NotUnharmonized(DiagnosisKey);
    assert DiagnosisKey !in Keys(entries);
    if Present(search) {
      SetNewKey(entries, DiagnosisKey, search.value);
      RemoveLast(entries, DiagnosisKey, search.value);
      SetGet(entries, DiagnosisKey, search.value, DiagnosisKey);
    } else {
      RemoveAbsent(entries, DiagnosisKey);
    }
  }

  /** `get_sample_diagnosis_filters` as written: it has no `tumor_grade`
      parameter and does not pass one on, so `get_sample_filters` sees the
      parameter's declared default. That default is the `Query(None, ...)`
      marker object, which is not `None`, so it is always added as the
      `tumor_grade` filter; `marker` stands for it. */
  function SampleDiagnosisFiltersAsWritten(search: Option<string>, args: SampleFilterArgs, request: Option<Request>,
                                           marker: string): (r: seq<Item>)
    ensures Get(r, "tumor_grade") == Some(marker)
  {
    var entries := FilterEntries(args.(tumorGrade := Some(marker)).Named(), request);
    SampleTumorGradeEntry(args.(tumorGrade := Some(marker)), request);
    SetGet(entries, DiagnosisKey, if search.Some? then search.value else "", "tumor_grade");
    WithSearch(entries, search)
  }

  /** The sample filters hold `tumor_grade` exactly as the parameter gives it. */
  lemma SampleTumorGradeEntry(args: SampleFilterArgs, request: Option<Request>)
    ensures Get(FilterEntries(args.Named(), request), "tumor_grade") == args.tumorGrade
  {
    var named := args.Named();
    SampleNamesWellFormed(args);
    FilterEntriesGet(named, request, "tumor_grade");
    assert named[6] == ("tumor_grade", args.tumorGrade);
  }

  /** As written, every sample diagnosis request filters `tumor_grade` on the
      marker, whatever the request says about it. */
  lemma AsWrittenAlwaysFiltersTumorGrade(search: Option<string>, args: SampleFilterArgs, request: Option<Request>,
                                         marker: string)
    ensures Get(SampleDiagnosisFiltersAsWritten(search, args, request, marker), "tumor_grade") == Some(marker)
  {
    var named := args.(tumorGrade := Some(marker)).Named();
    SampleTumorGradeEntry(args.(tumorGrade := Some(marker)), request);
    if Present(search) {
      SetGet(FilterEntries(named, request), DiagnosisKey, search.value, "tumor_grade");
    }
  }

  /** Forwarding `tumor_grade` filters on it exactly when the request gives
      it, and the repository receives the sample filters unchanged. */
  lemma SampleDiagnosisForwardsTumorGrade(search: Option<string>, args: SampleFilterArgs, request: Option<Request>)
    ensures Get(WithSearch(FilterEntries(args.Named(), request), search), "tumor_grade") == args.tumorGrade
    ensures FiltersAfter(WithSearch(FilterEntries(args.Named(), request), search), SampleProfile)
              == FilterEntries(args.Named(), request)
  {
    var named := args.Named();
    SampleTumorGradeEntry(args, request);
    if Present(search) {
      SetGet(FilterEntries(named, request), DiagnosisKey, search.value, "tumor_grade");
    }
    SampleNamesWellFormed(args);
    DiagnosisSearchReachesRepository(named, request, search, SampleProfile, (t, e) => []);
  }

  /** A sample diagnosis request without any filter: as written it still
      filters `tumor_grade` on the marker; forwarded, it does not. */
  lemma TumorGradeWithoutFilters(marker: string)
    ensures var none := SampleFilterArgs(None, None, None, None, None, None, None, None,
                                         None, None, None, None, None, None, None);
      && Get(SampleDiagnosisFiltersAsWritten(None, none, None, marker), "tumor_grade") == Some(marker)
      && Get(WithSearch(FilterEntries(none.Named(), None), None), "tumor_grade") == None
  {
    var none := SampleFilterArgs(None, None, None, None, None, None, None, None,
                                 None, None, None, None, None, None, None);
    AsWrittenAlwaysFiltersTumorGrade(None, none, None, marker);
    SampleDiagnosisForwardsTumorGrade(None, none, None);
  }
}
