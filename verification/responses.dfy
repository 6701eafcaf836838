/** The response models of counts and summaries (`CountResult`,
    `CountResponse`, `SummaryResponse`), how they are validated from
    dictionaries, and the dictionaries `.dict()` turns them back into. */
module Responses {
  import opened Wrappers
  import opened Values

  datatype CountResult = CountResult(value: string, count: int)
  datatype CountResponse = CountResponse(field: string, counts: seq<CountResult>)
  datatype SummaryResponse = SummaryResponse(totalCount: int)

  /** `CountResult(**d)`: `value` must be a string and `count` an integer;
      other keys are ignored. */
  function CountResultFrom(j: Json): (r: Option<CountResult>)
    ensures r.Some? <==>
              j.JObject? && "value" in j.fields && j.fields["value"].JStr?
              && "count" in j.fields && j.fields["count"].JInt?
    ensures r.Some? ==> r.value == CountResult(j.fields["value"].s, j.fields["count"].i)
  {
    if j.JObject? && "value" in j.fields && j.fields["value"].JStr? && "count" in j.fields && j.fields["count"].JInt?
    then Some(CountResult(j.fields["value"].s, j.fields["count"].i))
    else None
  }

  /** A list of count results: valid only when every element is. */
  function CountResultsFrom(js: seq<Json>): (r: Option<seq<CountResult>>)
    ensures r.Some? <==> forall i :: 0 <= i < |js| ==> CountResultFrom(js[i]).Some?
    ensures r.Some? ==> |r.value| == |js| && forall i :: 0 <= i < |js| ==> r.value[i] == CountResultFrom(js[i]).value
    decreases |js|
  {
    if |js| == 0 then Some([])
    else match CountResultFrom(js[0])
      case None => None
      case Some(first) =>
        match CountResultsFrom(js[1..])
        case None => None
        case Some(rest) => Some([first] + rest)
  }

  function AsObjects(rows: seq<Record>): (js: seq<Json>)
    ensures |js| == |rows| && forall i :: 0 <= i < |rows| ==> js[i] == JObject(rows[i])
  {
    seq(|rows|, i requires 0 <= i < |rows| => JObject(rows[i]))
  }

  /** `CountResponse(field=field, counts=rows)` built from repository rows. */
  function CountResponseOf(field: string, rows: seq<Record>): (r: Option<CountResponse>)
    ensures r.Some? <==> forall i :: 0 <= i < |rows| ==> CountResultFrom(JObject(rows[i])).Some?
    ensures r.Some? ==> r.value.field == field && |r.value.counts| == |rows|
    ensures r.Some? ==> forall i :: 0 <= i < |rows| ==> r.value.counts[i] == CountResultFrom(JObject(rows[i])).value
  {
    match CountResultsFrom(AsObjects(rows))
    case None => None
    case Some(counts) => Some(CountResponse(field, counts))
  }

  /** `CountResponse(**d)` for a cached dictionary. */
  function CountResponseFrom(j: Json): (r: Option<CountResponse>)
    ensures r.Some? <==>
              j.JObject? && "field" in j.fields && j.fields["field"].JStr?
              && "counts" in j.fields && j.fields["counts"].JList?
              && forall i :: 0 <= i < |j.fields["counts"].elems| ==> CountResultFrom(j.fields["counts"].elems[i]).Some?
    ensures r.Some? ==>
              r.value.field == j.fields["field"].s && |r.value.counts| == |j.fields["counts"].elems|
              && forall i :: 0 <= i < |r.value.counts| ==> r.value.counts[i] == CountResultFrom(j.fields["counts"].elems[i]).value
  {
    if j.JObject? && "field" in j.fields && j.fields["field"].JStr?
       && "counts" in j.fields && j.fields["counts"].JList?
    then match CountResultsFrom(j.fields["counts"].elems)
      case None => None
      case Some(counts) => Some(CountResponse(j.fields["field"].s, counts))
    else None
  }

  function CountResultToJson(c: CountResult): Json {
    JObject(map["value" := JStr(c.value), "count" := JInt(c.count)])
  }

  /** `response.dict()` */
  function CountResponseToJson(r: CountResponse): Json {
    JObject(map["field" := JStr(r.field),
                "counts" := JList(seq(|r.counts|, i requires 0 <= i < |r.counts| => CountResultToJson(r.counts[i])))])
  }

  /** `SummaryResponse(**d)`: `total_count` must be an integer; other keys are
      ignored. */
  function SummaryResponseFrom(d: Record): (r: Option<SummaryResponse>)
    ensures r.Some? <==> "total_count" in d && d["total_count"].JInt?
    ensures r.Some? ==> r.value.totalCount == d["total_count"].i
  {
    if "total_count" in d && d["total_count"].JInt? then Some(SummaryResponse(d["total_count"].i)) else None
  }

  /** `response.dict()` */
  function SummaryResponseToJson(r: SummaryResponse): Json {
    JObject(map["total_count" := JInt(r.totalCount)])
  }

  /** A count response read back from its dictionary is the same response. */
  lemma CountResponseRoundTrip(r: CountResponse)
    ensures CountResponseFrom(CountResponseToJson(r)) == Some(r)
  {
    var j := CountResponseToJson(r);
    var elems := j.fields["counts"].elems;
    forall i | 0 <= i < |elems|
      ensures CountResultFrom(elems[i]) == Some(r.counts[i])
    {
      assert elems[i] == CountResultToJson(r.counts[i]);
    }
    var back := CountResultsFrom(elems);
    assert back.Some? && |back.value| == |r.counts|;
    assert back.value == r.counts;
  }

  /** A summary response read back from its dictionary is the same response. */
  lemma SummaryResponseRoundTrip(r: SummaryResponse)
    ensures SummaryResponseToJson(r).JObject? && SummaryResponseFrom(SummaryResponseToJson(r).fields) == Some(r)
  {
  }

  /** Every stored response is truthy, so once stored it is served from the
      cache. */
  lemma StoredResponsesAreTruthy(c: CountResponse, s: SummaryResponse)
    ensures Truthy(CountResponseToJson(c))
    ensures Truthy(SummaryResponseToJson(s))
  {
    assert "field" in CountResponseToJson(c).fields;
    assert "total_count" in SummaryResponseToJson(s).fields;
  }
}
