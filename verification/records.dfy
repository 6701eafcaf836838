/** How the repositories turn database rows into the values they return:
    `_record_to_subject`, `_record_to_sample`, `_record_to_file`, the rows of
    a count and the summary row. The response models accept any extra field,
    so an entity is represented by the map of its named fields. */
module Records {
  import opened Wrappers
  import opened Values
  import opened QueryModel
  import opened Errors

  /** A string becomes a one-element list; anything else is kept. */
  function WrapString(j: Json): (r: Json)
    ensures j.JStr? ==> r == JList([j])
    ensures !j.JStr? ==> r == j
    ensures !r.JStr?
  {
    if j.JStr? then JList([j]) else j
  }

  /** The fields an entity is built with: `plain` ones are read with `get`,
      `listy` ones default to `[]` and have a lone string wrapped into a list,
      and `defaulted` ones fall back to their default. */
  datatype Shape = Shape(plain: set<string>, listy: set<string>, defaulted: map<string, Json>)

  const EmptyList: Json := JList([])
  const EmptyObject: Json := JObject(map[])

  /** `_record_to_subject` */
  const SubjectShape := Shape(
    {"id", "sex", "race", "ethnicity", "vital_status", "age_at_vital_status"},
    {"identifiers"},
    map["depositions" := EmptyList, "metadata" := EmptyObject])

  /** `_record_to_sample` */
  const SampleShape := Shape(
    {"id", "disease_phase", "library_selection_method", "library_strategy", "library_source_material",
     "preservation_method", "tumor_grade", "specimen_molecular_analyte_type", "tissue_type",
     "tumor_classification", "age_at_diagnosis", "age_at_collection", "tumor_tissue_morphology", "diagnosis"},
    {"identifiers", "anatomical_sites"},
    map["depositions" := EmptyList, "metadata" := EmptyObject])

  /** `_record_to_file` */
  const FileShape := Shape(
    {"id", "type", "size", "description"},
    {"identifiers"},
    map["checksums" := EmptyObject, "depositions" := EmptyList, "metadata" := EmptyObject])

  function ShapeOf(entity: EntityType): Shape {
    match entity
    case Subject => SubjectShape
    case Sample => SampleShape
    case File => FileShape
  }

  /** The entity built from a node: exactly the shape's fields, each read as
      the shape says; nothing else in the node is carried over. */
  function Normalise(node: Record, shape: Shape): Record {
    map k | k in shape.plain + shape.listy + shape.defaulted.Keys ::
      if k in shape.listy then WrapString(GetOr(node, k, EmptyList))
      else if k in shape.defaulted then GetOr(node, k, shape.defaulted[k])
      else Get(node, k)
  }

  /** The fields of a normalised node, one rule per kind of field. */
  lemma NormaliseFields(node: Record, shape: Shape)
    ensures var r := Normalise(node, shape);
      && r.Keys == shape.plain + shape.listy + shape.defaulted.Keys
      && (forall k :: k in shape.listy ==> r[k] == WrapString(GetOr(node, k, EmptyList)))
      && (forall k :: k in shape.defaulted && k !in shape.listy ==> r[k] == GetOr(node, k, shape.defaulted[k]))
      && (forall k :: k in shape.plain && k !in shape.listy && k !in shape.defaulted ==> r[k] == Get(node, k))
  {
  }

  /** The DTO built from a node of the given entity type. */
  function RecordToEntity(entity: EntityType, node: Record): (r: Record)
    ensures r.Keys == ShapeOf(entity).plain + ShapeOf(entity).listy + ShapeOf(entity).defaulted.Keys
  {
    NormaliseKeys(node, ShapeOf(entity));
    Normalise(node, ShapeOf(entity))
  }

  /** Normalising an entity a second time changes nothing: the result already
      has exactly its fields, no lone strings where lists belong, and every
      default filled in. */
  lemma NormaliseIdempotent(node: Record, shape: Shape)
    ensures Normalise(Normalise(node, shape), shape) == Normalise(node, shape)
  {
    var once := Normalise(node, shape);
    var twice := Normalise(once, shape);
    forall k | k in twice.Keys
      ensures twice[k] == once[k]
    {
      if k in shape.listy {
        assert GetOr(once, k, EmptyList) == once[k];
      }
    }
  }

  /** A list field: a lone string wrapped, a missing one `[]`. */
  lemma ListyField(node: Record, shape: Shape, k: string)
    requires k in shape.listy
    ensures k in Normalise(node, shape) && Normalise(node, shape)[k] == if k in node then WrapString(node[k]) else JList([])
  {
  }

  /** A defaulted field: its value, or the default when missing. */
  lemma DefaultedField(node: Record, shape: Shape, k: string)
    requires k in shape.defaulted && k !in shape.listy
    ensures k in Normalise(node, shape) && Normalise(node, shape)[k] == if k in node then node[k] else shape.defaulted[k]
  {
  }

  /** A plain field: read with `get`. */
  lemma PlainField(node: Record, shape: Shape, k: string)
    requires k in shape.plain && k !in shape.listy && k !in shape.defaulted
    ensures k in Normalise(node, shape) && Normalise(node, shape)[k] == Get(node, k)
  {
  }

  /** `_record_to_subject`: a lone string identifier becomes a one-element
      list, missing identifiers and depositions become `[]`, missing metadata
      `{}`, and the other fields are read as they are. */
  lemma SubjectNormalisation(node: Record)
    ensures var r := RecordToEntity(Subject, node);
      && r.Keys == {"id", "identifiers", "sex", "race", "ethnicity", "vital_status",
                    "age_at_vital_status", "depositions", "metadata"}
      && "identifiers" in r && r["identifiers"] == (if "identifiers" in node then WrapString(node["identifiers"]) else JList([]))
      && "depositions" in r && r["depositions"] == (if "depositions" in node then node["depositions"] else JList([]))
      && "metadata" in r && r["metadata"] == (if "metadata" in node then node["metadata"] else JObject(map[]))
      && "sex" in r && r["sex"] == Get(node, "sex") && "vital_status" in r && r["vital_status"] == Get(node, "vital_status")
  {
    ListyField(node, SubjectShape, "identifiers");
    DefaultedField(node, SubjectShape, "depositions");
    DefaultedField(node, SubjectShape, "metadata");
    PlainField(node, SubjectShape, "sex");
    PlainField(node, SubjectShape, "vital_status");
  }

  /** `_record_to_sample` builds exactly the eighteen named fields. */
  lemma SampleFields(node: Record)
    ensures RecordToEntity(Sample, node).Keys
         == {"id", "identifiers", "disease_phase", "anatomical_sites", "library_selection_method",
             "library_strategy", "library_source_material", "preservation_method", "tumor_grade",
             "specimen_molecular_analyte_type", "tissue_type", "tumor_classification", "age_at_diagnosis",
             "age_at_collection", "tumor_tissue_morphology", "depositions", "diagnosis", "metadata"}
  {
    NormaliseKeys(node, SampleShape);
    SampleShapeKeys();
  }

  lemma NormaliseKeys(node: Record, shape: Shape)
    ensures Normalise(node, shape).Keys == shape.plain + shape.listy + shape.defaulted.Keys
  {
  }

  lemma SampleShapeKeys()
    ensures SampleShape.plain + SampleShape.listy + SampleShape.defaulted.Keys
         == {"id", "identifiers", "disease_phase", "anatomical_sites", "library_selection_method",
             "library_strategy", "library_source_material", "preservation_method", "tumor_grade",
             "specimen_molecular_analyte_type", "tissue_type", "tumor_classification", "age_at_diagnosis",
             "age_at_collection", "tumor_tissue_morphology", "depositions", "diagnosis", "metadata"}
  {
    assert SampleShape.defaulted.Keys == {"depositions", "metadata"};
  }

  /** `_record_to_sample`: both `identifiers` and `anatomical_sites` are
      wrapped when they are a lone string; depositions default to `[]` and
      metadata to `{}`. */
  lemma SampleNormalisation(node: Record)
    ensures var r := RecordToEntity(Sample, node);
      && "identifiers" in r && r["identifiers"] == (if "identifiers" in node then WrapString(node["identifiers"]) else JList([]))
      && "anatomical_sites" in r && r["anatomical_sites"] == (if "anatomical_sites" in node then WrapString(node["anatomical_sites"]) else JList([]))
      && "depositions" in r && r["depositions"] == (if "depositions" in node then node["depositions"] else JList([]))
      && "metadata" in r && r["metadata"] == (if "metadata" in node then node["metadata"] else JObject(map[]))
      && "tumor_grade" in r && r["tumor_grade"] == Get(node, "tumor_grade") && "diagnosis" in r && r["diagnosis"] == Get(node, "diagnosis")
  {
    SampleListFields(node);
    SampleDefaultedFields(node);
    SamplePlainFields(node);
  }

  lemma SampleListFields(node: Record)
    ensures var r := Normalise(node, SampleShape);
      && "identifiers" in r && r["identifiers"] == (if "identifiers" in node then WrapString(node["identifiers"]) else JList([]))
      && "anatomical_sites" in r && r["anatomical_sites"] == (if "anatomical_sites" in node then WrapString(node["anatomical_sites"]) else JList([]))
  {
    ListyField(node, SampleShape, "identifiers");
    ListyField(node, SampleShape, "anatomical_sites");
  }

  lemma SampleDefaultedFields(node: Record)
    ensures var r := Normalise(node, SampleShape);
      && "depositions" in r && r["depositions"] == (if "depositions" in node then node["depositions"] else JList([]))
      && "metadata" in r && r["metadata"] == (if "metadata" in node then node["metadata"] else JObject(map[]))
  {
    assert "depositions"[0] != "identifiers"[0];
    DefaultedField(node, SampleShape, "depositions");
    DefaultedField(node, SampleShape, "metadata");
  }

  lemma SamplePlainFields(node: Record)
    ensures var r := Normalise(node, SampleShape);
      "tumor_grade" in r && r["tumor_grade"] == Get(node, "tumor_grade") && "diagnosis" in r && r["diagnosis"] == Get(node, "diagnosis")
  {
    assert "tumor_grade"[0] != "identifiers"[0];
    PlainField(node, SampleShape, "tumor_grade");
    PlainField(node, SampleShape, "diagnosis");
  }

  /** `_record_to_file`: the identifiers are wrapped when a lone string;
      checksums and metadata default to `{}`, depositions to `[]`. */
  lemma FileNormalisation(node: Record)
    ensures var r := RecordToEntity(File, node);
      && r.Keys == {"id", "identifiers", "type", "size", "checksums", "description", "depositions", "metadata"}
      && "identifiers" in r && r["identifiers"] == (if "identifiers" in node then WrapString(node["identifiers"]) else JList([]))
      && "checksums" in r && r["checksums"] == (if "checksums" in node then node["checksums"] else JObject(map[]))
      && "depositions" in r && r["depositions"] == (if "depositions" in node then node["depositions"] else JList([]))
      && "metadata" in r && r["metadata"] == (if "metadata" in node then node["metadata"] else JObject(map[]))
      && "size" in r && r["size"] == Get(node, "size")
  {
    ListyField(node, FileShape, "identifiers");
    DefaultedField(node, FileShape, "checksums");
    DefaultedField(node, FileShape, "depositions");
    DefaultedField(node, FileShape, "metadata");
    PlainField(node, FileShape, "size");
  }

  /** `row.get(alias, {})`, as far as it can be read as a node: a missing
      node is the empty map; a value that is not a map cannot be read. */
  function NodeOf(row: Record, alias: string): (node: Option<Record>)
    ensures alias !in row ==> node == Some(map[])
    ensures alias in row ==> (node.Some? <==> row[alias].JObject?)
    ensures alias in row && row[alias].JObject? ==> node == Some(row[alias].fields)
  {
    if alias !in row then Some(map[])
    else if row[alias].JObject? then Some(row[alias].fields)
    else None
  }

  /** The entities of a list result, one per row, in row order; the first row
      whose node is not a map aborts the whole conversion. */
  function EntitiesOf(rows: seq<Record>, alias: string, entity: EntityType): (r: Result<seq<Record>, Fault>)
    ensures r.Success? <==> forall i :: 0 <= i < |rows| ==> NodeOf(rows[i], alias).Some?
    ensures r.Success? ==> |r.value| == |rows|
    ensures r.Success? ==> forall i :: 0 <= i < |rows| ==> r.value[i] == RecordToEntity(entity, NodeOf(rows[i], alias).value)
    ensures r.Failure? ==> r.error == MalformedRow
    decreases |rows|
  {
    if |rows| == 0 then Success([])
    else match NodeOf(rows[0], alias)
      case None => Failure(MalformedRow)
      case Some(node) =>
        match EntitiesOf(rows[1..], alias, entity)
        case Failure(e) => Failure(e)
        case Success(rest) => Success([RecordToEntity(entity, node)] + rest)
  }

  /** One row of a count: `{"value": row.get("value"), "count": row.get("count", 0)}` */
  function CountRow(row: Record): (r: Record)
    ensures r.Keys == {"value", "count"}
    ensures "value" in r && r["value"] == Get(row, "value")
    ensures "count" !in row ==> "count" in r && r["count"] == JInt(0)
    ensures "count" in row ==> "count" in r && r["count"] == row["count"]
  {
    map["value" := Get(row, "value"), "count" := GetOr(row, "count", JInt(0))]
  }

  /** The summary: the first row, or a zero total when there is none. */
  function SummaryOf(rows: seq<Record>): (r: Record)
    ensures rows == [] ==> r == map["total_count" := JInt(0)]
    ensures rows != [] ==> r == rows[0]
  {
    if rows == [] then map["total_count" := JInt(0)] else rows[0]
  }
}
