/** The query builder, the field allowlist and the database session, seen
    from the repositories. The builder and the allowlist live in
    `app/lib/cypher_builder.py` and `app/lib/field_allowlist.py`, which are not
    part of this model: the builder only records the calls it receives, the
    allowlist is an arbitrary predicate, and the database an arbitrary
    function from queries to rows. */
module QueryModel {
  import opened Values

  datatype EntityType = Subject | Sample | File {
    /** The entity name the allowlist and the builder are given. */
    function Name(): string {
      match this
      case Subject => "subject"
      case Sample => "sample"
      case File => "file"
    }
  }

  /** `FieldAllowlist.is_field_allowed(entity, field)` */
  type Allowlist = (EntityType, string) -> bool

  /** One clause of a diagnosis search: a `WHERE` fragment and its parameters. */
  datatype Clause = Clause(where: string, params: map<string, Json>)

  /** `build_diagnosis_search_clauses(term, entity)` */
  type DiagnosisClauses = (string, EntityType) -> seq<Clause>

  /** A call received by the query builder. */
  datatype BuilderCall =
    | AddWhere(clause: Clause)
    | AddFilter(alias: string, field: string, value: string, entity: EntityType)

  /** A query as sent to the database: what was built, and how. */
  datatype Query =
    | ListQuery(entity: EntityType, calls: seq<BuilderCall>, offset: int, limit: int)
    | CountQuery(entity: EntityType, calls: seq<BuilderCall>, field: string)
    | SummaryQuery(entity: EntityType, calls: seq<BuilderCall>)
    | LookupQuery(entity: EntityType, params: map<string, Json>)

  /** The rows the database returns for each query. */
  type Database = Query -> seq<Record>

  /** `CypherQueryBuilder`: accumulates the calls it receives, in order. */
  class QueryBuilder {
    var calls: seq<BuilderCall>

    constructor ()
      ensures calls == []
    {
      calls := [];
    }

    /** `add_where(where, params)` */
    method AddWhere(clause: Clause)
      modifies this
      ensures calls == old(calls) + [BuilderCall.AddWhere(clause)]
    {
      calls := calls + [BuilderCall.AddWhere(clause)];
    }

    /** `add_filter(alias, field, value, allowlist, entity)` */
    method AddFilter(alias: string, field: string, value: string, entity: EntityType)
      modifies this
      ensures calls == old(calls) + [BuilderCall.AddFilter(alias, field, value, entity)]
    {
      calls := calls + [BuilderCall.AddFilter(alias, field, value, entity)];
    }

    /** `build_subjects_query`, `build_samples_query`, `build_files_query` */
    function BuildListQuery(entity: EntityType, offset: int, limit: int): Query
      reads this
    {
      ListQuery(entity, calls, offset, limit)
    }

    /** `build_count_by_field_query(entity, field)` */
    function BuildCountByFieldQuery(entity: EntityType, field: string): Query
      reads this
    {
      CountQuery(entity, calls, field)
    }

    /** `build_summary_query(entity)` */
    function BuildSummaryQuery(entity: EntityType): Query
      reads this
    {
      SummaryQuery(entity, calls)
    }
  }

  /** A database session: it answers every query from `db` and keeps the
      queries it ran, in order. */
  class Session {
    const db: Database
    var executed: seq<Query>

    constructor (db: Database)
      ensures this.db == db && executed == []
    {
      this.db := db;
      executed := [];
    }

    /** `session.run(cypher, params)` followed by `result.data()` */
    method Run(query: Query) returns (rows: seq<Record>)
      modifies this
      ensures executed == old(executed) + [query]
      ensures rows == db(query)
    {
      executed := executed + [query];
      rows := db(query);
    }
  }
}
