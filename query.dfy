/** The search request the query compiler hands to the search engine, as data:
    the filter tree of elasticsearch_dsl filters, the nested-terms aggregation
    buckets, and the bucketed aggregation response that comes back.
    `Matches` is a reference reading of a filter against one document, used to
    state what a compiled filter means. */
module Query {
  import opened Wrappers

  /** The elasticsearch_dsl filters the compiler builds; `&` builds `And`. */
  datatype Filter =
    | MatchAll
    | And(left: Filter, right: Filter)
    | Term(field: string, value: string)
    | Nested(path: string, inner: Filter)
    | RangeLte(field: string, bound: int)
    | RangeGte(field: string, bound: int)
    | Missing(field: string)

  /** A field value of an indexed document: an exact (raw) string or a timestamp. */
  datatype Value = Keyword(text: string) | Date(at: int)

  /** An indexed document: its top-level fields by dotted name, and for each nested
      path the nested objects, whose fields carry the full dotted name. */
  datatype Document = Document(fields: map<string, Value>, nested: map<string, seq<map<string, Value>>>)

  /** Whether document `d` satisfies filter `f`. A nested clause is evaluated
      against each object of its own nested collection, never the top level. */
  predicate Matches(f: Filter, d: Document) {
    match f
    case MatchAll => true
    case And(l, r) => Matches(l, d) && Matches(r, d)
    case Term(k, v) => k in d.fields && d.fields[k] == Keyword(v)
    case Nested(p, inner) =>
      p in d.nested && exists o :: o in d.nested[p] && Matches(inner, Document(o, map[]))
    case RangeLte(k, t) => k in d.fields && d.fields[k].Date? && d.fields[k].at <= t
    case RangeGte(k, t) => k in d.fields && d.fields[k].Date? && d.fields[k].at >= t
    case Missing(k) => k !in d.fields
  }

  /** The conjuncts of a left-nested `&` chain, in the order they were added. */
  function Conjuncts(f: Filter): seq<Filter> {
    match f
    case And(l, r) => Conjuncts(l) + [r]
    case _ => []
  }

  /** The filter a left-nested `&` chain starts from. */
  function Innermost(f: Filter): Filter {
    match f
    case And(l, _) => Innermost(l)
    case _ => f
  }

  /** The time bounds a filter compares against. */
  function Instants(f: Filter): set<int> {
    match f
    case And(l, r) => Instants(l) + Instants(r)
    case Nested(_, inner) => Instants(inner)
    case RangeLte(_, t) => {t}
    case RangeGte(_, t) => {t}
    case _ => {}
  }

  /** Whether a term-equality test occurs anywhere in the filter. */
  predicate HasTerm(f: Filter) {
    match f
    case Term(_, _) => true
    case And(l, r) => HasTerm(l) || HasTerm(r)
    case Nested(_, inner) => HasTerm(inner)
    case _ => false
  }

  /** `qs.query("match", <field>=<text>)` */
  datatype MatchQuery = Match(field: string, text: string)

  /** `aggs.Nested(path=path, aggs={inner: aggs.Terms(field=field)})` registered
      with `qs.aggs.bucket(name, ...)`. */
  datatype Bucket = NestedTerms(name: string, path: string, inner: string, field: string)

  /** One search request: optional match clause, optional filter, sort keys and
      aggregation buckets. */
  datatype SearchRequest = SearchRequest(
    query: Option<MatchQuery>,
    filter: Option<Filter>,
    sort: seq<string>,
    aggs: seq<Bucket>)

  /** `cls.search_objects.search()`: a request that matches everything. */
  const BaseRequest := SearchRequest(None, None, [], [])

  /** One `{key, doc_count}` entry of a terms aggregation. */
  datatype RawBucket = RawBucket(key: string, docCount: nat)

  /** `qs.execute().aggregations`: for each bucket name, its sub-aggregations by
      name, each a sequence of terms buckets in engine order. */
  type RawAggregations = map<string, map<string, seq<RawBucket>>>

  /** Whether `raw` holds a result for every bucket the request declared, under the
      names the request gave them (what the engine returns). */
  predicate Answers(req: SearchRequest, raw: RawAggregations) {
    forall b :: b in req.aggs ==> b.name in raw && b.inner in raw[b.name]
  }
}
