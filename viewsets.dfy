/** The two request handlers of djesrf/viewsets.py: `list` strips the reserved
    query parameters and forwards the rest to `search` as filters; `aggregates`
    does the same for `get_aggregates` and reshapes its report into the
    paginated-list layout. */
module Viewsets {
  import opened Wrappers
  import opened Text
  import opened Dicts
  import opened Query
  import opened Searchable
  import opened Aggregateable

  /** A request's query parameters (one value per key, the one `params[key]` reads). */
  class ParamDict {
    var entries: Dict<string, string>

    /** `deepcopy(request.QUERY_PARAMS)` */
    constructor Copy(source: Dict<string, string>)
      ensures entries == source
    {
      entries := source;
    }

    /** `key in params` */
    predicate Has(key: string)
      reads this
    {
      key in Keys(entries)
    }

    /** `params[key]` */
    function Lookup(key: string): (v: string)
      reads this
      requires Has(key)
      ensures Get(entries, key) == Some(v)
    {
      Get(entries, key).value
    }

    /** `del params[key]` */
    method Delete(key: string)
      requires Has(key)
      modifies this
      ensures entries == Without(old(entries), {key})
    {
      entries := Without(entries, {key});
    }
  }

  /** The parameters that never reach the filters. */
  const Reserved: set<string> := {"search", "ordering", "page", "page_size"}

  /** The ordering `list` forwards: the single `ordering` value, if present. */
  function OrderingParam(params: Dict<string, string>): Option<OrderingArg> {
    match Get(params, "ordering")
    case None => None
    case Some(o) => Some(Single(o))
  }

  /** The request `list` submits for query parameters `params`. */
  function ListedSearch(params: Dict<string, string>, now: int): SearchRequest {
    Search(Get(params, "search"), Some(Without(params, Reserved)), OrderingParam(params), now)
  }

  /** `if key in params: del params[key]`: the entry for `key` is gone afterwards. */
  method DeleteIfPresent(params: ParamDict, key: string)
    modifies params
    ensures params.entries == Without(old(params.entries), {key})
  {
    if params.Has(key) {
      params.Delete(key);
    } else {
      WithoutAbsent(params.entries, {key});
    }
  }

  /** Deleting the reserved keys one at a time deletes them all. */
  lemma StripInSteps(d: Dict<string, string>)
    ensures Without(Without(Without(Without(d, {"search"}), {"ordering"}), {"page"}), {"page_size"}) ==
            Without(d, Reserved)
  {
    WithoutWithout(d, {"search"}, {"ordering"});
    assert {"search"} + {"ordering"} == {"search", "ordering"};
    WithoutWithout(d, {"search", "ordering"}, {"page"});
    assert {"search", "ordering"} + {"page"} == {"search", "ordering", "page"};
    WithoutWithout(d, {"search", "ordering", "page"}, {"page_size"});
    assert {"search", "ordering", "page"} + {"page_size"} == Reserved;
  }

  /** The four reserved-key deletions; nothing else of the parameters changes. */
  method StripReserved(params: ParamDict)
    modifies params
    ensures params.entries == Without(old(params.entries), Reserved)
  {
    StripInSteps(params.entries);
    DeleteIfPresent(params, "search");
    DeleteIfPresent(params, "ordering");
    DeleteIfPresent(params, "page");
    DeleteIfPresent(params, "page_size");
  }

  /** `SearchableModelViewSet.list`, up to the request it submits; the caller's
      parameters are copied, never changed. */
  method List(request: ParamDict, now: int) returns (submitted: SearchRequest)
    ensures submitted == ListedSearch(request.entries, now)
  {
    var params := new ParamDict.Copy(request.entries);
    var query: Option<string> := None;
    if params.Has("search") {
      query := Some(params.Lookup("search"));
    }
    var ordering: Option<OrderingArg> := None;
    if params.Has("ordering") {
      ordering := Some(Single(params.Lookup("ordering")));
    }
    StripReserved(params);
    submitted := Search(query, Some(params.entries), ordering, now);
  }

  /** One `{"value": ..., "count": ...}` entry. */
  datatype ValueCount = ValueCount(value: string, count: nat)

  /** One `{"name": ..., "path": ..., "aggregates": [...]}` entry. */
  datatype AggregateEntry = AggregateEntry(name: string, path: string, aggregates: seq<ValueCount>)

  /** The body `aggregates` responds with. */
  datatype AggregateResponse =
    AggregateResponse(count: nat, next: Option<string>, previous: Option<string>, results: seq<AggregateEntry>)

  /** The entry for report key `key` with value counts `obj`, pairs in order. */
  function EntryFor(key: string, obj: Dict<string, nat>): (r: AggregateEntry)
    ensures '.' !in r.name && '.' !in r.path
    ensures Lower(r.name) == Lower(FirstSegment(key)) && FirstSegment(key) <= key
    ensures |r.aggregates| == |obj|
    ensures forall j :: 0 <= j < |obj| ==> r.aggregates[j].value == obj[j].0 && r.aggregates[j].count == obj[j].1
  {
    ReplaceDotLeavesNoDot(key);
    var segment := FirstSegment(key);
    var t := Title(segment);
    TitleFromKeepsLetters(segment, false);
    forall i | 0 <= i < |t| ensures t[i] != '.' {
      assert segment[i] in segment;
    }
    AggregateEntry(Title(FirstSegment(key)), ReplaceDot(key),
                   seq(|obj|, j requires 0 <= j < |obj| => ValueCount(obj[j].0, obj[j].1)))
  }

  /** The response for report `report`: one entry per key, in order. */
  function Shaped(report: AggregateReport): AggregateResponse {
    AggregateResponse(|report|, None, None,
                      seq(|report|, i requires 0 <= i < |report| => EntryFor(report[i].0, report[i].1)))
  }

  /** The response-shaping loops of `aggregates`. */
  method FormatAggregates(report: AggregateReport) returns (response: AggregateResponse)
    ensures response == Shaped(report)
  {
    var results: seq<AggregateEntry> := [];
    for i := 0 to |report|
      invariant |results| == i
      invariant forall j :: 0 <= j < i ==> results[j] == EntryFor(report[j].0, report[j].1)
    {
      var (path, obj) := report[i];
      var name := Title(FirstSegment(path));
      var flatPath := ReplaceDot(path);
      var aggregates: seq<ValueCount> := [];
      for k := 0 to |obj|
        invariant |aggregates| == k
        invariant forall j :: 0 <= j < k ==> aggregates[j] == ValueCount(obj[j].0, obj[j].1)
      {
        var (value, count) := obj[k];
        aggregates := aggregates + [ValueCount(value, count)];
      }
      results := results + [AggregateEntry(name, flatPath, aggregates)];
    }
    response := AggregateResponse(|report|, None, None, results);
  }

  /** What `aggregates` responds with for query parameters `params`. */
  function AggregatedView(params: Dict<string, string>, attrs: Option<seq<Declaration>>, now: int,
                          engine: SearchRequest -> RawAggregations): Result<AggregateResponse, Error> {
    match AggregatesFor(attrs, Get(params, "search"), Some(Without(params, Reserved)), now, engine)
    case Failure(e) => Failure(e)
    case Success(report) => Success(Shaped(report))
  }

  /** `AggregateableModelViewSet.aggregates`; the caller's parameters are
      copied, never changed. */
  method Aggregates(request: ParamDict, attrs: Option<seq<Declaration>>, now: int,
                    engine: SearchRequest -> RawAggregations) returns (response: Result<AggregateResponse, Error>)
    ensures response == AggregatedView(request.entries, attrs, now, engine)
  {
    var params := new ParamDict.Copy(request.entries);
    var query: Option<string> := None;
    if params.Has("search") {
      query := Some(params.Lookup("search"));
    }
    StripReserved(params);
    var results := GetAggregates(attrs, query, Some(params.entries), now, engine);
    if results.Failure? {
      return Failure(results.error);
    }
    var body := FormatAggregates(results.value);
    response := Success(body);
  }

  // ---- properties ----

  /** Pagination parameters change nothing about the submitted request. */
  lemma PaginationIgnored(params: Dict<string, string>, key: string, value: string, now: int)
    requires key == "page" || key == "page_size"
    ensures ListedSearch(Put(params, key, value), now) == ListedSearch(params, now)
  {
    WithoutPut(params, key, value, Reserved);
    PutGet(params, key, value, "search");
    PutGet(params, key, value, "ordering");
  }

  /** No reserved parameter ever becomes a filter: the filter part of the
      request is that of the parameters without the reserved ones. */
  lemma ReservedNeverFilters(params: Dict<string, string>, key: string, value: string, now: int)
    requires key in Reserved
    ensures ListedSearch(Put(params, key, value), now).filter == ListedSearch(params, now).filter
  {
    WithoutPut(params, key, value, Reserved);
  }

  /** The search parameter, when non-empty, is the free-text query, and the
      ordering parameter, when non-empty, is the normalized sort. */
  lemma ListedQueryAndSort(params: Dict<string, string>, search: string, ordering: string, now: int)
    requires Get(params, "search") == Some(search) && search != ""
    requires Get(params, "ordering") == Some(ordering) && ordering != ""
    ensures ListedSearch(params, now).query == Some(Match("_all", search))
    ensures ListedSearch(params, now).sort == [DottedPath(ordering)]
  {
    assert OrderingGiven(OrderingParam(params));
    assert Listed(Single(ordering)) == [ordering];
  }

  /** `aggregates` ignores ordering and pagination parameters entirely. */
  lemma AggregatesIgnoreOrderingAndPages(params: Dict<string, string>, key: string, value: string,
                                         attrs: Option<seq<Declaration>>, now: int,
                                         engine: SearchRequest -> RawAggregations)
    requires key == "ordering" || key == "page" || key == "page_size"
    ensures AggregatedView(Put(params, key, value), attrs, now, engine) == AggregatedView(params, attrs, now, engine)
  {
    WithoutPut(params, key, value, Reserved);
    PutGet(params, key, value, "search");
  }

  /** A report key without dots is its own path, and names the entry by its
      title-cased self. */
  lemma DotFreeKeyEntry(key: string, obj: Dict<string, nat>)
    requires '.' !in key
    ensures EntryFor(key, obj).path == key
    ensures EntryFor(key, obj).name == Title(key)
    ensures Lower(EntryFor(key, obj).name) == Lower(key)
  {
    assert FirstSegment(key) == key;
    ReplaceDotFixes(key);
  }

  /** The response of a successful `aggregates`: no pages, one entry per report
      key in report order, `count` equal to the number of distinct keys, each
      entry's path the report key itself and its name that key title-cased,
      and its value counts the key's parsed buckets in order. */
  lemma AggregatesResponseShape(params: Dict<string, string>, attrs: Option<seq<Declaration>>, now: int,
                                engine: SearchRequest -> RawAggregations)
    requires AggregatedView(params, attrs, now, engine).Success?
    ensures var report := AggregatesFor(attrs, Get(params, "search"), Some(Without(params, Reserved)), now, engine).value;
            var response := AggregatedView(params, attrs, now, engine).value;
            && response.next.None? && response.previous.None?
            && response.count == |response.results| == |report| == |Keys(report)|
            && forall i :: 0 <= i < |report| ==>
                 && response.results[i].path == report[i].0
                 && response.results[i].name == Title(report[i].0)
                 && |response.results[i].aggregates| == |report[i].1|
  {
    var filters := Some(Without(params, Reserved));
    var report := AggregatesFor(attrs, Get(params, "search"), filters, now, engine).value;
    PinnedAggregatesSuppressed(attrs, Get(params, "search"), filters, now, engine);
    var p := Plan(Search(Get(params, "search"), filters, None, now), PublicAttributes(attrs.value)).value;
    ReportUniqueKeys(p.names, p.fields, filters, engine(p.request));
    SizeIsKeyCount(report);
    forall i | 0 <= i < |report|
      ensures EntryFor(report[i].0, report[i].1).path == report[i].0
      ensures EntryFor(report[i].0, report[i].1).name == Title(report[i].0)
    {
      assert report[i].0 in Keys(report);
      var d :| d in PublicAttributes(attrs.value) && FlatField(d.1["field"]) == report[i].0;
      ReplaceDotLeavesNoDot(Lower(d.1["field"]));
      DotFreeKeyEntry(report[i].0, report[i].1);
    }
  }
}
