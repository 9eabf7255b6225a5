/** `Aggregateable` (djesrf/models.py): reads the aggregation declarations,
    attaches one nested-terms bucket per declaration to the search request, and
    parses the engine's bucket response into `field -> (value -> count)`. */
module Aggregateable {
  import opened Wrappers
  import opened Text
  import opened Dicts
  import opened Query
  import opened Searchable

  /** A declaration's dictionary, expected to hold the keys "path" and "field". */
  type Mapping = map<string, string>

  /** An attribute of the `Aggregates` inner class: its name and its value. */
  type Declaration = (string, Mapping)

  /** The exceptions the aggregation path raises. */
  datatype Error =
    | MissingAggregatesClass
    | MisconfiguredDeclaration(name: string, mapping: Mapping)
    | MissingBucket(name: string)

  /** `field.startswith("_")` */
  predicate IsPrivate(name: string) {
    |name| > 0 && name[0] == '_'
  }

  /** Python's string order, by code point. */
  predicate Before(a: string, b: string) {
    if a == [] then b != []
    else if b == [] then false
    else a[0] < b[0] || (a[0] == b[0] && Before(a[1..], b[1..]))
  }

  /** Names strictly increasing, as `dir()` lists attributes. */
  predicate SortedByName(attrs: seq<Declaration>) {
    forall i, j :: 0 <= i < j < |attrs| ==> Before(attrs[i].0, attrs[j].0)
  }

  /** The attributes whose names do not start with an underscore, in order. */
  function PublicAttributes(attrs: seq<Declaration>): (r: seq<Declaration>)
    ensures forall x :: x in r <==> x in attrs && !IsPrivate(x.0)
  {
    if attrs == [] then []
    else
      var n := |attrs| - 1;
      assert attrs == attrs[..n] + [attrs[n]];
      if IsPrivate(attrs[n].0) then PublicAttributes(attrs[..n])
      else PublicAttributes(attrs[..n]) + [attrs[n]]
  }

  /** What `_get_aggregate_declarations` returns for the attributes `dir()` lists
      on the `Aggregates` inner class, or for a model without one (`None`). */
  function Declarations(attrs: Option<seq<Declaration>>): Result<seq<Declaration>, Error> {
    if attrs.None? then Failure(MissingAggregatesClass)
    else Success(PublicAttributes(attrs.value))
  }

  /** `_get_aggregate_declarations` */
  method GetAggregateDeclarations(attrs: Option<seq<Declaration>>) returns (r: Result<seq<Declaration>, Error>)
    ensures r == Declarations(attrs)
  {
    if attrs.None? {
      return Failure(MissingAggregatesClass);
    }
    var all := attrs.value;
    var aggMappings := [];
    for i := 0 to |all|
      invariant aggMappings == PublicAttributes(all[..i])
    {
      assert all[..i + 1][..i] == all[..i];
      if !IsPrivate(all[i].0) {
        aggMappings := aggMappings + [all[i]];
      }
    }
    assert all[..|all|] == all;
    return Success(aggMappings);
  }

  /** One declaration per public attribute, and in `dir()` order. */
  lemma {:induction false} PublicAttributesSorted(attrs: seq<Declaration>)
    requires SortedByName(attrs)
    ensures SortedByName(PublicAttributes(attrs))
  {
    if attrs != [] {
      var n := |attrs| - 1;
      var prefix := attrs[..n];
      assert SortedByName(prefix) by {
        forall i, j | 0 <= i < j < |prefix| ensures Before(prefix[i].0, prefix[j].0) {
          assert prefix[i] == attrs[i] && prefix[j] == attrs[j];
        }
      }
      PublicAttributesSorted(prefix);
      var p := PublicAttributes(prefix);
      if !IsPrivate(attrs[n].0) {
        forall i | 0 <= i < |p| ensures Before(p[i].0, attrs[n].0) {
          assert p[i] in prefix;
          var k :| 0 <= k < n && prefix[k] == p[i];
          assert attrs[k] == p[i];
        }
      }
    }
  }

  /** Both required keys are present. */
  predicate Declared(mapping: Mapping) {
    "path" in mapping && "field" in mapping
  }

  /** `i` is the first declaration without both keys. */
  predicate FirstMisconfigured(decls: seq<Declaration>, i: int) {
    && 0 <= i < |decls|
    && !Declared(decls[i].1)
    && forall j :: 0 <= j < i ==> Declared(decls[j].1)
  }

  /** The nested-terms bucket for one declaration; the terms sub-aggregation is
      keyed by the declaration's path. */
  function BucketFor(name: string, mapping: Mapping): Bucket
    requires Declared(mapping)
  {
    NestedTerms(name, mapping["path"], mapping["path"], mapping["field"])
  }

  /** What `_build_aggregates` returns: the request, the bucket names, the fields. */
  datatype Planned = Planned(request: SearchRequest, names: seq<string>, fields: seq<string>)

  /** The outcome of `_build_aggregates` on request `qs` and declarations `decls`:
      the first misconfigured declaration is reported by name and contents;
      otherwise one bucket, one name and one field per declaration, in order, and
      nothing else of the request changes. */
  function Plan(qs: SearchRequest, decls: seq<Declaration>): (r: Result<Planned, Error>)
    ensures r.Success? <==> forall i :: 0 <= i < |decls| ==> Declared(decls[i].1)
    ensures r.Failure? ==>
      exists i :: FirstMisconfigured(decls, i) && r.error == MisconfiguredDeclaration(decls[i].0, decls[i].1)
    ensures r.Success? ==>
      && r.value.request == qs.(aggs := r.value.request.aggs)
      && |r.value.names| == |decls| && |r.value.fields| == |decls|
      && |r.value.request.aggs| == |qs.aggs| + |decls|
      && r.value.request.aggs[..|qs.aggs|] == qs.aggs
      && forall i :: 0 <= i < |decls| ==>
           && Declared(decls[i].1)
           && r.value.names[i] == decls[i].0
           && r.value.fields[i] == decls[i].1["field"]
           && r.value.request.aggs[|qs.aggs| + i] == BucketFor(decls[i].0, decls[i].1)
  {
    if decls == [] then Success(Planned(qs, [], []))
    else
      var n := |decls| - 1;
      var (name, mapping) := decls[n];
      assert forall i :: 0 <= i < n ==> decls[..n][i] == decls[i];
      match Plan(qs, decls[..n])
      case Failure(e) => Failure(e)
      case Success(p) =>
        if !Declared(mapping) then
          assert FirstMisconfigured(decls, n);
          Failure(MisconfiguredDeclaration(name, mapping))
        else
          var aggs := p.request.aggs + [BucketFor(name, mapping)];
          assert aggs[..|qs.aggs|] == p.request.aggs[..|qs.aggs|];
          Success(Planned(p.request.(aggs := aggs), p.names + [name], p.fields + [mapping["field"]]))
  }

  /** `_build_aggregates` */
  method BuildAggregates(qs: SearchRequest, decls: seq<Declaration>) returns (r: Result<Planned, Error>)
    ensures r == Plan(qs, decls)
  {
    var request := qs;
    var names := [];
    var fields := [];
    for i := 0 to |decls|
      invariant Plan(qs, decls[..i]) == Success(Planned(request, names, fields))
    {
      assert decls[..i + 1][..i] == decls[..i];
      var (name, mapping) := decls[i];
      if !("path" in mapping && "field" in mapping) {
        PlanFailureIsFirst(qs, decls, i);
        return Failure(MisconfiguredDeclaration(name, mapping));
      }
      var path := mapping["path"];
      var field := mapping["field"];
      request := request.(aggs := request.aggs + [NestedTerms(name, path, path, field)]);
      names := names + [name];
      fields := fields + [field];
    }
    assert decls[..|decls|] == decls;
    return Success(Planned(request, names, fields));
  }

  lemma PlanFailureIsFirst(qs: SearchRequest, decls: seq<Declaration>, i: int)
    requires FirstMisconfigured(decls, i)
    ensures Plan(qs, decls) == Failure(MisconfiguredDeclaration(decls[i].0, decls[i].1))
  {
    var r := Plan(qs, decls);
    var k :| FirstMisconfigured(decls, k) && r.error == MisconfiguredDeclaration(decls[k].0, decls[k].1);
    assert k == i;
  }

  /** `dict([(b["key"], b["doc_count"]) for b in buckets])`: later duplicates win. */
  function ParseBuckets(buckets: seq<RawBucket>): Dict<string, nat> {
    if buckets == [] then []
    else
      var n := |buckets| - 1;
      Put(ParseBuckets(buckets[..n]), buckets[n].key, buckets[n].docCount)
  }

  /** The parsed buckets form a dict: one entry per distinct bucket key. */
  lemma {:induction false} ParseBucketsKeys(buckets: seq<RawBucket>)
    ensures UniqueKeys(ParseBuckets(buckets))
    ensures Keys(ParseBuckets(buckets)) == set b | b in buckets :: b.key
  {
    if buckets != [] {
      var n := |buckets| - 1;
      var prefix := buckets[..n];
      ParseBucketsKeys(prefix);
      PutKeepsUniqueKeys(ParseBuckets(prefix), buckets[n].key, buckets[n].docCount);
      assert (set b | b in buckets :: b.key) == (set b | b in prefix :: b.key) + {buckets[n].key} by {
        assert buckets == prefix + [buckets[n]];
      }
    }
  }

  /** `i` is the last bucket carrying `key`. */
  predicate LastOccurrence(buckets: seq<RawBucket>, key: string, i: int) {
    && 0 <= i < |buckets|
    && buckets[i].key == key
    && forall j :: i < j < |buckets| ==> buckets[j].key != key
  }

  /** A bucket key maps to the document count of its last occurrence. */
  lemma {:induction false} ParseBucketsLastWins(buckets: seq<RawBucket>, key: string, i: int)
    requires LastOccurrence(buckets, key, i)
    ensures Get(ParseBuckets(buckets), key) == Some(buckets[i].docCount)
  {
    var n := |buckets| - 1;
    if i < n {
      LastOccurrenceInPrefix(buckets, key, i);
      ParseBucketsLastWins(buckets[..n], key, i);
      ParseBucketsSkip(buckets, key);
    } else {
      ParseBucketsLast(buckets);
    }
  }

  lemma LastOccurrenceInPrefix(buckets: seq<RawBucket>, key: string, i: int)
    requires LastOccurrence(buckets, key, i) && i < |buckets| - 1
    ensures LastOccurrence(buckets[..|buckets| - 1], key, i)
    ensures buckets[..|buckets| - 1][i] == buckets[i]
  {
  }

  lemma ParseBucketsSkip(buckets: seq<RawBucket>, key: string)
    requires buckets != [] && buckets[|buckets| - 1].key != key
    ensures Get(ParseBuckets(buckets), key) == Get(ParseBuckets(buckets[..|buckets| - 1]), key)
  {
    var n := |buckets| - 1;
    assert ParseBuckets(buckets) == Put(ParseBuckets(buckets[..n]), buckets[n].key, buckets[n].docCount);
    PutGet(ParseBuckets(buckets[..n]), buckets[n].key, buckets[n].docCount, key);
  }

  lemma ParseBucketsLast(buckets: seq<RawBucket>)
    requires buckets != []
    ensures Get(ParseBuckets(buckets), buckets[|buckets| - 1].key) == Some(buckets[|buckets| - 1].docCount)
  {
    var n := |buckets| - 1;
    assert ParseBuckets(buckets) == Put(ParseBuckets(buckets[..n]), buckets[n].key, buckets[n].docCount);
    PutGet(ParseBuckets(buckets[..n]), buckets[n].key, buckets[n].docCount, buckets[n].key);
  }

  /** `field.lower().replace(".", "__")`: the result key of a declared field. */
  function FlatField(field: string): string {
    ReplaceDot(Lower(field))
  }

  /** A flattened key has no dot left and is at least as long as the field. */
  lemma FlatFieldDotFree(field: string)
    ensures '.' !in FlatField(field)
    ensures |FlatField(field)| >= |field|
  {
    ReplaceDotLeavesNoDot(Lower(field));
  }

  /** A dotted field flattens segment by segment, each dot becoming `__`. */
  lemma FlatFieldJoin(a: string, b: string)
    ensures FlatField(a + "." + b) == FlatField(a) + "__" + FlatField(b)
  {
    LowerAppend(a + ".", b);
    LowerAppend(a, ".");
    ReplaceDotAppend(Lower(a) + ".", Lower(b));
    ReplaceDotAppend(Lower(a), ".");
    assert Lower(".") == "." && ReplaceDot(".") == "__";
  }

  /** `if filters: if key in filters`: the key is pinned by an active filter. */
  predicate Pinned(filters: Option<Dict<string, string>>, key: string) {
    filters.Some? && filters.value != [] && key in Keys(filters.value)
  }

  /** `raw_aggregates[name][name]` exists: the lookup uses the bucket name twice. */
  predicate Answered(raw: RawAggregations, name: string) {
    name in raw && name in raw[name]
  }

  /** The parsing loop of `get_aggregates` over buckets `names` and fields `fields`,
      as a left fold: pinned fields are skipped, the first unanswered bucket is an
      error, and every other field's parsed buckets are stored under its key. */
  function Report(names: seq<string>, fields: seq<string>, filters: Option<Dict<string, string>>,
                  raw: RawAggregations): Result<Dict<string, Dict<string, nat>>, Error>
    requires |names| == |fields|
  {
    if fields == [] then Success([])
    else
      var n := |fields| - 1;
      match Report(names[..n], fields[..n], filters, raw)
      case Failure(e) => Failure(e)
      case Success(acc) =>
        var key := FlatField(fields[n]);
        if Pinned(filters, key) then Success(acc)
        else if !Answered(raw, names[n]) then Failure(MissingBucket(names[n]))
        else Success(Put(acc, key, ParseBuckets(raw[names[n]][names[n]])))
  }

  /** One step of the parse: the last declaration's effect on the report of the
      ones before it. */
  lemma ReportLast(names: seq<string>, fields: seq<string>,
                   filters: Option<Dict<string, string>>, raw: RawAggregations)
    requires |names| == |fields| && fields != []
    ensures var n := |fields| - 1;
      var prev := Report(names[..n], fields[..n], filters, raw);
      var key := FlatField(fields[n]);
      Report(names, fields, filters, raw) ==
        if prev.Failure? || Pinned(filters, key) then prev
        else if !Answered(raw, names[n]) then Failure(MissingBucket(names[n]))
        else Success(Put(prev.value, key, ParseBuckets(raw[names[n]][names[n]])))
  {
  }

  /** One step of a successful parse: the declarations before the last one
      parsed too, and the last one's bucket was found unless its field is pinned. */
  lemma ReportStepSucceeds(names: seq<string>, fields: seq<string>,
                           filters: Option<Dict<string, string>>, raw: RawAggregations)
    requires |names| == |fields| && fields != []
    requires Report(names, fields, filters, raw).Success?
    ensures Report(names[..|fields| - 1], fields[..|fields| - 1], filters, raw).Success?
    ensures !Pinned(filters, FlatField(fields[|fields| - 1])) ==> Answered(raw, names[|fields| - 1])
  {
    ReportLast(names, fields, filters, raw);
  }

  /** One step of a successful parse adds the last field's key unless it is pinned. */
  lemma ReportStepKeys(names: seq<string>, fields: seq<string>,
                       filters: Option<Dict<string, string>>, raw: RawAggregations)
    requires |names| == |fields| && fields != []
    requires Report(names, fields, filters, raw).Success?
    ensures Report(names[..|fields| - 1], fields[..|fields| - 1], filters, raw).Success?
    ensures var key := FlatField(fields[|fields| - 1]);
      Keys(Report(names, fields, filters, raw).value) ==
        Keys(Report(names[..|fields| - 1], fields[..|fields| - 1], filters, raw).value) +
        (if Pinned(filters, key) then {} else {key})
  {
    ReportLast(names, fields, filters, raw);
  }

  /** A report, like any Python dict, holds each key once. */
  lemma {:induction false} ReportUniqueKeys(names: seq<string>, fields: seq<string>,
                                             filters: Option<Dict<string, string>>, raw: RawAggregations)
    requires |names| == |fields|
    requires Report(names, fields, filters, raw).Success?
    ensures UniqueKeys(Report(names, fields, filters, raw).value)
  {
    if fields != [] {
      var n := |fields| - 1;
      ReportLast(names, fields, filters, raw);
      ReportUniqueKeys(names[..n], fields[..n], filters, raw);
      var acc := Report(names[..n], fields[..n], filters, raw).value;
      if !Pinned(filters, FlatField(fields[n])) {
        PutKeepsUniqueKeys(acc, FlatField(fields[n]), ParseBuckets(raw[names[n]][names[n]]));
      }
    }
  }

  /** Parsing fails exactly when some unpinned declaration's bucket is unanswered. */
  lemma ReportSucceeds(names: seq<string>, fields: seq<string>,
                       filters: Option<Dict<string, string>>, raw: RawAggregations)
    requires |names| == |fields|
    ensures Report(names, fields, filters, raw).Success? <==>
      forall i :: 0 <= i < |fields| && !Pinned(filters, FlatField(fields[i])) ==> Answered(raw, names[i])
  {
    if Report(names, fields, filters, raw).Success? {
      forall i | 0 <= i < |fields| && !Pinned(filters, FlatField(fields[i])) ensures Answered(raw, names[i]) {
        ReportAnsweredAt(names, fields, filters, raw, i);
      }
    }
    if forall i :: 0 <= i < |fields| && !Pinned(filters, FlatField(fields[i])) ==> Answered(raw, names[i]) {
      ReportSucceedsWhenAnswered(names, fields, filters, raw);
    }
  }

  /** A successful parse found the bucket of every unpinned declaration. */
  lemma {:induction false} ReportAnsweredAt(names: seq<string>, fields: seq<string>,
                                             filters: Option<Dict<string, string>>, raw: RawAggregations, i: int)
    requires |names| == |fields| && 0 <= i < |fields|
    requires Report(names, fields, filters, raw).Success?
    requires !Pinned(filters, FlatField(fields[i]))
    ensures Answered(raw, names[i])
  {
    var n := |fields| - 1;
    var pn, pf := names[..n], fields[..n];
    ReportStepSucceeds(names, fields, filters, raw);
    if i < n {
      assert pf[i] == fields[i] && pn[i] == names[i];
      ReportAnsweredAt(pn, pf, filters, raw, i);
    }
  }

  /** The parse succeeds when every unpinned declaration's bucket is answered. */
  lemma {:induction false} ReportSucceedsWhenAnswered(names: seq<string>, fields: seq<string>,
                                                       filters: Option<Dict<string, string>>, raw: RawAggregations)
    requires |names| == |fields|
    requires forall i :: 0 <= i < |fields| && !Pinned(filters, FlatField(fields[i])) ==> Answered(raw, names[i])
    ensures Report(names, fields, filters, raw).Success?
  {
    if fields != [] {
      var n := |fields| - 1;
      var pn, pf := names[..n], fields[..n];
      forall i | 0 <= i < n && !Pinned(filters, FlatField(pf[i])) ensures Answered(raw, pn[i]) {
        assert pf[i] == fields[i] && pn[i] == names[i];
      }
      ReportSucceedsWhenAnswered(pn, pf, filters, raw);
      ReportLast(names, fields, filters, raw);
    }
  }

  /** The error names the first unpinned declaration whose bucket is unanswered. */
  lemma {:induction false} ReportMissingBucket(names: seq<string>, fields: seq<string>,
                                                filters: Option<Dict<string, string>>, raw: RawAggregations)
    requires |names| == |fields|
    requires Report(names, fields, filters, raw).Failure?
    ensures exists i :: 0 <= i < |fields| && !Pinned(filters, FlatField(fields[i])) && !Answered(raw, names[i]) &&
                        Report(names, fields, filters, raw).error == MissingBucket(names[i])
  {
    var n := |fields| - 1;
    if Report(names[..n], fields[..n], filters, raw).Failure? {
      ReportMissingBucket(names[..n], fields[..n], filters, raw);
      var i :| 0 <= i < n && !Pinned(filters, FlatField(fields[..n][i])) && !Answered(raw, names[..n][i]) &&
               Report(names[..n], fields[..n], filters, raw).error == MissingBucket(names[..n][i]);
      assert fields[..n][i] == fields[i] && names[..n][i] == names[i];
    } else {
      assert !Pinned(filters, FlatField(fields[n])) && !Answered(raw, names[n]);
    }
  }

  /** The result has a key for each unpinned declared field and for nothing else:
      a field already pinned by a filter is never reported. */
  lemma ReportKeys(names: seq<string>, fields: seq<string>,
                   filters: Option<Dict<string, string>>, raw: RawAggregations)
    requires |names| == |fields|
    requires Report(names, fields, filters, raw).Success?
    ensures forall k :: k in Keys(Report(names, fields, filters, raw).value) <==>
      !Pinned(filters, k) && exists i :: 0 <= i < |fields| && FlatField(fields[i]) == k
  {
    forall k | k in Keys(Report(names, fields, filters, raw).value)
      ensures !Pinned(filters, k) && exists i :: 0 <= i < |fields| && FlatField(fields[i]) == k
    {
      ReportKeySource(names, fields, filters, raw, k);
    }
    forall i | 0 <= i < |fields| && !Pinned(filters, FlatField(fields[i]))
      ensures FlatField(fields[i]) in Keys(Report(names, fields, filters, raw).value)
    {
      ReportKeyPresent(names, fields, filters, raw, i);
    }
  }

  /** Every reported key is an unpinned declared field's key. */
  lemma {:induction false} ReportKeySource(names: seq<string>, fields: seq<string>,
                                            filters: Option<Dict<string, string>>, raw: RawAggregations, k: string)
    requires |names| == |fields|
    requires Report(names, fields, filters, raw).Success?
    requires k in Keys(Report(names, fields, filters, raw).value)
    ensures !Pinned(filters, k) && exists i :: 0 <= i < |fields| && FlatField(fields[i]) == k
  {
    var n := |fields| - 1;
    var pn, pf := names[..n], fields[..n];
    ReportLast(names, fields, filters, raw);
    var prev := Report(pn, pf, filters, raw);
    assert prev.Success?;
    if k in Keys(prev.value) {
      ReportKeySource(pn, pf, filters, raw, k);
      var i :| 0 <= i < n && FlatField(pf[i]) == k;
      assert pf[i] == fields[i];
    } else {
      assert k == FlatField(fields[n]);
    }
  }

  /** Every unpinned declared field's key is reported. */
  lemma {:induction false} ReportKeyPresent(names: seq<string>, fields: seq<string>,
                                             filters: Option<Dict<string, string>>, raw: RawAggregations, i: int)
    requires |names| == |fields| && 0 <= i < |fields|
    requires Report(names, fields, filters, raw).Success?
    requires !Pinned(filters, FlatField(fields[i]))
    ensures FlatField(fields[i]) in Keys(Report(names, fields, filters, raw).value)
  {
    var n := |fields| - 1;
    var pn, pf := names[..n], fields[..n];
    ReportStepKeys(names, fields, filters, raw);
    if i < n {
      assert pf[i] == fields[i];
      ReportKeyPresent(pn, pf, filters, raw, i);
    }
  }

  /** `i` is the last declaration whose field flattens to `key`. */
  predicate LastDeclaration(fields: seq<string>, key: string, i: int) {
    && 0 <= i < |fields|
    && FlatField(fields[i]) == key
    && forall j :: i < j < |fields| ==> FlatField(fields[j]) != key
  }

  /** A reported key holds the parsed buckets of the last declaration with that
      key, read from `raw[name][name]`. */
  lemma {:induction false} ReportValue(names: seq<string>, fields: seq<string>,
                                        filters: Option<Dict<string, string>>, raw: RawAggregations,
                                        key: string, i: int)
    requires |names| == |fields|
    requires Report(names, fields, filters, raw).Success?
    requires !Pinned(filters, key) && LastDeclaration(fields, key, i)
    ensures Answered(raw, names[i])
    ensures Get(Report(names, fields, filters, raw).value, key) == Some(ParseBuckets(raw[names[i]][names[i]]))
  {
    var n := |fields| - 1;
    ReportLast(names, fields, filters, raw);
    var prev := Report(names[..n], fields[..n], filters, raw);
    assert prev.Success?;
    if i < n {
      assert LastDeclaration(fields[..n], key, i) by {
        forall j | i < j < n ensures FlatField(fields[..n][j]) != key {
          assert fields[..n][j] == fields[j];
        }
        assert fields[..n][i] == fields[i];
      }
      ReportValue(names[..n], fields[..n], filters, raw, key, i);
      assert names[..n][i] == names[i];
      assert FlatField(fields[n]) != key;
      if !Pinned(filters, FlatField(fields[n])) {
        PutGet(prev.value, FlatField(fields[n]), ParseBuckets(raw[names[n]][names[n]]), key);
      }
    } else {
      PutGet(prev.value, key, ParseBuckets(raw[names[n]][names[n]]), key);
    }
  }

  /** Once a prefix of the declarations fails to parse, the whole parse fails the
      same way. */
  lemma {:induction false} ReportFailurePersists(names: seq<string>, fields: seq<string>,
                                                  filters: Option<Dict<string, string>>, raw: RawAggregations, m: nat)
    requires |names| == |fields| && m <= |fields|
    requires Report(names[..m], fields[..m], filters, raw).Failure?
    ensures Report(names, fields, filters, raw) == Report(names[..m], fields[..m], filters, raw)
    decreases |fields| - m
  {
    if m < |fields| {
      var n := |fields| - 1;
      assert names[..n][..m] == names[..m] && fields[..n][..m] == fields[..m];
      ReportFailurePersists(names[..n], fields[..n], filters, raw, m);
    } else {
      assert names[..m] == names && fields[..m] == fields;
    }
  }

  /** The report `get_aggregates` returns: flattened field key -> (value -> count). */
  type AggregateReport = Dict<string, Dict<string, nat>>

  /** The parsing loop of `get_aggregates`. */
  method ParseReport(names: seq<string>, fields: seq<string>, filters: Option<Dict<string, string>>,
                     raw: RawAggregations) returns (r: Result<AggregateReport, Error>)
    requires |names| == |fields|
    ensures r == Report(names, fields, filters, raw)
  {
    var aggregates: AggregateReport := [];
    for index := 0 to |fields|
      invariant Report(names[..index], fields[..index], filters, raw) == Success(aggregates)
    {
      assert names[..index + 1][..index] == names[..index];
      assert fields[..index + 1][..index] == fields[..index];
      ReportLast(names[..index + 1], fields[..index + 1], filters, raw);
      var dunderField := ReplaceDot(Lower(fields[index]));
      if filters.Some? && filters.value != [] {
        if dunderField in Keys(filters.value) {
          continue;
        }
      }
      var name := names[index];
      if !(name in raw && name in raw[name]) {
        ReportFailurePersists(names, fields, filters, raw, index + 1);
        return Failure(MissingBucket(name));
      }
      aggregates := Put(aggregates, dunderField, ParseBuckets(raw[name][name]));
    }
    assert names[..|fields|] == names && fields[..|fields|] == fields;
    return Success(aggregates);
  }

  /** What `get_aggregates(query, filters)` returns on a model with attributes
      `attrs`, when the engine answers request `q` with `engine(q)`. */
  function AggregatesFor(attrs: Option<seq<Declaration>>, query: Option<string>,
                         filters: Option<Dict<string, string>>, now: int,
                         engine: SearchRequest -> RawAggregations): Result<AggregateReport, Error>
  {
    match Declarations(attrs)
    case Failure(e) => Failure(e)
    case Success(decls) =>
      match Plan(Search(query, filters, None, now), decls)
      case Failure(e) => Failure(e)
      case Success(p) => Report(p.names, p.fields, filters, engine(p.request))
  }

  /** `get_aggregates` */
  method GetAggregates(attrs: Option<seq<Declaration>>, query: Option<string>,
                       filters: Option<Dict<string, string>>, now: int,
                       engine: SearchRequest -> RawAggregations)
    returns (r: Result<AggregateReport, Error>)
    ensures r == AggregatesFor(attrs, query, filters, now, engine)
  {
    var qs := Search(query, filters, None, now);
    var declared := GetAggregateDeclarations(attrs);
    if declared.Failure? {
      return Failure(declared.error);
    }
    var built := BuildAggregates(qs, declared.value);
    if built.Failure? {
      return Failure(built.error);
    }
    var planned := built.value;
    r := ParseReport(planned.names, planned.fields, filters, engine(planned.request));
  }

  /** A successful `get_aggregates` is the parse of the planned request's answer. */
  lemma AggregatesForSuccess(attrs: Option<seq<Declaration>>, query: Option<string>,
                             filters: Option<Dict<string, string>>, now: int,
                             engine: SearchRequest -> RawAggregations)
    requires AggregatesFor(attrs, query, filters, now, engine).Success?
    ensures attrs.Some?
    ensures Plan(Search(query, filters, None, now), PublicAttributes(attrs.value)).Success?
    ensures var p := Plan(Search(query, filters, None, now), PublicAttributes(attrs.value)).value;
      AggregatesFor(attrs, query, filters, now, engine) == Report(p.names, p.fields, filters, engine(p.request))
  {
  }

  /** A model without an `Aggregates` class, or whose first misconfigured public
      declaration is `i`, fails with a configuration error naming it. */
  lemma ConfigurationErrors(attrs: Option<seq<Declaration>>, query: Option<string>,
                            filters: Option<Dict<string, string>>, now: int,
                            engine: SearchRequest -> RawAggregations, i: int)
    ensures attrs.None? ==> AggregatesFor(attrs, query, filters, now, engine) == Failure(MissingAggregatesClass)
    ensures attrs.Some? && FirstMisconfigured(PublicAttributes(attrs.value), i) ==>
      var decls := PublicAttributes(attrs.value);
      AggregatesFor(attrs, query, filters, now, engine) == Failure(MisconfiguredDeclaration(decls[i].0, decls[i].1))
  {
    if attrs.Some? && FirstMisconfigured(PublicAttributes(attrs.value), i) {
      PlanFailureIsFirst(Search(query, filters, None, now), PublicAttributes(attrs.value), i);
    }
  }

  /** A model whose `Aggregates` class lists only underscore names under `dir()`,
      such as the empty class `Aggregateable` itself declares and its subclasses
      inherit, has no aggregates: `get_aggregates` returns an empty report. */
  lemma NoPublicDeclarations(attrs: Option<seq<Declaration>>, query: Option<string>,
                             filters: Option<Dict<string, string>>, now: int,
                             engine: SearchRequest -> RawAggregations)
    requires attrs.Some? && forall d :: d in attrs.value ==> IsPrivate(d.0)
    ensures AggregatesFor(attrs, query, filters, now, engine) == Success([])
  {
    PublicAttributesAllPrivate(attrs.value);
  }

  lemma {:induction false} PublicAttributesAllPrivate(attrs: seq<Declaration>)
    requires forall d :: d in attrs ==> IsPrivate(d.0)
    ensures PublicAttributes(attrs) == []
  {
    if attrs != [] {
      var n := |attrs| - 1;
      assert attrs[n] in attrs;
      assert forall d :: d in attrs[..n] ==> d in attrs;
      PublicAttributesAllPrivate(attrs[..n]);
    }
  }

  /** On success every public declaration is well formed; the report holds only
      keys of unpinned declared fields, and every unpinned declared field is
      reported: an aggregate whose field a filter already pins is suppressed. */
  lemma PinnedAggregatesSuppressed(attrs: Option<seq<Declaration>>, query: Option<string>,
                                   filters: Option<Dict<string, string>>, now: int,
                                   engine: SearchRequest -> RawAggregations)
    requires AggregatesFor(attrs, query, filters, now, engine).Success?
    ensures attrs.Some?
    ensures forall d :: d in PublicAttributes(attrs.value) ==> Declared(d.1)
    ensures forall k :: k in Keys(AggregatesFor(attrs, query, filters, now, engine).value) ==>
      !Pinned(filters, k) && exists d :: d in PublicAttributes(attrs.value) && FlatField(d.1["field"]) == k
    ensures forall d :: d in PublicAttributes(attrs.value) && !Pinned(filters, FlatField(d.1["field"])) ==>
      FlatField(d.1["field"]) in Keys(AggregatesFor(attrs, query, filters, now, engine).value)
  {
    AggregatesForSuccess(attrs, query, filters, now, engine);
    var decls := PublicAttributes(attrs.value);
    var p := Plan(Search(query, filters, None, now), decls).value;
    var raw := engine(p.request);
    ghost var r := AggregatesFor(attrs, query, filters, now, engine).value;
    assert Report(p.names, p.fields, filters, raw) == Success(r);
    PlannedFields(Search(query, filters, None, now), decls);
    forall k | k in Keys(r)
      ensures !Pinned(filters, k) && exists d :: d in decls && FlatField(d.1["field"]) == k
    {
      ReportKeySource(p.names, p.fields, filters, raw, k);
      var i :| 0 <= i < |p.fields| && FlatField(p.fields[i]) == k;
      assert decls[i] in decls;
    }
    forall d | d in decls && !Pinned(filters, FlatField(d.1["field"]))
      ensures FlatField(d.1["field"]) in Keys(r)
    {
      var i :| 0 <= i < |decls| && decls[i] == d;
      ReportKeyPresent(p.names, p.fields, filters, raw, i);
    }
  }

  /** A successful plan declares every declaration and records its field. */
  lemma PlannedFields(qs: SearchRequest, decls: seq<Declaration>)
    requires Plan(qs, decls).Success?
    ensures forall d :: d in decls ==> Declared(d.1)
    ensures |Plan(qs, decls).value.fields| == |decls|
    ensures forall i :: 0 <= i < |decls| ==> Plan(qs, decls).value.fields[i] == decls[i].1["field"]
  {
    forall d | d in decls ensures Declared(d.1) {
      var i :| 0 <= i < |decls| && decls[i] == d;
    }
  }

  /** When every declaration's name equals its path, as in the shipped example
      models, and the engine answers every bucket a request declares, parsing
      finds every result it looks up. */
  lemma NamesEqualPathsParse(attrs: Option<seq<Declaration>>, query: Option<string>,
                             filters: Option<Dict<string, string>>, now: int,
                             engine: SearchRequest -> RawAggregations)
    requires attrs.Some?
    requires forall d :: d in PublicAttributes(attrs.value) ==> Declared(d.1) && d.1["path"] == d.0
    requires forall q :: Answers(q, engine(q))
    ensures AggregatesFor(attrs, query, filters, now, engine).Success?
  {
    var decls := PublicAttributes(attrs.value);
    var qs := Search(query, filters, None, now);
    assert forall i :: 0 <= i < |decls| ==> Declared(decls[i].1) by {
      forall i | 0 <= i < |decls| ensures Declared(decls[i].1) {
        assert decls[i] in decls;
      }
    }
    var p := Plan(qs, decls).value;
    var raw := engine(p.request);
    forall i | 0 <= i < |p.fields| ensures Answered(raw, p.names[i]) {
      var b := p.request.aggs[|qs.aggs| + i];
      assert decls[i] in decls;
      assert b in p.request.aggs;
    }
    ReportSucceeds(p.names, p.fields, filters, raw);
  }

  /** A single public, well-formed declaration is planned as one bucket. */
  lemma PlanSingle(qs: SearchRequest, name: string, mapping: Mapping)
    requires !IsPrivate(name) && Declared(mapping)
    ensures Declarations(Some([(name, mapping)])) == Success([(name, mapping)])
    ensures Plan(qs, [(name, mapping)]) ==
      Success(Planned(qs.(aggs := qs.aggs + [BucketFor(name, mapping)]), [name], [mapping["field"]]))
  {
    var decls := [(name, mapping)];
    assert decls[..0] == [];
    assert PublicAttributes(decls) == decls;
    assert Plan(qs, decls[..0]) == Success(Planned(qs, [], []));
    assert [] + [name] == [name] && [] + [mapping["field"]] == [mapping["field"]];
  }

  /** The parse of a single declaration. */
  lemma ReportSingle(name: string, field: string, filters: Option<Dict<string, string>>, raw: RawAggregations)
    ensures Report([name], [field], filters, raw) ==
      if Pinned(filters, FlatField(field)) then Success([])
      else if !Answered(raw, name) then Failure(MissingBucket(name))
      else Success([(FlatField(field), ParseBuckets(raw[name][name]))])
  {
    ReportLast([name], [field], filters, raw);
    assert [name][..0] == [] && [field][..0] == [];
  }

  /** `get_aggregates` on a model with one public, well-formed declaration parses
      the answer to the search request extended by that declaration's bucket. */
  lemma AggregatesForSingle(name: string, mapping: Mapping, query: Option<string>,
                            filters: Option<Dict<string, string>>, now: int,
                            engine: SearchRequest -> RawAggregations)
    requires !IsPrivate(name) && Declared(mapping)
    ensures var qs := Search(query, filters, None, now);
      AggregatesFor(Some([(name, mapping)]), query, filters, now, engine) ==
        Report([name], [mapping["field"]], filters, engine(qs.(aggs := [BucketFor(name, mapping)])))
  {
    var qs := Search(query, filters, None, now);
    PlanSingle(qs, name, mapping);
    assert qs.aggs + [BucketFor(name, mapping)] == [BucketFor(name, mapping)];
  }

  /** Construction keys the terms sub-aggregation by the path while parsing looks
      it up by the declaration name: a declaration whose name differs from its
      path fails, even on a response that answers exactly what was requested. */
  lemma NameDiffersFromPathFails(name: string, path: string, field: string, query: Option<string>,
                                 now: int, buckets: seq<RawBucket>)
    requires name != path && !IsPrivate(name)
    ensures var attrs := Some([(name, map["path" := path, "field" := field])]);
            var engine := (q: SearchRequest) => map[name := map[path := buckets]];
            && Answers(Plan(Search(query, None, None, now), PublicAttributes(attrs.value)).value.request,
                       engine(BaseRequest))
            && AggregatesFor(attrs, query, None, now, engine) == Failure(MissingBucket(name))
  {
    var mapping := map["path" := path, "field" := field];
    assert mapping["path"] == path && mapping["field"] == field;
    var qs := Search(query, None, None, now);
    PlanSingle(qs, name, mapping);
    AggregatesForSingle(name, mapping, query, None, now, (q: SearchRequest) => map[name := map[path := buckets]]);
    var request := qs.(aggs := qs.aggs + [BucketFor(name, mapping)]);
    assert request.aggs == [NestedTerms(name, path, path, field)];
    var raw := map[name := map[path := buckets]];
    assert Answers(request, raw);
    assert !Answered(raw, name);
    ReportSingle(name, field, None, raw);
  }

  /** A single declaration whose flattened field is pinned by a filter yields an
      empty report, whatever the engine answers. */
  lemma SoleAggregatePinned(name: string, mapping: Mapping, query: Option<string>,
                            filters: Option<Dict<string, string>>, now: int,
                            engine: SearchRequest -> RawAggregations)
    requires !IsPrivate(name) && Declared(mapping) && Pinned(filters, FlatField(mapping["field"]))
    ensures AggregatesFor(Some([(name, mapping)]), query, filters, now, engine) == Success([])
  {
    var qs := Search(query, filters, None, now);
    AggregatesForSingle(name, mapping, query, filters, now, engine);
    ReportSingle(name, mapping["field"], filters, engine(qs.(aggs := [BucketFor(name, mapping)])));
  }

  /** A single declaration whose path equals its name, not pinned by a filter and
      answered by the engine, yields a report with exactly one entry, stored under
      the flattened field. */
  lemma SoleAggregateReported(name: string, mapping: Mapping, query: Option<string>,
                              filters: Option<Dict<string, string>>, now: int,
                              engine: SearchRequest -> RawAggregations)
    requires !IsPrivate(name) && Declared(mapping) && mapping["path"] == name
    requires !Pinned(filters, FlatField(mapping["field"]))
    requires forall q :: Answers(q, engine(q))
    ensures var r := AggregatesFor(Some([(name, mapping)]), query, filters, now, engine);
      && r.Success? && |r.value| == 1 && r.value[0].0 == FlatField(mapping["field"])
      && Keys(r.value) == {FlatField(mapping["field"])}
  {
    var request := Search(query, filters, None, now).(aggs := [BucketFor(name, mapping)]);
    AggregatesForSingle(name, mapping, query, filters, now, engine);
    assert Answers(request, engine(request));
    assert request.aggs[0] in request.aggs;
    ReportSingle(name, mapping["field"], filters, engine(request));
    var report := AggregatesFor(Some([(name, mapping)]), query, filters, now, engine).value;
    assert report[0].0 in Keys(report);
  }
}
