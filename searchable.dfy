/** `Searchable` (djesrf/models.py): compiles a flat parameter map into a filter
    tree, normalises ordering keys and assembles the search request. */
module Searchable {
  import opened Wrappers
  import opened Text
  import opened Dicts
  import opened Query

  /** The timestamp field the status windows are defined on. */
  const PublishedField := "published"

  /** `_handle_status_filter`: the time window for a status label, compared after
      lower-casing; `now` is the one clock reading every bound uses. */
  function StatusFilter(status: string, now: int): (r: Filter)
    ensures r == MatchAll <==> Lower(status) !in {"published", "scheduled", "draft"}
    ensures Instants(r) <= {now}
    ensures !HasTerm(r)
  {
    var lowered := Lower(status);
    if lowered == "published" then And(MatchAll, RangeLte(PublishedField, now))
    else if lowered == "scheduled" then And(MatchAll, RangeGte(PublishedField, now))
    else if lowered == "draft" then And(MatchAll, Missing(PublishedField))
    else MatchAll
  }

  /** `key.lower().replace("__", ".")`: the engine's dotted form of a field path. */
  function DottedPath(key: string): string {
    ReplaceDunder(Lower(key))
  }

  /** `"__" in key or "." in key` */
  predicate IsNestedKey(key: string) {
    HasDunder(key) || '.' in key
  }

  /** The clause one filter entry contributes. */
  function Clause(key: string, value: string, now: int): (r: Filter)
    ensures HasTerm(r) <==> Lower(key) != "status"
    ensures Instants(r) <= {now}
  {
    if Lower(key) == "status" then StatusFilter(value, now)
    else if IsNestedKey(key) then
      var nestedKey := DottedPath(key);
      Nested(FirstSegment(nestedKey), Term(nestedKey, value))
    else Term(Lower(key), value)
  }

  /** What `_build_filters` returns: `MatchAll()` and-ed with each entry's clause in
      iteration order. */
  function CompileFilter(filters: Dict<string, string>, now: int): Filter {
    if filters == [] then MatchAll
    else
      var (key, value) := filters[|filters| - 1];
      And(CompileFilter(filters[..|filters| - 1], now), Clause(key, value, now))
  }

  /** `_build_filters` */
  method BuildFilters(filters: Dict<string, string>, now: int) returns (f: Filter)
    ensures f == CompileFilter(filters, now)
  {
    f := MatchAll;
    var i := 0;
    while i < |filters|
      invariant 0 <= i <= |filters|
      invariant f == CompileFilter(filters[..i], now)
    {
      var (key, value) := filters[i];
      if Lower(key) == "status" {
        var statusFilter := StatusFilter(value, now);
        f := And(f, statusFilter);
      } else if HasDunder(key) || '.' in key {
        var nestedKey := ReplaceDunder(Lower(key));
        var path := FirstSegment(nestedKey);
        f := And(f, Nested(path, Term(nestedKey, value)));
      } else {
        f := And(f, Term(Lower(key), value));
      }
      assert filters[..i + 1][..i] == filters[..i];
      i := i + 1;
    }
    assert filters[..i] == filters;
  }

  /** The `ordering` argument of `search`: one key or a list of keys. */
  datatype OrderingArg = Single(key: string) | Several(keys: seq<string>)

  /** `if isinstance(ordering, str): ordering = [ordering, ]` */
  function Listed(ordering: OrderingArg): seq<string> {
    match ordering
    case Single(k) => [k]
    case Several(ks) => ks
  }

  /** Python truthiness of the ordering argument. */
  predicate OrderingGiven(ordering: Option<OrderingArg>) {
    ordering.Some? && match ordering.value
      case Single(k) => k != ""
      case Several(ks) => ks != []
  }

  /** The sort keys `_build_ordering` produces for a list of keys: one per key, in
      the same order, each in dotted lower-case form. */
  function NormalizeOrdering(keys: seq<string>): (r: seq<string>)
    ensures |r| == |keys|
    ensures forall i :: 0 <= i < |keys| ==> r[i] == DottedPath(keys[i])
  {
    if keys == [] then [] else NormalizeOrdering(keys[..|keys| - 1]) + [DottedPath(keys[|keys| - 1])]
  }

  /** `_build_ordering` */
  method BuildOrdering(ordering: OrderingArg) returns (formatted: seq<string>)
    ensures formatted == NormalizeOrdering(Listed(ordering))
  {
    var keys := Listed(ordering);
    formatted := [];
    for i := 0 to |keys|
      invariant formatted == NormalizeOrdering(keys[..i])
    {
      var nestedKey := ReplaceDunder(Lower(keys[i]));
      assert keys[..i + 1][..i] == keys[..i];
      formatted := formatted + [nestedKey];
    }
    assert keys[..|keys|] == keys;
  }

  /** `search`: the request built for a free-text query, a filter map and an
      ordering; each part is attached only when given and non-empty. */
  function Search(query: Option<string>, filters: Option<Dict<string, string>>,
                  ordering: Option<OrderingArg>, now: int): (r: SearchRequest)
    ensures r.query.Some? <==> query.Some? && query.value != ""
    ensures r.query.Some? ==> r.query.value == Match("_all", query.value)
    ensures r.filter.Some? <==> filters.Some? && filters.value != []
    ensures r.filter.Some? ==> r.filter.value == CompileFilter(filters.value, now)
    ensures r.sort == if OrderingGiven(ordering) then NormalizeOrdering(Listed(ordering.value)) else []
    ensures r.aggs == []
  {
    var qs := BaseRequest;
    var qs := if query.Some? && query.value != "" then qs.(query := Some(Match("_all", query.value))) else qs;
    var qs := if filters.Some? && filters.value != [] then qs.(filter := Some(CompileFilter(filters.value, now))) else qs;
    var qs := if OrderingGiven(ordering) then qs.(sort := NormalizeOrdering(Listed(ordering.value))) else qs;
    qs
  }

  // ---- status windows ----

  /** What each status label selects: published at or before `now`, at or after
      `now`, no publication time, or (any other label) everything. */
  lemma StatusWindow(status: string, now: int, d: Document)
    ensures Lower(status) == "published" ==>
      (Matches(StatusFilter(status, now), d) <==>
       PublishedField in d.fields && d.fields[PublishedField].Date? && d.fields[PublishedField].at <= now)
    ensures Lower(status) == "scheduled" ==>
      (Matches(StatusFilter(status, now), d) <==>
       PublishedField in d.fields && d.fields[PublishedField].Date? && d.fields[PublishedField].at >= now)
    ensures Lower(status) == "draft" ==>
      (Matches(StatusFilter(status, now), d) <==> PublishedField !in d.fields)
    ensures Lower(status) !in {"published", "scheduled", "draft"} ==>
      StatusFilter(status, now) == MatchAll && Matches(StatusFilter(status, now), d)
  {
  }

  /** At one instant the three windows cover every document whose publication
      time is a timestamp or absent; draft excludes the other two, and a document
      is both published and scheduled exactly when it is published at `now`.
      The labels may be written in any case. */
  lemma StatusWindowsPartition(published: string, scheduled: string, draft: string, now: int, d: Document)
    requires Lower(published) == "published" && Lower(scheduled) == "scheduled" && Lower(draft) == "draft"
    requires PublishedField in d.fields ==> d.fields[PublishedField].Date?
    ensures var isPublished := Matches(StatusFilter(published, now), d);
            var isScheduled := Matches(StatusFilter(scheduled, now), d);
            var isDraft := Matches(StatusFilter(draft, now), d);
            && (isPublished || isScheduled || isDraft)
            && (isDraft ==> !isPublished && !isScheduled)
            && (isPublished && isScheduled <==> PublishedField in d.fields && d.fields[PublishedField].at == now)
  {
    StatusWindow(published, now, d);
    StatusWindow(scheduled, now, d);
    StatusWindow(draft, now, d);
  }

  // ---- one clause per entry ----

  /** A key that lower-cases to "status" always goes to the status resolver:
      its value never becomes a term test. */
  lemma StatusKeyNeverTerm(key: string, value: string, now: int)
    requires Lower(key) == "status"
    ensures Clause(key, value, now) == StatusFilter(value, now)
    ensures !HasTerm(Clause(key, value, now))
  {
  }

  /** A nested key becomes a term on the fully rewritten lower-case key, scoped to
      the key's first dotted segment. */
  lemma NestedKeyClause(key: string, value: string, now: int)
    requires Lower(key) != "status" && IsNestedKey(key)
    ensures var nestedKey := DottedPath(key);
            && Clause(key, value, now) == Nested(FirstSegment(nestedKey), Term(nestedKey, value))
            && !HasDunder(nestedKey)
            && (forall i :: 0 <= i < |nestedKey| ==> !IsUpper(nestedKey[i]))
            && '.' !in FirstSegment(nestedKey) && FirstSegment(nestedKey) <= nestedKey
  {
    ReplaceDunderLeavesNoDunder(Lower(key));
    LowerReplaceDunderCommute(Lower(key));
    LowerIdempotent(key);
    var nestedKey := DottedPath(key);
    forall i | 0 <= i < |nestedKey| ensures !IsUpper(nestedKey[i]) {
      assert Lower(nestedKey)[i] == nestedKey[i];
    }
  }

  /** A nested clause holds exactly when some object of the nested collection at
      its path carries the value; top-level fields play no part. */
  lemma NestedKeyScoped(key: string, value: string, now: int, d: Document)
    requires Lower(key) != "status" && IsNestedKey(key)
    ensures var nestedKey := DottedPath(key);
            var path := FirstSegment(nestedKey);
            Matches(Clause(key, value, now), d) <==>
              path in d.nested &&
              exists o :: o in d.nested[path] && nestedKey in o && o[nestedKey] == Keyword(value)
  {
  }

  /** Any other key becomes a term test on the lower-cased key at the top level. */
  lemma PlainKeyTerm(key: string, value: string, now: int, d: Document)
    requires Lower(key) != "status" && !IsNestedKey(key)
    ensures Clause(key, value, now) == Term(Lower(key), value)
    ensures Matches(Clause(key, value, now), d) <==>
              Lower(key) in d.fields && d.fields[Lower(key)] == Keyword(value)
  {
  }

  /** Filter keys are case-insensitive: a key and its lower-cased form give the
      same clause. */
  lemma KeysCaseInsensitive(key: string, value: string, now: int)
    ensures Clause(Lower(key), value, now) == Clause(key, value, now)
  {
    LowerIdempotent(key);
    LowerKeepsSeparators(key);
  }

  /** The compiled filter is `MatchAll` followed by exactly one clause per entry, in
      iteration order; an empty map gives bare `MatchAll`. */
  lemma {:induction false} CompileFilterConjuncts(filters: Dict<string, string>, now: int)
    ensures Innermost(CompileFilter(filters, now)) == MatchAll
    ensures |Conjuncts(CompileFilter(filters, now))| == |filters|
    ensures forall i :: 0 <= i < |filters| ==>
              Conjuncts(CompileFilter(filters, now))[i] == Clause(filters[i].0, filters[i].1, now)
  {
    if filters != [] {
      var n := |filters| - 1;
      CompileFilterConjuncts(filters[..n], now);
      assert forall i :: 0 <= i < n ==> filters[..n][i] == filters[i];
    }
  }

  /** A document satisfies the compiled filter exactly when it satisfies the clause
      of every entry. */
  lemma {:induction false} CompileFilterMeaning(filters: Dict<string, string>, now: int, d: Document)
    ensures Matches(CompileFilter(filters, now), d) <==>
              forall i :: 0 <= i < |filters| ==> Matches(Clause(filters[i].0, filters[i].1, now), d)
  {
    if filters != [] {
      var n := |filters| - 1;
      CompileFilterMeaning(filters[..n], now, d);
      assert forall i :: 0 <= i < n ==> filters[..n][i] == filters[i];
    }
  }

  /** Every time bound in a compiled filter is the one reading `now`. */
  lemma {:induction false} CompileFilterSingleNow(filters: Dict<string, string>, now: int)
    ensures Instants(CompileFilter(filters, now)) <= {now}
  {
    if filters != [] {
      var (key, value) := filters[|filters| - 1];
      CompileFilterSingleNow(filters[..|filters| - 1], now);
      assert Instants(StatusFilter(value, now)) <= {now};
      assert Instants(Clause(key, value, now)) <= {now};
    }
  }

  // ---- ordering ----

  /** A normalised key is lower-case, has no `"__"`, and normalising it again
      changes nothing. */
  lemma DottedPathIdempotent(key: string)
    ensures DottedPath(DottedPath(key)) == DottedPath(key)
    ensures !HasDunder(DottedPath(key))
  {
    LowerReplaceDunderCommute(Lower(key));
    LowerIdempotent(key);
    ReplaceDunderIdempotent(Lower(key));
    ReplaceDunderLeavesNoDunder(Lower(key));
  }

  /** A leading `-` (descending order) is kept, and only the rest is rewritten. */
  lemma DescendingKeyPreserved(key: string)
    ensures DottedPath("-" + key) == "-" + DottedPath(key)
  {
    var l := Lower(key);
    assert Lower("-" + key) == "-" + l;
    if l != [] {
      assert ("-" + l)[1..] == l;
    }
  }

  /** Normalising an already normalised ordering is a no-op. */
  lemma OrderingIdempotent(keys: seq<string>)
    ensures NormalizeOrdering(NormalizeOrdering(keys)) == NormalizeOrdering(keys)
  {
    forall i | 0 <= i < |keys| ensures DottedPath(DottedPath(keys[i])) == DottedPath(keys[i]) {
      DottedPathIdempotent(keys[i]);
    }
  }

  /** A single descending key, such as `["-name"]`, becomes a descending sort on
      the normalised field. */
  lemma DescendingSort(key: string, now: int)
    ensures Search(None, None, Some(Several(["-" + key])), now).sort == ["-" + DottedPath(key)]
  {
    DescendingKeyPreserved(key);
    assert OrderingGiven(Some(Several(["-" + key])));
    assert NormalizeOrdering(["-" + key]) == [DottedPath("-" + key)];
  }
}
