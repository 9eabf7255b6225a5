/** The example application's `Video` model (example/app/models.py), whose
    `Aggregates` class declares one aggregate, and the outcomes its tests expect. */
module ExampleApp {
  import opened Wrappers
  import opened Text
  import opened Dicts
  import opened Query
  import opened Searchable
  import opened Aggregateable
  import opened Viewsets

  const ChannelField := "channel.name.raw"

  /** `Video.Aggregates`: `channel = {"path": "channel", "field": "channel.name.raw"}`. */
  const VideoAggregates: Option<seq<Declaration>> :=
    Some([("channel", map["path" := "channel", "field" := ChannelField])])

  /** Lower-case words without dots are their own flattened keys. */
  lemma PlainWords(w: string)
    requires w == "channel" || w == "name" || w == "raw"
    ensures FlatField(w) == w
  {
    assert Lower(w) == w;
    ReplaceDotFixes(w);
  }

  lemma ThreeSegmentKey(f: string, a: string, b: string, c: string)
    requires a == "channel" && b == "name" && c == "raw"
    requires f == a + "." + (b + "." + c)
    ensures FlatField(f) == a + "__" + (b + "__" + c)
  {
    PlainWords(a);
    PlainWords(b);
    PlainWords(c);
    FlatFieldJoin(b, c);
    FlatFieldJoin(a, b + "." + c);
  }

  /** The report key of the channel aggregate. */
  lemma ChannelKey(field: string)
    requires field == "channel.name.raw"
    ensures FlatField(field) == "channel__name__raw"
  {
    ThreeSegmentKey(field, "channel", "name", "raw");
  }

  /** The `Video` declarations are all public and well formed, and the
      declaration's name equals its path. */
  lemma VideoDeclarations(attrs: Option<seq<Declaration>>)
    requires attrs == VideoAggregates
    ensures PublicAttributes(attrs.value) == attrs.value
    ensures forall d :: d in attrs.value ==> Declared(d.1) && d.1["path"] == d.0
    ensures forall d :: d in attrs.value ==> d.1["field"] == ChannelField
  {
    var decls := attrs.value;
    assert !IsPrivate(decls[0].0);
    assert decls[..0] == [];
  }

  /** Without active filters, and with an engine that answers every declared
      bucket, `Video.get_aggregates()` reports exactly one key, "channel__name__raw". */
  lemma VideoReportsChannel(attrs: Option<seq<Declaration>>, query: Option<string>,
                            filters: Option<Dict<string, string>>, now: int,
                            engine: SearchRequest -> RawAggregations)
    requires attrs == VideoAggregates
    requires filters.None? || filters.value == []
    requires forall q :: Answers(q, engine(q))
    ensures AggregatesFor(attrs, query, filters, now, engine).Success?
    ensures Keys(AggregatesFor(attrs, query, filters, now, engine).value) == {"channel__name__raw"}
    ensures |AggregatesFor(attrs, query, filters, now, engine).value| == 1
    ensures AggregatesFor(attrs, query, filters, now, engine).value[0].0 == "channel__name__raw"
  {
    var name, mapping := attrs.value[0].0, attrs.value[0].1;
    assert attrs == Some([(name, mapping)]);
    VideoDeclarations(attrs);
    assert attrs.value[0] in attrs.value;
    ChannelKey(mapping["field"]);
    SoleAggregateReported(name, mapping, query, filters, now, engine);
  }

  /** `Video.get_aggregates(filters={"channel__name__raw": ...})` is empty: the
      only aggregate is pinned by the filter, whatever the engine answers. */
  lemma VideoFilteredByChannel(attrs: Option<seq<Declaration>>, query: Option<string>,
                               filters: Dict<string, string>, value: string,
                               now: int, engine: SearchRequest -> RawAggregations)
    requires attrs == VideoAggregates
    requires filters == [("channel__name__raw", value)]
    ensures AggregatesFor(attrs, query, Some(filters), now, engine) == Success([])
  {
    var decl := attrs.value[0];
    assert decl.1["field"] == ChannelField;
    ChannelKey(decl.1["field"]);
    assert filters[0].0 in Keys(filters);
    SoleAggregatePinned(decl.0, decl.1, query, Some(filters), now, engine);
  }

  /** Ordering and pagination parameters leave no search term and no filter. */
  lemma OnlyIgnoredParams(params: Dict<string, string>)
    requires Keys(params) <= {"ordering", "page", "page_size"}
    ensures Without(params, Reserved) == []
    ensures Get(params, "search") == None
  {
    assert "search" !in Keys(params);
  }

  /** The response entry for the channel aggregate: its path is the report key
      itself, and its name is that whole key title-cased, "Channel__Name__Raw",
      since the key holds no dot for `split(".")` to cut at. */
  lemma ChannelEntry(key: string, obj: Dict<string, nat>)
    requires key == "channel__name__raw"
    ensures EntryFor(key, obj).path == "channel__name__raw"
    ensures EntryFor(key, obj).name == "Channel__Name__Raw"
  {
    assert key == "channel" + ("__" + ("name" + ("__" + "raw")));
    assert '.' !in key;
    DotFreeKeyEntry(key, obj);
    TitleWords(key, "channel", "name", "raw");
  }

  /** `"channel__name__raw".title()`: every run of letters is capitalised. */
  lemma TitleWords(key: string, a: string, b: string, c: string)
    requires a == "channel" && b == "name" && c == "raw"
    requires key == a + ("__" + (b + ("__" + c)))
    ensures Title(key) == "Channel__Name__Raw"
  {
    TitleDunderWords(a, b, c);
    assert [UpperChar(a[0])] + a[1..] == "Channel";
    assert [UpperChar(b[0])] + b[1..] == "Name";
    assert [UpperChar(c[0])] + c[1..] == "Raw";
  }

  /** `GET /api/videos/aggregates/` with no parameters other than ordering or
      pagination responds with exactly one entry, for the channel aggregate. */
  lemma VideoAggregatesView(params: Dict<string, string>, attrs: Option<seq<Declaration>>, now: int,
                            engine: SearchRequest -> RawAggregations)
    requires attrs == VideoAggregates
    requires Keys(params) <= {"ordering", "page", "page_size"}
    requires forall q :: Answers(q, engine(q))
    ensures AggregatedView(params, attrs, now, engine).Success?
    ensures |AggregatedView(params, attrs, now, engine).value.results| == 1
    ensures AggregatedView(params, attrs, now, engine).value.results[0].path == "channel__name__raw"
    ensures AggregatedView(params, attrs, now, engine).value.results[0].name == "Channel__Name__Raw"
  {
    OnlyIgnoredParams(params);
    var filters := Some(Without(params, Reserved));
    VideoReportsChannel(attrs, None, filters, now, engine);
    var report := AggregatesFor(attrs, None, filters, now, engine).value;
    ChannelEntry(report[0].0, report[0].1);
  }
}
