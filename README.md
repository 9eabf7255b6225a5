# djesrf query compiler, modelled in Dafny

djesrf connects Django models to Elasticsearch through Django REST Framework.
A `Searchable` model turns a free-text query, a flat map of filter parameters and
an ordering into one search request. An `Aggregateable` model also reads the
declarations of its `Aggregates` inner class and attaches one nested-terms bucket
per declaration. It then parses the engine's answer into a report of the form
`flattened field -> (value -> document count)`. Two viewset handlers strip the
reserved query parameters (`search`, `ordering`, `page`, `page_size`) and forward
the rest. `list` forwards them to `search`. `aggregates` forwards them to
`get_aggregates` and reshapes the report into a paginated-list body.

The model has these modules:

- `Wrappers`: `Option` and `Result`.
- `Text`: the ASCII string operations the compiler relies on. These are
  `lower()`, `title()`, `replace("__", ".")`, `replace(".", "__")`, the `"__" in s`
  test and `split(".")[0]`.
- `Dicts`: Python dictionaries as insertion-ordered association lists. `d[k] = v`
  is `Put` and `del` is `Without`.
- `Query`: the request handed to the engine, as data. It holds the filter tree,
  the match clause, the sort keys, the nested-terms buckets and the raw bucket
  response. It also defines `Matches`, a reference reading of a filter against a
  document. `Matches` states what a compiled filter means.
- `Searchable`: `_handle_status_filter`, `_build_filters`, `_build_ordering` and
  `search`. The imperative code is written as methods with loops. Each method is
  proved equal to a specification function.
- `Aggregateable`: `_get_aggregate_declarations`, `_build_aggregates` and
  `get_aggregates`, including its parse loop.
- `Viewsets`:
  - the query parameters are a class, `ParamDict`, that the handlers copy and
    then change in place;
  - `list` and `aggregates` are methods;
  - the response shaping is a method with nested loops.
- `ExampleApp`: the example `Video` model, with one `channel` aggregate, and the
  outcomes its tests expect.

Inputs the system takes from its environment are parameters of the model:

- The clock reading `timezone.now()` is `now: int`.
- The search engine is `engine: SearchRequest -> RawAggregations`. It maps the
  request that is sent to the `aggregations` that come back.
- What `dir()` and `getattr` find on the `Aggregates` inner class is
  `attrs: Option<seq<(name, mapping)>>`. `Some(decls)` lists the attributes of
  the `Aggregates` class that `hasattr` finds. The `Aggregateable` base class
  declares an empty `Aggregates` (djesrf/models.py:141-148), so every model has
  one, and a model that declares nothing is `Some([])`, whose report is `{}`.
  `None` is the branch of the `hasattr` guard (djesrf/models.py:158-159) that
  raises. No subclass of `Aggregateable` reaches it; it is kept so that the
  guard is modelled as written.

## Model

| member | source | states |
|---|---|---|
| Text.Lower | djesrf/models.py:59 | lower-casing keeps the length and maps each character to its ASCII lower case |
| Text.LowerKeepsSeparators | djesrf/models.py:64-65 | lower-casing neither adds nor removes `"__"`, `.` or `_`, so the nested-key test sees the same separators before and after |
| Text.ReplaceDunder | djesrf/models.py:65 | `replace("__", ".")` never lengthens a string, and gives the empty string only for the empty string |
| Text.ReplaceDunderLeavesNoDunder | djesrf/models.py:65 | no `"__"` is left after `replace("__", ".")` |
| Text.ReplaceDunderFixes | djesrf/models.py:92 | `replace("__", ".")` changes nothing in a string without `"__"` |
| Text.ReplaceDunderIdempotent | djesrf/models.py:92 | rewriting dunders twice is rewriting them once |
| Text.LowerReplaceDunderCommute | djesrf/models.py:65 | lower-casing and the dunder rewrite commute |
| Text.ReplaceDot | djesrf/models.py:240 | `replace(".", "__")` never shortens a string |
| Text.ReplaceDotLeavesNoDot | djesrf/models.py:240 | no dot survives `replace(".", "__")` |
| Text.ReplaceDotFixes | djesrf/viewsets.py:93 | `replace(".", "__")` leaves a dot-free string unchanged |
| Text.DotDunderRoundTrip | djesrf/models.py:65 | a dotted path without underscores that is flattened to dunders and rewritten back gives the original path |
| Text.DunderDotRoundTrip | djesrf/models.py:240 | a dot-free dunder key that is rewritten to dots and flattened back gives the original key |
| Text.ReplaceDotAppend | djesrf/models.py:240 | `replace(".", "__")` distributes over concatenation |
| Text.FirstSegment | djesrf/models.py:66 | `split(".")[0]` is a dot-free prefix that stops at the first dot |
| Text.TitleFrom | djesrf/viewsets.py:92 | title-casing from a given "previous character was a letter" state keeps the length, and capitalises a leading lower-case letter when that state is false |
| Text.Title | djesrf/viewsets.py:92 | `title()` keeps the length and capitalises a leading lower-case letter |
| Text.TitleFromKeepsLetters | djesrf/viewsets.py:92 | title-casing changes only the case of each character: it keeps the lower-case form, character by character |
| Text.LowerAgrees | djesrf/viewsets.py:92 | two strings of equal length that agree character by character up to case have the same lower-case form |
| Text.TitleLowerRun | djesrf/viewsets.py:92 | a run of lower-case letters that follows a letter is left unchanged by `title()` |
| Text.TitleWord | djesrf/viewsets.py:92 | a lower-case word that starts the string, or follows a non-letter, gets a capital first letter and keeps the rest |
| Text.TitleAfterDunder | djesrf/viewsets.py:92 | a lower-case word after `"__"` is capitalised, whatever came before the separator |
| Text.TitleDunderWords | djesrf/viewsets.py:92 | `title()` of three lower-case words joined by `"__"` capitalises each word and keeps the separators |
| Text.TitleUnderscore | djesrf/viewsets.py:92 | `_` is left unchanged, and the letter after it starts a new word |
| Dicts.Get | djesrf/viewsets.py:26-27 | a lookup succeeds exactly for present keys and returns a value stored under the key |
| Dicts.Put | djesrf/models.py:246 | assignment adds the key to the key set and adds no other key |
| Dicts.PutGet | djesrf/models.py:246 | after `d[k] = v`, `k` maps to `v` and every other key keeps its value |
| Dicts.PutKeepsUniqueKeys | djesrf/models.py:246 | assignment keeps every key unique |
| Dicts.Without | djesrf/viewsets.py:28 | deletion leaves exactly the other keys and entries, with their values, and keeps keys unique |
| Dicts.WithoutWithout | djesrf/viewsets.py:73-80 | deleting keys one after another equals deleting them all at once |
| Dicts.WithoutPut | djesrf/viewsets.py:38-42 | a key that is assigned and then deleted leaves no trace |
| Dicts.WithoutAbsent | djesrf/viewsets.py:38-42 | deleting absent keys changes nothing |
| Dicts.SizeIsKeyCount | djesrf/viewsets.py:85 | `len` of a dict with unique keys is the number of its keys |
| Searchable.StatusFilter | djesrf/models.py:15-42 | the status filter is bare `MatchAll` exactly when the lower-cased label is none of `published`, `scheduled`, `draft` (otherwise `MatchAll` and-ed with a range or missing test on `published`, see `StatusWindow`); its only time bound is `now`, and it holds no term test |
| Searchable.StatusWindow | djesrf/models.py:15-42 | in any letter case, `published` selects documents published at or before `now`, `scheduled` those at or after `now`, and `draft` those with no publication time; any other label selects everything |
| Searchable.StatusWindowsPartition | djesrf/models.py:29-39 | at one instant every timestamped or unpublished document is published, scheduled or draft; draft excludes the other two; a document is both published and scheduled exactly when it was published at `now` |
| Searchable.Clause | djesrf/models.py:58-72 | one entry's clause holds a term test exactly when its key does not lower-case to `status`, and its only time bound is `now` |
| Searchable.StatusKeyNeverTerm | djesrf/models.py:59-61 | a key that lower-cases to `status` goes to the status resolver, and its value never becomes a term |
| Searchable.NestedKeyClause | djesrf/models.py:64-67 | a nested key becomes a term on its lower-case dotted form, without `"__"`, scoped to its first segment |
| Searchable.NestedKeyScoped | djesrf/models.py:64-67 | a nested clause holds iff some object of the nested collection at the key's path carries the value; top-level fields play no part |
| Searchable.PlainKeyTerm | djesrf/models.py:70-72 | any other key is a term test on the lower-cased key at the top level |
| Searchable.KeysCaseInsensitive | djesrf/models.py:59-72 | a filter key and its lower-cased form compile to the same clause |
| Searchable.BuildFilters | djesrf/models.py:44-75 | the loop builds `MatchAll` and-ed with each entry's clause in iteration order |
| Searchable.CompileFilterConjuncts | djesrf/models.py:55-72 | the compiled filter starts from `MatchAll` and has exactly one clause per entry, in order |
| Searchable.CompileFilterMeaning | djesrf/models.py:55-72 | a document satisfies the compiled filter exactly when it satisfies every entry's clause |
| Searchable.CompileFilterSingleNow | djesrf/models.py:26-39 | every time bound in a compiled filter is the single reading `now` |
| Searchable.NormalizeOrdering | djesrf/models.py:90-93 | one sort key per ordering key, in order, each in lower-case dotted form |
| Searchable.BuildOrdering | djesrf/models.py:77-95 | a single string is treated as a one-element list, and the loop gives the normalised keys |
| Searchable.DottedPathIdempotent | djesrf/models.py:92 | a normalised key has no `"__"`, and normalising it again changes nothing |
| Searchable.DescendingKeyPreserved | djesrf/models.py:92 | a leading `-` for descending order is kept, and only the rest is rewritten |
| Searchable.OrderingIdempotent | djesrf/models.py:90-93 | normalising an already normalised ordering changes nothing |
| Searchable.DescendingSort | djesrf/models.py:125-128 | `ordering=["-name"]` gives a descending sort on the normalised field |
| Searchable.Search | djesrf/models.py:97-131 | the match clause is present iff a non-empty query is given; the filter is present iff a non-empty filter map is given and is then the compiled map; the sort is present iff an ordering is given; no aggregation is added |
| Aggregateable.PublicAttributes | djesrf/models.py:162 | an attribute is kept iff its name does not start with `_` |
| Aggregateable.GetAggregateDeclarations | djesrf/models.py:150-171 | a missing `Aggregates` class is an error; otherwise the result is the public attributes in `dir()` order |
| Aggregateable.PublicAttributesSorted | djesrf/models.py:162-168 | the declarations stay in the by-name order that `dir()` lists |
| Aggregateable.Plan | djesrf/models.py:173-213 | success iff every declaration has `path` and `field`; on failure the error names the first misconfigured declaration and its mapping; on success there is one bucket, name and field per declaration, in order, and the rest of the request is unchanged |
| Aggregateable.BuildAggregates | djesrf/models.py:184-213 | the loop computes that plan, and returns at the first `KeyError` |
| Aggregateable.PlanFailureIsFirst | djesrf/models.py:209-210 | the first misconfigured declaration is the one reported |
| Aggregateable.ParseBucketsKeys | djesrf/models.py:245 | the parsed buckets have unique keys, and the key set is exactly the set of bucket keys |
| Aggregateable.ParseBucketsLastWins | djesrf/models.py:245 | with duplicate bucket keys, the count of the last occurrence wins |
| Aggregateable.FlatFieldDotFree | djesrf/models.py:240 | a flattened field (`field.lower().replace(".", "__")`) holds no dot and is no shorter than the field |
| Aggregateable.FlatFieldJoin | djesrf/models.py:240 | a dotted field flattens segment by segment, each dot becoming `__` |
| Aggregateable.ReportUniqueKeys | djesrf/models.py:238-246 | the report holds each key once |
| Aggregateable.ReportSucceeds | djesrf/models.py:238-246 | parsing succeeds iff the bucket of every unpinned declaration is found at `raw[name][name]` |
| Aggregateable.ReportMissingBucket | djesrf/models.py:244-245 | a failed parse names a declaration that is unpinned and unanswered |
| Aggregateable.ReportKeys | djesrf/models.py:240-246 | a key is reported iff a declared field flattens to it and no active filter pins it |
| Aggregateable.ReportStepSucceeds | djesrf/models.py:239-246 | when the loop succeeds, it also succeeds on every prefix of the declarations, and the last one is either pinned or answered |
| Aggregateable.ReportStepKeys | djesrf/models.py:240-246 | one more loop iteration adds the flattened field to the reported keys unless it is pinned, and adds nothing else |
| Aggregateable.ReportSingle | djesrf/models.py:239-246 | for one declaration the loop gives `{}` when its field is pinned, a missing-bucket error when its bucket is not answered, and otherwise one entry under its flattened field |
| Aggregateable.ReportValue | djesrf/models.py:244-246 | a reported key holds the parsed buckets of the last declaration with that key |
| Aggregateable.ReportFailurePersists | djesrf/models.py:244-245 | once a parse fails, the rest of the loop is not run and the same error is returned |
| Aggregateable.ParseReport | djesrf/models.py:238-249 | the parse loop, with its `continue` and its failing lookup, computes the report |
| Aggregateable.GetAggregates | djesrf/models.py:215-249 | `get_aggregates` searches with no ordering, plans the buckets, queries the engine once and parses its answer |
| Aggregateable.AggregatesForSuccess | djesrf/models.py:228-249 | a successful result comes from a successful plan over the public declarations, parsed against the engine's answer |
| Aggregateable.ConfigurationErrors | djesrf/models.py:157-210 | the `hasattr` branch, which no `Aggregateable` subclass reaches, fails with the missing-class error; a model whose first misconfigured public declaration is `i` fails with an error naming `i` and its mapping |
| Aggregateable.NoPublicDeclarations | djesrf/models.py:141-171 | a model whose `Aggregates` class has no public attribute, such as the inherited empty class, gets the empty report `{}` |
| Aggregateable.PublicAttributesAllPrivate | djesrf/models.py:162 | when every attribute name starts with `_`, no declaration is kept |
| Aggregateable.PinnedAggregatesSuppressed | djesrf/models.py:239-246 | on success every public declaration is well formed, every reported key is an unpinned declared field, and every unpinned declared field is reported |
| Aggregateable.PlanSingle | djesrf/models.py:184-213 | for one public, well-formed declaration, the plan adds exactly its bucket and records its name and field |
| Aggregateable.AggregatesForSingle | djesrf/models.py:215-249 | for one public, well-formed declaration, `get_aggregates` is the parse loop over that declaration, run on the engine's answer to the search with that one bucket |
| Aggregateable.PlannedFields | djesrf/models.py:205-206 | a successful plan records one field per declaration, in order |
| Aggregateable.NamesEqualPathsParse | djesrf/models.py:196-202 | when each declaration's name equals its path and the engine answers every requested bucket, parsing succeeds |
| Aggregateable.NameDiffersFromPathFails | djesrf/models.py:244-245 | a declaration whose name differs from its path fails with `MissingBucket`, even on an answer with exactly the requested buckets |
| Aggregateable.SoleAggregatePinned | djesrf/models.py:241-243 | a single declaration pinned by a filter yields an empty report, whatever the engine answers |
| Aggregateable.SoleAggregateReported | djesrf/models.py:238-246 | a single unpinned declaration whose name equals its path, on an engine that answers every bucket, yields exactly one entry, under its flattened field |
| Viewsets.ParamDict.Copy | djesrf/viewsets.py:24 | the copy holds the caller's parameters |
| Viewsets.ParamDict.Lookup | djesrf/viewsets.py:27 | `params[key]` is a value stored under `key` |
| Viewsets.ParamDict.Delete | djesrf/viewsets.py:28 | `del params[key]` removes that key and changes nothing else |
| Viewsets.DeleteIfPresent | djesrf/viewsets.py:38-42 | a guarded delete removes the key when present and changes nothing otherwise |
| Viewsets.StripInSteps | djesrf/viewsets.py:73-80 | the four single-key deletions together delete the reserved set |
| Viewsets.StripReserved | djesrf/viewsets.py:26-42 | after the deletions the parameters are the old ones without the reserved keys |
| Viewsets.List | djesrf/viewsets.py:22-44 | `list` submits the search for the `search` value, the remaining parameters as filters and the `ordering` value; the caller's parameters are not changed |
| Viewsets.PaginationIgnored | djesrf/viewsets.py:38-44 | `page` and `page_size` do not affect the submitted search |
| Viewsets.ReservedNeverFilters | djesrf/viewsets.py:26-44 | no reserved parameter becomes a filter |
| Viewsets.ListedQueryAndSort | djesrf/viewsets.py:26-36 | a non-empty `search` is the match query, and a non-empty `ordering` is the normalised single-key sort |
| Viewsets.FormatAggregates | djesrf/viewsets.py:84-101 | the response-shaping loops build one entry per report key, in order, each with its value counts in order |
| Viewsets.Aggregates | djesrf/viewsets.py:63-102 | `aggregates` responds with the shaped report of `get_aggregates` on the `search` value and the stripped parameters, or with the error |
| Viewsets.AggregatesIgnoreOrderingAndPages | djesrf/viewsets.py:73-82 | `ordering`, `page` and `page_size` do not affect the response |
| Viewsets.EntryFor | djesrf/viewsets.py:91-101 | an entry's name and path hold no dot; its name is, up to case, the key's first dot-separated segment; it has one value and count per parsed bucket, in order |
| Viewsets.DotFreeKeyEntry | djesrf/viewsets.py:92-93 | a dot-free report key is its own path, and its name is that key title-cased |
| Viewsets.AggregatesResponseShape | djesrf/viewsets.py:84-101 | a successful response has no pages; its count equals the number of results and of distinct report keys; each entry's path is the report key and its name is the key title-cased, with one count per parsed bucket |
| ExampleApp.ChannelKey | example/app/models.py:41-45 | the channel aggregate's field `channel.name.raw` is reported under `channel__name__raw` |
| ExampleApp.VideoDeclarations | example/app/models.py:41-45 | the `Video` declarations are public and well formed, and the name equals the path |
| ExampleApp.VideoReportsChannel | tests/test_models.py:111-118 | without filters, and with an engine that answers every bucket, the report has one entry, and its key is `channel__name__raw` |
| ExampleApp.VideoFilteredByChannel | tests/test_models.py:138-147 | with the filter `channel__name__raw`, the report is empty |
| ExampleApp.TitleWords | djesrf/viewsets.py:92 | `"channel__name__raw".title()` is `"Channel__Name__Raw"` |
| ExampleApp.ChannelEntry | djesrf/viewsets.py:91-93 | the report key `channel__name__raw` gives the path `channel__name__raw` and the name `Channel__Name__Raw`, because the key has no dot and the whole key is title-cased |
| ExampleApp.OnlyIgnoredParams | djesrf/viewsets.py:67-80 | parameters that are only ordering or pagination leave no search term and no filter |
| ExampleApp.VideoAggregatesView | tests/test_viewsets.py:19-31 | `GET /api/videos/aggregates/` responds with exactly one entry, with path `channel__name__raw` and name `Channel__Name__Raw` |

## Left out

- Running the search: `qs.execute()` is the `engine` parameter, and Elasticsearch itself is not part of this model. Analyzers, relevance and hit counts are not modelled, so the expected counts in tests/test_models.py (for example three channels, or "The Onion": 1) are not derived.
- Search results, pagination and serialization in `list` (djesrf/viewsets.py:46-51): `List` returns the request it submits.
- The `Response` wrapper and JSON encoding of `aggregates`: the body is the `AggregateResponse` datatype.
- The `__init__` subclass checks of the two viewsets (djesrf/viewsets.py:16-20, 56-60), because they are configuration checks on Python classes.
- `dir()` and `getattr` reflection: they are folded into the `attrs` input, and its order is the order `dir()` lists.
- Exception message text: errors are the `Error` datatype, which keeps the misconfigured name and mapping.
- Duplicate keys in the parameter and filter maps: `Dict` is an association list, so `List`, `Aggregates` and `CompileFilter` also accept lists that repeat a key, which a Python `dict` cannot hold. For such a list, iteration sees every repeated entry and a lookup the first one. The report that the parse loop builds always has unique keys (`ReportUniqueKeys`), whatever the input.
- Multi-valued query parameters: a `QueryDict` key holds one value, the one `params[key]` reads.
- Unicode case mapping: `lower()` and `title()` change only ASCII letters.
- elasticsearch_dsl's simplifications when filters are combined: `MatchAll() & X` is kept as `And(MatchAll, X)`, and `Matches` treats both the same way.
- Clock reads: `_handle_status_filter` reads the clock once per status entry, but the model shares one `now` across one filter build. This differs only when two keys both lower-case to `status`.
- The in-place update of `qs.aggs` in `_build_aggregates`: the request is a value that the plan returns.
- `deepcopy` aliasing: it is modelled as the `ParamDict.Copy` constructor, which makes a fresh object holding the same entries.
- The `Channel` and `Video` model fields, their `Mapping` classes and `save` (example/app/models.py), because they concern indexing, not query compilation.
