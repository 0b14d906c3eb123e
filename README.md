# AMPS Prometheus exporter — a Dafny model

The exporter turns one AMPS statistics document (the JSON tree served at
`/amps.json`) into Prometheus gauges. On every scrape, its collector fetches
the document once. It then walks a fixed table of metric groups. Each group is
a slash-separated path into the tree plus the fields read there. For each
field, the group yields one gauge:

- The gauge is named after the path and the field (`/amps/host/memory` and
  `free` give `amps_host_memory_free`).
- Its description comes from a static table.
- Its samples depend on what the path leads to. A list of entities gives one
  sample per entity, labelled with its `id`, except for the aggregate `all`
  entry. A mapping gives one sample, labelled with the field name.

The model covers these pieces of `amps-exporter.py`:

| module | file | models |
|---|---|---|
| `Results` | `results.dfy` | the exceptions a scrape can end with |
| `Json` | `json.dfy` | the parsed document and Python's `node[key]` |
| `Paths` | `paths.dfy` | `split`/`replace` on one character; `get_value` as a function (`ResolvePath`) and as the loop the source runs (`GetValue`) |
| `Descriptions` | `metric_docs.dfy` | the `METRIC_DOCS` lookup with its fallback |
| `Generator` | `metric_group.dfy` | `generate_metric_group`: name derivation, the list/scalar branch, the skip list, the samples. `MetricGroup` is its specification; `GenerateMetricGroup` is the nested loop the source runs |
| `Collector` | `collector.dfy` | the ten groups of the seven `collect_*` helpers, as one ordered table, and `AMPSCollector.collect` as one pass over it |
| `Scenarios` | `scenarios.dfy` | the naming rule on three-segment paths, and a list with an `all` entry |

In the model, a scrape either yields all its gauges in order or ends with the first error
raised. The errors are:

- `KeyError`: a missing key, whether a path segment, a label or a field.
- `TypeError`: a string index applied to something that is not a mapping.
- `FetchError`: a failed fetch.

Gauges yielded before a failure have already been handed to the Prometheus
client library, whose handling of a failed scrape is not modelled. The model
computes the eager sequence of gauges, or the first error raised.
`collect` chains its seven helpers with `yield from`. Chaining generators is
the same as concatenating their group lists, so the model runs `collect` as
one loop over the concatenated table `CollectorGroups`.

Each requested field gives exactly one gauge, for both shapes
(`Generator.MetricGroupShape`). In a list-shaped group that gauge holds one
sample per kept entity. A field missing from an entry raises the same
`KeyError` as any other missing key.

`generate_metric_group` reads the module-level table `METRIC_DOCS`. The model
passes that table in as the parameter `docs`, so the generator's properties
hold for any table; the collector passes `MetricDocs`, and
`Collector.EveryGaugeDescribed` is about that table.

## Model

| member | source | states |
|---|---|---|
| Paths.Split | amps-exporter.py:95 | `str.split` on one character always yields at least one piece |
| Paths.JoinSplit | amps-exporter.py:95 | joining the pieces of a split with the separator gives back the string; no piece contains the separator |
| Paths.SplitAppend | amps-exporter.py:95 | a separator between two strings splits into the pieces of the left part followed by those of the right part |
| Paths.SplitNoSeparator | amps-exporter.py:95 | a string without the separator is a single piece |
| Paths.Replace | amps-exporter.py:113 | `str.replace` on one character keeps the length and changes exactly the occurrences of that character |
| Paths.ReplaceIsJoinSplit | amps-exporter.py:113 | replacing a character equals splitting on it and joining with the replacement |
| Paths.ResolveAppend | amps-exporter.py:94-98 | resolving a concatenation of keys resolves the first part, then the second part from the node reached; the first error is kept |
| Paths.NoSlashPath | amps-exporter.py:94-98 | the key list is empty exactly when the path has no slash, and such a path resolves to the tree itself |
| Paths.ResolvePathCompose | amps-exporter.py:94-98 | for a second path that starts with a slash, resolving the concatenated path resolves the first path, then the second from the node reached |
| Paths.ResolveFailsAt | amps-exporter.py:95-96 | if key `i` cannot be indexed from the node the earlier keys reach, the whole lookup raises that key's error |
| Paths.ResolveErrorCause | amps-exporter.py:95-96 | conversely, every failed lookup has a first key that either is missing or is applied to a non-mapping, and the lookup raises that key's error |
| Paths.GetValue | amps-exporter.py:89-98 | the loop that rebinds the current node once per key returns what `ResolvePath` specifies, including its error |
| Descriptions.Describe | amps-exporter.py:120 | a gauge carries a table entry exactly when the table lists both the path and the field, and that entry is the one stored under them; otherwise it carries the fallback |
| Generator.MetricName | amps-exporter.py:113-119 | for a non-empty path, the name is as long as the path and the field together (the `_` takes the place of the path's first character); the name always ends with `_` plus the field; it holds no slash when the field holds none |
| Generator.MetricNameFromKeys | amps-exporter.py:113 | for a path starting with a slash, the name is the keys `get_value` follows, joined by `_`, then `_` and the field |
| Generator.Kept | amps-exporter.py:126-131 | the kept entries are no more numerous than the entries, each is one of the entries, and each has a label that the skip list does not match |
| Generator.KeptAppend | amps-exporter.py:126-131 | filtering a concatenation of entry lists filters each part and keeps them in order, so kept entries keep their list order |
| Generator.KeptComplete | amps-exporter.py:126-131 | every entry that has the label key and whose label is not skipped is kept |
| Generator.ListSamplesSpec | amps-exporter.py:125-134 | a list-shaped gauge is built exactly when every entry has the label key and every kept entry has the field; its samples are then exactly the kept entries in order, each labelled with its id and holding its field's value |
| Generator.ListSamplesAppend | amps-exporter.py:126-134 | sampling a concatenation of entry lists samples each part in turn; the first error is kept |
| Generator.SkippedEntryIgnored | amps-exporter.py:127-131 | an entry whose label is skipped is never indexed with the field: removing it from any position leaves the result unchanged, error or success |
| Generator.NothingSkipped | amps-exporter.py:130 | with an empty skip list, every labelled entry is kept |
| Generator.NoSkippedLabel | amps-exporter.py:127-134 | every sample of a list-shaped gauge has exactly one label value, and that value is not skipped |
| Generator.GaugesAppend | amps-exporter.py:116-139 | the gauges of a concatenation of field lists are those of each part in turn; the first error is kept |
| Generator.GaugesSpec | amps-exporter.py:116-139 | a group's gauges are built exactly when the gauge of every field is; there is then one gauge per field, in field order |
| Generator.MetricGroupShape | amps-exporter.py:116-122 | a successful group has one gauge per requested field, in order. Each gauge is named after the path and the field, declares the field as its one label, and has the table's description |
| Generator.MetricGroupSamples | amps-exporter.py:111-137 | a successful group's path resolves, and each gauge's samples depend on its shape. A list gives the entries' samples. Otherwise the node is a mapping holding the field, and the gauge has exactly one sample, labelled by the field name and holding its value |
| Generator.ScalarGroupOk | amps-exporter.py:135-137 | a non-list group with at least one field succeeds exactly when it is a mapping holding every requested field |
| Generator.ListGroupOk | amps-exporter.py:125-134 | a list group succeeds exactly when, for every requested field, all entries are labelled and every kept entry has the field |
| Generator.AbortGauges | amps-exporter.py:116-139 | a failure on field `k`, after the earlier fields succeed, is the error of the whole group |
| Generator.AbortSamples | amps-exporter.py:126-134 | a failure on entry `j`, after the earlier entries succeed, is the error of all the field's samples |
| Generator.FillListSamples | amps-exporter.py:126-134 | the loop over the entries for one field (label read first, skipped entries passed over, early exit on the first error) returns what `ListSamples` specifies |
| Generator.GenerateMetricGroup | amps-exporter.py:101-139 | the loop over the fields (path lookup once, one gauge per field, the entry loop for a list, the single sample otherwise, early exit on the first error) returns what `MetricGroup` specifies |
| Collector.CollectGroupsAppend | amps-exporter.py:315-322 | chaining two lists of groups chains their gauge sequences; the first error is kept |
| Collector.CollectGroupsStep | amps-exporter.py:315-322 | one more group extends the chained prefix, and once a prefix fails the whole scrape fails with the same error |
| Collector.GroupGaugesNames | amps-exporter.py:161-309 | a group's gauges carry, in order, the names the table gives its fields |
| Collector.CollectGroupsSize | amps-exporter.py:161-322 | a successful chain holds exactly as many gauges as its groups list fields |
| Collector.CollectGroupsNames | amps-exporter.py:161-322 | a successful chain's gauge names are, in table order, exactly the names derived from each group's path and fields |
| Collector.TableSize | amps-exporter.py:147-309 | the seven helpers publish 36 fields |
| Collector.ScrapeSize | amps-exporter.py:311-322 | a successful scrape yields exactly 36 gauges |
| Collector.EveryGaugeDescribed | amps-exporter.py:8-77 | every path and field the collector publishes is listed in the description table, so no gauge gets the fallback text |
| Collector.Collect | amps-exporter.py:311-322 | the statistics are fetched once and the groups are generated in table order from that one document; the result is what `Scrape` specifies, and a failed fetch ends the scrape with the fetch's error and no gauges |
| Scenarios.ThreeSegmentKeys | amps-exporter.py:95 | `/a/b/c` with slash-free segments is looked up through the keys `a`, `b`, `c` |
| Scenarios.ThreeSegmentName | amps-exporter.py:113-119 | `/a/b/c` with field `m` gives the gauge name `a_b_c_m` |
| Scenarios.AggregateEntrySkipped | amps-exporter.py:125-134 | a list holding an `all` entry (without the field) and one entity gives one gauge whose only sample is the entity's id and value |

## Left out

- `get_stats` performs an HTTP request and JSON parsing, which are I/O. `Collect` takes the fetch outcome as a parameter, and `FetchError` stands for every way the fetch or the parsing can fail.
- The Prometheus plumbing is not modelled: the registry, the HTTP server on port 8000 and the sleep loop. The model also does not capture the collector's host URL.
- `AMPSCollector` is not modelled as a class. Its only field, `host`, is never updated; it only feeds `get_stats`.
- The seven `collect_*` helpers are not separate members. Each contributes its groups, in its own order, to the ordered table `CollectorGroups`. `yield from` then amounts to concatenating the helpers' outputs.
- `GaugeMetricFamily` is a plain record of name, description, label names and samples. Its conversion of values to float, its timestamps and its exposition format are not modelled. Sample values are the JSON values as found.
- Numbers are kept as JSON values. Their numeric semantics, such as float rounding, is not modelled.
- The gauges' laziness is not modelled. Gauges yielded before an exception have already reached the client library, which decides what a failed scrape returns; the model gives only the eager sequence or the first error.
- Descriptions.Describe: this captures only which table entry a gauge's description is (its path and field), not the entry's English text.
- `skip_ids=None` is not modelled separately; an empty skip list behaves the same way.
- Label values of any JSON kind are allowed. Only a string label can equal a listed id, which matches Python's `in` on a list of strings.
