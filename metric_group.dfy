/** `generate_metric_group`: one gauge per requested field of the group a
    path leads to, with one sample per entity for list-shaped groups and one
    sample per field for object-shaped groups. */
module Generator {
  import opened Results
  import opened Json
  import opened Paths
  import opened Descriptions

  /** One point of a gauge: its label values and the value read from the tree. */
  datatype Sample = Sample(labelValues: seq<Json>, value: Json)

  /** A gauge family as the exporter builds it: name, description, the label
      names it declares, and its samples in the order they were added. */
  datatype Gauge = Gauge(name: string, documentation: Description, labels: seq<string>, samples: seq<Sample>)

  /** The defaults of `label_key` and `skip_ids`. */
  const DefaultLabelKey: string := "id"
  const DefaultSkipIds: seq<string> := ["all"]

  /** `path[1:].replace('/', '_') + '_'`, the prefix of every gauge name of a group. */
  function MetricNameBase(path: string): string {
    Replace(if path == [] then [] else path[1..], '/', '_') + "_"
  }

  /** The gauge name for one field of a group: the path without its first
      character, slashes turned into underscores, an underscore, the field. */
  function MetricName(path: string, metric: string): (name: string)
    ensures |name| == (if path == [] then 0 else |path| - 1) + 1 + |metric|
    ensures name[|name| - |metric| - 1..] == "_" + metric
    ensures '/' !in metric ==> '/' !in name
  {
    MetricNameBase(path) + metric
  }

  /** For a path that starts with a slash, the gauge name is the keys the path
      resolves through, joined by underscores, then `_` and the field. */
  lemma MetricNameFromKeys(path: string, metric: string)
    requires |path| > 0 && path[0] == '/'
    ensures MetricName(path, metric) == Join(PathKeys(path), '_') + "_" + metric
  {
    assert path == [] + ['/'] + path[1..];
    SplitAppend([], '/', path[1..]);
    assert PathKeys(path) == Split(path[1..], '/');
    ReplaceIsJoinSplit(path[1..], '/', '_');
  }

  /** `skip_ids and entry_id in skip_ids`: only a string label can equal one
      of the listed ids. */
  predicate Skips(skipIds: seq<string>, entryId: Json) {
    |skipIds| > 0 && entryId.JStr? && entryId.str in skipIds
  }

  /** The samples one list entry contributes to the gauge of `metric`: its
      label is read first; a skipped entry contributes nothing and is not
      indexed with `metric`. */
  function EntrySamples(entry: Json, labelKey: string, skipIds: seq<string>, metric: string): Result<seq<Sample>> {
    var entryId :- Index(entry, labelKey);
    if Skips(skipIds, entryId) then Ok([])
    else
      var value :- Index(entry, metric);
      Ok([Sample([entryId], value)])
  }

  /** The samples of a list-shaped group for `metric`, entry by entry. */
  function ListSamples(entries: seq<Json>, labelKey: string, skipIds: seq<string>, metric: string): Result<seq<Sample>> {
    if entries == [] then Ok([])
    else
      Concat(ListSamples(entries[..|entries| - 1], labelKey, skipIds, metric),
             EntrySamples(entries[|entries| - 1], labelKey, skipIds, metric))
  }

  /** The one sample of an object-shaped group for `metric`, labelled by the
      field name itself. */
  function ScalarSamples(group: Json, metric: string): Result<seq<Sample>> {
    var value :- Index(group, metric);
    Ok([Sample([JStr(metric)], value)])
  }

  /** The gauge for one field of the group node `group` found at `path`. */
  function GaugeFor(docs: DocTable, group: Json, path: string, metric: string, labelKey: string, skipIds: seq<string>): Result<Gauge> {
    var samples :- if group.JArray? then ListSamples(group.items, labelKey, skipIds, metric)
                   else ScalarSamples(group, metric);
    Ok(Gauge(MetricName(path, metric), Describe(docs, path, metric), [metric], samples))
  }

  /** The gauges for the fields `metrics`, in order. */
  function Gauges(docs: DocTable, group: Json, path: string, metrics: seq<string>, labelKey: string, skipIds: seq<string>): Result<seq<Gauge>> {
    if metrics == [] then Ok([])
    else
      var init :- Gauges(docs, group, path, metrics[..|metrics| - 1], labelKey, skipIds);
      var last :- GaugeFor(docs, group, path, metrics[|metrics| - 1], labelKey, skipIds);
      Ok(init + [last])
  }

  /** Everything `generate_metric_group(stats, path, metrics, label_key,
      skip_ids)` yields, or the error it raises. The module-level description
      table it reads is the parameter `docs`; the collector passes `MetricDocs`. */
  function MetricGroup(docs: DocTable, stats: Json, path: string, metrics: seq<string>, labelKey: string, skipIds: seq<string>): Result<seq<Gauge>> {
    var group :- ResolvePath(stats, path);
    Gauges(docs, group, path, metrics, labelKey, skipIds)
  }

  // ---------------------------------------------------------------------
  // Reference definitions for list-shaped groups

  /** Every entry carries the label key. */
  ghost predicate Labelled(entries: seq<Json>, labelKey: string) {
    forall i :: 0 <= i < |entries| ==> Index(entries[i], labelKey).Ok?
  }

  /** Every entry carries the field. */
  ghost predicate HaveField(entries: seq<Json>, metric: string) {
    forall i :: 0 <= i < |entries| ==> Index(entries[i], metric).Ok?
  }

  /** The entries, in order, that are labelled and whose label is not skipped. */
  function Kept(entries: seq<Json>, labelKey: string, skipIds: seq<string>): (kept: seq<Json>)
    ensures |kept| <= |entries|
    ensures forall i :: 0 <= i < |kept| ==> kept[i] in entries
    ensures forall i :: 0 <= i < |kept| ==>
              Index(kept[i], labelKey).Ok? && !Skips(skipIds, Index(kept[i], labelKey).value)
  {
    if entries == [] then []
    else
      var e := entries[|entries| - 1];
      Kept(entries[..|entries| - 1], labelKey, skipIds) +
      (if Index(e, labelKey).Ok? && !Skips(skipIds, Index(e, labelKey).value) then [e] else [])
  }

  /** Filtering a concatenation filters each part and keeps their order. */
  lemma {:induction false} KeptAppend(a: seq<Json>, b: seq<Json>, labelKey: string, skipIds: seq<string>)
    ensures Kept(a + b, labelKey, skipIds) == Kept(a, labelKey, skipIds) + Kept(b, labelKey, skipIds)
  {
    if b == [] {
      assert a + b == a;
    } else {
      var binit := b[..|b| - 1];
      assert (a + b)[..|a + b| - 1] == a + binit;
      assert (a + b)[|a + b| - 1] == b[|b| - 1];
      KeptAppend(a, binit, labelKey, skipIds);
    }
  }

  /** Every labelled entry whose label is not skipped is kept. */
  lemma {:induction false} KeptComplete(entries: seq<Json>, e: Json, labelKey: string, skipIds: seq<string>)
    requires e in entries && Index(e, labelKey).Ok? && !Skips(skipIds, Index(e, labelKey).value)
    ensures e in Kept(entries, labelKey, skipIds)
  {
    var init := entries[..|entries| - 1];
    assert entries == init + [entries[|entries| - 1]];
    if e != entries[|entries| - 1] {
      assert e in init;
      KeptComplete(init, e, labelKey, skipIds);
    }
  }

  /** The samples the kept entries stand for: label its id, value its field. */
  ghost function SamplesOf(kept: seq<Json>, labelKey: string, metric: string): seq<Sample>
    requires Labelled(kept, labelKey) && HaveField(kept, metric)
  {
    seq(|kept|, i requires 0 <= i < |kept| =>
      Sample([Index(kept[i], labelKey).value], Index(kept[i], metric).value))
  }

  lemma SamplesOfAppend(a: seq<Json>, b: seq<Json>, labelKey: string, metric: string)
    requires Labelled(a, labelKey) && HaveField(a, metric)
    requires Labelled(b, labelKey) && HaveField(b, metric)
    ensures Labelled(a + b, labelKey) && HaveField(a + b, metric)
    ensures SamplesOf(a + b, labelKey, metric) == SamplesOf(a, labelKey, metric) + SamplesOf(b, labelKey, metric)
  {
    assert forall i :: 0 <= i < |a + b| ==> (a + b)[i] == if i < |a| then a[i] else b[i - |a|];
  }

  /** A list-shaped gauge is built exactly when every entry has the label key
      and every kept entry has the field; its samples are then the kept
      entries in order, each labelled with its id and carrying its field's
      value unchanged. */
  lemma {:induction false} ListSamplesSpec(entries: seq<Json>, labelKey: string, skipIds: seq<string>, metric: string)
    ensures ListSamples(entries, labelKey, skipIds, metric).Ok? <==>
            Labelled(entries, labelKey) && HaveField(Kept(entries, labelKey, skipIds), metric)
    ensures ListSamples(entries, labelKey, skipIds, metric).Ok? ==>
            ListSamples(entries, labelKey, skipIds, metric).value == SamplesOf(Kept(entries, labelKey, skipIds), labelKey, metric)
  {
    if entries != [] {
      var init := entries[..|entries| - 1];
      var e := entries[|entries| - 1];
      assert entries == init + [e];
      ListSamplesSpec(init, labelKey, skipIds, metric);
      var keptInit := Kept(init, labelKey, skipIds);
      var keep := Index(e, labelKey).Ok? && !Skips(skipIds, Index(e, labelKey).value);
      var tail := if keep then [e] else [];
      assert Kept(entries, labelKey, skipIds) == keptInit + tail;
      assert Labelled(entries, labelKey) <==> Labelled(init, labelKey) && Index(e, labelKey).Ok? by {
        assert forall i :: 0 <= i < |init| ==> entries[i] == init[i];
      }
      assert HaveField(keptInit + tail, metric) <==>
             HaveField(keptInit, metric) && (keep ==> Index(e, metric).Ok?) by {
        assert forall i :: 0 <= i < |keptInit| ==> (keptInit + tail)[i] == keptInit[i];
        assert keep ==> (keptInit + tail)[|keptInit|] == e;
      }
      if ListSamples(entries, labelKey, skipIds, metric).Ok? {
        assert HaveField(tail, metric) && Labelled(tail, labelKey);
        SamplesOfAppend(keptInit, tail, labelKey, metric);
        assert SamplesOf(tail, labelKey, metric) == EntrySamples(e, labelKey, skipIds, metric).value;
      }
    }
  }

  /** Building the samples of a concatenation of entries is building those
      of each part in turn. */
  lemma {:induction false} ListSamplesAppend(a: seq<Json>, b: seq<Json>, labelKey: string, skipIds: seq<string>, metric: string)
    ensures ListSamples(a + b, labelKey, skipIds, metric) ==
            Concat(ListSamples(a, labelKey, skipIds, metric), ListSamples(b, labelKey, skipIds, metric))
  {
    if b == [] {
      assert a + b == a;
      var pa := ListSamples(a, labelKey, skipIds, metric);
      if pa.Ok? {
        assert pa.value + [] == pa.value;
      }
    } else {
      var binit := b[..|b| - 1];
      assert (a + b)[..|a + b| - 1] == a + binit;
      assert (a + b)[|a + b| - 1] == b[|b| - 1];
      ListSamplesAppend(a, binit, labelKey, skipIds, metric);
      var last := EntrySamples(b[|b| - 1], labelKey, skipIds, metric);
      assert ListSamples(b, labelKey, skipIds, metric) == Concat(ListSamples(binit, labelKey, skipIds, metric), last);
      ConcatAssoc(ListSamples(a, labelKey, skipIds, metric), ListSamples(binit, labelKey, skipIds, metric), last);
    }
  }

  /** A skipped entry is never indexed with the field: removing it, whatever
      it holds besides its label, changes nothing. */
  lemma SkippedEntryIgnored(pre: seq<Json>, entry: Json, post: seq<Json>, labelKey: string, skipIds: seq<string>, metric: string)
    requires Index(entry, labelKey).Ok? && Skips(skipIds, Index(entry, labelKey).value)
    ensures ListSamples(pre + [entry] + post, labelKey, skipIds, metric) == ListSamples(pre + post, labelKey, skipIds, metric)
  {
    ListSamplesAppend(pre + [entry], post, labelKey, skipIds, metric);
    ListSamplesAppend(pre, [entry], labelKey, skipIds, metric);
    ListSamplesAppend(pre, post, labelKey, skipIds, metric);
    assert [entry][..0] == [];
    var none: seq<Sample> := [];
    assert none + none == none;
    assert ListSamples([entry], labelKey, skipIds, metric) == Ok([]);
    var p := ListSamples(pre, labelKey, skipIds, metric);
    if p.Ok? {
      assert p.value + [] == p.value;
    }
  }

  /** With an empty skip list every labelled entry is kept. */
  lemma {:induction false} NothingSkipped(entries: seq<Json>, labelKey: string)
    requires Labelled(entries, labelKey)
    ensures Kept(entries, labelKey, []) == entries
  {
    if entries != [] {
      var init := entries[..|entries| - 1];
      assert Labelled(init, labelKey) by {
        assert forall i :: 0 <= i < |init| ==> init[i] == entries[i];
      }
      NothingSkipped(init, labelKey);
      assert Index(entries[|entries| - 1], labelKey).Ok?;
      assert entries == init + [entries[|entries| - 1]];
    }
  }

  /** No sample of a list-shaped gauge carries a skipped id, and each has
      exactly one label value. */
  lemma NoSkippedLabel(entries: seq<Json>, labelKey: string, skipIds: seq<string>, metric: string)
    requires ListSamples(entries, labelKey, skipIds, metric).Ok?
    ensures forall s :: s in ListSamples(entries, labelKey, skipIds, metric).value ==>
              |s.labelValues| == 1 && !Skips(skipIds, s.labelValues[0])
  {
    ListSamplesSpec(entries, labelKey, skipIds, metric);
  }

  // ---------------------------------------------------------------------
  // The gauges of a group

  lemma {:induction false} GaugesAppend(docs: DocTable, group: Json, path: string, a: seq<string>, b: seq<string>, labelKey: string, skipIds: seq<string>)
    ensures Gauges(docs, group, path, a + b, labelKey, skipIds) ==
            Concat(Gauges(docs, group, path, a, labelKey, skipIds), Gauges(docs, group, path, b, labelKey, skipIds))
  {
    if b == [] {
      assert a + b == a;
      var ga := Gauges(docs, group, path, a, labelKey, skipIds);
      if ga.Ok? {
        assert ga.value + [] == ga.value;
      }
    } else {
      var binit := b[..|b| - 1];
      assert (a + b)[..|a + b| - 1] == a + binit;
      assert (a + b)[|a + b| - 1] == b[|b| - 1];
      GaugesAppend(docs, group, path, a, binit, labelKey, skipIds);
      var last := GaugeFor(docs, group, path, b[|b| - 1], labelKey, skipIds);
      var single: Result<seq<Gauge>> := if last.Ok? then Ok([last.value]) else Err(last.error);
      assert Gauges(docs, group, path, b, labelKey, skipIds) == Concat(Gauges(docs, group, path, binit, labelKey, skipIds), single);
      assert Gauges(docs, group, path, a + b, labelKey, skipIds) == Concat(Gauges(docs, group, path, a + binit, labelKey, skipIds), single);
      ConcatAssoc(Gauges(docs, group, path, a, labelKey, skipIds), Gauges(docs, group, path, binit, labelKey, skipIds), single);
    }
  }

  /** The gauges are built exactly when each field's gauge is, and then
      there is one per field, in the same order. */
  lemma {:induction false} GaugesSpec(docs: DocTable, group: Json, path: string, metrics: seq<string>, labelKey: string, skipIds: seq<string>)
    ensures Gauges(docs, group, path, metrics, labelKey, skipIds).Ok? <==>
            forall i :: 0 <= i < |metrics| ==> GaugeFor(docs, group, path, metrics[i], labelKey, skipIds).Ok?
    ensures Gauges(docs, group, path, metrics, labelKey, skipIds).Ok? ==>
            var gs := Gauges(docs, group, path, metrics, labelKey, skipIds).value;
            |gs| == |metrics| &&
            forall i :: 0 <= i < |metrics| ==> GaugeFor(docs, group, path, metrics[i], labelKey, skipIds) == Ok(gs[i])
  {
    if metrics != [] {
      var n := |metrics| - 1;
      var init := metrics[..n];
      GaugesSpec(docs, group, path, init, labelKey, skipIds);
      assert forall i :: 0 <= i < n ==> init[i] == metrics[i];
      var rest := Gauges(docs, group, path, init, labelKey, skipIds);
      var last := GaugeFor(docs, group, path, metrics[n], labelKey, skipIds);
      if rest.Ok? && last.Ok? {
        var gs := rest.value + [last.value];
        assert Gauges(docs, group, path, metrics, labelKey, skipIds) == Ok(gs);
        forall i | 0 <= i < |metrics|
          ensures GaugeFor(docs, group, path, metrics[i], labelKey, skipIds) == Ok(gs[i])
        {
          if i < n {
            assert gs[i] == rest.value[i];
          }
        }
      } else if rest.Err? {
        var i :| 0 <= i < n && GaugeFor(docs, group, path, init[i], labelKey, skipIds).Err?;
        assert GaugeFor(docs, group, path, metrics[i], labelKey, skipIds).Err?;
      } else {
        assert GaugeFor(docs, group, path, metrics[n], labelKey, skipIds).Err?;
      }
    }
  }

  /** Every gauge of a group is named after the path and its field, declares
      exactly the field name as its one label, and has the table's
      description; there is one gauge per requested field, in order. */
  lemma MetricGroupShape(docs: DocTable, stats: Json, path: string, metrics: seq<string>, labelKey: string, skipIds: seq<string>)
    requires MetricGroup(docs, stats, path, metrics, labelKey, skipIds).Ok?
    ensures var gs := MetricGroup(docs, stats, path, metrics, labelKey, skipIds).value;
            |gs| == |metrics| &&
            forall i :: 0 <= i < |metrics| ==>
              gs[i].name == MetricName(path, metrics[i]) &&
              gs[i].labels == [metrics[i]] &&
              gs[i].documentation == Describe(docs, path, metrics[i])
  {
    GaugesSpec(docs, ResolvePath(stats, path).value, path, metrics, labelKey, skipIds);
  }

  /** The samples of each gauge: for a list-shaped group, those the entries
      give; otherwise exactly one, labelled by the field and holding the
      group's value for it. */
  lemma MetricGroupSamples(docs: DocTable, stats: Json, path: string, metrics: seq<string>, labelKey: string, skipIds: seq<string>, i: nat)
    requires MetricGroup(docs, stats, path, metrics, labelKey, skipIds).Ok? && i < |metrics|
    ensures ResolvePath(stats, path).Ok?
    ensures |MetricGroup(docs, stats, path, metrics, labelKey, skipIds).value| == |metrics|
    ensures var group := ResolvePath(stats, path).value;
            var g := MetricGroup(docs, stats, path, metrics, labelKey, skipIds).value[i];
            (group.JArray? ==> ListSamples(group.items, labelKey, skipIds, metrics[i]) == Ok(g.samples)) &&
            (!group.JArray? ==> group.JObject? && metrics[i] in group.fields &&
                                g.samples == [Sample([JStr(metrics[i])], group.fields[metrics[i]])])
  {
    GaugesSpec(docs, ResolvePath(stats, path).value, path, metrics, labelKey, skipIds);
  }

  /** An object-shaped group succeeds exactly when it is a mapping holding
      every requested field. */
  lemma ScalarGroupOk(docs: DocTable, stats: Json, path: string, metrics: seq<string>, labelKey: string, skipIds: seq<string>)
    requires ResolvePath(stats, path).Ok? && !ResolvePath(stats, path).value.JArray?
    requires |metrics| > 0
    ensures MetricGroup(docs, stats, path, metrics, labelKey, skipIds).Ok? <==>
            var group := ResolvePath(stats, path).value;
            group.JObject? && forall i :: 0 <= i < |metrics| ==> metrics[i] in group.fields
  {
    var group := ResolvePath(stats, path).value;
    GaugesSpec(docs, group, path, metrics, labelKey, skipIds);
    if !group.JObject? {
      assert GaugeFor(docs, group, path, metrics[0], labelKey, skipIds).Err?;
    }
  }

  /** A list-shaped group succeeds exactly when, for each requested field,
      every entry has the label key and every kept entry has the field. */
  lemma ListGroupOk(docs: DocTable, stats: Json, path: string, metrics: seq<string>, labelKey: string, skipIds: seq<string>)
    requires ResolvePath(stats, path).Ok? && ResolvePath(stats, path).value.JArray?
    ensures MetricGroup(docs, stats, path, metrics, labelKey, skipIds).Ok? <==>
            var items := ResolvePath(stats, path).value.items;
            forall i :: 0 <= i < |metrics| ==>
              Labelled(items, labelKey) && HaveField(Kept(items, labelKey, skipIds), metrics[i])
  {
    var group := ResolvePath(stats, path).value;
    GaugesSpec(docs, group, path, metrics, labelKey, skipIds);
    forall i | 0 <= i < |metrics|
      ensures GaugeFor(docs, group, path, metrics[i], labelKey, skipIds).Ok? <==>
              Labelled(group.items, labelKey) && HaveField(Kept(group.items, labelKey, skipIds), metrics[i])
    {
      ListSamplesSpec(group.items, labelKey, skipIds, metrics[i]);
    }
  }

  /** The loop of `generate_metric_group` over the entries of a list-shaped
      group for one field: read the label, pass over a skipped entry, add one
      sample otherwise; the first failing index ends it. */
  method FillListSamples(entries: seq<Json>, labelKey: string, skipIds: seq<string>, metric: string)
    returns (r: Result<seq<Sample>>)
    ensures r == ListSamples(entries, labelKey, skipIds, metric)
  {
    var samples: seq<Sample> := [];
    for j := 0 to |entries|
      invariant ListSamples(entries[..j], labelKey, skipIds, metric) == Ok(samples)
    {
      assert entries[..j + 1][..j] == entries[..j];
      var entry := entries[j];
      var entryId := Index(entry, labelKey);
      if entryId.Err? {
        AbortSamples(entries, labelKey, skipIds, metric, j);
        return Err(entryId.error);
      }
      if |skipIds| > 0 && entryId.value.JStr? && entryId.value.str in skipIds {
        assert samples + [] == samples;
        continue;
      }
      var value := Index(entry, metric);
      if value.Err? {
        AbortSamples(entries, labelKey, skipIds, metric, j);
        return Err(value.error);
      }
      samples := samples + [Sample([entryId.value], value.value)];
    }
    assert entries[..|entries|] == entries;
    return Ok(samples);
  }

  /** `generate_metric_group`: resolves the path once, then fills one gauge
      per field, with the samples of the kept entries or the single sample. */
  method GenerateMetricGroup(docs: DocTable, stats: Json, path: string, metrics: seq<string>, labelKey: string, skipIds: seq<string>)
    returns (r: Result<seq<Gauge>>)
    ensures r == MetricGroup(docs, stats, path, metrics, labelKey, skipIds)
  {
    var groupEntries :- GetValue(stats, path);
    var metricNameBase := MetricNameBase(path);
    var isList := groupEntries.JArray?;
    var gauges: seq<Gauge> := [];
    for k := 0 to |metrics|
      invariant Gauges(docs, groupEntries, path, metrics[..k], labelKey, skipIds) == Ok(gauges)
    {
      var metric := metrics[k];
      var samples: seq<Sample>;
      if isList {
        var filled := FillListSamples(groupEntries.items, labelKey, skipIds, metric);
        if filled.Err? {
          AbortGauges(docs, groupEntries, path, metrics, labelKey, skipIds, k);
          return Err(filled.error);
        }
        samples := filled.value;
      } else {
        var value := Index(groupEntries, metric);
        if value.Err? {
          AbortGauges(docs, groupEntries, path, metrics, labelKey, skipIds, k);
          return Err(value.error);
        }
        samples := [Sample([JStr(metric)], value.value)];
      }
      assert metrics[..k + 1][..k] == metrics[..k];
      gauges := gauges + [Gauge(metricNameBase + metric, Describe(docs, path, metric), [metric], samples)];
    }
    assert metrics[..|metrics|] == metrics;
    return Ok(gauges);
  }

  /** If the gauge of field `k` fails after the earlier fields succeeded,
      the whole group fails with that error. */
  lemma AbortGauges(docs: DocTable, group: Json, path: string, metrics: seq<string>, labelKey: string, skipIds: seq<string>, k: nat)
    requires k < |metrics|
    requires Gauges(docs, group, path, metrics[..k], labelKey, skipIds).Ok?
    requires GaugeFor(docs, group, path, metrics[k], labelKey, skipIds).Err?
    ensures Gauges(docs, group, path, metrics, labelKey, skipIds) == Err(GaugeFor(docs, group, path, metrics[k], labelKey, skipIds).error)
  {
    assert metrics == metrics[..k + 1] + metrics[k + 1..];
    assert metrics[..k + 1][..k] == metrics[..k];
    GaugesAppend(docs, group, path, metrics[..k + 1], metrics[k + 1..], labelKey, skipIds);
  }

  /** If entry `j` fails after the earlier entries succeeded, the samples
      of the whole list fail with that error. */
  lemma AbortSamples(entries: seq<Json>, labelKey: string, skipIds: seq<string>, metric: string, j: nat)
    requires j < |entries|
    requires ListSamples(entries[..j], labelKey, skipIds, metric).Ok?
    requires EntrySamples(entries[j], labelKey, skipIds, metric).Err?
    ensures ListSamples(entries, labelKey, skipIds, metric) == Err(EntrySamples(entries[j], labelKey, skipIds, metric).error)
  {
    assert entries == entries[..j + 1] + entries[j + 1..];
    assert entries[..j + 1][..j] == entries[..j];
    ListSamplesAppend(entries[..j + 1], entries[j + 1..], labelKey, skipIds, metric);
  }
}
