/** The naming rule on a three-segment group path such as `/amps/host/memory`,
    and a list-shaped group whose aggregate `all` entry is skipped. */
module Scenarios {
  import opened Results
  import opened Json
  import opened Paths
  import opened Descriptions
  import opened Generator

  /** A leading segment without slashes splits off as one piece. */
  lemma SplitLeading(a: string, rest: string)
    requires '/' !in a
    ensures Split(a + ['/'] + rest, '/') == [a] + Split(rest, '/')
  {
    SplitNoSeparator(a, '/');
    SplitAppend(a, '/', rest);
  }

  /** The keys of a three-segment absolute path. */
  lemma ThreeSegmentKeys(a: string, b: string, c: string)
    requires '/' !in a && '/' !in b && '/' !in c
    ensures PathKeys("/" + a + "/" + b + "/" + c) == [a, b, c]
  {
    SplitNoSeparator(c, '/');
    var bc := b + ['/'] + c;
    SplitLeading(b, c);
    var abc := a + ['/'] + bc;
    SplitLeading(a, bc);
    var path := [] + ['/'] + abc;
    SplitLeading([], abc);
    assert Split(path, '/') == [""] + ([a] + ([b] + [c]));
    assert path == "/" + a + "/" + b + "/" + c;
  }

  /** `/a/b/c` with field `m` gives the gauge `a_b_c_m`
      (`/amps/host/memory` and `free` give `amps_host_memory_free`). */
  lemma ThreeSegmentName(a: string, b: string, c: string, metric: string)
    requires '/' !in a && '/' !in b && '/' !in c
    ensures MetricName("/" + a + "/" + b + "/" + c, metric) == a + "_" + b + "_" + c + "_" + metric
  {
    ThreeSegmentKeys(a, b, c);
    MetricNameFromKeys("/" + a + "/" + b + "/" + c, metric);
    assert [a, b, c][1..] == [b, c] && [b, c][1..] == [c];
  }

  /** A disk-like group of an aggregate entry `all`, which need not even hold
      the field, and one real entity: the gauge has the entity's sample only. */
  lemma AggregateEntrySkipped(docs: DocTable, stats: Json, path: string, metric: string, id: string, value: Json)
    requires id != "all" && metric != "id"
    requires ResolvePath(stats, path) ==
             Ok(JArray([JObject(map["id" := JStr("all")]), JObject(map["id" := JStr(id), metric := value])]))
    ensures MetricGroup(docs, stats, path, [metric], DefaultLabelKey, DefaultSkipIds) ==
            Ok([Gauge(MetricName(path, metric), Describe(docs, path, metric), [metric], [Sample([JStr(id)], value)])])
  {
    var all := JObject(map["id" := JStr("all")]);
    var entity := JObject(map["id" := JStr(id), metric := value]);
    var items := [all, entity];
    var none: seq<Sample> := [];
    var sample := Sample([JStr(id)], value);
    assert items[..1] == [all] && items[..1][..0] == [];
    assert EntrySamples(all, DefaultLabelKey, DefaultSkipIds, metric) == Ok(none);
    assert none + none == none && none + [sample] == [sample];
    assert ListSamples([all], DefaultLabelKey, DefaultSkipIds, metric) == Ok(none);
    assert Index(entity, DefaultLabelKey) == Ok(JStr(id));
    assert EntrySamples(entity, DefaultLabelKey, DefaultSkipIds, metric) == Ok([sample]);
    assert ListSamples(items, DefaultLabelKey, DefaultSkipIds, metric) == Ok([sample]);
    var gauge := Gauge(MetricName(path, metric), Describe(docs, path, metric), [metric], [sample]);
    var noGauges: seq<Gauge> := [];
    assert [metric][..0] == [] && noGauges + [gauge] == [gauge];
    var group := ResolvePath(stats, path).value;
    assert GaugeFor(docs, group, path, metric, DefaultLabelKey, DefaultSkipIds) == Ok(gauge);
    assert Gauges(docs, group, path, [], DefaultLabelKey, DefaultSkipIds) == Ok(noGauges);
    assert Gauges(docs, group, path, [metric], DefaultLabelKey, DefaultSkipIds) == Ok([gauge]);
  }
}
