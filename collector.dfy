/** `AMPSCollector`: the fixed table of groups the exporter publishes and the
    scrape that generates them, in order, from one statistics document. */
module Collector {
  import opened Results
  import opened Json
  import opened Descriptions
  import opened Generator

  /** One `generate_metric_group` call of a `collect_*` helper: its path and
      its fields (label key and skip list keep their defaults). */
  datatype Group = Group(path: string, metrics: seq<string>)

  const MemoryGroup: Group := Group("/amps/host/memory", ["free", "in_use", "swap_free", "swap_total"])
  const NetworkGroup: Group := Group("/amps/host/network", ["bytes_in", "bytes_out"])
  const DisksGroup: Group := Group("/amps/host/disks", ["file_system_free_percent"])
  const CpusGroup: Group := Group("/amps/host/cpus", ["iowait_percent", "idle_percent"])

  const HostGroups: seq<Group> := [MemoryGroup, NetworkGroup, DisksGroup, CpusGroup]

  const ProcessorsGroup: Group :=
    Group("/amps/instance/processors",
          ["messages_received_per_sec", "denied_reads", "denied_writes", "last_active", "throttle_count"])

  const SowGroup: Group :=
    Group("/amps/instance/sow",
          ["inserts_per_sec", "updates_per_sec", "deletes_per_sec", "queries_per_sec",
           "insert_count", "delete_count", "update_count"])

  const ViewsGroup: Group := Group("/amps/instance/views", ["queue_depth"])

  const QueuesGroup: Group :=
    Group("/amps/instance/queues",
          ["seconds_behind", "queue_depth", "transferred_in", "transferred_out", "owned"])

  const ReplicationGroup: Group :=
    Group("/amps/instance/replication", ["is_connected", "seconds_behind", "messages_out_per_sec"])

  const ClientsGroup: Group :=
    Group("/amps/instance/clients",
          ["transport_rx_queue", "transport_tx_queue", "bytes_in_per_sec", "bytes_out_per_sec",
           "queue_depth_out", "queue_max_latency"])

  /** All groups in the order `collect` chains its helpers: host, message
      flow, SOW, views, queues, replication, client connections. */
  const CollectorGroups: seq<Group> :=
    HostGroups + [ProcessorsGroup, SowGroup, ViewsGroup, QueuesGroup, ReplicationGroup, ClientsGroup]

  /** The gauges of one group, with the default label key and skip list. */
  function GroupGauges(stats: Json, g: Group): Result<seq<Gauge>> {
    MetricGroup(MetricDocs, stats, g.path, g.metrics, DefaultLabelKey, DefaultSkipIds)
  }

  /** The gauges of several groups, chained in order; the first error ends it. */
  function CollectGroups(stats: Json, groups: seq<Group>): Result<seq<Gauge>> {
    if groups == [] then Ok([])
    else Concat(CollectGroups(stats, groups[..|groups| - 1]), GroupGauges(stats, groups[|groups| - 1]))
  }

  /** One scrape: the outcome of fetching the statistics once, then every
      group of the table applied to that one document. */
  function Scrape(fetched: Result<Json>): Result<seq<Gauge>> {
    var stats :- fetched;
    CollectGroups(stats, CollectorGroups)
  }

  /** The number of fields over a list of groups. */
  function MetricCount(groups: seq<Group>): nat {
    if groups == [] then 0 else MetricCount(groups[..|groups| - 1]) + |groups[|groups| - 1].metrics|
  }

  /** The gauge names one group is meant to produce, in field order. */
  function GroupNames(g: Group): seq<string> {
    seq(|g.metrics|, i requires 0 <= i < |g.metrics| => MetricName(g.path, g.metrics[i]))
  }

  /** The gauge names a list of groups is meant to produce, in order. */
  function TableNames(groups: seq<Group>): seq<string> {
    if groups == [] then [] else TableNames(groups[..|groups| - 1]) + GroupNames(groups[|groups| - 1])
  }

  /** The names of a sequence of gauges. */
  function Names(gauges: seq<Gauge>): seq<string> {
    seq(|gauges|, i requires 0 <= i < |gauges| => gauges[i].name)
  }

  lemma NamesAppend(a: seq<Gauge>, b: seq<Gauge>)
    ensures Names(a + b) == Names(a) + Names(b)
  {
    assert forall i :: 0 <= i < |a + b| ==> (a + b)[i] == if i < |a| then a[i] else b[i - |a|];
  }

  /** The gauges of one group carry the names the table gives it. */
  lemma GroupGaugesNames(stats: Json, g: Group)
    requires GroupGauges(stats, g).Ok?
    ensures Names(GroupGauges(stats, g).value) == GroupNames(g)
  {
    MetricGroupShape(MetricDocs, stats, g.path, g.metrics, DefaultLabelKey, DefaultSkipIds);
  }

  lemma {:induction false} CollectGroupsAppend(stats: Json, a: seq<Group>, b: seq<Group>)
    ensures CollectGroups(stats, a + b) == Concat(CollectGroups(stats, a), CollectGroups(stats, b))
  {
    if b == [] {
      assert a + b == a;
      var ra := CollectGroups(stats, a);
      if ra.Ok? {
        assert ra.value + [] == ra.value;
      }
    } else {
      var binit := b[..|b| - 1];
      assert (a + b)[..|a + b| - 1] == a + binit;
      assert (a + b)[|a + b| - 1] == b[|b| - 1];
      CollectGroupsAppend(stats, a, binit);
      ConcatAssoc(CollectGroups(stats, a), CollectGroups(stats, binit), GroupGauges(stats, b[|b| - 1]));
    }
  }

  /** One more group extends the prefix, and once a prefix fails the whole
      chain fails with the same error. */
  lemma CollectGroupsStep(stats: Json, groups: seq<Group>, k: nat)
    requires k < |groups|
    ensures CollectGroups(stats, groups[..k + 1]) ==
            Concat(CollectGroups(stats, groups[..k]), GroupGauges(stats, groups[k]))
    ensures CollectGroups(stats, groups[..k + 1]).Err? ==>
            CollectGroups(stats, groups) == CollectGroups(stats, groups[..k + 1])
  {
    assert groups[..k + 1][..k] == groups[..k];
    assert groups == groups[..k + 1] + groups[k + 1..];
    CollectGroupsAppend(stats, groups[..k + 1], groups[k + 1..]);
  }

  /** A successful chain holds one gauge per field of the table, in table
      order. */
  lemma {:induction false} CollectGroupsSize(stats: Json, groups: seq<Group>)
    requires CollectGroups(stats, groups).Ok?
    ensures |CollectGroups(stats, groups).value| == MetricCount(groups)
  {
    if groups != [] {
      var g := groups[|groups| - 1];
      CollectGroupsSize(stats, groups[..|groups| - 1]);
      MetricGroupShape(MetricDocs, stats, g.path, g.metrics, DefaultLabelKey, DefaultSkipIds);
    }
  }

  /** A successful chain holds one gauge per field of the table, named after
      its group's path and its field, in table order. */
  lemma {:induction false} CollectGroupsNames(stats: Json, groups: seq<Group>)
    requires CollectGroups(stats, groups).Ok?
    ensures Names(CollectGroups(stats, groups).value) == TableNames(groups)
  {
    if groups != [] {
      var init := groups[..|groups| - 1];
      var g := groups[|groups| - 1];
      CollectGroupsNames(stats, init);
      GroupGaugesNames(stats, g);
      NamesAppend(CollectGroups(stats, init).value, GroupGauges(stats, g).value);
    }
  }

  /** The table publishes 36 fields, so a successful scrape has 36 gauges. */
  lemma ScrapeSize(stats: Json)
    requires Scrape(Ok(stats)).Ok?
    ensures |Scrape(Ok(stats)).value| == 36
  {
    CollectGroupsSize(stats, CollectorGroups);
    TableSize();
  }

  /** The table lists 36 fields. */
  lemma TableSize()
    ensures MetricCount(CollectorGroups) == 36
  {
    var host3 := [MemoryGroup, NetworkGroup, DisksGroup];
    assert HostGroups[..3] == host3 && host3[..2] == [MemoryGroup, NetworkGroup];
    assert [MemoryGroup, NetworkGroup][..1] == [MemoryGroup] && [MemoryGroup][..0] == [];
    assert MetricCount([MemoryGroup]) == 4;
    assert MetricCount([MemoryGroup, NetworkGroup]) == 6;
    assert MetricCount(host3) == 7;
    assert MetricCount(HostGroups) == 9;
    var rest := [ProcessorsGroup, SowGroup, ViewsGroup, QueuesGroup, ReplicationGroup, ClientsGroup];
    MetricCountAppend(HostGroups, rest);
    var r1, r2, r3, r4, r5 := rest[..1], rest[..2], rest[..3], rest[..4], rest[..5];
    assert r1[..0] == [] && r2[..1] == r1 && r3[..2] == r2 && r4[..3] == r3 && r5[..4] == r4 && rest[..5] == r5;
    assert MetricCount(r1) == 5;
    assert MetricCount(r2) == 12;
    assert MetricCount(r3) == 13;
    assert MetricCount(r4) == 18;
    assert MetricCount(r5) == 21;
    assert MetricCount(rest) == 27;
  }

  lemma {:induction false} MetricCountAppend(a: seq<Group>, b: seq<Group>)
    ensures MetricCount(a + b) == MetricCount(a) + MetricCount(b)
  {
    if b == [] {
      assert a + b == a;
    } else {
      assert (a + b)[..|a + b| - 1] == a + b[..|b| - 1];
      assert (a + b)[|a + b| - 1] == b[|b| - 1];
      MetricCountAppend(a, b[..|b| - 1]);
    }
  }

  /** The description table lists the group's path and each of its fields. */
  ghost predicate Described(g: Group) {
    g.path in MetricDocs && forall m :: m in g.metrics ==> m in MetricDocs[g.path]
  }

  /** Every field the collector publishes has its own entry in the
      description table, so no gauge gets the fallback text. */
  lemma EveryGaugeDescribed()
    ensures forall g :: g in CollectorGroups ==> Described(g)
    ensures forall g, m :: g in CollectorGroups && m in g.metrics ==> Describe(MetricDocs, g.path, m) != NoDescription
  {
    assert Described(MemoryGroup);
    assert Described(NetworkGroup);
    assert Described(DisksGroup);
    assert Described(CpusGroup);
    assert Described(ProcessorsGroup);
    assert Described(SowGroup);
    assert Described(ViewsGroup);
    assert Described(QueuesGroup);
    assert Described(ReplicationGroup);
    assert Described(ClientsGroup);
    assert CollectorGroups == [MemoryGroup, NetworkGroup, DisksGroup, CpusGroup, ProcessorsGroup,
                               SowGroup, ViewsGroup, QueuesGroup, ReplicationGroup, ClientsGroup];
  }

  /** `collect`: the statistics are fetched once (the fetch outcome is the
      parameter), then every group of the table is generated from that one
      document and the gauges are chained in table order. */
  method Collect(fetched: Result<Json>) returns (r: Result<seq<Gauge>>)
    ensures r == Scrape(fetched)
    ensures fetched.Err? ==> r == Err(fetched.error)
  {
    var stats :- fetched;
    var gauges: seq<Gauge> := [];
    for k := 0 to |CollectorGroups|
      invariant CollectGroups(stats, CollectorGroups[..k]) == Ok(gauges)
    {
      var group := CollectorGroups[k];
      CollectGroupsStep(stats, CollectorGroups, k);
      var generated := GenerateMetricGroup(MetricDocs, stats, group.path, group.metrics, DefaultLabelKey, DefaultSkipIds);
      if generated.Err? {
        return Err(generated.error);
      }
      gauges := gauges + generated.value;
    }
    assert CollectorGroups[..|CollectorGroups|] == CollectorGroups;
    return Ok(gauges);
  }
}
