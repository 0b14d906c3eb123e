/** The static description table `METRIC_DOCS`: for each group path, the
    fields that have a description. A description is represented by the
    (path, field) key it is stored under; its English text is not modelled. */
module Descriptions {

  /** A gauge's description: the table entry stored under a group path and a
      field, or the fallback text 'No description available'. */
  datatype Description = Entry(path: string, metric: string) | NoDescription

  /** A description table: for each group path, the fields it describes. */
  type DocTable = map<string, set<string>>

  /** `METRIC_DOCS`: the paths and fields the exporter's table lists. */
  const MetricDocs: DocTable := map[
    "/amps/host/memory" := {"free", "in_use", "swap_free", "swap_total"},
    "/amps/host/network" := {"bytes_in", "bytes_out"},
    "/amps/host/disks" := {"file_system_free_percent"},
    "/amps/host/cpus" := {"iowait_percent", "idle_percent"},
    "/amps/instance/processors" :=
      {"messages_received_per_sec", "denied_reads", "denied_writes", "last_active", "throttle_count"},
    "/amps/instance/sow" :=
      {"inserts_per_sec", "updates_per_sec", "deletes_per_sec", "queries_per_sec",
       "insert_count", "delete_count", "update_count"},
    "/amps/instance/views" := {"queue_depth"},
    "/amps/instance/queues" := {"seconds_behind", "queue_depth", "transferred_in", "transferred_out", "owned"},
    "/amps/instance/replication" := {"is_connected", "seconds_behind", "messages_out_per_sec"},
    "/amps/instance/clients" :=
      {"transport_rx_queue", "transport_tx_queue", "bytes_in_per_sec", "bytes_out_per_sec",
       "queue_depth_out", "queue_max_latency"}
  ]

  /** `METRIC_DOCS.get(path, {}).get(metric, 'No description available')`:
      the entry for the path and field when the table lists both, the
      fallback otherwise. */
  function Describe(docs: DocTable, path: string, metric: string): (doc: Description)
    ensures doc.Entry? <==> path in docs && metric in docs[path]
    ensures doc.Entry? ==> doc.path == path && doc.metric == metric
  {
    var documented := if path in docs then docs[path] else {};
    if metric in documented then Entry(path, metric) else NoDescription
  }
}
