# Organisation-to-plugin synchronisation, modelled in Dafny

When a domain event happens in an organisation, `AddSyncMessage` notifies every
plugin installed in it. First it reads the organisation's installed-plugin
descriptors. Then, for every plugin, it appends a message to the queue in the
plugin's store record. A message has a fresh sequence id, the event tag and the
caller's payload. Finally, and only if every append succeeded, it POSTs to each
plugin's `sync_request_url` so that the plugin pulls the new message. Each of
the two fan-outs runs one worker per plugin and reports nil or one of the
errors its workers sent.

The model has three modules:

- `Wrappers` (`wrappers.dfy`): `Option` and `Result`.
- `ObjectId` (`object_id.dfy`): the driver's rule for turning text into an
  ObjectID. A valid id is exactly 24 hex digits, in either case. A record is
  keyed by the lower-case spelling, so two spellings that differ only in case
  name the same record.
- `Sync` (`sync.dfy`): the core.
  - Data: the store records, the errors and what a worker sends on the
    results channel (`NoSend`, `SendNil`, `SendErr`).
  - Pure functions: each worker (`QueueAppend`, `HandlePingPlugin`) and each
    fan-out run as a fold over the plugin list (`AppendAll`, `PingAll`).
  - Lemmas about those functions.
  - `Store`, a class holding the plugin and organisation collections as maps.
    Its methods are the Go functions. The resolver and the fan-outs are loops
    proved against the folds. The append is a read-modify-write of the
    plugin's record.

The goroutines are replaced by a sequential loop that runs every worker to
completion and records each one's channel send. In Go the drain loop returns
at the first non-nil value, but the buffered channel lets every worker finish.
So all store effects happen in both versions.

Each worker touches only its own record. Under `DistinctKeys` (the ids of one
list name distinct records), `AppendAllIsIndependent` proves the sequential
run equal to a per-record description that does not depend on order. This is
the sense in which the loop stands for the concurrent fan-out.

Things the code does that a reader might not expect:

- A URL that the URL parser rejects is not a failure. At line 122 the code
  sends `err`, which is nil at that point, not `erro`. The model follows the
  code: `SendNil`, and no POST.
- The endpoint is `sync_request_url` formatted with `%v`. When the field is
  missing it becomes the text `<nil>`, which passes the emptiness check.
- A successful ping sends nothing on the channel. A successful append sends
  nil. Both count as "no error".

## Model

| member | source | states |
|---|---|---|
| ObjectId.ObjectIDFromHex | organizations/sync.go:146-150 | an id is accepted exactly when it is 24 hex digits; the key is its lower-case spelling |
| ObjectId.CanonicalIsFixedPoint | organizations/sync.go:146-150 | the partner of the id parser: parsing a key gives the same key back |
| ObjectId.SpellingsUpToCaseAgree | organizations/sync.go:146-152 | two 24-hex-digit spellings whose digits agree up to case parse to the same key, so they look up the same record |
| Sync.QueueAppend | organizations/sync.go:143-185 | every append worker sends exactly once. A malformed id, a missing record, a record that does not decode, and a failed write each send their own error and leave the table unchanged. It sends nil iff every check passes and the write succeeds. On success only the plugin's own record changes: the queue gains exactly one message with id old queuepid + 1 and the caller's event and payload, queuepid becomes that id, and the endpoint and other fields stay as they were |
| Sync.AppendKeepsQueueConsistent | organizations/sync.go:165-176 | a successful append keeps this invariant: queue ids strictly increase and queuepid is the id of the last message |
| Sync.QueueAppendKeepsTableConsistent | organizations/sync.go:146-184 | whatever an append worker reports, every record of the table still satisfies the queue invariant |
| Sync.SequentialAppendsAreContiguous | organizations/sync.go:165-177 | K successful appends in a row to a plugin whose counter is q give ids q+1..q+K, in order, after the unchanged old queue, with the callers' events and payloads. The counter ends at q+K and no other record changes |
| Sync.HandlePingPlugin | organizations/sync.go:99-141 | a malformed id fails with InvalidHex and a missing record with PluginNotFound. An empty endpoint fails with NoEndpoint, whatever the parser or network would do. A URL the parser rejects sends nil and no POST. A request that cannot be built sends RequestError and no POST. A POST is issued iff all checks pass and the request can be built. A worker sends nothing iff its POST got a response. A transport failure sends TransportError |
| Sync.AppendAll | organizations/sync.go:80-87 | the append stage produces one channel send per plugin id and never adds or removes a record |
| Sync.PingAll | organizations/sync.go:48-55 | the ping stage records one outcome per plugin id (possibly no send at all) and issues no more POSTs than there are ids |
| Sync.PingAllPostsAtMostOncePerId | organizations/sync.go:48-50 | every POST is for an id of the list, and no id is POSTed to more often than it occurs in the list |
| Sync.QueueAppendIsLocal | organizations/sync.go:152-177 | an append worker's report and its own record's outcome depend only on that record |
| Sync.AppendAllKeepsUntargeted | organizations/sync.go:80-87 | a record that no id of the list targets is left exactly as it was by the whole append stage |
| Sync.AppendAllReportsAreIndependent | organizations/sync.go:80-87 | with distinct ids, append worker i reports what it would report run alone on the original table |
| Sync.AppendAllTargetsAreIndependent | organizations/sync.go:80-87 | with distinct ids, each targeted record ends as its worker alone would leave it on the original table |
| Sync.AppendAllIsIndependent | organizations/sync.go:80-87 | with distinct ids, worker i reports what it would report run alone on the original table. Each targeted record ends as its worker alone leaves it, and untargeted records are unchanged, so the order of the workers does not matter |
| Sync.AppendAllKeepsTableConsistent | organizations/sync.go:80-82 | the whole append stage keeps the queue invariant of every record |
| Sync.PingAllIsPointwise | organizations/sync.go:48-50 | ping worker i sends what HandlePingPlugin gives for the i-th id. The POSTed ids are exactly the ids whose worker issued a POST |
| Sync.AppendAllKeepsEndpoints | organizations/sync.go:172-177 | the append stage writes only queue and queuepid, so which records exist and their endpoints are unchanged |
| Sync.PingAllDependsOnEndpoints | organizations/sync.go:108-114 | the ping stage depends only on which records exist and on their endpoints |
| Sync.TwoPluginScenario | organizations/sync.go:165-177 | with two plugins at counters 0 and 5 and both writes succeeding, the appended messages get ids 1 and 6 and both workers send nil |
| Sync.TwoPluginAppends | organizations/sync.go:80-87 | two distinct canonical ids of decodable records, every write succeeding: both append workers send nil and each queue gains one message numbered one past its own counter |
| Sync.TwoPluginScenarioPings | organizations/sync.go:27-30 | in the same scenario, with endpoints that parse and answer, the ping stage run on the table the appends leave POSTs to both plugins and no worker sends anything, so the call succeeds |
| Sync.TwoPluginPings | organizations/sync.go:99-141 | two plugins whose endpoints are set, parse and answer are both POSTed to, and neither ping worker sends anything |
| Sync.Drain | organizations/sync.go:57-64 | the drained result is nil exactly when no worker sent an error, and is otherwise one of the errors sent |
| Sync.Store.GetInstalledPlugins | organizations/sync.go:187-217 | fails with InvalidHex on a malformed org id, OrgNotFound on a missing organisation, and OrgDecodeError when the document does not decode. Otherwise it returns exactly one id per descriptor, in descriptor order, the i-th being the i-th descriptor's plugin_id |
| Sync.Store.HandleAddingMessage | organizations/sync.go:143-185 | the read-modify-write leaves the plugin table and the channel send exactly as QueueAppend describes, and leaves the organisations untouched |
| Sync.Store.AddToPluginsQueue | organizations/sync.go:67-97 | runs every append worker. The table becomes the AppendAll table. The result is nil for an empty list and nil iff every worker, run against the original table, sends nil; otherwise it is one of the errors sent |
| Sync.Store.PingPlugins | organizations/sync.go:35-65 | runs every ping worker. The result is nil (also for an empty list) iff no worker sends an error, and otherwise one of the errors sent. The POSTed ids are exactly those whose worker issued a POST |
| Sync.Store.AddSyncMessage | organizations/sync.go:16-33 | a resolver error is returned with no append and no POST. After the append stage, an append error is returned, one of the errors sent, and no plugin is POSTed to, not even those whose append succeeded. Otherwise the ping stage's result and POSTs are returned |

## Left out

- Goroutines, the WaitGroup, channels and the closer goroutine (organizations/sync.go:42-55, 74-87): each fan-out is a sequential loop that runs every worker. In Go the caller can return before the remaining workers finish. The model returns only after all of them, which has the same effect on the store.
- Sync.Store.AddToPluginsQueue: the read-modify-write race is not modelled. It occurs when two calls, or one id given twice in a list, append to the same plugin at the same time, and a message or an id can be lost. `DistinctKeys` is a precondition. Nothing is claimed about linearisability across concurrent calls.
- Sync.Drain: which error is reported when several workers fail depends on completion order. The model may return any one of the sent errors and says nothing more.
- The HTTP POST (organizations/sync.go:126-140) is an abstract `PostOutcome` per plugin: request could not be built, transport failure, or response. The URL re-serialised by `URL.String()` and the discarded response body are not modelled. A POST is identified by the plugin id it was made for.
- `url.Parse` is library code. Its verdict is the `urlParses` parameter.
- `UpdateOneMongoDBDoc` (organizations/sync.go:177) is defined outside this model. Its success is the `writeOk` parameter. It is assumed to parse the id string like the lookup does and to change nothing when it fails.
- `GetMongoDBDoc` errors are ignored by the code, so a failed lookup and a missing document behave alike. The model has only the missing document.
- Decoding with `mapstructure` and `bson` is library code. Whether a document decodes is the record's `decodes` field, and the decoded queue and queuepid are the record's fields. `OrgPlugins()` is defined outside this model. It is the organisation's descriptor sequence, whose `plugin_id` values and the `sync_request_url` are taken as already formatted with `%v`.
- Sync.QueueAppend: `QueuePID` is a Go `int`. The model uses unbounded integers, so a wrap-around after 2^63 - 1 appends is not modelled.
- Every foreign call is assumed to return. `http.Client{}` (organizations/sync.go:126) has no timeout, so a POST that never gets an answer blocks its worker. Then `PingPlugins` and `AddSyncMessage` never return. A store call that hangs has the same effect. The model does not capture non-termination.
- `println` logging (organizations/sync.go:59, 91).
- report/report.go is not part of this model. It holds HTTP handlers for reports: JSON decoding, route variables, store lookups, the clock and e-mail validation. None of it is part of the synchronisation.
