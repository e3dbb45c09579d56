/**
 * Organisation-to-plugin synchronisation: resolve the plugins an organisation
 * has installed, append one message to each plugin's queue, then ping each
 * plugin's sync endpoint so that it pulls the new message.
 *
 * The Go code runs one goroutine per plugin and drains a buffered channel. Here
 * every fan-out is a sequential loop that runs every worker and records what
 * each one sent on the channel; the drain then reports some sent error. The two
 * agree when the plugin ids of one call denote distinct records (DistinctKeys),
 * since every worker reads and writes only its own record.
 */
module Sync {
  import opened Wrappers
  import opened ObjectId

  /** The failures the resolver and the workers report. */
  datatype Error =
    | InvalidHex          // the id is not an ObjectID in hex
    | PluginNotFound      // "plugin not found"
    | PluginDecodeError   // the plugin document does not decode into a Plugin
    | WriteError          // the store refused the update of queue and queuepid
    | NoEndpoint          // "no endpoint provided"
    | RequestError        // the POST request could not be built
    | TransportError      // the POST failed in transport
    | OrgNotFound         // "organization Does not exist"
    | OrgDecodeError      // the organisation document does not decode

  /** One queued message; the id is assigned by the appender, never by the caller. */
  datatype Message<P> = Message(id: int, event: string, payload: P)

  /**
   * The fields of a plugin document this component reads or writes.
   * `syncUrl` is the `sync_request_url` field already formatted with `%v`, so a
   * missing field is the non-empty text "<nil>". `decodes` says whether the
   * document decodes into the Plugin shape (the decoder is library code).
   */
  datatype PluginRecord<P> = PluginRecord(queue: seq<Message<P>>, queuepid: int, syncUrl: string, decodes: bool)

  /** An installed-plugin descriptor; `pluginId` is its `plugin_id` formatted with `%v`. */
  datatype Descriptor = Descriptor(pluginId: string)

  /** An organisation document: whether it decodes, and its installed-plugin descriptors. */
  datatype OrgRecord = OrgRecord(decodes: bool, installed: seq<Descriptor>)

  type PluginTable<P> = map<ObjectID, PluginRecord<P>>

  type OrgTable = map<ObjectID, OrgRecord>

  /** What one worker put on the results channel: nothing, a nil error, or an error. */
  datatype ChannelSend = NoSend | SendNil | SendErr(err: Error)

  /** How the HTTP side of one ping ends: request construction fails, transport fails, or a response arrives. */
  datatype PostOutcome = RequestFailed | TransportFailed | Responded

  // ---------------------------------------------------------------------------
  // Plugin resolver

  /** The installed plugin ids of an organisation, or why they cannot be read. */
  function Installed(orgs: OrgTable, orgId: string): (r: Result<seq<string>, Error>)
  {
    match ObjectIDFromHex(orgId)
    case None => Failure(InvalidHex)
    case Some(key) =>
      if key !in orgs then Failure(OrgNotFound)
      else if !orgs[key].decodes then Failure(OrgDecodeError)
      else Success(PluginIds(orgs[key].installed))
  }

  function PluginIds(ds: seq<Descriptor>): (ids: seq<string>)
  {
    seq(|ds|, i requires 0 <= i < |ds| => ds[i].pluginId)
  }

  // ---------------------------------------------------------------------------
  // Queue appender (one worker)

  datatype AppendResult<P> = AppendResult(plugins: PluginTable<P>, send: ChannelSend)

  /** One append worker: the table after it and what it sent on the channel. */
  function QueueAppend<P>(plugins: PluginTable<P>, pluginId: string, event: string, payload: P, writeOk: bool): (r: AppendResult<P>)
    // every append worker sends exactly once
    ensures r.send != NoSend
    // which error each failed check reports; a failure leaves the table as it was
    ensures !IsObjectIDHex(pluginId) ==> r.send == SendErr(InvalidHex)
    ensures IsObjectIDHex(pluginId) && ObjectIDFromHex(pluginId).value !in plugins ==> r.send == SendErr(PluginNotFound)
    ensures IsObjectIDHex(pluginId) && ObjectIDFromHex(pluginId).value in plugins && !plugins[ObjectIDFromHex(pluginId).value].decodes
            ==> r.send == SendErr(PluginDecodeError)
    ensures r.send.SendErr? ==> r.plugins == plugins
    ensures r.send == SendNil <==>
            IsObjectIDHex(pluginId) && ObjectIDFromHex(pluginId).value in plugins
            && plugins[ObjectIDFromHex(pluginId).value].decodes && writeOk
    ensures r.send == SendErr(WriteError) <==>
            IsObjectIDHex(pluginId) && ObjectIDFromHex(pluginId).value in plugins
            && plugins[ObjectIDFromHex(pluginId).value].decodes && !writeOk
    // only the own record changes, and in it only the queue and queuepid
    ensures r.plugins.Keys == plugins.Keys
    ensures forall k :: k in plugins && Some(k) != ObjectIDFromHex(pluginId) ==> r.plugins[k] == plugins[k]
    ensures r.send == SendNil ==>
            var key := ObjectIDFromHex(pluginId).value;
            var rec, rec' := plugins[key], r.plugins[key];
            && rec'.queue == rec.queue + [Message(rec.queuepid + 1, event, payload)]
            && rec'.queuepid == rec.queuepid + 1
            && rec'.syncUrl == rec.syncUrl
            && rec'.decodes == rec.decodes
  {
    match ObjectIDFromHex(pluginId)
    case None => AppendResult(plugins, SendErr(InvalidHex))
    case Some(key) =>
      if key !in plugins then AppendResult(plugins, SendErr(PluginNotFound))
      else if !plugins[key].decodes then AppendResult(plugins, SendErr(PluginDecodeError))
      else if !writeOk then AppendResult(plugins, SendErr(WriteError))
      else
        var rec := plugins[key];
        var newId := rec.queuepid + 1;
        AppendResult(plugins[key := rec.(queue := rec.queue + [Message(newId, event, payload)], queuepid := newId)], SendNil)
  }

  /** Ids strictly increase in insertion order and queuepid is the id of the last message. */
  predicate QueueConsistent<P>(rec: PluginRecord<P>)
  {
    && (forall i, j :: 0 <= i < j < |rec.queue| ==> rec.queue[i].id < rec.queue[j].id)
    && (rec.queue != [] ==> rec.queue[|rec.queue| - 1].id == rec.queuepid)
  }

  predicate TableConsistent<P>(plugins: PluginTable<P>)
  {
    forall k :: k in plugins ==> QueueConsistent(plugins[k])
  }

  /** A successful append keeps the queue invariant of the record it writes. */
  lemma AppendKeepsQueueConsistent<P>(rec: PluginRecord<P>, rec': PluginRecord<P>, event: string, payload: P)
    requires QueueConsistent(rec)
    requires rec'.queue == rec.queue + [Message(rec.queuepid + 1, event, payload)]
    requires rec'.queuepid == rec.queuepid + 1
    ensures QueueConsistent(rec')
  {
    var q := rec'.queue;
    forall i, j | 0 <= i < j < |q| ensures q[i].id < q[j].id {
      if j == |q| - 1 && i < |rec.queue| - 1 {
        assert rec.queue[i].id < rec.queue[|rec.queue| - 1].id;
      }
    }
  }

  /** Every append worker, whatever it reports, keeps the queue invariant of the whole table. */
  lemma QueueAppendKeepsTableConsistent<P>(plugins: PluginTable<P>, pluginId: string, event: string, payload: P, writeOk: bool)
    requires TableConsistent(plugins)
    ensures TableConsistent(QueueAppend(plugins, pluginId, event, payload, writeOk).plugins)
  {
    var r := QueueAppend(plugins, pluginId, event, payload, writeOk);
    forall k | k in r.plugins ensures QueueConsistent(r.plugins[k]) {
      if r.send == SendNil && Some(k) == ObjectIDFromHex(pluginId) {
        AppendKeepsQueueConsistent(plugins[k], r.plugins[k], event, payload);
      } else {
        assert r.plugins[k] == plugins[k];
      }
    }
  }

  /** The table after messages are appended one after another to one plugin, every write succeeding. */
  function AppendSequence<P>(plugins: PluginTable<P>, pluginId: string, events: seq<(string, P)>): (m: PluginTable<P>)
    decreases |events|
  {
    if events == [] then plugins
    else
      var prev := AppendSequence(plugins, pluginId, events[..|events| - 1]);
      var last := events[|events| - 1];
      QueueAppend(prev, pluginId, last.0, last.1, true).plugins
  }

  /**
   * `rec2` is `rec` with one message per event appended, numbered on from
   * `rec.queuepid` in order, and its counter advanced past the last one.
   */
  ghost predicate AppendedInOrder<P>(rec: PluginRecord<P>, rec2: PluginRecord<P>, events: seq<(string, P)>)
  {
    && rec2.queuepid == rec.queuepid + |events|
    && |rec2.queue| == |rec.queue| + |events|
    && rec2.queue[..|rec.queue|] == rec.queue
    && (forall i :: 0 <= i < |events| ==>
          rec2.queue[|rec.queue| + i] == Message(rec.queuepid + 1 + i, events[i].0, events[i].1))
    && rec2.syncUrl == rec.syncUrl
    && rec2.decodes == rec.decodes
  }

  /** One more successful append extends an in-order run by one event. */
  lemma AppendedInOrderStep<P>(rec: PluginRecord<P>, mid: PluginRecord<P>, events: seq<(string, P)>, event: string, payload: P)
    requires AppendedInOrder(rec, mid, events)
    ensures AppendedInOrder(rec, mid.(queue := mid.queue + [Message(mid.queuepid + 1, event, payload)], queuepid := mid.queuepid + 1),
                            events + [(event, payload)])
  {
    var q := mid.queue + [Message(mid.queuepid + 1, event, payload)];
    var es := events + [(event, payload)];
    assert q[..|rec.queue|] == mid.queue[..|rec.queue|];
    forall i | 0 <= i < |es|
      ensures q[|rec.queue| + i] == Message(rec.queuepid + 1 + i, es[i].0, es[i].1)
    {
      if i < |events| {
        assert es[i] == events[i];
      }
    }
  }

  /**
   * K appends in a row to a plugin whose counter starts at q give the messages
   * ids q+1 .. q+K in order, carrying the callers' events and payloads, after
   * the old queue, and leave the counter at q+K; no other record changes.
   */
  lemma {:induction false} SequentialAppendsAreContiguous<P>(plugins: PluginTable<P>, pluginId: string, events: seq<(string, P)>)
    requires IsObjectIDHex(pluginId)
    requires ObjectIDFromHex(pluginId).value in plugins && plugins[ObjectIDFromHex(pluginId).value].decodes
    ensures var key := ObjectIDFromHex(pluginId).value;
            var m := AppendSequence(plugins, pluginId, events);
            && m.Keys == plugins.Keys
            && AppendedInOrder(plugins[key], m[key], events)
            && (forall k :: k in plugins && k != key ==> m[k] == plugins[k])
    decreases |events|
  {
    var key := ObjectIDFromHex(pluginId).value;
    if events == [] {
      assert plugins[key].queue[..|plugins[key].queue|] == plugins[key].queue;
    } else {
      var n := |events|;
      var init := events[..n - 1];
      SequentialAppendsAreContiguous(plugins, pluginId, init);
      var prev := AppendSequence(plugins, pluginId, init);
      var step := QueueAppend(prev, pluginId, events[n - 1].0, events[n - 1].1, true);
      assert step.send == SendNil;
      AppendedInOrderStep(plugins[key], prev[key], init, events[n - 1].0, events[n - 1].1);
      assert init + [(events[n - 1].0, events[n - 1].1)] == events;
    }
  }

  // ---------------------------------------------------------------------------
  // Ping pre-checks (one worker)

  datatype PingResult = PingResult(send: ChannelSend, posted: bool)

  /**
   * One ping worker: what it sent on the channel and whether it issued the POST.
   * `urlParses` is the URL parser's verdict and `post` the HTTP outcome.
   */
  function HandlePingPlugin<P>(plugins: PluginTable<P>, pluginId: string, urlParses: string -> bool, post: PostOutcome): (r: PingResult)
    ensures !IsObjectIDHex(pluginId) ==> r == PingResult(SendErr(InvalidHex), false)
    ensures IsObjectIDHex(pluginId) && ObjectIDFromHex(pluginId).value !in plugins ==> r == PingResult(SendErr(PluginNotFound), false)
    // an empty endpoint fails, whatever the URL parser and the network would do
    ensures r.send == SendErr(NoEndpoint) <==>
            IsObjectIDHex(pluginId) && ObjectIDFromHex(pluginId).value in plugins
            && plugins[ObjectIDFromHex(pluginId).value].syncUrl == ""
    // a URL the parser rejects sends the nil error: not a failure, and no POST
    ensures IsObjectIDHex(pluginId) && ObjectIDFromHex(pluginId).value in plugins
            && plugins[ObjectIDFromHex(pluginId).value].syncUrl != ""
            && !urlParses(plugins[ObjectIDFromHex(pluginId).value].syncUrl)
            ==> r == PingResult(SendNil, false)
    // the POST is issued exactly when every check passes and the request could be built
    ensures r.posted <==>
            IsObjectIDHex(pluginId) && ObjectIDFromHex(pluginId).value in plugins
            && plugins[ObjectIDFromHex(pluginId).value].syncUrl != ""
            && urlParses(plugins[ObjectIDFromHex(pluginId).value].syncUrl)
            && post != RequestFailed
    // a successful ping sends nothing at all
    ensures r.send == NoSend <==> r.posted && post == Responded
    ensures r.posted && post == TransportFailed ==> r.send == SendErr(TransportError)
    // a request that cannot be built sends its error, and no POST is issued
    ensures IsObjectIDHex(pluginId) && ObjectIDFromHex(pluginId).value in plugins
            && plugins[ObjectIDFromHex(pluginId).value].syncUrl != ""
            && urlParses(plugins[ObjectIDFromHex(pluginId).value].syncUrl)
            && post == RequestFailed
            ==> r == PingResult(SendErr(RequestError), false)
  {
    match ObjectIDFromHex(pluginId)
    case None => PingResult(SendErr(InvalidHex), false)
    case Some(key) =>
      if key !in plugins then PingResult(SendErr(PluginNotFound), false)
      else
        var pingUrl := plugins[key].syncUrl;
        if pingUrl == "" then PingResult(SendErr(NoEndpoint), false)
        else if !urlParses(pingUrl) then PingResult(SendNil, false)
        else
          match post
          case RequestFailed => PingResult(SendErr(RequestError), false)
          case TransportFailed => PingResult(SendErr(TransportError), true)
          case Responded => PingResult(NoSend, true)
  }

  // ---------------------------------------------------------------------------
  // Fan-out stages, as folds over the plugin list

  datatype AppendBatch<P> = AppendBatch(plugins: PluginTable<P>, reports: seq<ChannelSend>)

  /** Run the append worker for every id in list order, collecting what each one sent. */
  function AppendAll<P>(plugins: PluginTable<P>, ids: seq<string>, event: string, payload: P, writeOk: string -> bool): (b: AppendBatch<P>)
    ensures |b.reports| == |ids|
    ensures b.plugins.Keys == plugins.Keys
    decreases |ids|
  {
    if ids == [] then AppendBatch(plugins, [])
    else
      var prev := AppendAll(plugins, ids[..|ids| - 1], event, payload, writeOk);
      var last := ids[|ids| - 1];
      var step := QueueAppend(prev.plugins, last, event, payload, writeOk(last));
      AppendBatch(step.plugins, prev.reports + [step.send])
  }

  datatype PingBatch = PingBatch(sends: seq<ChannelSend>, posts: seq<string>)

  /** Run the ping worker for every id in list order, collecting what each sent and which ids were POSTed to. */
  function PingAll<P>(plugins: PluginTable<P>, ids: seq<string>, urlParses: string -> bool, post: string -> PostOutcome): (b: PingBatch)
    ensures |b.sends| == |ids|
    ensures |b.posts| <= |ids|
    decreases |ids|
  {
    if ids == [] then PingBatch([], [])
    else
      var prev := PingAll(plugins, ids[..|ids| - 1], urlParses, post);
      var last := ids[|ids| - 1];
      var r := HandlePingPlugin(plugins, last, urlParses, post(last));
      PingBatch(prev.sends + [r.send], prev.posts + if r.posted then [last] else [])
  }

  /** No two well-formed ids of the list denote the same record. */
  predicate DistinctKeys(ids: seq<string>)
  {
    forall i, j :: 0 <= i < j < |ids| && ObjectIDFromHex(ids[i]).Some? ==> ObjectIDFromHex(ids[i]) != ObjectIDFromHex(ids[j])
  }

  /** No id of the list denotes `key`. */
  predicate Untargeted(ids: seq<string>, key: ObjectID)
  {
    forall i :: 0 <= i < |ids| ==> ObjectIDFromHex(ids[i]) != Some(key)
  }

  /** The append worker depends only on the record of its own id. */
  lemma QueueAppendIsLocal<P>(m1: PluginTable<P>, m2: PluginTable<P>, pluginId: string, event: string, payload: P, writeOk: bool)
    requires IsObjectIDHex(pluginId) ==>
               var key := ObjectIDFromHex(pluginId).value;
               (key in m1 <==> key in m2) && (key in m1 ==> m1[key] == m2[key])
    ensures QueueAppend(m1, pluginId, event, payload, writeOk).send == QueueAppend(m2, pluginId, event, payload, writeOk).send
    ensures IsObjectIDHex(pluginId) && ObjectIDFromHex(pluginId).value in m1 ==>
              var key := ObjectIDFromHex(pluginId).value;
              QueueAppend(m1, pluginId, event, payload, writeOk).plugins[key] == QueueAppend(m2, pluginId, event, payload, writeOk).plugins[key]
  {
  }

  /** A record that no id of the list targets is untouched by the append stage. */
  lemma {:induction false} AppendAllKeepsUntargeted<P>(plugins: PluginTable<P>, ids: seq<string>, event: string, payload: P, writeOk: string -> bool)
    ensures var b := AppendAll(plugins, ids, event, payload, writeOk);
            forall k :: k in plugins && Untargeted(ids, k) ==> b.plugins[k] == plugins[k]
    decreases |ids|
  {
    if ids != [] {
      var init, last := ids[..|ids| - 1], ids[|ids| - 1];
      AppendAllKeepsUntargeted(plugins, init, event, payload, writeOk);
      var prev := AppendAll(plugins, init, event, payload, writeOk);
      var b := AppendAll(plugins, ids, event, payload, writeOk);
      assert b.plugins == QueueAppend(prev.plugins, last, event, payload, writeOk(last)).plugins;
      forall k | k in plugins && Untargeted(ids, k) ensures b.plugins[k] == plugins[k] {
        UntargetedOfInit(ids, k);
      }
    }
  }

  /** With distinct ids, every worker of the stage reports what it would report run alone on the original table. */
  lemma {:induction false} AppendAllReportsAreIndependent<P>(plugins: PluginTable<P>, ids: seq<string>, event: string, payload: P, writeOk: string -> bool)
    requires DistinctKeys(ids)
    ensures var b := AppendAll(plugins, ids, event, payload, writeOk);
            forall i :: 0 <= i < |ids| ==> b.reports[i] == QueueAppend(plugins, ids[i], event, payload, writeOk(ids[i])).send
    decreases |ids|
  {
    if ids != [] {
      var n := |ids|;
      var init, last := ids[..n - 1], ids[n - 1];
      DistinctKeysOfInit(ids);
      AppendAllReportsAreIndependent(plugins, init, event, payload, writeOk);
      AppendAllKeepsUntargeted(plugins, init, event, payload, writeOk);
      var prev := AppendAll(plugins, init, event, payload, writeOk);
      var b := AppendAll(plugins, ids, event, payload, writeOk);
      QueueAppendIsLocal(prev.plugins, plugins, last, event, payload, writeOk(last));
      forall i | 0 <= i < n
        ensures b.reports[i] == QueueAppend(plugins, ids[i], event, payload, writeOk(ids[i])).send
      {
        if i < n - 1 {
          assert ids[i] == init[i];
        }
      }
    }
  }

  /** With distinct ids, every targeted record ends as its worker alone would leave it. */
  lemma {:induction false} AppendAllTargetsAreIndependent<P>(plugins: PluginTable<P>, ids: seq<string>, event: string, payload: P, writeOk: string -> bool)
    requires DistinctKeys(ids)
    ensures var b := AppendAll(plugins, ids, event, payload, writeOk);
            forall i :: 0 <= i < |ids| && IsObjectIDHex(ids[i]) && ObjectIDFromHex(ids[i]).value in plugins ==>
              b.plugins[ObjectIDFromHex(ids[i]).value]
              == QueueAppend(plugins, ids[i], event, payload, writeOk(ids[i])).plugins[ObjectIDFromHex(ids[i]).value]
    decreases |ids|
  {
    if ids != [] {
      var n := |ids|;
      var init, last := ids[..n - 1], ids[n - 1];
      DistinctKeysOfInit(ids);
      AppendAllTargetsAreIndependent(plugins, init, event, payload, writeOk);
      AppendAllKeepsUntargeted(plugins, init, event, payload, writeOk);
      var prev := AppendAll(plugins, init, event, payload, writeOk);
      var b := AppendAll(plugins, ids, event, payload, writeOk);
      assert b.plugins == QueueAppend(prev.plugins, last, event, payload, writeOk(last)).plugins;
      QueueAppendIsLocal(prev.plugins, plugins, last, event, payload, writeOk(last));
      forall i | 0 <= i < n && IsObjectIDHex(ids[i]) && ObjectIDFromHex(ids[i]).value in plugins
        ensures b.plugins[ObjectIDFromHex(ids[i]).value]
                == QueueAppend(plugins, ids[i], event, payload, writeOk(ids[i])).plugins[ObjectIDFromHex(ids[i]).value]
      {
        if i < n - 1 {
          assert ids[i] == init[i];
          assert ObjectIDFromHex(ids[i]) != ObjectIDFromHex(last);
        }
      }
    }
  }

  /**
   * With distinct ids, running the workers one after another is the same as
   * running each against the original table: each worker reports what it would
   * report alone, each targeted record ends as that worker alone leaves it, and
   * every other record is untouched. So the order of the workers does not matter.
   */
  lemma AppendAllIsIndependent<P>(plugins: PluginTable<P>, ids: seq<string>, event: string, payload: P, writeOk: string -> bool)
    requires DistinctKeys(ids)
    ensures var b := AppendAll(plugins, ids, event, payload, writeOk);
            && (forall i :: 0 <= i < |ids| ==> b.reports[i] == QueueAppend(plugins, ids[i], event, payload, writeOk(ids[i])).send)
            && (forall i :: 0 <= i < |ids| && IsObjectIDHex(ids[i]) && ObjectIDFromHex(ids[i]).value in plugins ==>
                  b.plugins[ObjectIDFromHex(ids[i]).value]
                  == QueueAppend(plugins, ids[i], event, payload, writeOk(ids[i])).plugins[ObjectIDFromHex(ids[i]).value])
            && (forall k :: k in plugins && Untargeted(ids, k) ==> b.plugins[k] == plugins[k])
  {
    AppendAllReportsAreIndependent(plugins, ids, event, payload, writeOk);
    AppendAllTargetsAreIndependent(plugins, ids, event, payload, writeOk);
    AppendAllKeepsUntargeted(plugins, ids, event, payload, writeOk);
  }

  /** Dropping the last id keeps the ids distinct, and none of the others targets the last one's record. */
  lemma DistinctKeysOfInit(ids: seq<string>)
    requires DistinctKeys(ids) && ids != []
    ensures DistinctKeys(ids[..|ids| - 1])
    ensures IsObjectIDHex(ids[|ids| - 1]) ==> Untargeted(ids[..|ids| - 1], ObjectIDFromHex(ids[|ids| - 1]).value)
  {
    var init := ids[..|ids| - 1];
    forall i, j | 0 <= i < j < |init| && ObjectIDFromHex(init[i]).Some?
      ensures ObjectIDFromHex(init[i]) != ObjectIDFromHex(init[j])
    {
      assert init[i] == ids[i] && init[j] == ids[j];
    }
    if IsObjectIDHex(ids[|ids| - 1]) {
      var key := ObjectIDFromHex(ids[|ids| - 1]).value;
      forall i | 0 <= i < |init| ensures ObjectIDFromHex(init[i]) != Some(key) {
        assert init[i] == ids[i];
      }
    }
  }

  /** A record no id of a list targets is targeted by no id of its prefix, nor by its last id. */
  lemma UntargetedOfInit(ids: seq<string>, k: ObjectID)
    requires Untargeted(ids, k) && ids != []
    ensures Untargeted(ids[..|ids| - 1], k) && ObjectIDFromHex(ids[|ids| - 1]) != Some(k)
  {
    var init := ids[..|ids| - 1];
    forall i | 0 <= i < |init| ensures ObjectIDFromHex(init[i]) != Some(k) {
      assert init[i] == ids[i];
    }
  }

  /** The append stage keeps the queue invariant of every record. */
  lemma {:induction false} AppendAllKeepsTableConsistent<P>(plugins: PluginTable<P>, ids: seq<string>, event: string, payload: P, writeOk: string -> bool)
    requires TableConsistent(plugins)
    ensures TableConsistent(AppendAll(plugins, ids, event, payload, writeOk).plugins)
    decreases |ids|
  {
    if ids != [] {
      var init := ids[..|ids| - 1];
      AppendAllKeepsTableConsistent(plugins, init, event, payload, writeOk);
      var prev := AppendAll(plugins, init, event, payload, writeOk);
      QueueAppendKeepsTableConsistent(prev.plugins, ids[|ids| - 1], event, payload, writeOk(ids[|ids| - 1]));
    }
  }

  /**
   * The ping stage runs each worker against the same table: worker i sends what
   * HandlePingPlugin gives for ids[i], and the POSTed ids are exactly those whose
   * worker issued a POST.
   */
  lemma {:induction false} PingAllIsPointwise<P>(plugins: PluginTable<P>, ids: seq<string>, urlParses: string -> bool, post: string -> PostOutcome)
    ensures var b := PingAll(plugins, ids, urlParses, post);
            && (forall i :: 0 <= i < |ids| ==> b.sends[i] == HandlePingPlugin(plugins, ids[i], urlParses, post(ids[i])).send)
            && (forall i :: 0 <= i < |ids| && HandlePingPlugin(plugins, ids[i], urlParses, post(ids[i])).posted ==> ids[i] in b.posts)
            && (forall x :: x in b.posts ==> exists i :: 0 <= i < |ids| && ids[i] == x && HandlePingPlugin(plugins, ids[i], urlParses, post(ids[i])).posted)
    decreases |ids|
  {
    if ids != [] {
      var n := |ids|;
      var init := ids[..n - 1];
      PingAllIsPointwise(plugins, init, urlParses, post);
      var prev := PingAll(plugins, init, urlParses, post);
      var b := PingAll(plugins, ids, urlParses, post);
      forall i | 0 <= i < n
        ensures b.sends[i] == HandlePingPlugin(plugins, ids[i], urlParses, post(ids[i])).send
        ensures HandlePingPlugin(plugins, ids[i], urlParses, post(ids[i])).posted ==> ids[i] in b.posts
      {
        if i < n - 1 {
          assert ids[i] == init[i];
        }
      }
      forall x | x in b.posts
        ensures exists i :: 0 <= i < n && ids[i] == x && HandlePingPlugin(plugins, ids[i], urlParses, post(ids[i])).posted
      {
        if x in prev.posts {
          var i :| 0 <= i < |init| && init[i] == x && HandlePingPlugin(plugins, init[i], urlParses, post(init[i])).posted;
          assert ids[i] == init[i];
        } else {
          assert ids[n - 1] == x;
        }
      }
    }
  }

  /** The ping stage POSTs at most once per occurrence of an id in the list, and never to an id outside it. */
  lemma {:induction false} PingAllPostsAtMostOncePerId<P>(plugins: PluginTable<P>, ids: seq<string>, urlParses: string -> bool, post: string -> PostOutcome)
    ensures multiset(PingAll(plugins, ids, urlParses, post).posts) <= multiset(ids)
    decreases |ids|
  {
    if ids != [] {
      var init, last := ids[..|ids| - 1], ids[|ids| - 1];
      PingAllPostsAtMostOncePerId(plugins, init, urlParses, post);
      var prev := PingAll(plugins, init, urlParses, post);
      var extra := if HandlePingPlugin(plugins, last, urlParses, post(last)).posted then [last] else [];
      assert PingAll(plugins, ids, urlParses, post).posts == prev.posts + extra;
      assert ids == init + [last];
      assert multiset(ids) == multiset(init) + multiset{last};
      assert multiset(extra) <= multiset{last};
    }
  }

  /** The ping worker looks only at whether its record exists and at its endpoint. */
  predicate SameEndpoints<P>(m1: PluginTable<P>, m2: PluginTable<P>)
  {
    m1.Keys == m2.Keys && forall k :: k in m1 ==> m1[k].syncUrl == m2[k].syncUrl
  }

  /** The append stage never changes which records exist or their endpoints. */
  lemma {:induction false} AppendAllKeepsEndpoints<P>(plugins: PluginTable<P>, ids: seq<string>, event: string, payload: P, writeOk: string -> bool)
    ensures SameEndpoints(plugins, AppendAll(plugins, ids, event, payload, writeOk).plugins)
    decreases |ids|
  {
    if ids != [] {
      AppendAllKeepsEndpoints(plugins, ids[..|ids| - 1], event, payload, writeOk);
    }
  }

  /** Tables with the same records and endpoints give the same ping stage. */
  lemma {:induction false} PingAllDependsOnEndpoints<P>(m1: PluginTable<P>, m2: PluginTable<P>, ids: seq<string>, urlParses: string -> bool, post: string -> PostOutcome)
    requires SameEndpoints(m1, m2)
    ensures PingAll(m1, ids, urlParses, post) == PingAll(m2, ids, urlParses, post)
    decreases |ids|
  {
    if ids != [] {
      PingAllDependsOnEndpoints(m1, m2, ids[..|ids| - 1], urlParses, post);
    }
  }

  /**
   * Two installed plugins whose counters stand at 0 and 5: when both writes
   * succeed the append stage gives the first message id 1 and the second id 6,
   * and both report nil. TwoPluginScenarioPings gives the ping half.
   */
  lemma TwoPluginScenario<P>(plugins: PluginTable<P>, payload: P)
    requires plugins == map["6123456789abcdef00000001" := PluginRecord([], 0, "http://one/sync", true),
                            "6123456789abcdef00000002" := PluginRecord([], 5, "http://two/sync", true)]
    ensures var ids := ["6123456789abcdef00000001", "6123456789abcdef00000002"];
            var b := AppendAll(plugins, ids, "msg.created", payload, _ => true);
            && b.reports == [SendNil, SendNil]
            && b.plugins["6123456789abcdef00000001"].queue == [Message(1, "msg.created", payload)]
            && b.plugins["6123456789abcdef00000002"].queue == [Message(6, "msg.created", payload)]
  {
    var ids := ["6123456789abcdef00000001", "6123456789abcdef00000002"];
    CanonicalIsItsOwnId(ids[0]);
    CanonicalIsItsOwnId(ids[1]);
    assert ids[0] != ids[1] by { assert ids[0][23] != ids[1][23]; }
    TwoPluginAppends(plugins, ids, "msg.created", payload);
  }

  /**
   * Two distinct canonical ids of decodable records, every write succeeding:
   * both workers report nil and each queue gains one message numbered after
   * its own counter.
   */
  lemma TwoPluginAppends<P>(plugins: PluginTable<P>, ids: seq<string>, event: string, payload: P)
    requires |ids| == 2 && ids[0] != ids[1]
    requires ObjectIDFromHex(ids[0]) == Some(ids[0]) && ObjectIDFromHex(ids[1]) == Some(ids[1])
    requires ids[0] in plugins && plugins[ids[0]].decodes && ids[1] in plugins && plugins[ids[1]].decodes
    ensures var b := AppendAll(plugins, ids, event, payload, _ => true);
            && b.reports == [SendNil, SendNil]
            && b.plugins[ids[0]].queue == plugins[ids[0]].queue + [Message(plugins[ids[0]].queuepid + 1, event, payload)]
            && b.plugins[ids[1]].queue == plugins[ids[1]].queue + [Message(plugins[ids[1]].queuepid + 1, event, payload)]
  {
    AppendAllReportsAreIndependent(plugins, ids, event, payload, _ => true);
    AppendAllTargetsAreIndependent(plugins, ids, event, payload, _ => true);
    var b := AppendAll(plugins, ids, event, payload, _ => true);
    var r0 := QueueAppend(plugins, ids[0], event, payload, true);
    var r1 := QueueAppend(plugins, ids[1], event, payload, true);
    assert b.reports[0] == r0.send == SendNil && b.reports[1] == r1.send == SendNil;
    assert b.plugins[ids[0]] == r0.plugins[ids[0]];
    assert b.plugins[ids[1]] == r1.plugins[ids[1]];
  }

  /** The ping half of the scenario, run on the table the append stage leaves. */
  lemma TwoPluginScenarioPings<P>(plugins: PluginTable<P>, payload: P)
    requires plugins == map["6123456789abcdef00000001" := PluginRecord([], 0, "http://one/sync", true),
                            "6123456789abcdef00000002" := PluginRecord([], 5, "http://two/sync", true)]
    ensures var ids := ["6123456789abcdef00000001", "6123456789abcdef00000002"];
            var b := AppendAll(plugins, ids, "msg.created", payload, _ => true);
            PingAll(b.plugins, ids, _ => true, _ => Responded) == PingBatch([NoSend, NoSend], ids)
  {
    var ids := ["6123456789abcdef00000001", "6123456789abcdef00000002"];
    var b := AppendAll(plugins, ids, "msg.created", payload, _ => true);
    AppendAllKeepsEndpoints(plugins, ids, "msg.created", payload, _ => true);
    assert ids[0] in b.plugins && b.plugins[ids[0]].syncUrl == plugins[ids[0]].syncUrl;
    assert ids[1] in b.plugins && b.plugins[ids[1]].syncUrl == plugins[ids[1]].syncUrl;
    TwoPluginPings(b.plugins, ids);
  }

  /** Two plugins whose endpoints are set, parse and answer: both are POSTed to and neither worker sends anything. */
  lemma TwoPluginPings<P>(m: PluginTable<P>, ids: seq<string>)
    requires ids == ["6123456789abcdef00000001", "6123456789abcdef00000002"]
    requires ids[0] in m && m[ids[0]].syncUrl != "" && ids[1] in m && m[ids[1]].syncUrl != ""
    ensures PingAll(m, ids, _ => true, _ => Responded) == PingBatch([NoSend, NoSend], ids)
  {
    CanonicalIsItsOwnId(ids[0]);
    CanonicalIsItsOwnId(ids[1]);
    assert ids[..1] == [ids[0]] && ids[..1][..0] == [];
    assert PingAll(m, ids[..1], _ => true, _ => Responded) == PingBatch([NoSend], [ids[0]]);
  }

  // ---------------------------------------------------------------------------
  // Draining the results channel

  predicate AnyError(reports: seq<ChannelSend>)
  {
    exists i :: 0 <= i < |reports| && reports[i].SendErr?
  }

  /** `err` is nil exactly when no worker sent an error, and otherwise one of the sent errors. */
  predicate Aggregates(reports: seq<ChannelSend>, err: Option<Error>)
  {
    && (err.None? <==> !AnyError(reports))
    && (err.Some? ==> exists i :: 0 <= i < |reports| && reports[i] == SendErr(err.value))
  }

  /**
   * Drain the channel: the first non-nil value received is returned. Which of
   * several errors arrives first depends on the scheduler, so any one may be chosen.
   */
  method Drain(reports: seq<ChannelSend>) returns (err: Option<Error>)
    ensures err.None? <==> forall i :: 0 <= i < |reports| ==> !reports[i].SendErr?
    ensures err.Some? ==> exists i :: 0 <= i < |reports| && reports[i] == SendErr(err.value)
  {
    if i :| 0 <= i < |reports| && reports[i].SendErr? {
      err := Some(reports[i].err);
    } else {
      err := None;
    }
  }

  // ---------------------------------------------------------------------------
  // The document store and the operations over it

  class Store<P> {
    /** The plugin collection, by object id. */
    var plugins: PluginTable<P>
    /** The organisation collection, by object id. */
    var orgs: OrgTable

    constructor (plugins: PluginTable<P>, orgs: OrgTable)
      ensures this.plugins == plugins && this.orgs == orgs
    {
      this.plugins := plugins;
      this.orgs := orgs;
    }

    /**
     * The ids of the plugins installed in an organisation: one per descriptor,
     * in descriptor order; or the reason they cannot be read.
     */
    method GetInstalledPlugins(orgId: string) returns (r: Result<seq<string>, Error>)
      ensures r == Installed(orgs, orgId)
      ensures !IsObjectIDHex(orgId) ==> r == Failure(InvalidHex)
      ensures IsObjectIDHex(orgId) && ObjectIDFromHex(orgId).value !in orgs ==> r == Failure(OrgNotFound)
      ensures IsObjectIDHex(orgId) && ObjectIDFromHex(orgId).value in orgs && !orgs[ObjectIDFromHex(orgId).value].decodes
              ==> r == Failure(OrgDecodeError)
      ensures r.Success? <==>
              IsObjectIDHex(orgId) && ObjectIDFromHex(orgId).value in orgs && orgs[ObjectIDFromHex(orgId).value].decodes
      ensures r.Success? ==>
                var ds := orgs[ObjectIDFromHex(orgId).value].installed;
                |r.value| == |ds| && forall i :: 0 <= i < |ds| ==> r.value[i] == ds[i].pluginId
    {
      var objId := ObjectIDFromHex(orgId);
      if objId.None? {
        return Failure(InvalidHex);
      }
      if objId.value !in orgs {
        return Failure(OrgNotFound);
      }
      var org := orgs[objId.value];
      if !org.decodes {
        return Failure(OrgDecodeError);
      }
      var descriptors := org.installed;
      var pluginSlice: seq<string> := [];
      var i := 0;
      while i < |descriptors|
        invariant 0 <= i <= |descriptors|
        invariant |pluginSlice| == i
        invariant forall j :: 0 <= j < i ==> pluginSlice[j] == descriptors[j].pluginId
      {
        pluginSlice := pluginSlice + [descriptors[i].pluginId];
        i := i + 1;
      }
      assert pluginSlice == PluginIds(descriptors);
      return Success(pluginSlice);
    }

    /**
     * Append one message to one plugin's queue by read-modify-write of its
     * record, and return what the worker sends on the channel.
     */
    method HandleAddingMessage(pluginId: string, event: string, payload: P, writeOk: bool) returns (sent: ChannelSend)
      modifies this
      ensures AppendResult(plugins, sent) == QueueAppend(old(plugins), pluginId, event, payload, writeOk)
      ensures orgs == old(orgs)
    {
      var ppId := ObjectIDFromHex(pluginId);
      if ppId.None? {
        return SendErr(InvalidHex);
      }
      if ppId.value !in plugins {
        return SendErr(PluginNotFound);
      }
      var plugin := plugins[ppId.value];
      if !plugin.decodes {
        return SendErr(PluginDecodeError);
      }
      var newId := plugin.queuepid + 1;
      var newMessage := Message(newId, event, payload);
      var queue := plugin.queue + [newMessage];
      // the update writes queue and queuepid together; it succeeds or changes nothing
      if !writeOk {
        return SendErr(WriteError);
      }
      plugins := plugins[ppId.value := plugin.(queue := queue, queuepid := newId)];
      return SendNil;
    }

    /**
     * The append stage: run the appender for every plugin and report nil when
     * none failed, else one of the failures. Every worker runs to completion.
     */
    method AddToPluginsQueue(ids: seq<string>, event: string, payload: P, writeOk: string -> bool) returns (err: Option<Error>)
      requires DistinctKeys(ids)
      modifies this
      ensures plugins == AppendAll(old(plugins), ids, event, payload, writeOk).plugins
      ensures orgs == old(orgs)
      ensures Aggregates(AppendAll(old(plugins), ids, event, payload, writeOk).reports, err)
      ensures err.None? <==> forall i :: 0 <= i < |ids| ==> QueueAppend(old(plugins), ids[i], event, payload, writeOk(ids[i])).send == SendNil
      ensures err.Some? ==> exists i :: 0 <= i < |ids| && QueueAppend(old(plugins), ids[i], event, payload, writeOk(ids[i])).send == SendErr(err.value)
    {
      if |ids| < 1 {
        return None;
      }
      ghost var before := plugins;
      var reports: seq<ChannelSend> := [];
      var i := 0;
      while i < |ids|
        invariant 0 <= i <= |ids|
        invariant orgs == old(orgs)
        invariant AppendAll(old(plugins), ids[..i], event, payload, writeOk) == AppendBatch(plugins, reports)
      {
        assert ids[..i + 1][..i] == ids[..i];
        var sent := HandleAddingMessage(ids[i], event, payload, writeOk(ids[i]));
        reports := reports + [sent];
        i := i + 1;
      }
      assert ids[..i] == ids;
      AppendAllReportsAreIndependent(before, ids, event, payload, writeOk);
      err := Drain(reports);
    }

    /**
     * The ping stage: run the ping worker for every plugin, report nil when none
     * sent an error, else one of the errors; also return the ids POSTed to.
     */
    method PingPlugins(ids: seq<string>, urlParses: string -> bool, post: string -> PostOutcome) returns (err: Option<Error>, posts: seq<string>)
      ensures Aggregates(PingAll(plugins, ids, urlParses, post).sends, err)
      ensures posts == PingAll(plugins, ids, urlParses, post).posts
      ensures |ids| == 0 ==> err.None? && posts == []
      ensures err.None? <==> forall i :: 0 <= i < |ids| ==> !HandlePingPlugin(plugins, ids[i], urlParses, post(ids[i])).send.SendErr?
      ensures err.Some? ==> exists i :: 0 <= i < |ids| && HandlePingPlugin(plugins, ids[i], urlParses, post(ids[i])).send == SendErr(err.value)
      ensures forall x :: x in posts <==> exists i :: 0 <= i < |ids| && ids[i] == x && HandlePingPlugin(plugins, ids[i], urlParses, post(ids[i])).posted
    {
      PingAllIsPointwise(plugins, ids, urlParses, post);
      if |ids| < 1 {
        return None, [];
      }
      var sends: seq<ChannelSend> := [];
      posts := [];
      var i := 0;
      while i < |ids|
        invariant 0 <= i <= |ids|
        invariant PingAll(plugins, ids[..i], urlParses, post) == PingBatch(sends, posts)
      {
        assert ids[..i + 1][..i] == ids[..i];
        var r := HandlePingPlugin(plugins, ids[i], urlParses, post(ids[i]));
        sends := sends + [r.send];
        if r.posted {
          posts := posts + [ids[i]];
        }
        i := i + 1;
      }
      assert ids[..i] == ids;
      err := Drain(sends);
    }

    /**
     * Synchronise one event: resolve the installed plugins, append the message
     * to every queue, and only if no append failed, ping every plugin. Returns
     * the error reported, if any, and the plugin ids POSTed to.
     */
    method AddSyncMessage(orgId: string, event: string, payload: P, writeOk: string -> bool, urlParses: string -> bool, post: string -> PostOutcome)
      returns (err: Option<Error>, posts: seq<string>)
      requires Installed(orgs, orgId).Success? ==> DistinctKeys(Installed(orgs, orgId).value)
      modifies this
      ensures orgs == old(orgs)
      // a resolver failure is returned as it is: no append and no ping
      ensures Installed(old(orgs), orgId).Failure? ==>
                err == Some(Installed(old(orgs), orgId).error) && plugins == old(plugins) && posts == []
      ensures Installed(old(orgs), orgId).Success? ==>
                var ids := Installed(old(orgs), orgId).value;
                var batch := AppendAll(old(plugins), ids, event, payload, writeOk);
                && plugins == batch.plugins
                // an append failure is returned and no plugin is pinged, not even those whose append succeeded
                && (AnyError(batch.reports) ==> Aggregates(batch.reports, err) && posts == [])
                // otherwise the ping stage decides, on the endpoints as they were before the call
                && (!AnyError(batch.reports) ==>
                      var pings := PingAll(old(plugins), ids, urlParses, post);
                      Aggregates(pings.sends, err) && posts == pings.posts)
    {
      var installed := GetInstalledPlugins(orgId);
      if installed.Failure? {
        return Some(installed.error), [];
      }
      var ids := installed.value;
      ghost var before := plugins;
      err := AddToPluginsQueue(ids, event, payload, writeOk);
      if err.Some? {
        return err, [];
      }
      AppendAllKeepsEndpoints(before, ids, event, payload, writeOk);
      PingAllDependsOnEndpoints(before, plugins, ids, urlParses, post);
      err, posts := PingPlugins(ids, urlParses, post);
    }
  }
}
