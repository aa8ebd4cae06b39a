/**
 * The metric bookkeeping of the Datadog reporting task: the controller's
 * process-group status tree flattened into lists, one gauge registered per
 * prefixed metric name the first time it is seen, the latest value of every
 * metric kept in a map the gauges read, tags rendered as `key:value`, and
 * the choice of transport.
 *
 * Metric values are only stored and handed back, never computed, so their
 * type is the parameter `V`.
 */
module DataDog {
  import opened Wrappers
  import opened Text

  const DATADOG_AGENT := "Datadog Agent"
  const DATADOG_HTTP := "Datadog HTTP"
  /** The key the registry builder is given for the local agent. */
  const AGENT_KEY := "agent"
  const DEFAULT_METRICS_PREFIX := "nifi"
  const DEFAULT_ENVIRONMENT := "dev"
  const ENV_TAG := "env"
  const DATAFLOW_ID_TAG := "dataflow_id"

  datatype ProcessorStatus = ProcessorStatus(id: string, name: string)
  datatype ConnectionStatus = ConnectionStatus(id: string, name: string)
  datatype PortStatus = PortStatus(id: string, name: string)

  /** A process group's status: its own components' statuses and its child groups'. */
  datatype ProcessGroupStatus = ProcessGroupStatus(
    id: string,
    processorStatus: seq<ProcessorStatus>,
    connectionStatus: seq<ConnectionStatus>,
    inputPortStatus: seq<PortStatus>,
    outputPortStatus: seq<PortStatus>,
    processGroupStatus: seq<ProcessGroupStatus>)

  // Flattening the status tree

  /**
   * The statuses `own` picks from `g`, followed by those of each child group
   * in turn, recursively.
   */
  function Flatten<T>(g: ProcessGroupStatus, own: ProcessGroupStatus -> seq<T>): seq<T>
    decreases g, |g.processGroupStatus| + 1
  {
    own(g) + FlattenChildren(g, |g.processGroupStatus|, own)
  }

  /** The flattened statuses of the first `n` child groups of `g`. */
  function FlattenChildren<T>(g: ProcessGroupStatus, n: nat, own: ProcessGroupStatus -> seq<T>): seq<T>
    requires n <= |g.processGroupStatus|
    decreases g, n
  {
    if n == 0 then []
    else FlattenChildren(g, n - 1, own) + Flatten(g.processGroupStatus[n - 1], own)
  }

  /** Every group of the tree, each before its children: the pre-order of the tree. */
  function Groups(g: ProcessGroupStatus): seq<ProcessGroupStatus> {
    Flatten(g, (h: ProcessGroupStatus) => [h])
  }

  /** The statuses `own` picks from each group of `gs`, in order. */
  function ConcatOwn<T>(own: ProcessGroupStatus -> seq<T>, gs: seq<ProcessGroupStatus>): seq<T>
    decreases |gs|
  {
    if gs == [] then [] else own(gs[0]) + ConcatOwn(own, gs[1..])
  }

  /** How many statuses `own` picks from the groups of `gs` together. */
  function CountOwn<T>(own: ProcessGroupStatus -> seq<T>, gs: seq<ProcessGroupStatus>): nat
    decreases |gs|
  {
    if gs == [] then 0 else |own(gs[0])| + CountOwn(own, gs[1..])
  }

  lemma {:induction false} ConcatOwnAppend<T>(own: ProcessGroupStatus -> seq<T>, a: seq<ProcessGroupStatus>, b: seq<ProcessGroupStatus>)
    ensures ConcatOwn(own, a + b) == ConcatOwn(own, a) + ConcatOwn(own, b)
    decreases |a|
  {
    if a == [] {
      assert a + b == b;
    } else {
      ConcatOwnAppend(own, a[1..], b);
      assert (a + b)[1..] == a[1..] + b;
    }
  }

  /**
   * Flattening is pre-order: it lists the statuses of the groups in the
   * order `Groups` visits them, each group's own statuses together.
   */
  lemma {:induction false} FlattenIsPreOrder<T>(g: ProcessGroupStatus, own: ProcessGroupStatus -> seq<T>)
    ensures Flatten(g, own) == ConcatOwn(own, Groups(g))
    decreases g, |g.processGroupStatus| + 1
  {
    var single := (h: ProcessGroupStatus) => [h];
    var n := |g.processGroupStatus|;
    FlattenChildrenIsPreOrder(g, n, own);
    assert Groups(g) == [g] + FlattenChildren(g, n, single);
    assert ([g] + FlattenChildren(g, n, single))[1..] == FlattenChildren(g, n, single);
  }

  lemma {:induction false} FlattenChildrenIsPreOrder<T>(g: ProcessGroupStatus, n: nat, own: ProcessGroupStatus -> seq<T>)
    requires n <= |g.processGroupStatus|
    ensures FlattenChildren(g, n, own) == ConcatOwn(own, FlattenChildren(g, n, (h: ProcessGroupStatus) => [h]))
    decreases g, n
  {
    if n > 0 {
      var single := (h: ProcessGroupStatus) => [h];
      var child := g.processGroupStatus[n - 1];
      FlattenChildrenIsPreOrder(g, n - 1, own);
      FlattenIsPreOrder(child, own);
      assert Groups(child) == Flatten(child, single);
      ConcatOwnAppend(own, FlattenChildren(g, n - 1, single), Flatten(child, single));
    }
  }

  lemma {:induction false} ConcatOwnLength<T>(own: ProcessGroupStatus -> seq<T>, gs: seq<ProcessGroupStatus>)
    ensures |ConcatOwn(own, gs)| == CountOwn(own, gs)
    decreases |gs|
  {
    if gs != [] {
      ConcatOwnLength(own, gs[1..]);
    }
  }

  lemma {:induction false} ConcatOwnMembers<T>(own: ProcessGroupStatus -> seq<T>, gs: seq<ProcessGroupStatus>, x: T)
    ensures x in ConcatOwn(own, gs) <==> exists h :: h in gs && x in own(h)
    decreases |gs|
  {
    if gs != [] {
      ConcatOwnMembers(own, gs[1..], x);
      assert gs == [gs[0]] + gs[1..];
    }
  }

  /** As many statuses are collected as the groups of the tree hold together. */
  lemma FlattenLength<T>(g: ProcessGroupStatus, own: ProcessGroupStatus -> seq<T>)
    ensures |Flatten(g, own)| == CountOwn(own, Groups(g))
  {
    FlattenIsPreOrder(g, own);
    ConcatOwnLength(own, Groups(g));
  }

  /** A status is collected exactly when some group of the tree holds it. */
  lemma FlattenMembers<T>(g: ProcessGroupStatus, own: ProcessGroupStatus -> seq<T>, x: T)
    ensures x in Flatten(g, own) <==> exists h :: h in Groups(g) && x in own(h)
  {
    FlattenIsPreOrder(g, own);
    ConcatOwnMembers(own, Groups(g), x);
  }

  /**
   * `populateProcessorStatuses`, `populateConnectionStatuses`,
   * `populateInputPortStatuses` and `populateOutputPortStatuses`, which
   * differ only in the list of the group they pick (`own`): append the
   * group's own statuses to `statuses`, then populate from each child group
   * in turn.
   */
  method PopulateStatuses<T>(groupStatus: ProcessGroupStatus, own: ProcessGroupStatus -> seq<T>, statuses: seq<T>)
    returns (r: seq<T>)
    ensures r == statuses + Flatten(groupStatus, own)
    decreases groupStatus
  {
    r := statuses + own(groupStatus);
    var children := groupStatus.processGroupStatus;
    for i := 0 to |children|
      invariant r == statuses + own(groupStatus) + FlattenChildren(groupStatus, i, own)
    {
      r := PopulateStatuses(children[i], own, r);
    }
  }

  // Names and tags

  /** `buildMetricName`: the prefix, a dot, and the metric's own name. */
  function MetricName(prefix: string, metricName: string): (r: string)
    ensures |r| == |prefix| + 1 + |metricName|
    ensures r[..|prefix|] == prefix && r[|prefix|] == '.' && r[|prefix| + 1..] == metricName
  {
    prefix + "." + metricName
  }

  /** Under one prefix, distinct metrics get distinct names. */
  lemma MetricNameInjective(prefix: string, a: string, b: string)
    ensures MetricName(prefix, a) == MetricName(prefix, b) ==> a == b
  {
    if MetricName(prefix, a) == MetricName(prefix, b) {
      assert a == MetricName(prefix, a)[|prefix| + 1..];
    }
  }

  /** The prefixed names of a set of metrics. */
  function MetricNames(prefix: string, keys: set<string>): set<string> {
    set k | k in keys :: MetricName(prefix, k)
  }

  /** The metrics under their prefixed names. */
  function PrefixedMetrics<V>(prefix: string, metrics: map<string, V>): (r: map<string, V>)
    ensures r.Keys == MetricNames(prefix, metrics.Keys)
  {
    map n | n in MetricNames(prefix, metrics.Keys) :: metrics[n[|prefix| + 1..]]
  }

  /** Each metric's value is found under its prefixed name. */
  lemma PrefixedMetricsAt<V>(prefix: string, metrics: map<string, V>, k: string)
    requires k in metrics
    ensures MetricName(prefix, k) in PrefixedMetrics(prefix, metrics)
    ensures PrefixedMetrics(prefix, metrics)[MetricName(prefix, k)] == metrics[k]
  {
  }

  /** A fresh gauge for each of `names`, all reporting with `tags`. */
  function Gauges(names: set<string>, tags: map<string, string>): (r: map<string, MetricGauge>)
    ensures r.Keys == names
    ensures forall n :: n in r ==> r[n].metricName == n && r[n].tags == tags
  {
    map n | n in names :: MetricGauge(n, tags)
  }

  /** `key:value`, one gauge tag. */
  function TagText(key: string, value: string): (t: string)
    ensures |t| == |key| + 1 + |value|
    ensures t[..|key|] == key && t[|key|] == ':' && t[|key| + 1..] == value
  {
    key + ":" + value
  }

  /** A tag's first colon ends its key. */
  lemma ColonAt(k1: string, v1: string, k2: string, v2: string)
    requires ':' !in k2 && |k1| < |k2|
    ensures TagText(k1, v1)[|k1|] == ':' != TagText(k2, v2)[|k1|]
  {
    assert TagText(k2, v2)[|k1|] == k2[|k1|];
  }

  /** Tag keys without a colon can be read back from the tag text. */
  lemma TagTextInjective(k1: string, v1: string, k2: string, v2: string)
    requires ':' !in k1 && ':' !in k2
    requires TagText(k1, v1) == TagText(k2, v2)
    ensures k1 == k2 && v1 == v2
  {
    var t := TagText(k1, v1);
    if |k1| < |k2| {
      ColonAt(k1, v1, k2, v2);
      assert false;
    } else if |k2| < |k1| {
      ColonAt(k2, v2, k1, v1);
      assert false;
    }
    assert k1 == t[..|k1|] == k2;
    assert v1 == t[|k1| + 1..] == v2;
  }

  /** The tags of the metrics of the flow: the environment and the status id of the root group. */
  function DefaultTags(environment: string, statusId: string): (tags: map<string, string>)
    ensures tags.Keys == {ENV_TAG, DATAFLOW_ID_TAG} && |tags| == 2
    ensures tags[ENV_TAG] == environment && tags[DATAFLOW_ID_TAG] == statusId
  {
    map[ENV_TAG := environment, DATAFLOW_ID_TAG := statusId]
  }

  /** A processor's tags: the default tags, with its own tags added on top (its own win). */
  function ProcessorTags(defaultTags: map<string, string>, processorTags: map<string, string>): (tags: map<string, string>)
    ensures tags.Keys == defaultTags.Keys + processorTags.Keys
    ensures forall k :: k in processorTags ==> tags[k] == processorTags[k]
    ensures forall k :: k in defaultTags && k !in processorTags ==> tags[k] == defaultTags[k]
  {
    defaultTags + processorTags
  }

  /** A registered gauge: its metric name and the tags it reports with. */
  datatype MetricGauge = MetricGauge(metricName: string, tags: map<string, string>) {

    /** `getTags`: one `key:value` text per tag, in the map's iteration order. */
    method GetTags() returns (tagsList: seq<string>)
      ensures |tagsList| == |tags|
      ensures forall k :: k in tags ==> TagText(k, tags[k]) in tagsList
      ensures forall t :: t in tagsList ==> exists k :: k in tags && t == TagText(k, tags[k])
    {
      tagsList := [];
      var remaining := tags.Keys;
      while remaining != {}
        invariant remaining <= tags.Keys
        invariant |tagsList| + |remaining| == |tags|
        invariant forall k :: k in tags && k !in remaining ==> TagText(k, tags[k]) in tagsList
        invariant forall t :: t in tagsList ==> exists k :: k in tags && k !in remaining && t == TagText(k, tags[k])
        decreases remaining
      {
        var k :| k in remaining;
        tagsList := tagsList + [TagText(k, tags[k])];
        remaining := remaining - {k};
      }
    }
  }

  /**
   * `updateDataDogTransport`: the key the metric registry is built with —
   * `agent` for the agent transport, the API key for the HTTP transport
   * when one is set — or nothing, when the registry is not rebuilt. The
   * transport names are compared ignoring case.
   */
  function ChooseTransport(transport: string, apiKey: Option<string>): (key: Option<string>)
    ensures EqualsIgnoreCase(transport, DATADOG_AGENT) ==> key == Some(AGENT_KEY)
    ensures !EqualsIgnoreCase(transport, DATADOG_AGENT) && EqualsIgnoreCase(transport, DATADOG_HTTP) && apiKey.Some?
      ==> key == apiKey
    ensures key.None? <==> !EqualsIgnoreCase(transport, DATADOG_AGENT) && (!EqualsIgnoreCase(transport, DATADOG_HTTP) || apiKey.None?)
  {
    if EqualsIgnoreCase(transport, DATADOG_AGENT) then Some(AGENT_KEY)
    else if EqualsIgnoreCase(transport, DATADOG_HTTP) && apiKey.Some? then apiKey
    else None
  }

  /** No transport name matches both choices, so the order of the tests does not matter. */
  lemma TransportNamesExclusive(transport: string)
    ensures !(EqualsIgnoreCase(transport, DATADOG_AGENT) && EqualsIgnoreCase(transport, DATADOG_HTTP))
  {
  }

  /** The HTTP transport with an API key builds with that key, whatever the case of the name. */
  lemma HttpTransportUsesApiKey(key: string)
    ensures ChooseTransport("datadog http", Some(key)) == Some(key)
    ensures ChooseTransport("Datadog HTTP", None) == None
    ensures ChooseTransport("DATADOG AGENT", Some(key)) == Some(AGENT_KEY)
  {
    assert EqualsIgnoreCase("datadog http", DATADOG_HTTP);
    TransportNamesExclusive("datadog http");
    TransportNamesExclusive("Datadog HTTP");
    assert EqualsIgnoreCase("DATADOG AGENT", DATADOG_AGENT);
  }

  /** One more metric done: its value joins the prefixed map under its name. */
  lemma PrefixedMetricsStep<V>(prefix: string, metrics: map<string, V>, remaining: set<string>, key: string)
    requires key in remaining && remaining <= metrics.Keys
    ensures PrefixedMetrics(prefix, metrics - (remaining - {key}))
      == PrefixedMetrics(prefix, metrics - remaining)[MetricName(prefix, key) := metrics[key]]
  {
    var m1, m2 := metrics - remaining, metrics - (remaining - {key});
    var a := PrefixedMetrics(prefix, m2);
    var b := PrefixedMetrics(prefix, m1)[MetricName(prefix, key) := metrics[key]];
    assert m2.Keys == m1.Keys + {key};
    MetricNamesUnion(prefix, m1.Keys, {key});
    assert a.Keys == b.Keys;
    forall n | n in a
      ensures a[n] == b[n]
    {
      var k :| k in m2 && n == MetricName(prefix, k);
      MetricNameInjective(prefix, k, key);
      if k != key {
        PrefixedMetricsAt(prefix, m1, k);
      }
    }
  }

  /** One more metric done: a gauge is added exactly when its name is new. */
  lemma GaugesStep(prefix: string, keys: set<string>, remaining: set<string>, key: string,
                   registered: set<string>, tags: map<string, string>)
    requires key in remaining && remaining <= keys
    ensures var name := MetricName(prefix, key);
      var before := MetricNames(prefix, keys - remaining) - registered;
      var after := MetricNames(prefix, keys - (remaining - {key})) - registered;
      (name in registered + before ==> after == before)
      && (name !in registered + before ==> Gauges(after, tags) == Gauges(before, tags)[name := MetricGauge(name, tags)])
  {
    assert keys - (remaining - {key}) == (keys - remaining) + {key};
  }

  lemma UpdateUnion<K, W>(a: map<K, W>, b: map<K, W>, k: K, v: W)
    ensures (a + b)[k := v] == a + b[k := v]
  {
  }

  /** After an update, each metric of the update has its new value under its prefixed name. */
  lemma UpdatedValue<V>(values: map<string, V>, prefix: string, metrics: map<string, V>, k: string)
    requires k in metrics
    ensures MetricName(prefix, k) in values + PrefixedMetrics(prefix, metrics)
    ensures (values + PrefixedMetrics(prefix, metrics))[MetricName(prefix, k)] == metrics[k]
  {
    PrefixedMetricsAt(prefix, metrics, k);
  }

  /** An update leaves the names it does not mention, with their values, alone. */
  lemma UpdateKeepsOthers<V>(values: map<string, V>, prefix: string, metrics: map<string, V>, n: string)
    requires n in values && n !in MetricNames(prefix, metrics.Keys)
    ensures n in values + PrefixedMetrics(prefix, metrics)
    ensures (values + PrefixedMetrics(prefix, metrics))[n] == values[n]
  {
  }

  /** The registry after registering the names of `keys` that are not registered yet. */
  function RegisterNew(registry: map<string, MetricGauge>, prefix: string, keys: set<string>, tags: map<string, string>)
    : (r: map<string, MetricGauge>)
    ensures r.Keys == registry.Keys + MetricNames(prefix, keys)
    ensures forall n :: n in registry ==> r[n] == registry[n]
  {
    registry + Gauges(MetricNames(prefix, keys) - registry.Keys, tags)
  }

  /**
   * A name is registered only the first time it is reported: reporting the
   * same metrics again, whatever the tags, registers nothing.
   */
  lemma RegistrationIsOnce(registry: map<string, MetricGauge>, prefix: string, keys: set<string>,
                           tags: map<string, string>, laterTags: map<string, string>)
    ensures var r := RegisterNew(registry, prefix, keys, tags);
      RegisterNew(r, prefix, keys, laterTags) == r
  {
    var r := RegisterNew(registry, prefix, keys, tags);
    assert MetricNames(prefix, keys) - r.Keys == {};
  }

  lemma MetricNamesUnion(prefix: string, a: set<string>, b: set<string>)
    ensures MetricNames(prefix, a + b) == MetricNames(prefix, a) + MetricNames(prefix, b)
  {
  }

  /** A metric's prefixed name is among the prefixed names of a set exactly when the metric is in the set. */
  lemma MetricNameIn(prefix: string, k: string, keys: set<string>)
    ensures MetricName(prefix, k) in MetricNames(prefix, keys) <==> k in keys
  {
    if MetricName(prefix, k) in MetricNames(prefix, keys) {
      var k' :| k' in keys && MetricName(prefix, k') == MetricName(prefix, k);
      MetricNameInjective(prefix, k', k);
    }
  }

  // A run of `updateMetrics` calls

  /** The arguments of one `updateMetrics` call. */
  datatype Update<V> = Update(metrics: map<string, V>, tags: map<string, string>)

  /** The values after the updates `us`, in order, starting from `values`. */
  function Store<V>(values: map<string, V>, prefix: string, us: seq<Update<V>>): map<string, V>
    decreases |us|
  {
    if us == [] then values
    else Store(values, prefix, us[..|us| - 1]) + PrefixedMetrics(prefix, us[|us| - 1].metrics)
  }

  /** The registry after the updates `us`, in order, starting from `registry`. */
  function Register<V>(registry: map<string, MetricGauge>, prefix: string, us: seq<Update<V>>): map<string, MetricGauge>
    decreases |us|
  {
    if us == [] then registry
    else RegisterNew(Register(registry, prefix, us[..|us| - 1]), prefix, us[|us| - 1].metrics.Keys, us[|us| - 1].tags)
  }

  /** The metrics the updates `us` mention, together. */
  function UpdateKeys<V>(us: seq<Update<V>>): set<string>
    decreases |us|
  {
    if us == [] then {} else UpdateKeys(us[..|us| - 1]) + us[|us| - 1].metrics.Keys
  }

  /** The updates made for the statuses `xs`, in order: each status's metrics with that status's tags. */
  function StatusUpdates<S, V>(xs: seq<S>, metrics: S -> map<string, V>, tagsOf: S -> map<string, string>)
    : (us: seq<Update<V>>)
    ensures |us| == |xs|
    ensures forall j :: 0 <= j < |xs| ==> us[j] == Update(metrics(xs[j]), tagsOf(xs[j]))
    decreases |xs|
  {
    if xs == [] then []
    else StatusUpdates(xs[..|xs| - 1], metrics, tagsOf) + [Update(metrics(xs[|xs| - 1]), tagsOf(xs[|xs| - 1]))]
  }

  lemma StatusUpdatesStep<S, V>(xs: seq<S>, metrics: S -> map<string, V>, tagsOf: S -> map<string, string>, i: nat)
    requires i < |xs|
    ensures StatusUpdates(xs[..i + 1], metrics, tagsOf)
      == StatusUpdates(xs[..i], metrics, tagsOf) + [Update(metrics(xs[i]), tagsOf(xs[i]))]
  {
    assert xs[..i + 1][..i] == xs[..i];
  }

  lemma StoreSnoc<V>(values: map<string, V>, prefix: string, us: seq<Update<V>>, u: Update<V>)
    ensures Store(values, prefix, us + [u]) == Store(values, prefix, us) + PrefixedMetrics(prefix, u.metrics)
  {
    assert (us + [u])[..|us|] == us;
  }

  lemma RegisterSnoc<V>(registry: map<string, MetricGauge>, prefix: string, us: seq<Update<V>>, u: Update<V>)
    ensures Register(registry, prefix, us + [u]) == RegisterNew(Register(registry, prefix, us), prefix, u.metrics.Keys, u.tags)
  {
    assert (us + [u])[..|us|] == us;
  }

  /** Doing the updates `a + b` is doing `a`, then `b`. */
  lemma {:induction false} StoreAppend<V>(values: map<string, V>, prefix: string, a: seq<Update<V>>, b: seq<Update<V>>)
    ensures Store(values, prefix, a + b) == Store(Store(values, prefix, a), prefix, b)
    decreases |b|
  {
    if b == [] {
      assert a + b == a;
    } else {
      var init, u := b[..|b| - 1], b[|b| - 1];
      assert b == init + [u];
      assert a + b == (a + init) + [u];
      StoreAppend(values, prefix, a, init);
      StoreSnoc(values, prefix, a + init, u);
      StoreSnoc(Store(values, prefix, a), prefix, init, u);
    }
  }

  /** Registering for `a + b` is registering for `a`, then for `b`. */
  lemma {:induction false} RegisterAppend<V>(registry: map<string, MetricGauge>, prefix: string, a: seq<Update<V>>, b: seq<Update<V>>)
    ensures Register(registry, prefix, a + b) == Register(Register(registry, prefix, a), prefix, b)
    decreases |b|
  {
    if b == [] {
      assert a + b == a;
    } else {
      var init, u := b[..|b| - 1], b[|b| - 1];
      assert b == init + [u];
      assert a + b == (a + init) + [u];
      RegisterAppend(registry, prefix, a, init);
      RegisterSnoc(registry, prefix, a + init, u);
      RegisterSnoc(Register(registry, prefix, a), prefix, init, u);
    }
  }

  /** The names with a value afterwards: those before and the prefixed names of every metric mentioned. */
  lemma {:induction false} StoreKeys<V>(values: map<string, V>, prefix: string, us: seq<Update<V>>)
    ensures Store(values, prefix, us).Keys == values.Keys + MetricNames(prefix, UpdateKeys(us))
    decreases |us|
  {
    if us != [] {
      var init, u := us[..|us| - 1], us[|us| - 1];
      StoreKeys(values, prefix, init);
      MetricNamesUnion(prefix, UpdateKeys(init), u.metrics.Keys);
    }
  }

  /** The last update that mentions a metric decides its value. */
  lemma {:induction false} StoreLatest<V>(values: map<string, V>, prefix: string, us: seq<Update<V>>, j: nat, k: string)
    requires j < |us| && k in us[j].metrics
    requires forall i :: j < i < |us| ==> k !in us[i].metrics
    ensures MetricName(prefix, k) in Store(values, prefix, us)
    ensures Store(values, prefix, us)[MetricName(prefix, k)] == us[j].metrics[k]
    decreases |us|
  {
    var init, u := us[..|us| - 1], us[|us| - 1];
    if j == |us| - 1 {
      UpdatedValue(Store(values, prefix, init), prefix, u.metrics, k);
    } else {
      StoreLatest(values, prefix, init, j, k);
      MetricNameIn(prefix, k, u.metrics.Keys);
      UpdateKeepsOthers(Store(values, prefix, init), prefix, u.metrics, MetricName(prefix, k));
    }
  }

  /** A name no update mentions keeps its value. */
  lemma {:induction false} StoreKeepsOthers<V>(values: map<string, V>, prefix: string, us: seq<Update<V>>, n: string)
    requires n in values && n !in MetricNames(prefix, UpdateKeys(us))
    ensures n in Store(values, prefix, us) && Store(values, prefix, us)[n] == values[n]
    decreases |us|
  {
    if us != [] {
      var init, u := us[..|us| - 1], us[|us| - 1];
      MetricNamesUnion(prefix, UpdateKeys(init), u.metrics.Keys);
      StoreKeepsOthers(values, prefix, init, n);
      UpdateKeepsOthers(Store(values, prefix, init), prefix, u.metrics, n);
    }
  }

  /** The names registered afterwards: those before and the prefixed names of every metric mentioned. */
  lemma {:induction false} RegisterKeys<V>(registry: map<string, MetricGauge>, prefix: string, us: seq<Update<V>>)
    ensures Register(registry, prefix, us).Keys == registry.Keys + MetricNames(prefix, UpdateKeys(us))
    decreases |us|
  {
    if us != [] {
      var init, u := us[..|us| - 1], us[|us| - 1];
      RegisterKeys(registry, prefix, init);
      MetricNamesUnion(prefix, UpdateKeys(init), u.metrics.Keys);
    }
  }

  /** Gauges already registered stay as they are. */
  lemma {:induction false} RegisterKeeps<V>(registry: map<string, MetricGauge>, prefix: string, us: seq<Update<V>>, n: string)
    requires n in registry
    ensures n in Register(registry, prefix, us) && Register(registry, prefix, us)[n] == registry[n]
    decreases |us|
  {
    if us != [] {
      RegisterKeeps(registry, prefix, us[..|us| - 1], n);
    }
  }

  /** A metric none of the updates mentions is not among their metrics. */
  lemma {:induction false} UpdateKeysAbsent<V>(us: seq<Update<V>>, k: string)
    requires forall i :: 0 <= i < |us| ==> k !in us[i].metrics
    ensures k !in UpdateKeys(us)
    decreases |us|
  {
    if us != [] {
      UpdateKeysAbsent(us[..|us| - 1], k);
    }
  }

  /** A new name's gauge carries the tags of the first update that mentions its metric. */
  lemma {:induction false} RegisterFirst<V>(registry: map<string, MetricGauge>, prefix: string, us: seq<Update<V>>, j: nat, k: string)
    requires j < |us| && k in us[j].metrics && MetricName(prefix, k) !in registry
    requires forall i :: 0 <= i < j ==> k !in us[i].metrics
    ensures MetricName(prefix, k) in Register(registry, prefix, us)
    ensures Register(registry, prefix, us)[MetricName(prefix, k)] == MetricGauge(MetricName(prefix, k), us[j].tags)
    decreases |us|
  {
    var init, u := us[..|us| - 1], us[|us| - 1];
    var name := MetricName(prefix, k);
    if j == |us| - 1 {
      UpdateKeysAbsent(init, k);
      MetricNameIn(prefix, k, UpdateKeys(init));
      RegisterKeys(registry, prefix, init);
      MetricNameIn(prefix, k, u.metrics.Keys);
      assert name in MetricNames(prefix, u.metrics.Keys) - Register(registry, prefix, init).Keys;
    } else {
      RegisterFirst(registry, prefix, init, j, k);
    }
  }

  // The reporting task

  /**
   * The metrics service's answers for the statuses of one run, passed in
   * because its computation is not part of this model.
   */
  datatype MetricsService<V> = MetricsService(
    processorMetrics: ProcessorStatus -> map<string, V>,
    processorTags: ProcessorStatus -> map<string, string>,
    connectionStatusMetrics: ConnectionStatus -> map<string, V>,
    portStatusMetrics: PortStatus -> map<string, V>,
    jvmMetrics: map<string, V>,
    dataFlowMetrics: ProcessGroupStatus -> map<string, V>)

  /** The lists of a group that the four `populate…Statuses` methods pick. */
  function ProcessorsOf(g: ProcessGroupStatus): seq<ProcessorStatus> { g.processorStatus }
  function ConnectionsOf(g: ProcessGroupStatus): seq<ConnectionStatus> { g.connectionStatus }
  function InputPortsOf(g: ProcessGroupStatus): seq<PortStatus> { g.inputPortStatus }
  function OutputPortsOf(g: ProcessGroupStatus): seq<PortStatus> { g.outputPortStatus }

  /** A processor's tags: `defaultTags` with the service's tags for the processor on top. */
  function ProcessorTagsOf(defaultTags: map<string, string>, processorTags: ProcessorStatus -> map<string, string>)
    : ProcessorStatus -> map<string, string>
  {
    p => ProcessorTags(defaultTags, processorTags(p))
  }

  /** The same tags for every status. */
  function SameTags<S>(tags: map<string, string>): S -> map<string, string> {
    s => tags
  }

  /**
   * The updates for the components of the tree, in the order the four loops
   * of `updateAllMetricGroups` make them: processors (with their own tags
   * over `tags`), connections, input ports, output ports (with `tags`).
   */
  function ComponentUpdates<V>(status: ProcessGroupStatus, service: MetricsService<V>, tags: map<string, string>)
    : seq<Update<V>>
  {
    StatusUpdates(Flatten(status, ProcessorsOf), service.processorMetrics, ProcessorTagsOf(tags, service.processorTags))
    + StatusUpdates(Flatten(status, ConnectionsOf), service.connectionStatusMetrics, SameTags(tags))
    + StatusUpdates(Flatten(status, InputPortsOf), service.portStatusMetrics, SameTags(tags))
    + StatusUpdates(Flatten(status, OutputPortsOf), service.portStatusMetrics, SameTags(tags))
  }

  /** Every update of one run of `updateAllMetricGroups`: the components', then the JVM's, then the flow's. */
  function AllUpdates<V>(status: ProcessGroupStatus, service: MetricsService<V>, tags: map<string, string>)
    : seq<Update<V>>
  {
    ComponentUpdates(status, service, tags) + [Update(service.jvmMetrics, tags), Update(service.dataFlowMetrics(status), tags)]
  }

  /**
   * The gauge registered for a processor's metric carries that processor's
   * tags (its own over the default ones) when the processor is the first
   * that reports the metric and the name was not registered before.
   */
  lemma ProcessorGaugeTags<V>(registry: map<string, MetricGauge>, prefix: string, status: ProcessGroupStatus,
                              service: MetricsService<V>, tags: map<string, string>, j: nat, k: string)
    requires j < |Flatten(status, ProcessorsOf)|
    requires k in service.processorMetrics(Flatten(status, ProcessorsOf)[j]) && MetricName(prefix, k) !in registry
    requires forall i :: 0 <= i < j ==> k !in service.processorMetrics(Flatten(status, ProcessorsOf)[i])
    ensures var r := Register(registry, prefix, ComponentUpdates(status, service, tags));
      MetricName(prefix, k) in r
      && r[MetricName(prefix, k)]
         == MetricGauge(MetricName(prefix, k), ProcessorTags(tags, service.processorTags(Flatten(status, ProcessorsOf)[j])))
  {
    var ps := Flatten(status, ProcessorsOf);
    var us := ComponentUpdates(status, service, tags);
    var pu := StatusUpdates(ps, service.processorMetrics, ProcessorTagsOf(tags, service.processorTags));
    assert forall i :: 0 <= i < |pu| ==> us[i] == pu[i];
    RegisterFirst(registry, prefix, us, j, k);
  }

  /** After one run, each flow metric has the value the run reported for it. */
  lemma DataFlowValues<V>(values: map<string, V>, prefix: string, status: ProcessGroupStatus,
                          service: MetricsService<V>, tags: map<string, string>, k: string)
    requires k in service.dataFlowMetrics(status)
    ensures var m := Store(values, prefix, AllUpdates(status, service, tags));
      MetricName(prefix, k) in m && m[MetricName(prefix, k)] == service.dataFlowMetrics(status)[k]
  {
    var us := AllUpdates(status, service, tags);
    StoreLatest(values, prefix, us, |us| - 1, k);
  }

  /** After one run: the names with a value, and the flow metrics' values. */
  lemma RunValues<V>(values: map<string, V>, prefix: string, status: ProcessGroupStatus,
                     service: MetricsService<V>, tags: map<string, string>)
    ensures var m := Store(values, prefix, AllUpdates(status, service, tags));
      && m.Keys == values.Keys + MetricNames(prefix, UpdateKeys(AllUpdates(status, service, tags)))
      && forall k :: k in service.dataFlowMetrics(status) ==> m[MetricName(prefix, k)] == service.dataFlowMetrics(status)[k]
  {
    StoreKeys(values, prefix, AllUpdates(status, service, tags));
    forall k | k in service.dataFlowMetrics(status) {
      DataFlowValues(values, prefix, status, service, tags, k);
    }
  }

  class DataDogReportingTask<V> {
    var metricsPrefix: string
    var environment: string
    var statusId: string
    var defaultTags: map<string, string>
    /** The latest value of every metric, by prefixed name: what the gauges report. */
    var metricsMap: map<string, V>
    /** The metric registry: one gauge per registered name. */
    var metricRegistry: map<string, MetricGauge>
    /** The key the registry builder was last built with, if any. */
    var transportKey: Option<string>

    /** Exactly the names with a value are registered, each with its own gauge. */
    ghost predicate Valid()
      reads this
    {
      metricRegistry.Keys == metricsMap.Keys
      && forall n :: n in metricRegistry ==> metricRegistry[n].metricName == n
    }

    /** `setup`: empty map and registry, default prefix and environment. */
    constructor Setup()
      ensures Valid()
      ensures metricsMap == map[] && metricRegistry == map[] && transportKey == None
      ensures metricsPrefix == DEFAULT_METRICS_PREFIX && environment == DEFAULT_ENVIRONMENT
      ensures statusId == "" && defaultTags == map[]
    {
      metricsPrefix := DEFAULT_METRICS_PREFIX;
      environment := DEFAULT_ENVIRONMENT;
      statusId := "";
      defaultTags := map[];
      metricsMap := map[];
      metricRegistry := map[];
      transportKey := None;
    }

    /** `MetricGauge.getValue`: the latest value of the gauge's metric. */
    function GetValue(gauge: MetricGauge): (v: Option<V>)
      reads this
      ensures v.Some? <==> gauge.metricName in metricsMap
      ensures v.Some? ==> v.value == metricsMap[gauge.metricName]
    {
      if gauge.metricName in metricsMap then Some(metricsMap[gauge.metricName]) else None
    }

    /**
     * One pass of the loop of `updateMetrics`: a name not seen before is
     * registered with a gauge carrying `tags`, and the name gets `value`.
     */
    method PutMetric(metricName: string, value: V, tags: map<string, string>)
      requires Valid()
      modifies this
      ensures Valid()
      ensures metricsPrefix == old(metricsPrefix) && environment == old(environment) && statusId == old(statusId)
      ensures defaultTags == old(defaultTags) && transportKey == old(transportKey)
      ensures metricsMap == old(metricsMap)[metricName := value]
      ensures metricRegistry == if metricName in old(metricRegistry) then old(metricRegistry)
        else old(metricRegistry)[metricName := MetricGauge(metricName, tags)]
    {
      if metricName !in metricsMap {
        metricsMap := metricsMap[metricName := value];
        metricRegistry := metricRegistry[metricName := MetricGauge(metricName, tags)];
      }
      metricsMap := metricsMap[metricName := value];
    }

    /**
     * `updateMetrics`: every metric gets the value given, under its prefixed
     * name; a name not seen before is registered with a gauge carrying
     * `tags`; already registered gauges, and the values of other names, are
     * left alone.
     */
    method UpdateMetrics(metrics: map<string, V>, tags: map<string, string>)
      requires Valid()
      modifies this
      ensures Valid()
      ensures metricsPrefix == old(metricsPrefix) && environment == old(environment) && statusId == old(statusId)
      ensures defaultTags == old(defaultTags) && transportKey == old(transportKey)
      ensures metricsMap.Keys == old(metricsMap).Keys + MetricNames(metricsPrefix, metrics.Keys)
      ensures forall k :: k in metrics ==> metricsMap[MetricName(metricsPrefix, k)] == metrics[k]
      ensures forall n :: n in old(metricsMap) && n !in MetricNames(metricsPrefix, metrics.Keys) ==>
        metricsMap[n] == old(metricsMap)[n]
      ensures forall n :: n in old(metricRegistry) ==> metricRegistry[n] == old(metricRegistry)[n]
      ensures forall n :: n in metricRegistry && n !in old(metricRegistry) ==> metricRegistry[n] == MetricGauge(n, tags)
      ensures metricsMap == old(metricsMap) + PrefixedMetrics(metricsPrefix, metrics)
      ensures metricRegistry == RegisterNew(old(metricRegistry), metricsPrefix, metrics.Keys, tags)
    {
      var remaining := metrics.Keys;
      assert metrics - remaining == map[];
      while remaining != {}
        invariant remaining <= metrics.Keys
        invariant Valid()
        invariant metricsPrefix == old(metricsPrefix) && environment == old(environment) && statusId == old(statusId)
        invariant defaultTags == old(defaultTags) && transportKey == old(transportKey)
        invariant metricsMap == old(metricsMap) + PrefixedMetrics(metricsPrefix, metrics - remaining)
        invariant metricRegistry == old(metricRegistry)
          + Gauges(MetricNames(metricsPrefix, metrics.Keys - remaining) - old(metricRegistry).Keys, tags)
        decreases remaining
      {
        var key :| key in remaining;
        var metricName := MetricName(metricsPrefix, key);
        PrefixedMetricsStep(metricsPrefix, metrics, remaining, key);
        GaugesStep(metricsPrefix, metrics.Keys, remaining, key, old(metricRegistry).Keys, tags);
        UpdateUnion(old(metricsMap), PrefixedMetrics(metricsPrefix, metrics - remaining), metricName, metrics[key]);
        UpdateUnion(old(metricRegistry), Gauges(MetricNames(metricsPrefix, metrics.Keys - remaining) - old(metricRegistry).Keys, tags),
          metricName, MetricGauge(metricName, tags));
        PutMetric(metricName, metrics[key], tags);
        remaining := remaining - {key};
      }
      assert metrics - remaining == metrics;
      forall k | k in metrics {
        UpdatedValue(old(metricsMap), metricsPrefix, metrics, k);
      }
    }

    /**
     * One loop of `updateAllMetricGroups`: a new list populated with the
     * statuses `own` picks from the whole tree, then the metrics of each
     * status in turn, with that status's tags.
     */
    method UpdateStatusMetrics<S>(processGroupStatus: ProcessGroupStatus, own: ProcessGroupStatus -> seq<S>,
                                  metrics: S -> map<string, V>, tagsOf: S -> map<string, string>)
      requires Valid()
      modifies this
      ensures Valid()
      ensures metricsPrefix == old(metricsPrefix) && environment == old(environment) && statusId == old(statusId)
      ensures defaultTags == old(defaultTags) && transportKey == old(transportKey)
      ensures metricsMap == Store(old(metricsMap), metricsPrefix, StatusUpdates(Flatten(processGroupStatus, own), metrics, tagsOf))
      ensures metricRegistry
        == Register(old(metricRegistry), metricsPrefix, StatusUpdates(Flatten(processGroupStatus, own), metrics, tagsOf))
    {
      var statuses := PopulateStatuses(processGroupStatus, own, []);
      assert statuses == Flatten(processGroupStatus, own);
      for i := 0 to |statuses|
        invariant Valid()
        invariant metricsPrefix == old(metricsPrefix) && environment == old(environment) && statusId == old(statusId)
        invariant defaultTags == old(defaultTags) && transportKey == old(transportKey)
        invariant metricsMap == Store(old(metricsMap), metricsPrefix, StatusUpdates(statuses[..i], metrics, tagsOf))
        invariant metricRegistry == Register(old(metricRegistry), metricsPrefix, StatusUpdates(statuses[..i], metrics, tagsOf))
      {
        var u := Update(metrics(statuses[i]), tagsOf(statuses[i]));
        StatusUpdatesStep(statuses, metrics, tagsOf, i);
        StoreSnoc(old(metricsMap), metricsPrefix, StatusUpdates(statuses[..i], metrics, tagsOf), u);
        RegisterSnoc(old(metricRegistry), metricsPrefix, StatusUpdates(statuses[..i], metrics, tagsOf), u);
        UpdateMetrics(metrics(statuses[i]), tagsOf(statuses[i]));
      }
      assert statuses[..|statuses|] == statuses;
    }

    /**
     * The four loops of `updateAllMetricGroups` over the statuses of the
     * tree: every processor's metrics, with its own tags over the default
     * ones, then every connection's, input port's and output port's, with the
     * default tags.
     */
    method UpdateComponentMetrics(processGroupStatus: ProcessGroupStatus, service: MetricsService<V>)
      requires Valid()
      modifies this
      ensures Valid()
      ensures metricsPrefix == old(metricsPrefix) && environment == old(environment) && statusId == old(statusId)
      ensures defaultTags == old(defaultTags) && transportKey == old(transportKey)
      ensures metricsMap == Store(old(metricsMap), metricsPrefix, ComponentUpdates(processGroupStatus, service, defaultTags))
      ensures metricRegistry == Register(old(metricRegistry), metricsPrefix, ComponentUpdates(processGroupStatus, service, defaultTags))
    {
      var tags := defaultTags;
      var g := processGroupStatus;
      ghost var p := StatusUpdates(Flatten(g, ProcessorsOf), service.processorMetrics, ProcessorTagsOf(tags, service.processorTags));
      ghost var c := StatusUpdates(Flatten(g, ConnectionsOf), service.connectionStatusMetrics, SameTags(tags));
      ghost var i := StatusUpdates(Flatten(g, InputPortsOf), service.portStatusMetrics, SameTags(tags));
      ghost var o := StatusUpdates(Flatten(g, OutputPortsOf), service.portStatusMetrics, SameTags(tags));
      UpdateStatusMetrics(g, ProcessorsOf, service.processorMetrics, ProcessorTagsOf(tags, service.processorTags));
      UpdateStatusMetrics(g, ConnectionsOf, service.connectionStatusMetrics, SameTags(tags));
      StoreAppend(old(metricsMap), metricsPrefix, p, c);
      RegisterAppend(old(metricRegistry), metricsPrefix, p, c);
      UpdateStatusMetrics(g, InputPortsOf, service.portStatusMetrics, SameTags(tags));
      StoreAppend(old(metricsMap), metricsPrefix, p + c, i);
      RegisterAppend(old(metricRegistry), metricsPrefix, p + c, i);
      UpdateStatusMetrics(g, OutputPortsOf, service.portStatusMetrics, SameTags(tags));
      StoreAppend(old(metricsMap), metricsPrefix, p + c + i, o);
      RegisterAppend(old(metricRegistry), metricsPrefix, p + c + i, o);
    }

    /**
     * `updateAllMetricGroups`: the metrics of every component of the tree,
     * then the JVM's and the flow's, with the default tags.
     */
    method UpdateAllMetricGroups(processGroupStatus: ProcessGroupStatus, service: MetricsService<V>)
      requires Valid()
      modifies this
      ensures Valid()
      ensures metricsPrefix == old(metricsPrefix) && environment == old(environment) && statusId == old(statusId)
      ensures defaultTags == old(defaultTags) && transportKey == old(transportKey)
      ensures metricsMap == Store(old(metricsMap), metricsPrefix, AllUpdates(processGroupStatus, service, defaultTags))
      ensures metricRegistry == Register(old(metricRegistry), metricsPrefix, AllUpdates(processGroupStatus, service, defaultTags))
    {
      ghost var c := ComponentUpdates(processGroupStatus, service, defaultTags);
      ghost var jvm := Update(service.jvmMetrics, defaultTags);
      ghost var flow := Update(service.dataFlowMetrics(processGroupStatus), defaultTags);
      UpdateComponentMetrics(processGroupStatus, service);
      UpdateMetrics(service.jvmMetrics, defaultTags);
      UpdateMetrics(service.dataFlowMetrics(processGroupStatus), defaultTags);
      assert AllUpdates(processGroupStatus, service, defaultTags) == (c + [jvm]) + [flow];
      StoreSnoc(old(metricsMap), metricsPrefix, c, jvm);
      StoreSnoc(old(metricsMap), metricsPrefix, c + [jvm], flow);
      RegisterSnoc(old(metricRegistry), metricsPrefix, c, jvm);
      RegisterSnoc(old(metricRegistry), metricsPrefix, c + [jvm], flow);
    }

    /**
     * `updateDataDogTransport`: rebuilds the registry's transport when the
     * configuration names one.
     */
    method UpdateDataDogTransport(transport: string, apiKey: Option<string>)
      modifies this
      ensures metricsPrefix == old(metricsPrefix) && environment == old(environment) && statusId == old(statusId)
      ensures defaultTags == old(defaultTags) && metricsMap == old(metricsMap) && metricRegistry == old(metricRegistry)
      ensures transportKey == if ChooseTransport(transport, apiKey).Some? then ChooseTransport(transport, apiKey) else old(transportKey)
    {
      var key := ChooseTransport(transport, apiKey);
      if key.Some? {
        transportKey := key;
      }
    }

    /**
     * `onTrigger`: read the prefix and environment, tag with the environment
     * and the root group's id, update the transport, then every metric of the
     * tree.
     */
    method OnTrigger(status: ProcessGroupStatus, prefix: string, env: string, transport: string,
                     apiKey: Option<string>, service: MetricsService<V>)
      requires Valid()
      modifies this
      ensures Valid()
      ensures metricsPrefix == prefix && environment == env && statusId == status.id
      ensures defaultTags == DefaultTags(env, status.id)
      ensures transportKey == if ChooseTransport(transport, apiKey).Some? then ChooseTransport(transport, apiKey) else old(transportKey)
      ensures metricsMap == Store(old(metricsMap), prefix, AllUpdates(status, service, DefaultTags(env, status.id)))
      ensures metricRegistry == Register(old(metricRegistry), prefix, AllUpdates(status, service, DefaultTags(env, status.id)))
    {
      metricsPrefix := prefix;
      environment := env;
      statusId := status.id;
      defaultTags := DefaultTags(environment, statusId);
      UpdateDataDogTransport(transport, apiKey);
      UpdateAllMetricGroups(status, service);
    }
  }
}
