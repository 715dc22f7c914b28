/**
 * The live-metrics panel of components/Campaigns/InsightsStream.tsx: the
 * snapshot shown, the connection indicator, the server-sent-events
 * connection lifecycle that feeds them, and the projection of a snapshot
 * onto the four metric cards.
 */
module InsightsStream {
  import opened Wrappers
  import opened Js

  /** The transport-health indicator. */
  datatype ConnectionState = Connecting | Live | Reconnecting | Offline

  /** A campaign-insight snapshot as decoded from JSON; every field is whatever
      JSON value the message carried. */
  datatype Insight = Insight(
    impressions: JsValue,
    clicks: JsValue,
    conversions: JsValue,
    spend: JsValue,
    ctr: JsValue,
    cpc: JsValue,
    conversionRate: JsValue,
    timestamp: JsValue)

  /** What `JSON.parse(event.data)` gave: a syntax error, `null`, a falsy
      primitive (`0`, `false`, `""`), or a value whose fields can be read (an
      object; a truthy primitive or an array reads as one with every field
      undefined). */
  datatype Payload =
    | Malformed
    | ParsedNull
    | ParsedFalsy
    | Parsed(insight: Insight)

  // ---------------------------------------------------------------------------
  // Metric projection
  // ---------------------------------------------------------------------------

  datatype MetricKey = Impressions | Clicks | Conversions | Spend

  /** An entry of `metricLayout`: which field, its caption, and whether it carries
      the currency formatter (icons and colours are presentation only). */
  datatype MetricItem = MetricItem(key: MetricKey, caption: string, currency: bool)

  /** The two `Intl.NumberFormat` formatters, kept abstract. */
  datatype Formatters = Formatters(number: real -> string, currency: real -> string)

  /** A metric card: key and caption of its layout entry and the shown value. */
  datatype MetricView = MetricView(key: MetricKey, caption: string, value: string)

  const NotANumber: string := "\U{2014}"

  const MetricLayout: seq<MetricItem> := [
    MetricItem(Impressions, "Impressions", false),
    MetricItem(Clicks, "Clicks", false),
    MetricItem(Conversions, "Conversions", false),
    MetricItem(Spend, "Spend", true)
  ]

  /** `insights[metric.key]`. */
  function Field(insight: Insight, key: MetricKey): JsValue {
    match key
    case Impressions => insight.impressions
    case Clicks => insight.clicks
    case Conversions => insight.conversions
    case Spend => insight.spend
  }

  /** The card value: the item's own formatter if it has one, else the compact
      number formatter, and a dash for a non-numeric field. */
  function CardValue(item: MetricItem, insight: Insight, fmt: Formatters): string {
    match Field(insight, item.key)
    case Num(n) => if item.currency then fmt.currency(n) else fmt.number(n)
    case _ => NotANumber
  }

  /** `metricLayout.map(...)`: one card per layout entry, in layout order. */
  function ProjectLayout(layout: seq<MetricItem>, insight: Insight, fmt: Formatters): (cards: seq<MetricView>)
    ensures |cards| == |layout|
    ensures forall i :: 0 <= i < |cards| ==>
      cards[i] == MetricView(layout[i].key, layout[i].caption, CardValue(layout[i], insight, fmt))
  {
    if layout == [] then []
    else [MetricView(layout[0].key, layout[0].caption, CardValue(layout[0], insight, fmt))]
         + ProjectLayout(layout[1..], insight, fmt)
  }

  /** `insightMetrics`: null without a snapshot, else the four cards. */
  function InsightMetrics(insights: Option<Insight>, fmt: Formatters): (cards: Option<seq<MetricView>>)
    ensures cards.None? <==> insights.None?
    ensures insights.Some? ==>
      var ins := insights.value;
      var cs := cards.value;
      |cs| == 4
      && cs[0].key == Impressions && cs[1].key == Clicks && cs[2].key == Conversions && cs[3].key == Spend
      && cs[0].caption == "Impressions" && cs[1].caption == "Clicks"
      && cs[2].caption == "Conversions" && cs[3].caption == "Spend"
      && (forall i :: 0 <= i < 4 ==> (!Field(ins, cs[i].key).Num? ==> cs[i].value == "\U{2014}"))
      && (forall i :: 0 <= i < 3 ==> Field(ins, cs[i].key).Num? ==> cs[i].value == fmt.number(Field(ins, cs[i].key).n))
      && (ins.spend.Num? ==> cs[3].value == fmt.currency(ins.spend.n))
  {
    match insights
    case None => None
    case Some(ins) => Some(ProjectLayout(MetricLayout, ins, fmt))
  }

  // ---------------------------------------------------------------------------
  // Indicator labels and stream URL
  // ---------------------------------------------------------------------------

  /** `statusConfig[status].label`; the record has an entry for every state. */
  function StatusLabel(state: ConnectionState): string {
    match state
    case Connecting => "Connecting"
    case Live => "Live"
    case Reconnecting => "Reconnecting"
    case Offline => "Offline"
  }

  /** Each state has its own label, so the badge always tells them apart. */
  lemma StatusLabelsDistinct(s: ConnectionState, t: ConnectionState)
    requires s != t
    ensures StatusLabel(s) != StatusLabel(t)
  {
  }

  /** `process.env.NEXT_PUBLIC_API_URL` in a string concatenation: an unset
      variable reads as "undefined". */
  function ApiBase(env: Option<string>): string {
    match env
    case Some(base) => base
    case None => "undefined"
  }

  const StreamPrefix: string := "/campaigns/"
  const StreamSuffix: string := "/insights/stream"

  /** The stream endpoint of a campaign: base, "/campaigns/", the id, "/insights/stream". */
  function StreamUrl(env: Option<string>, id: string): (url: string)
    ensures |url| == |ApiBase(env)| + |StreamPrefix| + |id| + |StreamSuffix|
    ensures url[..|ApiBase(env)|] == ApiBase(env)
    ensures url[|ApiBase(env)|..|ApiBase(env)| + |StreamPrefix|] == "/campaigns/"
    ensures url[|ApiBase(env)| + |StreamPrefix|..|url| - |StreamSuffix|] == id
    ensures url[|url| - |StreamSuffix|..] == "/insights/stream"
  {
    ApiBase(env) + StreamPrefix + id + StreamSuffix
  }

  /** Under one base, different campaigns stream from different URLs. */
  lemma StreamUrlInjective(env: Option<string>, id1: string, id2: string)
    requires StreamUrl(env, id1) == StreamUrl(env, id2)
    ensures id1 == id2
  {
  }

  // ---------------------------------------------------------------------------
  // Connection lifecycle
  // ---------------------------------------------------------------------------

  /** An EventSource the component created: its URL, whether it is still open
      (not yet closed), and the run of the effect whose closure created it. */
  datatype Connection = Connection(url: string, open: bool, activation: nat)

  /** The closure of one run of the effect: its URL, the connection its
      handlers were attached to, the connection its `let eventSource` holds
      now, how many of its reconnect timers are still pending, and whether its
      cleanup has yet to run. */
  datatype Activation = Activation(url: string, first: nat, binding: nat, pendingTimers: nat, active: bool)

  /** What the handlers of run `a` keep true of the connections it created. */
  ghost predicate ActivationInvariant(conns: seq<Connection>, acts: seq<Activation>, a: nat)
    requires a < |acts|
  {
    var act := acts[a];
    act.first < |conns| && act.binding < |conns|
    && conns[act.first].activation == a && conns[act.binding].activation == a
    // a run creates no connection besides the one with handlers and one replacement
    && (forall c :: 0 <= c < |conns| && conns[c].activation == a ==> c == act.first || c == act.binding)
    // of its connections only the bound one may be open
    && (forall c :: 0 <= c < |conns| && conns[c].activation == a && conns[c].open ==> c == act.binding)
    // a timer is pending only after the handled connection failed and was closed
    && act.pendingTimers <= 1
    && (act.pendingTimers == 1 ==> act.binding == act.first && !conns[act.first].open)
    // once replaced, the handled connection stays closed and no timer is left
    && (act.binding != act.first ==> !conns[act.first].open && act.pendingTimers == 0)
    // the handled connection is open only while its run is current
    && (conns[act.first].open ==> act.active)
  }

  /** The invariant of the component's connection bookkeeping. */
  ghost predicate WellFormed(conns: seq<Connection>, acts: seq<Activation>, mounted: bool)
  {
    |acts| >= 1
    && (forall c :: 0 <= c < |conns| ==>
          conns[c].activation < |acts| && conns[c].url == acts[conns[c].activation].url)
    && (forall a :: 0 <= a < |acts| ==> ActivationInvariant(conns, acts, a))
    && (forall a :: 0 <= a < |acts| - 1 ==> !acts[a].active)
    && acts[|acts| - 1].active == mounted
  }

  /** The indices of the connections that are open. */
  function OpenConnections(conns: seq<Connection>): set<nat> {
    set c: nat | c < |conns| && conns[c].open
  }

  /** The connections the first `n` runs hold in their `eventSource` variable. */
  function BoundConnections(acts: seq<Activation>, n: nat): (bound: set<nat>)
    requires n <= |acts|
    ensures |bound| <= n
    ensures forall a :: 0 <= a < n ==> acts[a].binding in bound
  {
    if n == 0 then {} else BoundConnections(acts, n - 1) + {acts[n - 1].binding}
  }

  /** Within one run of the effect at most one connection is open. */
  lemma AtMostOneOpenPerActivation(conns: seq<Connection>, acts: seq<Activation>, mounted: bool, c1: nat, c2: nat)
    requires WellFormed(conns, acts, mounted)
    requires c1 < |conns| && c2 < |conns| && conns[c1].open && conns[c2].open
    requires conns[c1].activation == conns[c2].activation
    ensures c1 == c2
  {
    assert ActivationInvariant(conns, acts, conns[c1].activation);
  }

  /** Every open connection is the one some run currently holds, so there are
      never more open connections than runs of the effect. */
  lemma OpenConnectionsBound(conns: seq<Connection>, acts: seq<Activation>, mounted: bool)
    requires WellFormed(conns, acts, mounted)
    ensures OpenConnections(conns) <= BoundConnections(acts, |acts|)
    ensures |OpenConnections(conns)| <= |acts|
  {
    var bound := BoundConnections(acts, |acts|);
    forall c | c in OpenConnections(conns) ensures c in bound {
      assert ActivationInvariant(conns, acts, conns[c].activation);
    }
    SubsetCardinality(OpenConnections(conns), bound);
  }

  /** While the id has never changed, at most one connection is open at any time. */
  lemma SingleRunAtMostOneOpen(conns: seq<Connection>, acts: seq<Activation>, mounted: bool)
    requires WellFormed(conns, acts, mounted) && |acts| == 1
    ensures |OpenConnections(conns)| <= 1
  {
    OpenConnectionsBound(conns, acts, mounted);
  }

  lemma {:induction false} SubsetCardinality(a: set<nat>, b: set<nat>)
    requires a <= b
    ensures |a| <= |b|
  {
    if a != {} {
      var x :| x in a;
      SubsetCardinality(a - {x}, b - {x});
    }
  }

  /** Run `a`'s handlers see an error on connection `c`: the run's binding is
      `c`, and closing it and counting one pending timer keeps the invariant. */
  lemma ErrorKeepsInvariant(conns: seq<Connection>, acts: seq<Activation>, mounted: bool, c: nat)
    requires WellFormed(conns, acts, mounted)
    requires c < |conns| && conns[c].open && acts[conns[c].activation].first == c
    ensures acts[conns[c].activation].binding == c
    ensures var a := conns[c].activation;
            WellFormed(conns[c := conns[c].(open := false)],
                       acts[a := acts[a].(pendingTimers := acts[a].pendingTimers + 1)], mounted)
  {
    var a := conns[c].activation;
    assert ActivationInvariant(conns, acts, a);
    var conns', acts' := conns[c := conns[c].(open := false)], acts[a := acts[a].(pendingTimers := acts[a].pendingTimers + 1)];
    forall b | 0 <= b < |acts'| ensures ActivationInvariant(conns', acts', b) {
      assert ActivationInvariant(conns, acts, b);
    }
  }

  /** A pending timer of run `a` fires: appending its open replacement
      connection and binding it keeps the invariant. */
  lemma TimerKeepsInvariant(conns: seq<Connection>, acts: seq<Activation>, mounted: bool, a: nat)
    requires WellFormed(conns, acts, mounted)
    requires a < |acts| && acts[a].pendingTimers > 0
    // the replacement is not the connection the run's handlers are attached to
    ensures acts[a].first < |conns|
    ensures WellFormed(conns + [Connection(acts[a].url, true, a)],
                       acts[a := acts[a].(binding := |conns|, pendingTimers := acts[a].pendingTimers - 1)], mounted)
  {
    assert ActivationInvariant(conns, acts, a);
    var k := |conns|;
    var conns', acts' := conns + [Connection(acts[a].url, true, a)],
                         acts[a := acts[a].(binding := k, pendingTimers := acts[a].pendingTimers - 1)];
    forall c | 0 <= c < |conns'|
      ensures conns'[c].activation < |acts'| && conns'[c].url == acts'[conns'[c].activation].url
    {
      if c < k { assert conns'[c] == conns[c]; }
    }
    forall b | 0 <= b < |acts'| ensures ActivationInvariant(conns', acts', b) {
      assert ActivationInvariant(conns, acts, b);
      forall c | 0 <= c < k ensures conns'[c] == conns[c] { }
    }
  }

  /** The cleanup of the current (last) run closes its bound connection and
      marks it inactive; the invariant holds of an unmounted component. */
  lemma CleanupKeepsInvariant(conns: seq<Connection>, acts: seq<Activation>)
    requires WellFormed(conns, acts, true)
    ensures acts[|acts| - 1].binding < |conns|
    ensures var last := |acts| - 1;
            var b := acts[last].binding;
            WellFormed(conns[b := conns[b].(open := false)], acts[last := acts[last].(active := false)], false)
  {
    var last := |acts| - 1;
    assert ActivationInvariant(conns, acts, last);
    var b := acts[last].binding;
    var conns', acts' := conns[b := conns[b].(open := false)], acts[last := acts[last].(active := false)];
    forall a | 0 <= a < |acts'| ensures ActivationInvariant(conns', acts', a) {
      assert ActivationInvariant(conns, acts, a);
    }
  }

  /** A new run of the effect after the previous one was cleaned up: one
      fresh connection with its handlers, opened to `url`. */
  lemma ActivateKeepsInvariant(conns: seq<Connection>, acts: seq<Activation>, url: string)
    requires WellFormed(conns, acts, false)
    ensures WellFormed(conns + [Connection(url, true, |acts|)],
                       acts + [Activation(url, |conns|, |conns|, 0, true)], true)
  {
    var k, n := |conns|, |acts|;
    var conns', acts' := conns + [Connection(url, true, n)], acts + [Activation(url, k, k, 0, true)];
    forall c | 0 <= c < |conns'|
      ensures conns'[c].activation < |acts'| && conns'[c].url == acts'[conns'[c].activation].url
    {
      if c < k { assert conns'[c] == conns[c]; }
    }
    forall a | 0 <= a < |acts'| ensures ActivationInvariant(conns', acts', a) {
      if a < n {
        assert ActivationInvariant(conns, acts, a);
        assert acts'[a] == acts[a];
        forall c | 0 <= c < k ensures conns'[c] == conns[c] { }
      }
    }
  }

  /**
   * The component: its three state cells, whether it is mounted, every
   * EventSource it has created and every run of its effect.
   */
  class LiveMetrics {
    /** `process.env.NEXT_PUBLIC_API_URL`. */
    const env: Option<string>
    /** The `id` prop. */
    var id: string
    var insights: Option<Insight>
    var status: ConnectionState
    var lastUpdated: JsValue
    /** Whether the component is mounted; React drops state updates after unmount. */
    var mounted: bool
    /** Every EventSource created, in creation order. */
    var connections: seq<Connection>
    /** Every run of the effect, in order; the last is the current one. */
    var activations: seq<Activation>

    ghost predicate Valid()
      reads this
    {
      WellFormed(connections, activations, mounted)
      && (mounted ==> activations[|activations| - 1].url == StreamUrl(env, id))
    }

    /** Connection `c` is open and carries the handlers of its run, so its
        events reach them. */
    predicate Delivers(c: nat)
      reads this
      requires Valid()
    {
      c < |connections| && connections[c].open && activations[connections[c].activation].first == c
    }

    /** First render and first run of the effect. */
    constructor (id: string, initialInsights: Option<Insight>, env: Option<string>)
      ensures Valid()
      ensures this.id == id && this.env == env && mounted
      ensures status == Connecting
      ensures insights == initialInsights
      ensures lastUpdated == if initialInsights.Some? && !Nullish(initialInsights.value.timestamp)
                             then initialInsights.value.timestamp else Null
      // the effect opens exactly one connection, to the campaign's stream URL
      ensures connections == [Connection(StreamUrl(env, id), true, 0)]
      ensures activations == [Activation(StreamUrl(env, id), 0, 0, 0, true)]
    {
      this.id := id;
      this.env := env;
      insights := initialInsights;
      status := Connecting;
      var timestamp := if initialInsights.Some? then initialInsights.value.timestamp else Undefined;
      lastUpdated := Coalesce(timestamp, Null);
      mounted := true;
      var url := StreamUrl(env, id);
      connections := [Connection(url, true, 0)];
      activations := [Activation(url, 0, 0, 0, true)];
    }

    /** `onopen`: the indicator goes live, whether or not a message has arrived. */
    method OnOpen(c: nat)
      requires Valid()
      modifies this
      ensures Valid()
      ensures status == if old(Delivers(c)) then Live else old(status)
      ensures insights == old(insights) && lastUpdated == old(lastUpdated)
      ensures connections == old(connections) && activations == old(activations)
      ensures id == old(id) && mounted == old(mounted)
    {
      if Delivers(c) {
        status := Live;
      }
    }

    /** `onmessage`, with `JSON.parse` already applied and `now` the current time. */
    method OnMessage(c: nat, payload: Payload, now: string)
      requires Valid()
      modifies this
      ensures Valid()
      // a message the handlers do not see, or one that does not parse, changes nothing
      ensures !old(Delivers(c)) || payload.Malformed? ==>
        insights == old(insights) && lastUpdated == old(lastUpdated) && status == old(status)
      // `null` is stored, then reading its timestamp throws and the rest is skipped
      ensures old(Delivers(c)) && payload.ParsedNull? ==>
        insights == None && lastUpdated == old(lastUpdated) && status == old(status)
      ensures old(Delivers(c)) && payload.ParsedFalsy? ==>
        insights == None && lastUpdated == Str(now) && status == Live
      // a snapshot replaces the old one wholesale; its timestamp, else now, is the update time
      ensures old(Delivers(c)) && payload.Parsed? ==>
        insights == Some(payload.insight) && status == Live
        && lastUpdated == if Nullish(payload.insight.timestamp) then Str(now) else payload.insight.timestamp
      ensures connections == old(connections) && activations == old(activations)
      ensures id == old(id) && mounted == old(mounted)
    {
      if Delivers(c) {
        match payload
        case Malformed =>
        case ParsedNull =>
          insights := None;
        case ParsedFalsy =>
          insights := None;
          lastUpdated := Str(now);
          status := Live;
        case Parsed(insight) =>
          insights := Some(insight);
          lastUpdated := Coalesce(insight.timestamp, Str(now));
          status := Live;
      }
    }

    /** `onerror`: reconnecting, close the bound connection, schedule one timer. */
    method OnError(c: nat)
      requires Valid()
      modifies this
      ensures Valid()
      ensures !old(Delivers(c)) ==>
        status == old(status) && connections == old(connections) && activations == old(activations)
      ensures old(Delivers(c)) ==>
        var a := old(connections[c].activation);
        // the connection closed is the run's current binding, which is the failed one
        old(activations[a].binding) == c
        && status == Reconnecting
        && connections == old(connections)[c := old(connections[c]).(open := false)]
        && activations == old(activations)[a := old(activations[a]).(pendingTimers := old(activations[a].pendingTimers) + 1)]
      ensures insights == old(insights) && lastUpdated == old(lastUpdated)
      ensures id == old(id) && mounted == old(mounted)
    {
      if Delivers(c) {
        var a := connections[c].activation;
        ErrorKeepsInvariant(connections, activations, mounted, c);
        status := Reconnecting;
        var b := activations[a].binding;
        connections := connections[b := connections[b].(open := false)];
        activations := activations[a := activations[a].(pendingTimers := activations[a].pendingTimers + 1)];
      }
    }

    /** A pending reconnect timer of run `a` fires: offline, and a new connection
        with no handlers becomes the run's binding. */
    method OnTimer(a: nat)
      requires Valid() && a < |activations| && activations[a].pendingTimers > 0
      modifies this
      ensures Valid()
      ensures status == if old(mounted) then Offline else old(status)
      ensures connections == old(connections) + [Connection(old(activations[a].url), true, a)]
      ensures activations == old(activations)[a := old(activations[a]).(binding := |old(connections)|,
                                                     pendingTimers := old(activations[a].pendingTimers) - 1)]
      // nothing the new connection delivers reaches a handler
      ensures !Delivers(|connections| - 1)
      ensures insights == old(insights) && lastUpdated == old(lastUpdated)
      ensures id == old(id) && mounted == old(mounted)
    {
      TimerKeepsInvariant(connections, activations, mounted, a);
      var k := |connections|;
      var conns' := connections + [Connection(activations[a].url, true, a)];
      var acts' := activations[a := activations[a].(binding := k, pendingTimers := activations[a].pendingTimers - 1)];
      assert WellFormed(conns', acts', mounted);
      assert conns'[k].activation == a && acts'[a].first != k;
      assert acts'[|acts'| - 1].url == activations[|activations| - 1].url;
      if mounted {
        status := Offline;
      }
      connections := conns';
      activations := acts';
    }

    /** Unmount: the current run's cleanup closes its bound connection; a pending timer stays. */
    method Unmount()
      requires Valid() && mounted
      modifies this
      ensures Valid() && !mounted
      ensures var last := |old(activations)| - 1;
              var b := old(activations[last].binding);
              b < |old(connections)|
              && connections == old(connections)[b := old(connections[b]).(open := false)]
              && activations == old(activations)[last := old(activations[last]).(active := false)]
      ensures insights == old(insights) && status == old(status) && lastUpdated == old(lastUpdated)
      ensures id == old(id)
    {
      CleanupCurrent();
      mounted := false;
    }

    /** A new `id` prop: the current run is cleaned up and the effect runs again
        for the new URL; the state cells keep their values. An unchanged id
        does not re-run the effect. */
    method ChangeId(newId: string)
      requires Valid() && mounted
      modifies this
      ensures Valid() && mounted && id == newId
      ensures newId == old(id) ==> connections == old(connections) && activations == old(activations)
      ensures newId != old(id) ==>
        var last := |old(activations)| - 1;
        var b := old(activations[last].binding);
        var url := StreamUrl(env, newId);
        b < |old(connections)|
        && connections == old(connections)[b := old(connections[b]).(open := false)] + [Connection(url, true, |old(activations)|)]
        && activations == old(activations)[last := old(activations[last]).(active := false)]
                          + [Activation(url, |old(connections)|, |old(connections)|, 0, true)]
      ensures insights == old(insights) && status == old(status) && lastUpdated == old(lastUpdated)
    {
      if newId != id {
        CleanupCurrent();
        id := newId;
        var url := StreamUrl(env, newId);
        ActivateKeepsInvariant(connections, activations, url);
        var k, a := |connections|, |activations|;
        connections := connections + [Connection(url, true, a)];
        activations := activations + [Activation(url, k, k, 0, true)];
      }
    }

    /** `return () => eventSource.close()` of the current run. */
    method CleanupCurrent()
      requires Valid() && mounted
      modifies this`connections, this`activations
      ensures WellFormed(connections, activations, false)
      ensures old(activations[|activations| - 1].binding) < |old(connections)|
      ensures var last := |old(activations)| - 1;
              var b := old(activations[last].binding);
              connections == old(connections)[b := old(connections[b]).(open := false)]
              && activations == old(activations)[last := old(activations[last]).(active := false)]
    {
      CleanupKeepsInvariant(connections, activations);
      var last := |activations| - 1;
      var b := activations[last].binding;
      connections := connections[b := connections[b].(open := false)];
      activations := activations[last := activations[last].(active := false)];
    }
  }
}
