/**
 * The aggregation of mtr_exporter (main.go): per successful trace, the per-hop
 * counters, the route and destination change detector and its per-alias memory;
 * per failed trace, the failure counter.
 *
 * Counters are maps from their label tuple to a count (a missing label reads 0,
 * as a fresh Prometheus child does). The hop id label is the hop number itself and
 * the IP labels are the IP values, in place of their string renderings.
 */
module Exporter {
  import opened Wrappers
  import opened MtrNumbers
  import opened Mtr

  /** The hop addresses of one trace, in hop order. */
  type Route = seq<Option<Ip>>

  /** A configured target, `Host` in main.go:41-44. */
  datatype Target = Target(name: string, alias: string)

  /** main.go:46-50. */
  datatype TargetFeedback = TargetFeedback(target: string, alias: string, hosts: seq<Host>)

  /** Labels `alias, server, hop_id, hop_ip`. */
  datatype HopLabel = HopLabel(alias: string, server: string, hopId: int, hopIp: Option<Ip>)

  /** Labels `alias, server, hop_id` of `route_changes`. */
  datatype RouteLabel = RouteLabel(alias: string, server: string, hopId: int)

  /** Labels `alias, server, previous, current` of `destination_changes`. */
  datatype DestinationLabel = DestinationLabel(alias: string, server: string, previous: Option<Ip>, current: Option<Ip>)

  /** Labels `alias, server` of `failed`. */
  datatype FailLabel = FailLabel(alias: string, server: string)

  /** Which `Host` count a per-hop counter adds up. */
  datatype HopField = SentField | ReceivedField | DroppedField

  /** main.go:157-162. */
  function Min(a: int, b: int): (r: int)
    ensures r <= a && r <= b
    ensures r == a || r == b
  {
    if a > b then b else a
  }

  function Count<L(!new)>(c: map<L, int>, l: L): int {
    if l in c then c[l] else 0
  }

  /** `Inc()` on the child with label `l`. */
  function Inc<L(!new)>(c: map<L, int>, l: L): map<L, int> {
    c[l := Count(c, l) + 1]
  }

  /** `Inc` adds one to its own child and leaves every other child as it was. */
  lemma IncCounts<L(!new)>(c: map<L, int>, l: L)
    ensures Count(Inc(c, l), l) == Count(c, l) + 1
    ensures forall o :: o != l ==> Count(Inc(c, l), o) == Count(c, o)
  {
  }

  function Pick(h: Host, f: HopField): int {
    match f
    case SentField => h.sent
    case ReceivedField => h.received
    case DroppedField => h.dropped
  }

  function LabelOf(alias: string, server: string, h: Host): HopLabel {
    HopLabel(alias, server, h.hop, h.ip)
  }

  /** main.go:193-195: one `Add` per host for the first n hosts, in hop order. */
  function AddHosts(c: map<HopLabel, int>, alias: string, server: string, hosts: seq<Host>, n: nat, f: HopField): map<HopLabel, int>
    requires n <= |hosts|
  {
    if n == 0 then c
    else
      AddHost(AddHosts(c, alias, server, hosts, n - 1, f), alias, server, hosts[n - 1], f)
  }

  /** One `Add` of a host's count to its hop's counter. */
  function AddHost(c: map<HopLabel, int>, alias: string, server: string, h: Host, f: HopField): map<HopLabel, int> {
    c[LabelOf(alias, server, h) := Count(c, LabelOf(alias, server, h)) + Pick(h, f)]
  }

  /**
   * Whether the `Add` of count f on host h returns: a Prometheus counter's `Add`
   * panics on a negative value, and main.go:193-195 adds `Sent`, `Received` and
   * `Dropped` in that order, so the add of f is reached and returns exactly
   * when that count and every count added before it are non-negative.
   */
  predicate Completes(h: Host, f: HopField) {
    h.sent >= 0 && (f == SentField || (h.received >= 0 && (f == ReceivedField || h.dropped >= 0)))
  }

  /** Whether one of host h's three `Add`s panics. */
  predicate Panics(h: Host) {
    !Completes(h, DroppedField)
  }

  /** The `Add` of count f on host h, or nothing when it panics or is never reached. */
  function AddReached(c: map<HopLabel, int>, alias: string, server: string, h: Host, f: HopField): map<HopLabel, int> {
    if Completes(h, f) then AddHost(c, alias, server, h, f) else c
  }

  /**
   * The position of the first host one of whose `Add`s panics (main.go:193-195),
   * or the host count when there is none.
   */
  function FirstPanic(hosts: seq<Host>): (k: nat)
    ensures k <= |hosts|
  {
    if |hosts| == 0 || Panics(hosts[0]) then 0 else 1 + FirstPanic(hosts[1..])
  }

  /** Every host before `FirstPanic` has no negative count, and the host at it has one. */
  lemma {:induction false} FirstPanicIsFirst(hosts: seq<Host>)
    ensures forall i :: 0 <= i < FirstPanic(hosts) ==> !Panics(hosts[i])
    ensures FirstPanic(hosts) < |hosts| ==> Panics(hosts[FirstPanic(hosts)])
    decreases |hosts|
  {
    if |hosts| > 0 && !Panics(hosts[0]) {
      FirstPanicIsFirst(hosts[1..]);
      forall i | 0 <= i < FirstPanic(hosts)
        ensures !Panics(hosts[i])
      {
        if i > 0 {
          assert hosts[i] == hosts[1..][i - 1];
        }
      }
    }
  }

  /** Some host has a negative `Sent`, `Received` or `Dropped` exactly when `FirstPanic` falls inside the hosts. */
  lemma PanicExists(hosts: seq<Host>)
    ensures FirstPanic(hosts) < |hosts| <==>
      exists i :: 0 <= i < |hosts| && (hosts[i].sent < 0 || hosts[i].received < 0 || hosts[i].dropped < 0)
  {
    FirstPanicIsFirst(hosts);
    if FirstPanic(hosts) == |hosts| {
      forall i | 0 <= i < |hosts|
        ensures !Panics(hosts[i])
      {
        assert i < FirstPanic(hosts);
      }
    }
  }

  /** A host not past `FirstPanic` whose `Add`s all return is still before it. */
  lemma FirstPanicPast(hosts: seq<Host>, i: nat)
    requires i < |hosts| && i <= FirstPanic(hosts) && !Panics(hosts[i])
    ensures i < FirstPanic(hosts)
  {
    FirstPanicIsFirst(hosts);
  }

  /** A position not past `FirstPanic` that ends the hosts or holds a panicking host is it. */
  lemma FirstPanicAt(hosts: seq<Host>, i: nat)
    requires i <= FirstPanic(hosts) && (i == |hosts| || Panics(hosts[i]))
    ensures i == FirstPanic(hosts)
  {
    FirstPanicIsFirst(hosts);
  }

  /**
   * The counter of count f after main.go:191-196 runs up to its first panic:
   * the adds of every host before `FirstPanic`, then those of the panicking
   * host that are reached and return.
   */
  function AddsBeforePanic(c: map<HopLabel, int>, alias: string, server: string, hosts: seq<Host>, f: HopField): map<HopLabel, int> {
    var k := FirstPanic(hosts);
    if k < |hosts| then AddReached(AddHosts(c, alias, server, hosts, k, f), alias, server, hosts[k], f)
    else AddHosts(c, alias, server, hosts, k, f)
  }

  /** main.go:189-192: one route entry per host, its IP. */
  function RouteOf(hosts: seq<Host>): (r: Route)
    ensures |r| == |hosts|
    ensures forall i :: 0 <= i < |hosts| ==> r[i] == hosts[i].ip
  {
    seq(|hosts|, i requires 0 <= i < |hosts| => hosts[i].ip)
  }

  predicate StrictlyIncreasing(s: seq<int>) {
    forall i, j :: 0 <= i < j < |s| ==> s[i] < s[j]
  }

  /** The indices below n at which two routes of equal length differ, ascending. */
  function DifferingBefore(route: Route, last: Route, n: int): seq<int>
    requires |route| == |last| && n <= |route|
    decreases n
  {
    if n <= 0 then []
    else DifferingBefore(route, last, n - 1) + (if route[n - 1] != last[n - 1] then [n - 1] else [])
  }

  lemma {:induction false} DifferingBeforeIndices(route: Route, last: Route, n: int)
    requires |route| == |last| && n <= |route|
    ensures forall h :: h in DifferingBefore(route, last, n) <==> 0 <= h < n && route[h] != last[h]
    ensures StrictlyIncreasing(DifferingBefore(route, last, n))
    ensures forall k :: 0 <= k < |DifferingBefore(route, last, n)| ==> DifferingBefore(route, last, n)[k] < n
    decreases n
  {
    if n > 0 {
      DifferingBeforeIndices(route, last, n - 1);
    }
  }

  /**
   * main.go:200-211: the hop ids at which a route change is counted: the shorter
   * length when the lengths differ, otherwise every differing index except the
   * last (destination) one.
   */
  function RouteChangeHops(route: Route, last: Route): (r: seq<int>)
    ensures |route| != |last| ==> r == [Min(|route|, |last|)]
    ensures |route| == |last| ==> forall h :: h in r <==> 0 <= h < |route| - 1 && route[h] != last[h]
    ensures StrictlyIncreasing(r)
  {
    if |route| != |last| then [Min(|route|, |last|)]
    else DifferingBeforeIndices(route, last, |route| - 1); DifferingBefore(route, last, |route| - 1)
  }

  /** One `Inc` of `route_changes` per hop id in `hops`, in order. */
  function BumpRoute(c: map<RouteLabel, int>, alias: string, server: string, hops: seq<int>): map<RouteLabel, int>
    decreases |hops|
  {
    if |hops| == 0 then c
    else Inc(BumpRoute(c, alias, server, hops[..|hops| - 1]), RouteLabel(alias, server, hops[|hops| - 1]))
  }

  lemma BumpRouteNext(c: map<RouteLabel, int>, alias: string, server: string, hops: seq<int>, h: int)
    ensures BumpRoute(c, alias, server, hops + [h]) == Inc(BumpRoute(c, alias, server, hops), RouteLabel(alias, server, h))
  {
    assert (hops + [h])[..|hops|] == hops;
  }

  /** The change detector's state: its per-alias memory and its two counters. */
  datatype Detector = Detector(
    lastDest: map<string, Option<Ip>>,
    lastRoute: map<string, Route>,
    routeChanges: map<RouteLabel, int>,
    destinationChanges: map<DestinationLabel, int>)

  /** Go's `m[alias] != nil` for the destination map: a recorded, non-nil address. */
  predicate HasDestination(d: Detector, alias: string) {
    alias in d.lastDest && d.lastDest[alias].Some?
  }

  /** main.go:199-217 on a non-empty route. */
  function Detect(d: Detector, alias: string, server: string, route: Route): Detector
    requires |route| > 0
  {
    var destination := route[|route| - 1];
    var routeChanges :=
      if alias in d.lastRoute then BumpRoute(d.routeChanges, alias, server, RouteChangeHops(route, d.lastRoute[alias]))
      else d.routeChanges;
    var lastRoute := if alias in d.lastRoute then d.lastRoute[alias := route] else d.lastRoute;
    var destinationChanges :=
      if HasDestination(d, alias) && d.lastDest[alias] != destination
      then Inc(d.destinationChanges, DestinationLabel(alias, server, d.lastDest[alias], destination))
      else d.destinationChanges;
    Detector(d.lastDest[alias := destination], lastRoute, routeChanges, destinationChanges)
  }

  /** The exporter's state (main.go:22-34), without the `lost` counter and the latency summary. */
  class Exporter {
    var sent: map<HopLabel, int>
    var received: map<HopLabel, int>
    var dropped: map<HopLabel, int>
    var routeChanges: map<RouteLabel, int>
    var destinationChanges: map<DestinationLabel, int>
    var failed: map<FailLabel, int>
    var lastDest: map<string, Option<Ip>>
    var lastRoute: map<string, Route>

    function DetectorState(): Detector
      reads this
    {
      Detector(lastDest, lastRoute, routeChanges, destinationChanges)
    }

    /** `NewExporter` (main.go:58-144): every counter and both maps empty. */
    constructor ()
      ensures sent == map[] && received == map[] && dropped == map[] && failed == map[]
      ensures DetectorState() == Detector(map[], map[], map[], map[])
    {
      sent, received, dropped := map[], map[], map[];
      routeChanges, destinationChanges, failed := map[], map[], map[];
      lastDest, lastRoute := map[], map[];
    }

    /**
     * main.go:189-198: fill the route and add each host's counts to its hop's
     * counters. A Prometheus counter's `Add` panics on a negative value, so the
     * loop stops at the first host with a negative `Sent`, `Received` or
     * `Dropped`, after that host's route entry and those of its adds that come
     * before the panicking one. `stop` is that host's position, or the host
     * count when no `Add` panics.
     */
    method CountHops(tf: TargetFeedback) returns (route: array<Option<Ip>>, stop: nat)
      modifies this`sent, this`received, this`dropped
      ensures stop == FirstPanic(tf.hosts)
      ensures fresh(route) && (stop == |tf.hosts| ==> route[..] == RouteOf(tf.hosts))
      ensures sent == AddsBeforePanic(old(sent), tf.alias, tf.target, tf.hosts, SentField)
      ensures received == AddsBeforePanic(old(received), tf.alias, tf.target, tf.hosts, ReceivedField)
      ensures dropped == AddsBeforePanic(old(dropped), tf.alias, tf.target, tf.hosts, DroppedField)
    {
      route := new Option<Ip>[|tf.hosts|](_ => None);
      stop := 0;
      var panicked := false;
      while !panicked && stop < |tf.hosts|
        modifies route, this`sent, this`received, this`dropped
        invariant stop <= FirstPanic(tf.hosts)
        invariant forall k :: 0 <= k < stop ==> route[k] == tf.hosts[k].ip
        invariant !panicked ==> sent == AddHosts(old(sent), tf.alias, tf.target, tf.hosts, stop, SentField)
        invariant !panicked ==> received == AddHosts(old(received), tf.alias, tf.target, tf.hosts, stop, ReceivedField)
        invariant !panicked ==> dropped == AddHosts(old(dropped), tf.alias, tf.target, tf.hosts, stop, DroppedField)
        invariant panicked ==> stop < |tf.hosts| && Panics(tf.hosts[stop])
        invariant panicked ==>
          sent == AddReached(AddHosts(old(sent), tf.alias, tf.target, tf.hosts, stop, SentField), tf.alias, tf.target, tf.hosts[stop], SentField)
        invariant panicked ==>
          received == AddReached(AddHosts(old(received), tf.alias, tf.target, tf.hosts, stop, ReceivedField), tf.alias, tf.target, tf.hosts[stop], ReceivedField)
        invariant panicked ==>
          dropped == AddReached(AddHosts(old(dropped), tf.alias, tf.target, tf.hosts, stop, DroppedField), tf.alias, tf.target, tf.hosts[stop], DroppedField)
      {
        panicked := CountHop(tf, stop, route);
        if !panicked {
          FirstPanicPast(tf.hosts, stop);
          stop := stop + 1;
        }
      }
      FirstPanicAt(tf.hosts, stop);
    }

    /**
     * main.go:191-195 for host i: its route entry and its three `Add`s, in order,
     * the first of which that meets a negative count panics and adds nothing,
     * so the later ones are never made.
     */
    method CountHop(tf: TargetFeedback, i: nat, route: array<Option<Ip>>) returns (panicked: bool)
      requires i < |tf.hosts| == route.Length
      modifies route, this`sent, this`received, this`dropped
      ensures route[..] == old(route[..])[i := tf.hosts[i].ip]
      ensures panicked <==> tf.hosts[i].sent < 0 || tf.hosts[i].received < 0 || tf.hosts[i].dropped < 0
      ensures sent == AddReached(old(sent), tf.alias, tf.target, tf.hosts[i], SentField)
      ensures received == AddReached(old(received), tf.alias, tf.target, tf.hosts[i], ReceivedField)
      ensures dropped == AddReached(old(dropped), tf.alias, tf.target, tf.hosts[i], DroppedField)
    {
      var host := tf.hosts[i];
      route[i] := host.ip;
      panicked := host.sent < 0;
      if panicked {
        return;
      }
      sent := AddHost(sent, tf.alias, tf.target, host, SentField);
      panicked := host.received < 0;
      if panicked {
        return;
      }
      received := AddHost(received, tf.alias, tf.target, host, ReceivedField);
      panicked := host.dropped < 0;
      if panicked {
        return;
      }
      dropped := AddHost(dropped, tf.alias, tf.target, host, DroppedField);
    }

    /** main.go:199-213. */
    method CountRouteChange(alias: string, server: string, route: seq<Option<Ip>>)
      modifies this`routeChanges, this`lastRoute
      ensures alias in old(lastRoute) ==>
        routeChanges == BumpRoute(old(routeChanges), alias, server, RouteChangeHops(route, old(lastRoute)[alias]))
        && lastRoute == old(lastRoute)[alias := route]
      ensures alias !in old(lastRoute) ==> routeChanges == old(routeChanges) && lastRoute == old(lastRoute)
    {
      if alias in lastRoute {
        var last := lastRoute[alias];
        if |route| != |last| {
          routeChanges := Inc(routeChanges, RouteLabel(alias, server, Min(|route|, |last|)));
          BumpRouteNext(old(routeChanges), alias, server, [], Min(|route|, |last|));
        } else {
          CountDifferingHops(alias, server, route, last);
        }
        lastRoute := lastRoute[alias := route];
      }
    }

    /** main.go:204-210: one change per differing hop before the last. */
    method CountDifferingHops(alias: string, server: string, route: Route, last: Route)
      requires |route| == |last|
      modifies this`routeChanges
      ensures routeChanges == BumpRoute(old(routeChanges), alias, server, DifferingBefore(route, last, |route| - 1))
    {
      var m := Min(|route|, |last|);
      var i := 0;
      ghost var done := [];
      while i < m - 1
        invariant 0 <= i && (i <= m - 1 || i == 0)
        invariant done == DifferingBefore(route, last, i)
        invariant routeChanges == BumpRoute(old(routeChanges), alias, server, done)
      {
        if route[i] != last[i] {
          BumpRouteNext(old(routeChanges), alias, server, done, i);
          routeChanges := Inc(routeChanges, RouteLabel(alias, server, i));
          done := done + [i];
        }
        i := i + 1;
      }
    }

    /**
     * The loop body of `collect` for one feedback (main.go:188-218). Go panics
     * there in two places, and either panic ends the process: an empty host list
     * at `tf.Hosts[-1]`, before anything changes, and a counter's `Add` at the
     * first host with a negative `Sent`, `Received` or `Dropped`, after the adds
     * before it. The panic is returned; the counters hold the adds made before
     * it and the detector is untouched.
     */
    method Collect(tf: TargetFeedback) returns (panicked: bool)
      modifies this`sent, this`received, this`dropped, this`routeChanges, this`destinationChanges, this`lastDest, this`lastRoute
      ensures panicked <==> (|tf.hosts| == 0 ||
        exists i :: 0 <= i < |tf.hosts| && (tf.hosts[i].sent < 0 || tf.hosts[i].received < 0 || tf.hosts[i].dropped < 0))
      ensures sent == AddsBeforePanic(old(sent), tf.alias, tf.target, tf.hosts, SentField)
      ensures received == AddsBeforePanic(old(received), tf.alias, tf.target, tf.hosts, ReceivedField)
      ensures dropped == AddsBeforePanic(old(dropped), tf.alias, tf.target, tf.hosts, DroppedField)
      ensures panicked ==> DetectorState() == old(DetectorState())
      ensures !panicked ==>
        && DetectorState() == Detect(old(DetectorState()), tf.alias, tf.target, RouteOf(tf.hosts))
        && FirstPanic(tf.hosts) == |tf.hosts|
    {
      if |tf.hosts| == 0 {
        return true;
      }
      var destination := tf.hosts[|tf.hosts| - 1].ip;
      var route, stop := CountHops(tf);
      PanicExists(tf.hosts);
      panicked := stop < |tf.hosts|;
      if panicked {
        return;
      }
      assert route[..] == RouteOf(tf.hosts);
      CountRouteChange(tf.alias, tf.target, route[..]);
      CountDestinationChange(tf.alias, tf.target, destination);
    }

    /** main.go:214-217: a change from a recorded, non-nil destination counts once; the destination is recorded. */
    method CountDestinationChange(alias: string, server: string, destination: Option<Ip>)
      modifies this`destinationChanges, this`lastDest
      ensures destinationChanges ==
        if alias in old(lastDest) && old(lastDest)[alias].Some? && old(lastDest)[alias] != destination
        then Inc(old(destinationChanges), DestinationLabel(alias, server, old(lastDest)[alias], destination))
        else old(destinationChanges)
      ensures lastDest == old(lastDest)[alias := destination]
    {
      if alias in lastDest && lastDest[alias].Some? && lastDest[alias] != destination {
        destinationChanges := Inc(destinationChanges, DestinationLabel(alias, server, lastDest[alias], destination));
      }
      lastDest := lastDest[alias := destination];
    }

    /** main.go:176: a failed run counts once for its alias and target name. */
    method CountFailure(host: Target)
      modifies this`failed
      ensures failed == Inc(old(failed), FailLabel(host.alias, host.name))
    {
      failed := Inc(failed, FailLabel(host.alias, host.name));
    }

    /**
     * One target's work in a cycle, sequentially: `worker` runs `trace`
     * (main.go:234-253), and then either the aggregation takes the feedback or
     * the failure is counted (main.go:173-177).
     */
    method Observe(host: Target, output: seq<byte>, execError: Option<string>, parseIp: seq<byte> -> Option<Ip>)
      returns (panicked: bool)
      modifies this
      ensures
        var (hosts, error) := RunResult(1, output, execError, parseIp);
        if error.Some? then
          && !panicked
          && failed == Inc(old(failed), FailLabel(host.alias, host.name))
          && sent == old(sent) && received == old(received) && dropped == old(dropped)
          && DetectorState() == old(DetectorState())
        else
          && failed == old(failed)
          && (panicked <==> (|hosts| == 0 ||
                exists i :: 0 <= i < |hosts| && (hosts[i].sent < 0 || hosts[i].received < 0 || hosts[i].dropped < 0)))
          && sent == AddsBeforePanic(old(sent), host.alias, host.name, hosts, SentField)
          && received == AddsBeforePanic(old(received), host.alias, host.name, hosts, ReceivedField)
          && dropped == AddsBeforePanic(old(dropped), host.alias, host.name, hosts, DroppedField)
          && (panicked ==> DetectorState() == old(DetectorState()))
          && (!panicked ==>
                && DetectorState() == Detect(old(DetectorState()), host.alias, host.name, RouteOf(hosts))
                && FirstPanic(hosts) == |hosts|)
    {
      var feedback, error := Trace(host, output, execError, parseIp);
      if error.Some? {
        CountFailure(host);
        panicked := false;
      } else {
        panicked := Collect(feedback.value);
      }
    }
  }

  /**
   * main.go:234-248: run mtr with one report cycle and send the feedback only
   * when the run has no error.
   */
  method Trace(host: Target, output: seq<byte>, execError: Option<string>, parseIp: seq<byte> -> Option<Ip>)
    returns (feedback: Option<TargetFeedback>, error: Option<MtrError>)
    ensures error == RunResult(1, output, execError, parseIp).1
    ensures feedback.Some? <==> error.None?
    ensures feedback.Some? ==>
      feedback.value == TargetFeedback(host.name, host.alias, RunResult(1, output, execError, parseIp).0)
  {
    var a := new MTR.New(1, output, execError, parseIp);
    if a.error.None? {
      feedback := Some(TargetFeedback(host.name, host.alias, a.hosts));
    } else {
      feedback := None;
    }
    error := a.error;
  }
}
